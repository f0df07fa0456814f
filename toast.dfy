/** The toast store (use-toast): a reducer over the toasts on screen, and the
    module-level state around it — the id counter, the removal timers and
    the listeners that mirror the state into components. */
module Toast {
  import opened JsValues
  import opened Ordering

  /** At most one toast is shown at a time. */
  const TOAST_LIMIT: nat := 1

  /** `Number.MAX_SAFE_INTEGER`, 2^53 - 1. */
  const MAX_SAFE_INTEGER: nat := 9007199254740991

  /** A toast: its own properties, in order. */
  datatype Toast = Toast(fields: seq<(string, Value)>) {
    function Id(): Value {
      Lookup(fields, "id")
    }
  }

  datatype State = State(toasts: seq<Toast>)

  /** The actions the store dispatches; any other `type` is `OtherAction`. */
  datatype Action =
    | AddToast(toast: Toast)
    | UpdateToast(patch: Toast)
    | RemoveToast(toastId: Value)
    | OtherAction(kind: string)

  /** An object literal has each property name once. */
  ghost predicate DistinctKeys(fields: seq<(string, Value)>) {
    forall j, k :: 0 <= j < k < |fields| ==> fields[j].0 != fields[k].0
  }

  // ---------------------------------------------------------------------------
  // The reducer

  /** `t.id === patch.id ? { ...t, ...patch } : t` */
  function Merge(t: Toast, patch: Toast): Toast {
    if StrictEquals(t.Id(), patch.Id()) then Toast(Extend(t.fields, patch.fields)) else t
  }

  /** `(t) => t.id !== toastId` */
  function Survives(toastId: Value): Toast -> bool {
    (t: Toast) => !StrictEquals(t.Id(), toastId)
  }

  /** `reducer(state, action)` */
  function Reduce(state: State, action: Action): (r: State)
    ensures action.AddToast? ==>
      1 <= |r.toasts| <= TOAST_LIMIT && r.toasts[0] == action.toast && r.toasts[1..] == state.toasts[..|r.toasts| - 1]
    ensures action.UpdateToast? ==> |r.toasts| == |state.toasts|
    ensures action.OtherAction? ==> r == state
    ensures |state.toasts| <= TOAST_LIMIT ==> |r.toasts| <= TOAST_LIMIT
  {
    match action
    case AddToast(t) =>
      var n := if |state.toasts| + 1 < TOAST_LIMIT then |state.toasts| + 1 else TOAST_LIMIT;
      State(([t] + state.toasts)[..n])
    case UpdateToast(patch) =>
      State(seq(|state.toasts|, i requires 0 <= i < |state.toasts| => Merge(state.toasts[i], patch)))
    case RemoveToast(toastId) =>
      if Truthy(toastId) then State(Keep(state.toasts, Survives(toastId)))
      else if state.toasts == [] then state
      else State(state.toasts[1..])
    case OtherAction(_) => state
  }

  /** Updating keeps the list's length and order; a toast whose id differs is
      untouched; the toast with that id takes the patch's properties and keeps
      every property the patch does not name. */
  lemma {:induction false} UpdateMerges(state: State, patch: Toast, i: nat, key: string)
    requires i < |state.toasts|
    requires DistinctKeys(patch.fields)
    ensures |Reduce(state, UpdateToast(patch)).toasts| == |state.toasts|
    ensures !StrictEquals(state.toasts[i].Id(), patch.Id()) ==>
      Reduce(state, UpdateToast(patch)).toasts[i] == state.toasts[i]
    ensures StrictEquals(state.toasts[i].Id(), patch.Id()) ==>
      Lookup(Reduce(state, UpdateToast(patch)).toasts[i].fields, key) ==
        (if key in KeysOf(patch.fields) then Lookup(patch.fields, key) else Lookup(state.toasts[i].fields, key))
  {
    var t := state.toasts[i];
    if StrictEquals(t.Id(), patch.Id()) {
      if key in KeysOf(patch.fields) {
        var j :| 0 <= j < |patch.fields| && patch.fields[j].0 == key;
        ExtendNamed(t.fields, patch.fields, j);
        LookupAt(patch.fields, key, j);
      } else {
        ExtendOther(t.fields, patch.fields, key);
      }
    }
  }

  /** Applying the same update twice is applying it once. */
  lemma {:induction false} UpdateIdempotent(state: State, patch: Toast)
    requires DistinctKeys(patch.fields)
    ensures Reduce(Reduce(state, UpdateToast(patch)), UpdateToast(patch)) == Reduce(state, UpdateToast(patch))
  {
    var once := Reduce(state, UpdateToast(patch));
    var twice := Reduce(once, UpdateToast(patch));
    forall i | 0 <= i < |state.toasts|
      ensures twice.toasts[i] == once.toasts[i]
    {
      var t := state.toasts[i];
      if StrictEquals(t.Id(), patch.Id()) {
        var merged := Extend(t.fields, patch.fields);
        forall j | 0 <= j < |patch.fields|
          ensures HasKey(merged, patch.fields[j].0) && Lookup(merged, patch.fields[j].0) == patch.fields[j].1
        {
          ExtendKeys(t.fields, patch.fields, patch.fields[j].0);
          ExtendNamed(t.fields, patch.fields, j);
        }
        ExtendUnchanged(merged, patch.fields);
        if !StrictEquals(Toast(merged).Id(), patch.Id()) {
          // The patch names `id`, or the merged toast keeps the matching one.
          if "id" in KeysOf(patch.fields) {
            var j :| 0 <= j < |patch.fields| && patch.fields[j].0 == "id";
            ExtendNamed(t.fields, patch.fields, j);
            LookupAt(patch.fields, "id", j);
          } else {
            ExtendOther(t.fields, patch.fields, "id");
          }
          assert false;
        }
      }
    }
  }

  /** Removing by a truthy id keeps exactly the toasts with another id, never
      more often than they were there. */
  lemma RemoveById(state: State, toastId: Value)
    requires Truthy(toastId)
    ensures var r := Reduce(state, RemoveToast(toastId)).toasts;
      (forall t :: t in r <==> t in state.toasts && !StrictEquals(t.Id(), toastId))
      && multiset(r) <= multiset(state.toasts)
  {
    var keep := Survives(toastId);
    assert Reduce(state, RemoveToast(toastId)).toasts == Keep(state.toasts, keep);
    KeepMembers(state.toasts, keep);
    assert forall t :: keep(t) == !StrictEquals(t.Id(), toastId);
  }

  /** Removing an id no toast has changes nothing. */
  lemma RemoveAbsent(state: State, toastId: Value)
    requires Truthy(toastId)
    requires forall i :: 0 <= i < |state.toasts| ==> !StrictEquals(state.toasts[i].Id(), toastId)
    ensures Reduce(state, RemoveToast(toastId)) == state
  {
    var keep := Survives(toastId);
    assert forall i :: 0 <= i < |state.toasts| ==> keep(state.toasts[i]);
    KeepAll(state.toasts, keep);
  }

  /** Removal by id keeps the survivors in order: removing from a list made of
      two parts removes from each part. */
  lemma RemoveKeepsOrder(front: seq<Toast>, back: seq<Toast>, toastId: Value)
    requires Truthy(toastId)
    ensures Reduce(State(front + back), RemoveToast(toastId)).toasts ==
      Reduce(State(front), RemoveToast(toastId)).toasts + Reduce(State(back), RemoveToast(toastId)).toasts
  {
    KeepAppend(front, back, Survives(toastId));
  }

  /** Removing the same id twice is removing it once. */
  lemma RemoveIdempotent(state: State, toastId: Value)
    ensures Truthy(toastId) ==>
      Reduce(Reduce(state, RemoveToast(toastId)), RemoveToast(toastId)) == Reduce(state, RemoveToast(toastId))
  {
    if Truthy(toastId) {
      KeepIdempotent(state.toasts, Survives(toastId));
    }
  }

  /** Without an id, removal drops the first toast — the newest one, since
      adding puts a toast in front — and an empty list stays empty. */
  lemma RemoveWithoutId(state: State, toastId: Value)
    requires !Truthy(toastId)
    ensures state.toasts == [] ==> Reduce(state, RemoveToast(toastId)) == state
    ensures state.toasts != [] ==>
      [state.toasts[0]] + Reduce(state, RemoveToast(toastId)).toasts == state.toasts
  {
  }

  // ---------------------------------------------------------------------------
  // The id counter

  /** `(count + 1) % Number.MAX_SAFE_INTEGER` */
  function NextCount(count: nat): (n: nat)
    ensures n < MAX_SAFE_INTEGER
  {
    (count + 1) % MAX_SAFE_INTEGER
  }

  /** The counter after `k` calls of `genId`. */
  function CountAfter(count: nat, k: nat): nat {
    if k == 0 then count else NextCount(CountAfter(count, k - 1))
  }

  /** `k` calls move the counter `k` steps round the cycle of length
      MAX_SAFE_INTEGER. */
  lemma {:induction false} CountAfterCycles(count: nat, k: nat)
    requires count < MAX_SAFE_INTEGER
    ensures CountAfter(count, k) == (count + k) % MAX_SAFE_INTEGER
  {
    if k > 0 {
      CountAfterCycles(count, k - 1);
      ModSucc(count + k - 1);
    }
  }

  lemma ModSucc(x: nat)
    ensures (x % MAX_SAFE_INTEGER + 1) % MAX_SAFE_INTEGER == (x + 1) % MAX_SAFE_INTEGER
  {
    var m := MAX_SAFE_INTEGER;
    assert x == (x / m) * m + x % m;
    if x % m + 1 == m {
      assert x + 1 == (x / m + 1) * m;
    } else {
      assert x + 1 == (x / m) * m + (x % m + 1);
    }
  }

  /** Numbers less than MAX_SAFE_INTEGER apart leave different remainders. */
  lemma ModDistinct(a: nat, b: nat)
    requires a < b < a + MAX_SAFE_INTEGER
    ensures a % MAX_SAFE_INTEGER != b % MAX_SAFE_INTEGER
  {
    var m := MAX_SAFE_INTEGER;
    var qa, ra := a / m, a % m;
    var qb, rb := b / m, b % m;
    assert a == qa * m + ra && b == qb * m + rb;
    assert qb == qa || qb == qa + 1;
  }

  /** The counter takes MAX_SAFE_INTEGER different values in as many
      successive calls. */
  lemma CountsDistinct(count: nat, i: nat, j: nat)
    requires count < MAX_SAFE_INTEGER
    requires i < j < i + MAX_SAFE_INTEGER
    ensures CountAfter(count, i) != CountAfter(count, j)
  {
    CountAfterCycles(count, i);
    CountAfterCycles(count, j);
    ModDistinct(count + i, count + j);
  }

  /** The ids of MAX_SAFE_INTEGER successive calls are pairwise different: an
      id comes back only after the counter has gone once round its cycle. */
  lemma IdsDistinct(count: nat, i: nat, j: nat)
    requires count < MAX_SAFE_INTEGER
    requires i < j < i + MAX_SAFE_INTEGER
    ensures NatToString(CountAfter(count, i)) != NatToString(CountAfter(count, j))
  {
    CountsDistinct(count, i, j);
    DigitsValueOfNatToString(CountAfter(count, i));
    DigitsValueOfNatToString(CountAfter(count, j));
  }

  // ---------------------------------------------------------------------------
  // The store

  /** A registered listener, known by its identity. */
  type Listener = nat

  /** One call of every listener with the new state, in registration order. */
  function Notices(listeners: seq<Listener>, state: State): (calls: seq<(Listener, State)>)
    ensures |calls| == |listeners|
    ensures forall i :: 0 <= i < |listeners| ==> calls[i] == (listeners[i], state)
  {
    seq(|listeners|, i requires 0 <= i < |listeners| => (listeners[i], state))
  }

  /** The first position of `l` in `listeners` (`indexOf`), none for -1. */
  function FindListener(listeners: seq<Listener>, l: Listener): (r: Option<nat>)
    ensures r.None? <==> l !in listeners
    ensures r.Some? ==> (r.value < |listeners| && listeners[r.value] == l &&
                         forall i :: 0 <= i < r.value ==> listeners[i] != l)
  {
    if listeners == [] then None
    else if listeners[0] == l then Some(0)
    else match FindListener(listeners[1..], l)
      case None => None
      case Some(i) => Some(i + 1)
  }

  /** The module-level state of the toast store. Timers are not run: each
      pending removal is queued, and `FireRemoval` is the step in which the
      oldest timer's callback runs (all timers share one delay, so they fire
      in the order they were set). */
  class Store {
    /** `count`, the last id handed out. */
    var count: nat
    /** The ids with a pending removal timer (the keys of `toastTimeouts`;
        the timer handles stored there are never read). */
    var timeouts: set<string>
    /** The pending timers, in the order they fire. */
    var queue: seq<string>
    var listeners: seq<Listener>
    var memoryState: State
    /** Every listener call made so far, in order. */
    var notified: seq<(Listener, State)>

    /** At most one pending removal per id, each with its timer, and the
        counter within its cycle. */
    ghost predicate Valid()
      reads this
    {
      Distinct(queue) && timeouts == Elements(queue) && count < MAX_SAFE_INTEGER
    }

    constructor()
      ensures Valid()
      ensures count == 0 && timeouts == {} && queue == [] && listeners == []
      ensures memoryState == State([]) && notified == []
    {
      count := 0;
      timeouts := {};
      queue := [];
      listeners := [];
      memoryState := State([]);
      notified := [];
    }

    /** `genId()` */
    method GenId() returns (id: string)
      requires Valid()
      modifies this
      ensures Valid()
      ensures count == NextCount(old(count)) && id == NatToString(count)
      ensures timeouts == old(timeouts) && queue == old(queue) && listeners == old(listeners)
      ensures memoryState == old(memoryState) && notified == old(notified)
    {
      count := NextCount(count);
      id := NatToString(count);
    }

    /** `addToRemoveQueue(toastId)`: a second call for an id that already has
        a pending removal changes nothing. */
    method AddToRemoveQueue(toastId: string)
      requires Valid()
      modifies this
      ensures Valid()
      ensures toastId in old(timeouts) ==> timeouts == old(timeouts) && queue == old(queue)
      ensures toastId !in old(timeouts) ==>
        timeouts == old(timeouts) + {toastId} && queue == old(queue) + [toastId]
      ensures count == old(count) && listeners == old(listeners)
      ensures memoryState == old(memoryState) && notified == old(notified)
    {
      if toastId in timeouts {
        return;
      }
      queue := queue + [toastId];
      timeouts := timeouts + {toastId};
    }

    /** `dispatch(action)`: the reducer's result becomes the state and every
        listener is called once with it. */
    method Dispatch(action: Action)
      modifies this
      ensures memoryState == Reduce(old(memoryState), action)
      ensures notified == old(notified) + Notices(listeners, memoryState)
      ensures count == old(count) && timeouts == old(timeouts) && queue == old(queue)
      ensures listeners == old(listeners)
    {
      memoryState := Reduce(memoryState, action);
      var i := 0;
      while i < |listeners|
        invariant 0 <= i <= |listeners|
        invariant notified == old(notified) + Notices(listeners[..i], memoryState)
        invariant memoryState == Reduce(old(memoryState), action) && listeners == old(listeners)
        invariant count == old(count) && timeouts == old(timeouts) && queue == old(queue)
      {
        notified := notified + [(listeners[i], memoryState)];
        i := i + 1;
      }
      assert listeners[..i] == listeners;
    }

    /** The callback of the oldest pending timer: its id leaves the timer map
        and the toast with that id is removed. */
    method FireRemoval()
      requires Valid() && queue != []
      modifies this
      ensures Valid()
      ensures queue == old(queue[1..]) && timeouts == old(timeouts) - {old(queue[0])}
      ensures memoryState == Reduce(old(memoryState), RemoveToast(Str(old(queue[0]))))
      ensures notified == old(notified) + Notices(listeners, memoryState)
      ensures count == old(count) && listeners == old(listeners)
    {
      var toastId := queue[0];
      assert queue == [toastId] + queue[1..];
      queue := queue[1..];
      timeouts := timeouts - {toastId};
      Dispatch(RemoveToast(Str(toastId)));
    }

    /** `toast(props)`: a fresh id, the toast shown alone and open, and its
        removal queued. */
    method Show(props: seq<(string, Value)>) returns (id: string)
      requires Valid()
      modifies this
      ensures Valid()
      ensures count == NextCount(old(count)) && id == NatToString(count)
      ensures memoryState.toasts == [Toast(ToastFields(props, id))]
      ensures notified == old(notified) + Notices(listeners, memoryState)
      ensures id in timeouts && timeouts == old(timeouts) + {id}
      ensures id !in old(timeouts) ==> queue == old(queue) + [id]
      ensures id in old(timeouts) ==> queue == old(queue)
      ensures listeners == old(listeners)
    {
      id := GenId();
      Dispatch(AddToast(Toast(ToastFields(props, id))));
      AddToRemoveQueue(id);
    }

    /** The `update` a shown toast returns: merges `props` into the toast with
        that id. */
    method Update(id: string, props: seq<(string, Value)>)
      modifies this
      ensures memoryState == Reduce(old(memoryState), UpdateToast(Toast(Extend(props, [("id", Str(id))]))))
      ensures notified == old(notified) + Notices(listeners, memoryState)
      ensures count == old(count) && timeouts == old(timeouts) && queue == old(queue)
      ensures listeners == old(listeners)
    {
      Dispatch(UpdateToast(Toast(Extend(props, [("id", Str(id))]))));
    }

    /** The `dismiss` of `useToast`, and the one a shown toast returns (with
        its own id): removes by id, or the first toast when the id is falsy. */
    method Dismiss(toastId: Value)
      modifies this
      ensures memoryState == Reduce(old(memoryState), RemoveToast(toastId))
      ensures notified == old(notified) + Notices(listeners, memoryState)
      ensures count == old(count) && timeouts == old(timeouts) && queue == old(queue)
      ensures listeners == old(listeners)
    {
      Dispatch(RemoveToast(toastId));
    }

    /** The toast's `onOpenChange(open)`: closing dismisses it, opening does
        nothing. */
    method OnOpenChange(id: string, open: Value)
      modifies this
      ensures Truthy(open) ==> memoryState == old(memoryState) && notified == old(notified)
      ensures !Truthy(open) ==> (memoryState == Reduce(old(memoryState), RemoveToast(Str(id))) &&
                                 notified == old(notified) + Notices(listeners, memoryState))
      ensures count == old(count) && timeouts == old(timeouts) && queue == old(queue)
      ensures listeners == old(listeners)
    {
      if !Truthy(open) {
        Dismiss(Str(id));
      }
    }

    /** The effect of `useToast`: registers the component's listener. */
    method Subscribe(l: Listener)
      modifies this
      ensures listeners == old(listeners) + [l]
      ensures count == old(count) && timeouts == old(timeouts) && queue == old(queue)
      ensures memoryState == old(memoryState) && notified == old(notified)
    {
      listeners := listeners + [l];
    }

    /** The effect's cleanup: removes the first registration of `l`, if any,
        and keeps the others in order. */
    method Unsubscribe(l: Listener)
      modifies this
      ensures l !in old(listeners) ==> listeners == old(listeners)
      ensures l in old(listeners) ==>
        exists i :: (0 <= i < |old(listeners)| && old(listeners)[i] == l && l !in old(listeners)[..i] &&
                     listeners == old(listeners)[..i] + old(listeners)[i + 1..])
      ensures multiset(listeners) == multiset(old(listeners)) - multiset{l}
      ensures count == old(count) && timeouts == old(timeouts) && queue == old(queue)
      ensures memoryState == old(memoryState) && notified == old(notified)
    {
      var index := FindListener(listeners, l);
      if index.Some? {
        var i := index.value;
        RemoveAt(listeners, i);
        listeners := listeners[..i] + listeners[i + 1..];
      } else {
        assert multiset(listeners)[l] == 0;
      }
    }
  }

  /** Taking out the element at `i` takes one occurrence of it out. */
  lemma RemoveAt<T>(s: seq<T>, i: nat)
    requires i < |s|
    ensures multiset(s[..i] + s[i + 1..]) == multiset(s) - multiset{s[i]}
  {
    assert s == s[..i] + [s[i]] + s[i + 1..];
  }

  /** The properties of a new toast: the caller's, then `id`, `open: true`
      and the `onOpenChange` handler. */
  function ToastFields(props: seq<(string, Value)>, id: string): (fields: seq<(string, Value)>)
    ensures Lookup(fields, "id") == Str(id) && Lookup(fields, "open") == Bool(true)
  {
    var own := [("id", Str(id)), ("open", Bool(true)), ("onOpenChange", Host("Function"))];
    ExtendNamed(props, own, 0);
    ExtendNamed(props, own, 1);
    Extend(props, own)
  }
}
