/** The dashboard's per-endpoint synchronisation (App): loading an endpoint,
    retrying the failed ones, saving an edited row, and the week of one
    client's usage. `loadEndpoint` is split at its `await`: `Begin` is the
    part that runs when it is called, `Complete` the part that runs when the
    request settles, so that other steps can run in between. */
module Sync {
  import opened JsValues
  import opened Ordering
  import opened Payments
  import opened Normalize
  import opened Api
  import opened Week

  // ---------------------------------------------------------------------------
  // What a successful load writes

  /** What the dashboard shows of the payments: the cached value it started
      with, or the adapter's record of the last response. */
  datatype PaymentsView = FromCache(cached: Value) | Loaded(adapted: Adapted)

  /** The four data slices of the dashboard. */
  datatype Views = Views(payments: PaymentsView, usage: Value, iface: Value, router: Value)

  const Endpoints: seq<string> := ["payments", "user_usage", "interface_stats", "router_health"]

  /** The `switch (endpointKey)` of `loadEndpoint`: the new slices after the
      response `shape`, or the error its processing throws. */
  function Process(key: string, shape: Shape, views: Views, clock: Clock): (r: Completion<Views>)
  {
    if key == "payments" then
      match Adapt(ShapeObject(shape), clock)
      case Throw(m) => Throw(m)
      case Normal(a) => Normal(views.(payments := Loaded(a)))
    else if key == "user_usage" then
      Normal(views.(usage := Obj([("daily", Or(shape.daily, Arr([]))), ("summary", Or(shape.summary, Arr([])))])))
    else if key == "interface_stats" then
      match NormalizeIfaceTotals(Or(shape.totals, Obj([])))
      case Throw(m) => Throw(m)
      case Normal(t) => Normal(views.(iface := Obj([("latest", Or(shape.latest, Arr([]))), ("totals", t)])))
    else if key == "router_health" then
      match NormalizeRouterHealth(ShapeObject(shape))
      case Throw(m) => Throw(m)
      case Normal(h) => Normal(views.(router := h))
    else Normal(views)
  }

  /** How a load settles: the new slices, or the error of the request or of
      the processing of its response. */
  function Settle(key: string, outcome: Completion<Shape>, views: Views, clock: Clock): Completion<Views> {
    match outcome
    case Normal(shape) => Process(key, shape, views, clock)
    case Throw(m) => Throw(m)
  }

  /** A response changes only its own endpoint's slice, and none for an
      unknown endpoint; only the payments adapter and the router
      normaliser can throw. */
  lemma ProcessTouchesOwnSlice(key: string, shape: Shape, views: Views, clock: Clock)
    ensures var r := Process(key, shape, views, clock);
      r.Normal? ==>
        && (key != "payments" ==> r.value.payments == views.payments)
        && (key != "user_usage" ==> r.value.usage == views.usage)
        && (key != "interface_stats" ==> r.value.iface == views.iface)
        && (key != "router_health" ==> r.value.router == views.router)
    ensures key !in Endpoints ==> Process(key, shape, views, clock) == Normal(views)
    ensures key == "user_usage" || key == "interface_stats" ==> Process(key, shape, views, clock).Normal?
  {
    if key == "interface_stats" {
      assert !Or(shape.totals, Obj([])).Null?;
    }
  }

  /** `err.message || String(err)` for an `Error`: its message, or its name
      when the message is empty. */
  function ErrorText(message: string): (text: string)
    ensures text != ""
    ensures message != "" ==> text == message
  {
    if message != "" then message else "Error"
  }

  /** The counts after a failure of `key`: one more than before, or one
      when the count was reset first. */
  function Bumped(counts: map<string, nat>, key: string, fromZero: bool): (r: map<string, nat>)
    ensures r.Keys == counts.Keys + {key}
    ensures r[key] == (if fromZero then 1 else FailureCount(counts, key) + 1)
    ensures forall k :: k in counts && k != key ==> r[k] == counts[k]
  {
    counts[key := (if fromZero then 0 else FailureCount(counts, key)) + 1]
  }

  /** `(endpointFailureCounts.current[key] || 0)` */
  function FailureCount(counts: map<string, nat>, key: string): nat {
    if key in counts then counts[key] else 0
  }

  /** `(([endpoint]) => endpointErrors[endpoint])`: the endpoint shows an error. */
  function IsFailed(errors: seq<(string, Value)>): string -> bool {
    (k: string) => Truthy(Lookup(errors, k))
  }

  /** The endpoints `handleRetry` reloads, in the order of the error map. */
  function RetryTargets(errors: seq<(string, Value)>): seq<string> {
    Keep(KeysOf(errors), IsFailed(errors))
  }

  /** Retry reloads exactly the endpoints whose error is truthy. */
  lemma RetryTargetsExact(errors: seq<(string, Value)>, key: string)
    ensures key in RetryTargets(errors) <==> HasKey(errors, key) && Truthy(Lookup(errors, key))
  {
    KeepMembers(KeysOf(errors), IsFailed(errors));
    HasKeyOf(errors, key);
  }

  /** A failure marks its endpoint for retry; a success takes it off. */
  lemma RetryAfterOutcome(errors: seq<(string, Value)>, key: string, message: string)
    ensures key in RetryTargets(Assign(errors, key, Str(ErrorText(message))))
    ensures key !in RetryTargets(Assign(errors, key, Undefined))
  {
    AssignFacts(errors, key, Str(ErrorText(message)), key);
    AssignFacts(errors, key, Undefined, key);
    RetryTargetsExact(Assign(errors, key, Str(ErrorText(message))), key);
    RetryTargetsExact(Assign(errors, key, Undefined), key);
  }

  /** The parameters `loadEndpoint` hands to `fetchData`: the abort signal,
      as a query parameter. */
  function SignalParams(): Value {
    Obj([("signal", Host("AbortSignal"))])
  }

  /** The abort signal ends up in the URL as text, so the request itself
      carries no signal and aborting the controller cancels nothing. */
  lemma SignalInQuery(base: Query, secret: Value, key: string)
    ensures Param(RequestQuery(base, secret, Str(key), SignalParams()), "signal") == Some("[object AbortSignal]")
  {
    RequestQueryReads(base, secret, Str(key), SignalParams(), "signal");
    assert ParamEntries(SignalParams()) == [("signal", Host("AbortSignal"))];
    assert LastSet(ParamEntries(SignalParams()), "signal") == Some(Host("AbortSignal"));
    assert ToStr(Host("AbortSignal")) == "[object " + "AbortSignal" + "]" == "[object AbortSignal]";
  }

  /** What `postRow` gives back for the response to the POST: its JSON
      (`null` when it does not parse), or the error it throws. */
  function PostOutcome(res: Response): (r: Completion<Value>)
    ensures res.Reply? && !res.ok ==>
      r == Throw(HttpError(res.status, res.statusText, if res.text.Some? then res.text.value else ""))
    ensures res.Reply? && res.ok ==>
      (r.Throw? <==> res.json.Some? && Truthy(res.json.value) && Truthy(Get(res.json.value, "error")))
  {
    match res
    case NetworkError(m) => Throw(m)
    case Reply(ok, status, statusText, text, json) =>
      if !ok then Throw(HttpError(status, statusText, if text.Some? then text.value else ""))
      else
        var body := if json.Some? then json.value else Null;
        if Truthy(body) && Truthy(Get(body, "error")) then Throw(ToStr(Get(body, "error")))
        else Normal(body)
  }

  /** The row editor. */
  datatype EditState = EditState(open: bool, row: Value, sheet: string)

  /** The client modal. */
  datatype ClientModal = ClientModal(open: bool, selected: Value, week: seq<DayRecord>)

  /** What the browser cache held when the dashboard started (`null` where
      nothing was cached), and when it was written. */
  datatype Seeds = Seeds(payments: Value, usage: Value, iface: Value, router: Value, updated: Option<int>)

  // ---------------------------------------------------------------------------
  // The dashboard

  class Dashboard {
    /** `endpointFailureCounts.current` */
    var failureCounts: map<string, nat>
    /** `abortControllers.current`, each controller known by a number. */
    var controllers: map<string, nat>
    /** The controllers aborted so far. */
    var aborted: set<nat>
    /** The number the next controller takes. */
    var nextController: nat
    /** `endpointLoading` */
    var loading: seq<(string, Value)>
    /** `endpointErrors` */
    var errors: seq<(string, Value)>
    var dataVersion: nat
    /** The time of the last successful load. */
    var lastUpdated: Option<int>
    var views: Views
    var edit: EditState
    var client: ClientModal

    /** Every endpoint's current controller is its own and has not been
        aborted; every aborted one was made before. */
    ghost predicate Valid()
      reads this
    {
      && (forall k :: k in controllers ==> controllers[k] < nextController && controllers[k] !in aborted)
      && (forall k1, k2 :: k1 in controllers && k2 in controllers && k1 != k2 ==> controllers[k1] != controllers[k2])
      && (forall c :: c in aborted ==> c < nextController)
    }

    /** The first render: the cached slices where there are some, an endpoint
        loading exactly when nothing was cached for it. */
    constructor(seeds: Seeds)
      ensures Valid()
      ensures views == Views(FromCache(Or(seeds.payments, Obj([]))),
                             Or(seeds.usage, Obj([("daily", Arr([])), ("summary", Arr([]))])),
                             Or(seeds.iface, Obj([("latest", Arr([])), ("totals", Obj([]))])),
                             Or(seeds.router, Obj([])))
      ensures loading == [("payments", Bool(!Truthy(seeds.payments))), ("user_usage", Bool(!Truthy(seeds.usage))),
                          ("interface_stats", Bool(!Truthy(seeds.iface))), ("router_health", Bool(!Truthy(seeds.router)))]
      ensures failureCounts == map[] && controllers == map[] && aborted == {} && nextController == 0
      ensures errors == [] && dataVersion == 0
      ensures lastUpdated == (if Truthy(seeds.usage) then seeds.updated else None)
      ensures edit == EditState(false, Null, "payments") && client == ClientModal(false, Null, [])
    {
      failureCounts := map[];
      controllers := map[];
      aborted := {};
      nextController := 0;
      loading := [("payments", Bool(!Truthy(seeds.payments))), ("user_usage", Bool(!Truthy(seeds.usage))),
                  ("interface_stats", Bool(!Truthy(seeds.iface))), ("router_health", Bool(!Truthy(seeds.router)))];
      errors := [];
      dataVersion := 0;
      lastUpdated := if Truthy(seeds.usage) then seeds.updated else None;
      views := Views(FromCache(Or(seeds.payments, Obj([]))),
                     Or(seeds.usage, Obj([("daily", Arr([])), ("summary", Arr([]))])),
                     Or(seeds.iface, Obj([("latest", Arr([])), ("totals", Obj([]))])),
                     Or(seeds.router, Obj([])));
      edit := EditState(false, Null, "payments");
      client := ClientModal(false, Null, []);
    }

    /** `loadEndpoint(key, background)` up to its `await`. A background call
        for an endpoint without failures does nothing; any other call aborts
        the endpoint's controller, installs a new one, marks a foreground
        load as loading and starts the request. */
    method Begin(key: string, background: bool) returns (started: bool)
      requires Valid()
      modifies this
      ensures Valid()
      ensures started <==> !background || FailureCount(old(failureCounts), key) != 0
      ensures !started ==> controllers == old(controllers) && aborted == old(aborted) &&
                           nextController == old(nextController) && loading == old(loading)
      ensures started ==> controllers == old(controllers)[key := old(nextController)] &&
                          nextController == old(nextController) + 1 &&
                          aborted == old(aborted) + (if key in old(controllers) then {old(controllers)[key]} else {})
      ensures loading == if started && !background then Assign(old(loading), key, Bool(true)) else old(loading)
      ensures failureCounts == old(failureCounts) && errors == old(errors) && dataVersion == old(dataVersion)
      ensures lastUpdated == old(lastUpdated) && views == old(views) && edit == old(edit) && client == old(client)
    {
      if background && FailureCount(failureCounts, key) == 0 {
        return false;
      }
      Install(key);
      if !background {
        loading := Assign(loading, key, Bool(true));
      }
      started := true;
    }

    /** Aborts the endpoint's controller, if any, and gives it a new one. */
    method Install(key: string)
      requires Valid()
      modifies this
      ensures Valid()
      ensures controllers == old(controllers)[key := old(nextController)] && nextController == old(nextController) + 1
      ensures aborted == old(aborted) + (if key in old(controllers) then {old(controllers)[key]} else {})
      ensures failureCounts == old(failureCounts) && loading == old(loading) && errors == old(errors)
      ensures dataVersion == old(dataVersion) && lastUpdated == old(lastUpdated) && views == old(views)
      ensures edit == old(edit) && client == old(client)
    {
      if key in controllers {
        aborted := aborted + {controllers[key]};
      }
      controllers := controllers[key := nextController];
      nextController := nextController + 1;
    }

    /** `loadEndpoint(key, background)` after its `await`, given how the
        request settled. No controller is consulted: the abort never reaches
        the request (`SignalInQuery`), so a response to a superseded request
        is applied like any other. On success the failure count is reset,
        the endpoint's slice replaced, `dataVersion` advanced by one and its
        error cleared; on a failure of the request or of the processing the
        count goes up by one from what it was (from zero when the processing
        failed, as the count is reset first) and the error message is
        stored. A foreground load stops loading either way. */
    method Complete(key: string, background: bool, outcome: Completion<Shape>, now: int, clock: Clock)
      returns (r: Completion<Views>)
      modifies this
      ensures r == Settle(key, outcome, old(views), clock)
      ensures r.Normal? ==>
        && failureCounts == old(failureCounts)[key := 0]
        && views == r.value && lastUpdated == Some(now)
        && dataVersion == old(dataVersion) + 1
        && errors == Assign(old(errors), key, Undefined)
      ensures r.Throw? ==>
        && failureCounts == Bumped(old(failureCounts), key, outcome.Normal?)
        && views == old(views) && lastUpdated == old(lastUpdated)
        && dataVersion == old(dataVersion)
        && errors == Assign(old(errors), key, Str(ErrorText(r.message)))
      ensures loading == if background then old(loading) else Assign(old(loading), key, Bool(false))
      ensures controllers == old(controllers) && aborted == old(aborted) && nextController == old(nextController)
      ensures edit == old(edit) && client == old(client)
    {
      r := Settle(key, outcome, views, clock);
      if r.Normal? {
        Succeed(key, r.value, now);
      } else {
        Fail(key, outcome.Normal?, r.message);
      }
      if !background {
        loading := Assign(loading, key, Bool(false));
      }
    }

    /** The success branch of `loadEndpoint`. */
    method Succeed(key: string, next: Views, now: int)
      modifies this
      ensures failureCounts == old(failureCounts)[key := 0]
      ensures views == next && lastUpdated == Some(now) && dataVersion == old(dataVersion) + 1
      ensures errors == Assign(old(errors), key, Undefined)
      ensures loading == old(loading) && controllers == old(controllers) && aborted == old(aborted)
      ensures nextController == old(nextController) && edit == old(edit) && client == old(client)
    {
      failureCounts := failureCounts[key := 0];
      views := next;
      lastUpdated := Some(now);
      dataVersion := dataVersion + 1;
      errors := Assign(errors, key, Undefined);
    }

    /** The `catch` of `loadEndpoint`: the count goes up by one, from zero
        when it was reset first, and the message is stored. */
    method Fail(key: string, fromZero: bool, message: string)
      modifies this
      ensures failureCounts == Bumped(old(failureCounts), key, fromZero)
      ensures errors == Assign(old(errors), key, Str(ErrorText(message)))
      ensures views == old(views) && lastUpdated == old(lastUpdated) && dataVersion == old(dataVersion)
      ensures loading == old(loading) && controllers == old(controllers) && aborted == old(aborted)
      ensures nextController == old(nextController) && edit == old(edit) && client == old(client)
    {
      failureCounts := failureCounts[key := (if fromZero then 0 else FailureCount(failureCounts, key)) + 1];
      errors := Assign(errors, key, Str(ErrorText(message)));
    }

    /** `await loadEndpoint(key, background)` with nothing in between. */
    method Load(key: string, background: bool, outcome: Completion<Shape>, now: int, clock: Clock)
      requires Valid()
      modifies this
      ensures Valid()
      ensures background && FailureCount(old(failureCounts), key) == 0 ==>
        && failureCounts == old(failureCounts) && errors == old(errors) && loading == old(loading)
        && dataVersion == old(dataVersion) && views == old(views) && lastUpdated == old(lastUpdated)
        && controllers == old(controllers) && aborted == old(aborted)
      ensures dataVersion == old(dataVersion) || dataVersion == old(dataVersion) + 1
      ensures !background ==> Lookup(loading, key) == Bool(false)
      ensures !background || FailureCount(old(failureCounts), key) != 0 ==>
        var r := Settle(key, outcome, old(views), clock);
        && (r.Normal? ==>
              && failureCounts == old(failureCounts)[key := 0]
              && views == r.value && lastUpdated == Some(now)
              && dataVersion == old(dataVersion) + 1
              && errors == Assign(old(errors), key, Undefined))
        && (r.Throw? ==>
              && failureCounts == Bumped(old(failureCounts), key, outcome.Normal?)
              && views == old(views) && lastUpdated == old(lastUpdated)
              && dataVersion == old(dataVersion)
              && errors == Assign(old(errors), key, Str(ErrorText(r.message))))
        && loading == (if background then old(loading)
                       else Assign(Assign(old(loading), key, Bool(true)), key, Bool(false)))
        && controllers == old(controllers)[key := old(nextController)]
        && nextController == old(nextController) + 1
        && aborted == old(aborted) + (if key in old(controllers) then {old(controllers)[key]} else {})
      ensures edit == old(edit) && client == old(client)
    {
      var started := Begin(key, background);
      if started {
        var _ := Complete(key, background, outcome, now, clock);
        if !background {
          AssignFacts(old(loading), key, Bool(true), key);
          AssignFacts(Assign(old(loading), key, Bool(true)), key, Bool(false), key);
        }
      }
    }

    /** `handleRetry()`: a foreground load of every endpoint whose error is
        truthy, in the order of the error map; the loads are started, not
        awaited. */
    method Retry() returns (started: seq<string>)
      requires Valid()
      modifies this
      ensures Valid()
      ensures started == RetryTargets(old(errors))
      ensures forall k :: k in started ==> Lookup(loading, k) == Bool(true) && k in controllers
      ensures forall k :: k !in started ==> Lookup(loading, k) == Lookup(old(loading), k)
      ensures controllers.Keys == old(controllers.Keys) + set k | k in started
      ensures failureCounts == old(failureCounts) && errors == old(errors) && dataVersion == old(dataVersion)
      ensures lastUpdated == old(lastUpdated) && views == old(views) && edit == old(edit) && client == old(client)
    {
      var keys := KeysOf(errors);
      var failed := IsFailed(errors);
      started := [];
      var i := 0;
      while i < |keys|
        invariant 0 <= i <= |keys| && Valid()
        invariant started == Keep(keys[..i], failed)
        invariant forall k :: k in started ==> Lookup(loading, k) == Bool(true) && k in controllers
        invariant forall k :: k !in started ==> Lookup(loading, k) == Lookup(old(loading), k)
        invariant controllers.Keys == old(controllers.Keys) + set k | k in started
        invariant failureCounts == old(failureCounts) && errors == old(errors) && dataVersion == old(dataVersion)
        invariant lastUpdated == old(lastUpdated) && views == old(views) && edit == old(edit) && client == old(client)
      {
        var k := keys[i];
        assert keys[..i + 1] == keys[..i] + [k];
        if failed(k) {
          ghost var before := loading;
          var _ := Begin(k, false);
          forall k2 ensures Lookup(loading, k2) == if k2 == k then Bool(true) else Lookup(before, k2) {
            AssignFacts(before, k, Bool(true), k2);
          }
          started := started + [k];
        }
        i := i + 1;
      }
      assert keys[..i] == keys;
    }

    /** `handleEdit(row, sheetKey)` */
    method Edit(row: Value, sheetKey: string)
      modifies this
      ensures edit == EditState(true, Or(row, Obj([])), sheetKey)
      ensures failureCounts == old(failureCounts) && controllers == old(controllers) && aborted == old(aborted)
      ensures loading == old(loading) && errors == old(errors) && dataVersion == old(dataVersion)
      ensures lastUpdated == old(lastUpdated) && views == old(views) && client == old(client)
    {
      edit := EditState(true, Or(row, Obj([])), sheetKey);
    }

    /** `handleSave(editedRow)`: the POST's outcome, then a background reload
        of the edited sheet — which does nothing when that endpoint has no
        failures — and the editor closed either way. */
    method Save(res: Response, reload: Completion<Shape>, now: int, clock: Clock) returns (r: Completion<Value>)
      requires Valid()
      modifies this
      ensures Valid()
      ensures r == PostOutcome(res)
      ensures edit == EditState(false, Null, old(edit.sheet))
      ensures r.Throw? || FailureCount(old(failureCounts), old(edit.sheet)) == 0 ==>
        && failureCounts == old(failureCounts) && errors == old(errors) && loading == old(loading)
        && dataVersion == old(dataVersion) && views == old(views) && lastUpdated == old(lastUpdated)
      ensures r.Normal? && FailureCount(old(failureCounts), old(edit.sheet)) != 0 ==>
        var key := old(edit.sheet);
        var reloaded := Settle(key, reload, old(views), clock);
        && (reloaded.Normal? ==>
              && failureCounts == old(failureCounts)[key := 0]
              && views == reloaded.value && lastUpdated == Some(now)
              && dataVersion == old(dataVersion) + 1
              && errors == Assign(old(errors), key, Undefined))
        && (reloaded.Throw? ==>
              && failureCounts == Bumped(old(failureCounts), key, reload.Normal?)
              && views == old(views) && lastUpdated == old(lastUpdated)
              && dataVersion == old(dataVersion)
              && errors == Assign(old(errors), key, Str(ErrorText(reloaded.message))))
        && loading == old(loading)
      ensures client == old(client)
    {
      r := PostOutcome(res);
      if r.Normal? {
        Load(edit.sheet, true, reload, now, clock);
      }
      edit := edit.(open := false, row := Null);
    }

    /** The start of `openClientModal(user)`, up to its `await`: the modal
        opens on the user with the week it held before, and the seven day
        keys to request are returned. */
    method OpenClient(user: Value, cal: Calendar) returns (days: seq<string>)
      modifies this
      ensures days == WeekKeys(cal, DateToKey)
      ensures client == ClientModal(true, user, old(client.week))
      ensures failureCounts == old(failureCounts) && controllers == old(controllers) && aborted == old(aborted)
      ensures loading == old(loading) && errors == old(errors) && dataVersion == old(dataVersion)
      ensures lastUpdated == old(lastUpdated) && views == old(views) && edit == old(edit)
    {
      client := ClientModal(true, user, client.week);
      days := WeekDays(cal, DateToKey);
    }

    /** The rest of `openClientModal(user)`, once the day requests have
        settled: `results[i]` is how the request for day i settled. Only the
        week is set; whether the modal is still open, and on whom, is not
        looked at. */
    method ReceiveClientWeek(user: Value, days: seq<string>, results: seq<Completion<Shape>>)
      requires |results| == |days|
      modifies this
      ensures client == ClientModal(old(client.open), old(client.selected), ClientWeek(days, results, user))
      ensures failureCounts == old(failureCounts) && controllers == old(controllers) && aborted == old(aborted)
      ensures loading == old(loading) && errors == old(errors) && dataVersion == old(dataVersion)
      ensures lastUpdated == old(lastUpdated) && views == old(views) && edit == old(edit)
    {
      var week := MapThrow(Settled(days, results), DayFn(user));
      client := client.(week := if week.Normal? then week.value else []);
    }

    /** Opening the modal and letting the requests settle shows the user's
        week in the open modal. */
    method OpenClientSettled(user: Value, cal: Calendar, results: seq<Completion<Shape>>)
      requires |results| == 7
      modifies this
      ensures client == ClientModal(true, user, ClientWeek(WeekKeys(cal, DateToKey), results, user))
      ensures failureCounts == old(failureCounts) && controllers == old(controllers) && aborted == old(aborted)
      ensures loading == old(loading) && errors == old(errors) && dataVersion == old(dataVersion)
      ensures lastUpdated == old(lastUpdated) && views == old(views) && edit == old(edit)
    {
      var days := OpenClient(user, cal);
      ReceiveClientWeek(user, days, results);
    }

    /** Closing the modal while the requests are pending does not stop them:
        the week they bring is stored in the closed modal. */
    method CloseBeforeWeekArrives(user: Value, cal: Calendar, results: seq<Completion<Shape>>)
      requires |results| == 7
      modifies this
      ensures !client.open && client.selected == Null
      ensures client.week == ClientWeek(WeekKeys(cal, DateToKey), results, user)
      ensures failureCounts == old(failureCounts) && controllers == old(controllers) && aborted == old(aborted)
      ensures loading == old(loading) && errors == old(errors) && dataVersion == old(dataVersion)
      ensures lastUpdated == old(lastUpdated) && views == old(views) && edit == old(edit)
    {
      var days := OpenClient(user, cal);
      CloseClient();
      ReceiveClientWeek(user, days, results);
    }

    /** `closeClientModal()` */
    method CloseClient()
      modifies this
      ensures client == ClientModal(false, Null, [])
      ensures failureCounts == old(failureCounts) && controllers == old(controllers) && aborted == old(aborted)
      ensures loading == old(loading) && errors == old(errors) && dataVersion == old(dataVersion)
      ensures lastUpdated == old(lastUpdated) && views == old(views) && edit == old(edit)
    {
      client := ClientModal(false, Null, []);
    }
  }
}
