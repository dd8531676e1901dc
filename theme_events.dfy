/**
 * The module-level state of wp-app-kit/app/core/theme-app.js: subscription
 * routing between the region manager and the local `vent` channel, the relay
 * of application events, the `refreshing` counter and the registrations
 * forwarded to the hooks module.
 *
 * `vent.trigger` calls, counter steps and callback calls are recorded, in the
 * order they happen, in one trace; which `vent` handlers a trigger reaches is
 * Backbone's business and is not modelled.
 */
module ThemeEvents {
  import opened Wrappers
  import opened EventClassifier
  import opened Navigation
  import opened Callbacks

  /** The event names `on` proxies to the region manager. */
  const ReservedNames: seq<string> := [
    "screen:leave", "screen:showed", "screen:before-transition", "menu:refresh",
    "header:render", "waiting:start", "waiting:stop"
  ]

  const RefreshStart := "refresh:start"
  const RefreshEnd := "refresh:end"

  /** Where `on` registers a callback. */
  datatype Channel = RegionManagerChannel | VentChannel

  function RouteOf(name: string): Channel
  {
    if name in ReservedNames then RegionManagerChannel else VentChannel
  }

  /**
   * Every name theme code can receive from `vent` (relayed error and info
   * events and the refresh events) is routed to `vent` by `on`.
   */
  lemma VentNamesRouteToVent(name: string)
    requires ErrorPrefix <= name || InfoPrefix <= name || name in {"error", "info", RefreshStart, RefreshEnd}
    ensures RouteOf(name) == VentChannel
  {
    if ErrorPrefix <= name {
      assert name[0] == 'e';
    } else if InfoPrefix <= name {
      assert name[0] == 'i';
    }
  }

  datatype Subscription = Subscription(name: string, callback: Callback)

  /** A function given to `themeApp.filter` or `themeApp.action`. */
  datatype Hook =
    | ThemeHook(callback: Callback)
    | AutoTransition(handlers: TransitionHandlers)  // the action `setAutoScreenTransitions` registers

  /** A call forwarded to the hooks module or to the application core. */
  datatype Forwarded =
    | AddFilter(filter: string, hook: Hook)
    | AddAction(action: string, hook: Hook)
    | SetParam(param: string, value: bool)

  /** One observable step of the theme layer. */
  datatype Step =
    | Trigger(name: string, arg: Option<Envelope>)  // `vent.trigger(name[, arg])`
    | Increment                                     // `refreshing++`
    | Decrement                                     // `refreshing--`
    | RoutingReset                                  // default route reset and history restart
    | CallOk(callback: Callback)                    // `cb_ok()`
    | CallError(callback: Callback, envelope: Envelope)  // `cb_error(envelope)`

  /** The `vent` triggers the `App.on('all')` relay performs for one application event. */
  function Relay(name: string, data: Payload): (r: Result<seq<Step>, ClassifyError>)
    ensures r.Failure? <==> ErrorPrefix <= name && data.Nullish?
    ensures r.Success? ==> (|r.value| == 2 <==> ErrorPrefix <= name || InfoPrefix <= name)
    ensures r.Success? ==> |r.value| == 0 || |r.value| == 2
    ensures r.Success? && |r.value| == 2 ==>
      r.value[0].Trigger? && r.value[0].name == name && r.value[0].arg.Some? &&
      r.value[1] == Trigger(r.value[0].arg.value.kind, r.value[0].arg) &&
      r.value[0].arg == Some(Classify(name, data).value)
    ensures r.Success? ==> forall i :: 0 <= i < |r.value| ==> TagOf(r.value[i]) == OtherTag
  {
    match Classify(name, data)
    case Failure(e) => Failure(e)
    case Success(env) =>
      if env.kind == "error" || env.kind == "info" then
        assert name != RefreshStart && name != RefreshEnd by {
          if ErrorPrefix <= name { assert name[0] == 'e'; } else { assert name[0] == 'i'; }
        }
        Success([Trigger(name, Some(env)), Trigger(env.kind, Some(env))])
      else Success([])
  }

  /**
   * The end-to-end case: an `error:` event whose payload has type "ajax"
   * reaches `vent` once under its own name and once under "error", both times
   * with the connectivity message.
   */
  lemma AjaxErrorRelayed(event: string)
    ensures var env := Envelope(event, "error", AjaxErrorMessage, Value(Some("ajax")));
      Relay(ErrorPrefix + event, Value(Some("ajax"))) ==
        Success([Trigger(ErrorPrefix + event, Some(env)), Trigger("error", Some(env))])
  {
  }

  /** What the counting invariant of the refresh counter looks at in a step. */
  datatype Tag = StartTag | EndTag | IncTag | DecTag | OtherTag

  function TagOf(s: Step): Tag
  {
    match s
    case Trigger(name, _) => if name == RefreshStart then StartTag else if name == RefreshEnd then EndTag else OtherTag
    case Increment => IncTag
    case Decrement => DecTag
    case _ => OtherTag
  }

  /** The number of steps of `t` with tag `tag`. */
  function Count(t: seq<Step>, tag: Tag): (n: nat)
    ensures n <= |t|
    ensures n == 0 <==> forall i :: 0 <= i < |t| ==> TagOf(t[i]) != tag
  {
    if t == [] then 0
    else (if TagOf(t[0]) == tag then 1 else 0) + Count(t[1..], tag)
  }

  function Indicator(s: Step, tag: Tag): nat
  {
    if TagOf(s) == tag then 1 else 0
  }

  lemma CountCons(s: Step, t: seq<Step>, tag: Tag)
    ensures Count([s] + t, tag) == Indicator(s, tag) + Count(t, tag)
  {
  }

  lemma CountSingle(s: Step, tag: Tag)
    ensures Count([s], tag) == Indicator(s, tag)
  {
  }

  lemma {:induction false} CountConcat(a: seq<Step>, b: seq<Step>, tag: Tag)
    ensures Count(a + b, tag) == Count(a, tag) + Count(b, tag)
    decreases |a|
  {
    if a == [] {
      assert a + b == b;
    } else {
      CountConcat(a[1..], b, tag);
      assert (a + b)[1..] == a[1..] + b;
    }
  }

  /** A refresh whose `App.sync` has not completed yet, with the callbacks it was given. */
  datatype PendingRefresh = PendingRefresh(onOk: Option<Callback>, onError: Option<Callback>)

  /** How an outstanding `App.sync` (followed, on success, by `RegionManager.buildMenu`) completes. */
  datatype SyncOutcome = Synced | SyncFailed(error: Payload)

  /** The steps a refresh performs when its sync completes. */
  function Completion(p: PendingRefresh, outcome: SyncOutcome): (steps: seq<Step>)
    ensures outcome.Synced? ==>
      |steps| == (if p.onOk.Some? then 4 else 3) &&
      steps[..3] == [RoutingReset, Decrement, Trigger(RefreshEnd, None)] &&
      (p.onOk.Some? ==> steps[3] == CallOk(p.onOk.value))
    ensures outcome.SyncFailed? ==>
      |steps| == (if p.onError.Some? then 3 else 2) &&
      steps[0] == Decrement && steps[|steps| - 1] == Trigger(RefreshEnd, None) &&
      (p.onError.Some? ==> steps[1] == CallError(p.onError.value, Envelope("error", "", "", outcome.error)))
  {
    match outcome
    case Synced =>
      [RoutingReset, Decrement, Trigger(RefreshEnd, None)] + (if p.onOk.Some? then [CallOk(p.onOk.value)] else [])
    case SyncFailed(error) =>
      var report :=
        match p.onError
        case None => []
        case Some(cb) =>
          match Classify("error", error)
          case Success(env) => [CallError(cb, env)]
          case Failure(_) => [];
      BareErrorNameIsUntyped(error);
      [Decrement] + report + [Trigger(RefreshEnd, None)]
  }

  /**
   * Whichever way a sync completes, its refresh performs exactly one decrement
   * and one `refresh:end`, and no increment or `refresh:start`.
   */
  lemma CompletionBalanced(p: PendingRefresh, outcome: SyncOutcome, tag: Tag)
    requires tag != OtherTag
    ensures Count(Completion(p, outcome), tag) == if tag == DecTag || tag == EndTag then 1 else 0
  {
    var end := Trigger(RefreshEnd, None);
    match outcome
    case Synced =>
      var tail := if p.onOk.Some? then [CallOk(p.onOk.value)] else [];
      assert Completion(p, outcome) == [RoutingReset] + ([Decrement] + ([end] + tail));
      CountCons(RoutingReset, [Decrement] + ([end] + tail), tag);
      CountCons(Decrement, [end] + tail, tag);
      CountCons(end, tail, tag);
      if p.onOk.Some? {
        CountSingle(tail[0], tag);
      }
    case SyncFailed(error) =>
      BareErrorNameIsUntyped(error);
      var report := if p.onError.Some? then [CallError(p.onError.value, Envelope("error", "", "", error))] else [];
      assert Completion(p, outcome) == [Decrement] + (report + [end]);
      CountCons(Decrement, report + [end], tag);
      CountConcat(report, [end], tag);
      CountSingle(end, tag);
      if p.onError.Some? {
        CountSingle(report[0], tag);
      }
  }

  lemma AppendCompletion(before: seq<Step>, p: PendingRefresh, outcome: SyncOutcome)
    ensures forall tag :: tag != OtherTag ==>
      Count(before + Completion(p, outcome), tag) == Count(before, tag) + (if tag == DecTag || tag == EndTag then 1 else 0)
  {
    forall tag | tag != OtherTag
      ensures Count(before + Completion(p, outcome), tag) ==
        Count(before, tag) + (if tag == DecTag || tag == EndTag then 1 else 0)
    {
      CountConcat(before, Completion(p, outcome), tag);
      CompletionBalanced(p, outcome, tag);
    }
  }

  /** The module-level state of the theme layer. */
  class ThemeApp {
    var regionManagerSubscriptions: seq<Subscription>
    var ventSubscriptions: seq<Subscription>
    var forwarded: seq<Forwarded>
    var refreshing: int
    /** The refreshes whose sync completion is still outstanding, oldest first. */
    var pending: seq<PendingRefresh>
    var trace: seq<Step>

    /**
     * The counter counts the outstanding refreshes; every `refresh:start` and
     * every increment is matched by a `refresh:end` and a decrement, except for
     * the refreshes still outstanding.
     */
    ghost predicate Valid()
      reads this
    {
      refreshing == |pending| &&
      Count(trace, StartTag) == Count(trace, EndTag) + refreshing &&
      Count(trace, IncTag) == Count(trace, DecTag) + refreshing
    }

    /** The state when the module is loaded. */
    constructor ()
      ensures Valid()
      ensures regionManagerSubscriptions == [] && ventSubscriptions == [] && forwarded == []
      ensures refreshing == 0 && pending == [] && trace == []
    {
      regionManagerSubscriptions, ventSubscriptions, forwarded := [], [], [];
      refreshing, pending, trace := 0, [], [];
    }

    /** `themeApp.on(event, callback)`. */
    method On(name: string, callback: Callback)
      requires Valid()
      modifies this
      ensures Valid()
      ensures name in ReservedNames ==>
        regionManagerSubscriptions == old(regionManagerSubscriptions) + [Subscription(name, callback)] &&
        ventSubscriptions == old(ventSubscriptions)
      ensures name !in ReservedNames ==>
        ventSubscriptions == old(ventSubscriptions) + [Subscription(name, callback)] &&
        regionManagerSubscriptions == old(regionManagerSubscriptions)
      ensures forwarded == old(forwarded) && refreshing == old(refreshing)
      ensures pending == old(pending) && trace == old(trace)
    {
      if name in ReservedNames {
        regionManagerSubscriptions := regionManagerSubscriptions + [Subscription(name, callback)];
      } else {
        ventSubscriptions := ventSubscriptions + [Subscription(name, callback)];
      }
    }

    /**
     * The `App.on('all')` handler for one application event; `thrown` is true
     * when classifying it raises a TypeError.
     */
    method OnAppEvent(name: string, data: Payload) returns (thrown: bool)
      requires Valid()
      modifies this
      ensures Valid()
      ensures thrown <==> Relay(name, data).Failure?
      ensures trace == old(trace) + (if thrown then [] else Relay(name, data).value)
      ensures regionManagerSubscriptions == old(regionManagerSubscriptions)
      ensures ventSubscriptions == old(ventSubscriptions) && forwarded == old(forwarded)
      ensures refreshing == old(refreshing) && pending == old(pending)
    {
      var envelope := Classify(name, data);
      match envelope
      case Failure(_) =>
        thrown := true;
      case Success(env) =>
        thrown := false;
        if env.kind == "error" || env.kind == "info" {
          AppendUncounted(Relay(name, data).value);
          ghost var before := trace;
          trace := trace + [Trigger(name, Some(env))];
          trace := trace + [Trigger(env.kind, Some(env))];
          assert trace == before + Relay(name, data).value;
        }
    }

    /** Appending steps none of which is counted keeps every count. */
    lemma AppendUncounted(steps: seq<Step>)
      requires forall i :: 0 <= i < |steps| ==> TagOf(steps[i]) == OtherTag
      ensures forall tag :: tag != OtherTag ==> Count(trace + steps, tag) == Count(trace, tag)
    {
      forall tag | tag != OtherTag
        ensures Count(trace + steps, tag) == Count(trace, tag)
      {
        CountConcat(trace, steps, tag);
      }
    }

    /** `themeApp.filter(filter, callback)`: forwarded to `Hooks.addFilter`. */
    method Filter(filter: string, callback: Callback)
      requires Valid()
      modifies this
      ensures Valid()
      ensures forwarded == old(forwarded) + [AddFilter(filter, ThemeHook(callback))]
      ensures regionManagerSubscriptions == old(regionManagerSubscriptions) && ventSubscriptions == old(ventSubscriptions)
      ensures refreshing == old(refreshing) && pending == old(pending) && trace == old(trace)
    {
      forwarded := forwarded + [AddFilter(filter, ThemeHook(callback))];
    }

    /** `themeApp.action(action, callback)`: forwarded to `Hooks.addAction`. */
    method Action(action: string, callback: Callback)
      requires Valid()
      modifies this
      ensures Valid()
      ensures forwarded == old(forwarded) + [AddAction(action, ThemeHook(callback))]
      ensures regionManagerSubscriptions == old(regionManagerSubscriptions) && ventSubscriptions == old(ventSubscriptions)
      ensures refreshing == old(refreshing) && pending == old(pending) && trace == old(trace)
    {
      forwarded := forwarded + [AddAction(action, ThemeHook(callback))];
    }

    /**
     * `themeApp.setAutoScreenTransitions(transition_replace, transition_left,
     * transition_right)`: sets the custom-rendering parameter and registers the
     * "screen-transition" action that `Navigation.ScreenTransition` describes.
     */
    method SetAutoScreenTransitions(handlers: TransitionHandlers)
      requires Valid()
      modifies this
      ensures Valid()
      ensures forwarded == old(forwarded) +
        [SetParam("custom-screen-rendering", true), AddAction("screen-transition", AutoTransition(handlers))]
      ensures regionManagerSubscriptions == old(regionManagerSubscriptions) && ventSubscriptions == old(ventSubscriptions)
      ensures refreshing == old(refreshing) && pending == old(pending) && trace == old(trace)
    {
      forwarded := forwarded + [SetParam("custom-screen-rendering", true)];
      forwarded := forwarded + [AddAction("screen-transition", AutoTransition(handlers))];
    }

    /** `themeApp.refresh(cb_ok, cb_error)` up to the call of `App.sync`. */
    method Refresh(onOk: Option<Callback>, onError: Option<Callback>)
      requires Valid()
      modifies this
      ensures Valid()
      ensures refreshing == old(refreshing) + 1
      ensures pending == old(pending) + [PendingRefresh(onOk, onError)]
      ensures trace == old(trace) + [Increment, Trigger(RefreshStart, None)]
      ensures regionManagerSubscriptions == old(regionManagerSubscriptions) && ventSubscriptions == old(ventSubscriptions)
      ensures forwarded == old(forwarded)
    {
      forall tag | tag != OtherTag
        ensures Count(trace + [Increment, Trigger(RefreshStart, None)], tag) ==
                Count(trace, tag) + (if tag == IncTag || tag == StartTag then 1 else 0)
      {
        CountConcat(trace, [Increment, Trigger(RefreshStart, None)], tag);
        CountCons(Increment, [Trigger(RefreshStart, None)], tag);
      }
      refreshing := refreshing + 1;
      trace := trace + [Increment, Trigger(RefreshStart, None)];
      pending := pending + [PendingRefresh(onOk, onError)];
    }

    /**
     * The state between removing a completed refresh from `pending` and
     * decrementing the counter for it.
     */
    ghost predicate Completing()
      reads this
    {
      refreshing == |pending| + 1 &&
      Count(trace, StartTag) == Count(trace, EndTag) + refreshing &&
      Count(trace, IncTag) == Count(trace, DecTag) + refreshing
    }

    /** The sync of outstanding refresh `k` completes with `outcome`. */
    method CompleteRefresh(k: nat, outcome: SyncOutcome)
      requires Valid()
      requires k < |pending|
      modifies this
      ensures Valid()
      ensures refreshing == old(refreshing) - 1
      ensures pending == old(pending[..k] + pending[k + 1..])
      ensures trace == old(trace) + Completion(old(pending[k]), outcome)
      ensures regionManagerSubscriptions == old(regionManagerSubscriptions) && ventSubscriptions == old(ventSubscriptions)
      ensures forwarded == old(forwarded)
    {
      var p := pending[k];
      pending := pending[..k] + pending[k + 1..];
      match outcome {
        case Synced => MenuBuilt(p);
        case SyncFailed(error) => SyncError(p, error);
      }
    }

    /** The `RegionManager.buildMenu` callback after a successful sync. */
    method MenuBuilt(p: PendingRefresh)
      requires Completing()
      modifies this
      ensures Valid()
      ensures refreshing == old(refreshing) - 1 && pending == old(pending)
      ensures trace == old(trace) + Completion(p, Synced)
      ensures regionManagerSubscriptions == old(regionManagerSubscriptions) && ventSubscriptions == old(ventSubscriptions)
      ensures forwarded == old(forwarded)
    {
      ghost var before := trace;
      AppendCompletion(before, p, Synced);
      trace := trace + [RoutingReset];
      refreshing := refreshing - 1;
      trace := trace + [Decrement, Trigger(RefreshEnd, None)];
      if p.onOk.Some? {
        trace := trace + [CallOk(p.onOk.value)];
      }
      assert trace == before + Completion(p, Synced);
    }

    /** The error callback of `App.sync`. */
    method SyncError(p: PendingRefresh, error: Payload)
      requires Completing()
      modifies this
      ensures Valid()
      ensures refreshing == old(refreshing) - 1 && pending == old(pending)
      ensures trace == old(trace) + Completion(p, SyncFailed(error))
      ensures regionManagerSubscriptions == old(regionManagerSubscriptions) && ventSubscriptions == old(ventSubscriptions)
      ensures forwarded == old(forwarded)
    {
      ghost var before := trace;
      AppendCompletion(before, p, SyncFailed(error));
      BareErrorNameIsUntyped(error);
      var end := Trigger(RefreshEnd, None);
      refreshing := refreshing - 1;
      trace := trace + [Decrement];
      if p.onError.Some? {
        var report := Classify("error", error);
        if report.Success? {
          trace := trace + [CallError(p.onError.value, report.value)];
        }
        trace := trace + [end];
        assert Completion(p, SyncFailed(error)) ==
          [Decrement, CallError(p.onError.value, Envelope("error", "", "", error)), end];
      } else {
        trace := trace + [end];
        assert Completion(p, SyncFailed(error)) == [Decrement, end];
      }
      assert trace == before + Completion(p, SyncFailed(error));
    }

    /** `themeApp.isRefreshing()`. */
    function IsRefreshing(): (b: bool)
      reads this
      ensures Valid() ==> (b <==> pending != [])
      ensures Valid() && !b ==> Count(trace, StartTag) == Count(trace, EndTag)
    {
      refreshing > 0
    }
  }
}
