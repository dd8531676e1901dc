/**
 * Screen navigation helpers of the theme layer (wp-app-kit/app/core/theme-app.js):
 * the transition direction table and the transition dispatch it drives, the
 * back button's visibility and its click handler, and the "get more" link.
 * The application core's screen data is passed in as parameters.
 */
module Navigation {
  import opened Wrappers
  import opened Callbacks

  /**
   * A screen descriptor as the core reads it; a missing `screen_type` or
   * `component_id` is `None` (undefined compares unequal to every string).
   */
  datatype Screen = Screen(screenType: Option<string>, componentId: Option<string>)

  predicate HasType(s: Screen, t: string)
  {
    s.screenType == Some(t)
  }

  predicate IsListLike(s: Screen)
  {
    HasType(s, "list") || HasType(s, "custom-component")
  }

  /************************************************
   * Screen transitions
   */

  datatype Direction = Left | Right | Replace

  /** `getTransitionDirection(current_screen, previous_screen)`. */
  function TransitionDirection(current: Screen, previous: Screen): (d: Direction)
    ensures d == Right <==>
      (IsListLike(current) && HasType(previous, "single")) ||
      (HasType(current, "single") && HasType(previous, "comments"))
    ensures d == Left <==>
      (HasType(current, "single") && IsListLike(previous)) || HasType(current, "comments")
    ensures d == Replace <==>
      !(IsListLike(current) && HasType(previous, "single")) &&
      !(HasType(current, "single") && (IsListLike(previous) || HasType(previous, "comments"))) &&
      !HasType(current, "comments")
  {
    if current.screenType == Some("list") || current.screenType == Some("custom-component") then
      if previous.screenType == Some("single") then Right else Replace
    else if current.screenType == Some("single") then
      if previous.screenType == Some("list") || previous.screenType == Some("custom-component") then Left
      else if previous.screenType == Some("comments") then Right
      else Replace
    else if current.screenType == Some("comments") then Left
    else Replace
  }

  /** The three transition functions given to `setAutoScreenTransitions`. */
  datatype TransitionHandlers = TransitionHandlers(onReplace: Callback, onLeft: Callback, onRight: Callback)

  /** One call of a theme callback with its arguments. */
  datatype Invocation = Invocation(callback: Callback, args: seq<Ref>)

  /**
   * The "screen-transition" action registered by `setAutoScreenTransitions`:
   * called with `($deferred, $wrapper, $current, $next, current_screen,
   * previous_screen)`, it calls one transition function with
   * `($wrapper, $current, $next, $deferred)`.
   */
  function ScreenTransition(h: TransitionHandlers, deferred: Ref, wrapper: Ref, currentView: Ref, nextView: Ref,
                            current: Screen, previous: Screen): (calls: seq<Invocation>)
    ensures |calls| == 1
    ensures calls[0].args == [wrapper, currentView, nextView, deferred]
    ensures calls[0].callback in {h.onReplace, h.onLeft, h.onRight}
    ensures TransitionDirection(current, previous) == Left ==> calls[0].callback == h.onLeft
    ensures TransitionDirection(current, previous) == Right ==> calls[0].callback == h.onRight
    ensures TransitionDirection(current, previous) == Replace ==> calls[0].callback == h.onReplace
  {
    var args := [wrapper, currentView, nextView, deferred];
    match TransitionDirection(current, previous)
    case Left => [Invocation(h.onLeft, args)]
    case Right => [Invocation(h.onRight, args)]
    case Replace => [Invocation(h.onReplace, args)]
  }

  /************************************************
   * Back button
   */

  datatype Display = Show | Hide

  /**
   * `getBackButtonDisplay()`, given the core's previous screen data:
   * `None` stands for an empty one (`_.isEmpty` holds).
   */
  function GetBackButtonDisplay(previous: Option<Screen>): Display
  {
    if previous.Some? then Show else Hide
  }

  /** The button is shown exactly when the previous screen data is non-empty. */
  lemma BackButtonShownIffPrevious(previous: Option<Screen>)
    ensures GetBackButtonDisplay(previous) == Show <==> previous.Some?
    ensures GetBackButtonDisplay(previous) == Hide <==> previous.None?
  {
  }

  /** A click handler bound on the back button element. */
  datatype ClickHandler =
    | NavigateBack              // the handler bound by `updateBackButtonEvents`
    | OtherHandler(cb: Callback) // any handler theme code bound itself

  /**
   * The click handlers after `updateBackButtonEvents` on a jQuery collection of
   * `length` elements: `unbind('click')` drops every click handler, and on
   * `show` exactly one navigating handler is bound again.
   */
  function UpdatedClickHandlers(length: nat, handlers: seq<ClickHandler>, previous: Option<Screen>): seq<ClickHandler>
  {
    if length == 0 then handlers
    else match GetBackButtonDisplay(previous)
      case Show => [NavigateBack]
      case Hide => []
  }

  /** The back navigations one click performs: every bound `NavigateBack` navigates to `link`. */
  function ClickNavigations(handlers: seq<ClickHandler>, link: string): (r: seq<string>)
    ensures |r| <= |handlers|
    ensures forall i :: 0 <= i < |r| ==> r[i] == link
  {
    if handlers == [] then []
    else (if handlers[0] == NavigateBack then [link] else []) + ClickNavigations(handlers[1..], link)
  }

  /** An update on an empty collection leaves its handlers alone. */
  lemma UpdateOnEmptyElement(handlers: seq<ClickHandler>, previous: Option<Screen>)
    ensures UpdatedClickHandlers(0, handlers, previous) == handlers
  {
  }

  /**
   * After an update on a non-empty element, one click navigates back once when
   * the button is shown and not at all when it is hidden.
   */
  lemma OneNavigationPerClick(length: nat, handlers: seq<ClickHandler>, previous: Option<Screen>, link: string)
    requires length > 0
    ensures |ClickNavigations(UpdatedClickHandlers(length, handlers, previous), link)| ==
            (if GetBackButtonDisplay(previous) == Show then 1 else 0)
  {
  }

  /** The handlers after `updateBackButtonEvents` has run once per entry of `history`, in order. */
  function UpdatedClickHandlersAll(length: nat, handlers: seq<ClickHandler>, history: seq<Option<Screen>>): seq<ClickHandler>
    decreases |history|
  {
    if history == [] then handlers
    else UpdatedClickHandlersAll(length, UpdatedClickHandlers(length, handlers, history[0]), history[1..])
  }

  /** On a non-empty element, a run of updates leaves what the last update alone binds. */
  lemma {:induction false} LastUpdateDecides(length: nat, handlers: seq<ClickHandler>, history: seq<Option<Screen>>)
    requires length > 0 && history != []
    ensures UpdatedClickHandlersAll(length, handlers, history) ==
            UpdatedClickHandlers(length, [], history[|history| - 1])
    decreases |history|
  {
    var next := UpdatedClickHandlers(length, handlers, history[0]);
    if |history| == 1 {
      assert history[1..] == [];
    } else {
      LastUpdateDecides(length, next, history[1..]);
      assert history[1..][|history[1..]| - 1] == history[|history| - 1];
    }
  }

  /**
   * However often the handler is rebound, a click on a non-empty back button
   * navigates back at most once, and exactly as the last update's display says.
   */
  lemma RebindingNeverDoublesNavigation(length: nat, handlers: seq<ClickHandler>,
                                        history: seq<Option<Screen>>, link: string)
    requires length > 0 && history != []
    ensures |ClickNavigations(UpdatedClickHandlersAll(length, handlers, history), link)| ==
            (if GetBackButtonDisplay(history[|history| - 1]) == Show then 1 else 0)
  {
    LastUpdateDecides(length, handlers, history);
    OneNavigationPerClick(length, [], history[|history| - 1], link);
  }

  /** The back button element (a jQuery collection) with its click handlers and visibility. */
  class BackButton {
    const length: nat
    var visible: bool
    var clickHandlers: seq<ClickHandler>

    constructor (length: nat, visible: bool, clickHandlers: seq<ClickHandler>)
      ensures this.length == length && this.visible == visible && this.clickHandlers == clickHandlers
    {
      this.length := length;
      this.visible := visible;
      this.clickHandlers := clickHandlers;
    }

    /** `updateBackButtonEvents($go_back_btn)`. */
    method UpdateBackButtonEvents(previous: Option<Screen>)
      modifies this
      ensures clickHandlers == UpdatedClickHandlers(length, old(clickHandlers), previous)
      ensures visible == old(visible)
    {
      if length > 0 {
        var display := GetBackButtonDisplay(previous);
        if display == Show {
          clickHandlers := [];
          clickHandlers := clickHandlers + [NavigateBack];
        } else {
          clickHandlers := [];
        }
      }
    }

    /**
     * The "screen:showed" handler that `setAutoBackButton` registers: it
     * returns the argument passed to `do_before_auto_action` (`None` when no
     * such function was given), shows or hides the element and updates its
     * click handler.
     */
    method OnScreenShowed(previous: Option<Screen>, hasBeforeAction: bool) returns (beforeArg: Option<bool>)
      modifies this
      ensures beforeArg == if hasBeforeAction then Some(GetBackButtonDisplay(previous) == Show) else None
      ensures visible == if length > 0 then GetBackButtonDisplay(previous) == Show else old(visible)
      ensures clickHandlers == UpdatedClickHandlers(length, old(clickHandlers), previous)
    {
      var display := GetBackButtonDisplay(previous);
      beforeArg := None;
      if display == Show {
        if hasBeforeAction {
          beforeArg := Some(true);
        }
        if length > 0 {
          visible := true;
        }
        UpdateBackButtonEvents(previous);
      } else {
        if hasBeforeAction {
          beforeArg := Some(false);
        }
        UpdateBackButtonEvents(previous);
        if length > 0 {
          visible := false;
        }
      }
    }
  }

  /************************************************
   * "Get more" link
   */

  /** The `data` attribute of a list component: its `ids` array, when it has one, and `total`. */
  datatype ComponentData = ComponentData(ids: Option<seq<string>>, total: int)

  datatype GetMoreLink = GetMoreLink(display: bool, nbLeft: int)

  /**
   * `getGetMoreLinkDisplay()`, given the current screen and the core's
   * components by id.
   */
  function GetGetMoreLinkDisplay(current: Screen, components: map<string, ComponentData>): (r: GetMoreLink)
    ensures r.display <==> r.nbLeft > 0
    ensures r.nbLeft != 0 ==>
      HasType(current, "list") && current.componentId.Some? && current.componentId.value in components &&
      components[current.componentId.value].ids.Some?
    ensures HasType(current, "list") && current.componentId.Some? && current.componentId.value in components &&
            components[current.componentId.value].ids.Some? ==>
      var data := components[current.componentId.value];
      r.nbLeft == data.total - |data.ids.value|
  {
    var link := GetMoreLink(false, 0);
    if current.screenType == Some("list") then
      match current.componentId
      case None => link
      case Some(id) =>
        if id !in components then link
        else
          var data := components[id];
          match data.ids
          case None => link
          case Some(ids) =>
            var nbLeft := data.total - |ids|;
            GetMoreLink(nbLeft > 0, nbLeft)
    else link
  }
}
