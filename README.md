# Theme layer of WP-AppKit, modelled in Dafny

This project models two small pieces of WP-AppKit, a WordPress plugin that builds mobile web apps.

The first piece is the module that theme code calls (`themeApp` in `wp-app-kit/app/core/theme-app.js`). It does the following:

- It classifies raw application events into envelopes `{event, type, message, data}`.
- It routes theme subscriptions either to the region manager or to its local `vent` event channel.
- It re-triggers error and info events on `vent`.
- It counts refreshes that are in flight with the module-level `refreshing` counter.
- It picks a screen transition direction and calls the matching transition function.
- It drives the back button's visibility and click handler.
- It computes the "get more" link.

The second piece is the `Subject` observer list of the admin script `wp-appkit/lib/apps/apps.js`.

Files:

- `wrappers.dfy`: `Option` and `Result`.
- `callbacks.dfy`: module `Callbacks`, the opaque theme callbacks and objects that the other modules pass around.
- `event_classifier.dfy`: module `EventClassifier`. It holds `format_theme_event_data` and the JavaScript `indexOf`/`replace` it relies on.
- `navigation.dfy`: module `Navigation`. It holds the transition table and its dispatch, the back button (a class that owns its click handlers) and the "get more" link.
- `theme_events.dfy`: module `ThemeEvents`. Class `ThemeApp` holds the module-level state: the region-manager and `vent` subscriptions, the registrations forwarded to the hooks module, the `refreshing` counter, the outstanding refreshes and a trace of observable steps. The steps are `vent` triggers, counter steps and callback calls, recorded in the order they happen.
- `subject.dfy`: module `Observers`, with the class `Subject`.

Calls into the application core are parameters of the model. This covers `App.getPreviousScreenData`, `App.getCurrentScreenData`, `App.components` and the completion of `App.sync`.

Overlapping refreshes work as follows. `ThemeApp.Refresh` starts a refresh. `ThemeApp.CompleteRefresh(k, outcome)` completes any one of the outstanding refreshes. Any order of whole starts and whole completions is therefore a sequence of calls on one `ThemeApp`. A refresh started from inside a running completion is not covered (see "## Left out"). `ThemeApp.Valid()` is preserved by every method except the two completion callbacks `MenuBuilt` and `SyncError`. Those are called by `CompleteRefresh`, require the intermediate state `Completing()`, and establish `Valid()`. `Valid()` states three facts:

- The counter equals the number of outstanding refreshes.
- Every `refresh:start` is matched by one `refresh:end`, except for the outstanding refreshes.
- Every increment is matched by one decrement, except for the outstanding refreshes.

Two places behave differently from what one might expect; the model follows the code:

- On the refresh error path, the code classifies the bare name `"error"` (theme-app.js:144). The envelope given to `cb_error` therefore has type `""`, event `"error"` and message `""`. It is not typed `"error"` (`BareErrorNameIsUntyped`, `Completion`).
- The classifier is not total. For an `error:` event whose payload is `null` or `undefined`, reading `data.type` throws a TypeError. `Classify` returns `Failure(PropertyOfNullish)` in that case, and `ThemeApp.OnAppEvent` reports `thrown`.

The info message is chosen by comparing the whole name with `info:no-content` (theme-app.js:87). That is the same as comparing the stripped name with `no-content`.

## Model

| member | source | states |
|---|---|---|
| EventClassifier.IndexOfFrom | wp-app-kit/app/core/theme-app.js:64 | the result is -1 when `p` occurs nowhere at or after `from`, else the first position at or after `from` where `p` occurs |
| EventClassifier.IndexOfZero | wp-app-kit/app/core/theme-app.js:64 | `indexOf(p) === 0` holds exactly when `p` is a prefix of the name |
| EventClassifier.ReplacePrefix | wp-app-kit/app/core/theme-app.js:67 | replacing a leading prefix with `""` leaves the rest of the name |
| EventClassifier.PrefixesExclusive | wp-app-kit/app/core/theme-app.js:64-82 | no name starts with both `error:` and `info:` |
| EventClassifier.Classify | wp-app-kit/app/core/theme-app.js:60-94 | it throws exactly for an `error:` name with null/undefined data; data is passed through; `error:X` gives type error, event X, and the connection message iff `data.type == 'ajax'`, else the generic one; `info:X` gives type info, event X, and the no-content message iff the name is `info:no-content`, else `""`; any other name gives itself with type and message `""` |
| EventClassifier.ClassifyRoundTrip | wp-app-kit/app/core/theme-app.js:62-93 | the type is one of error/info/""; type, a colon and event rebuild the raw name of a typed envelope; an untyped envelope carries the raw name |
| EventClassifier.BareErrorNameIsUntyped | wp-app-kit/app/core/theme-app.js:144 | classifying `"error"` gives `{event: "error", type: "", message: "", data}` for every payload |
| ThemeEvents.VentNamesRouteToVent | wp-app-kit/app/core/theme-app.js:27-42 | `on` sends every `error:`/`info:` name and "error", "info", "refresh:start", "refresh:end" to `vent`, never to the region manager |
| ThemeEvents.Relay | wp-app-kit/app/core/theme-app.js:45-57 | it fails exactly when classification throws; otherwise it performs two triggers iff the name has an `error:`/`info:` prefix and zero otherwise; the first trigger is under the raw name and the second under the type, both with the envelope; no relayed trigger is a refresh event |
| ThemeEvents.AjaxErrorRelayed | wp-app-kit/app/core/theme-app.js:45-80 | `error:X` with an ajax payload reaches `vent` once as `error:X` and once as `error`, with event X and the connection message |
| ThemeEvents.Count | wp-app-kit/app/core/theme-app.js:117-154 | the count of steps with a tag is at most the trace length, and is zero iff no step has that tag |
| ThemeEvents.CountConcat | wp-app-kit/app/core/theme-app.js:117-154 | counts of a concatenated trace add up |
| ThemeEvents.Completion | wp-app-kit/app/core/theme-app.js:124-147 | on success: history reset, decrement, `refresh:end`, then `cb_ok` if given; on error: decrement, `cb_error` with the untyped "error" envelope if given, then `refresh:end` |
| ThemeEvents.CompletionBalanced | wp-app-kit/app/core/theme-app.js:124-147 | each completion, ok or error, has exactly one decrement and one `refresh:end`, and no increment or `refresh:start` |
| ThemeEvents.ThemeApp.constructor | wp-app-kit/app/core/theme-app.js:117 | at load the counter is 0 and nothing is subscribed, outstanding or traced |
| ThemeEvents.ThemeApp.On | wp-app-kit/app/core/theme-app.js:27-42 | a reserved name is appended to the region-manager subscriptions, any other name to `vent`'s; the other registry and all other state are unchanged |
| ThemeEvents.ThemeApp.OnAppEvent | wp-app-kit/app/core/theme-app.js:45-57 | the trace grows by exactly the relay's triggers, or nothing when classification throws; the counter invariant is kept |
| ThemeEvents.ThemeApp.Filter | wp-app-kit/app/core/theme-app.js:100-102 | one `addFilter` registration is forwarded, nothing else changes |
| ThemeEvents.ThemeApp.Action | wp-app-kit/app/core/theme-app.js:104-106 | one `addAction` registration is forwarded, nothing else changes |
| ThemeEvents.ThemeApp.SetAutoScreenTransitions | wp-app-kit/app/core/theme-app.js:333-358 | it sets `custom-screen-rendering` to true, then registers the "screen-transition" action with the three transition functions |
| ThemeEvents.ThemeApp.Refresh | wp-app-kit/app/core/theme-app.js:119-123 | the counter goes up by one, the trace gains an increment then `refresh:start`, and one outstanding refresh is added; the invariant is kept |
| ThemeEvents.ThemeApp.CompleteRefresh | wp-app-kit/app/core/theme-app.js:124-149 | outstanding refresh `k` is removed, the counter goes down by one, and the trace gains that refresh's completion steps; the invariant is kept, so the counter never goes negative |
| ThemeEvents.ThemeApp.MenuBuilt | wp-app-kit/app/core/theme-app.js:125-140 | the success callback: the counter goes down by one and the trace gains the success completion |
| ThemeEvents.ThemeApp.SyncError | wp-app-kit/app/core/theme-app.js:141-147 | the error callback: the counter goes down by one and the trace gains the error completion |
| ThemeEvents.ThemeApp.IsRefreshing | wp-app-kit/app/core/theme-app.js:152-154 | true iff some refresh is outstanding; when false, the numbers of `refresh:start` and `refresh:end` triggers are equal |
| Navigation.TransitionDirection | wp-app-kit/app/core/theme-app.js:307-331 | right iff list/custom-component after single, or single after comments; left iff single after list/custom-component, or comments after anything; replace otherwise |
| Navigation.ScreenTransition | wp-app-kit/app/core/theme-app.js:337-356 | exactly one of the three transition functions is called, the one the direction names, with the arguments reordered to (wrapper, current, next, deferred) |
| Navigation.BackButtonShownIffPrevious | wp-app-kit/app/core/theme-app.js:198-210 | the display is show iff the previous screen data is non-empty, and hide iff it is empty (`None` stands for `_.isEmpty(previous_screen)` holding) |
| Navigation.ClickNavigations | wp-app-kit/app/core/theme-app.js:221-225 | one click makes at most one navigation per bound handler, each to the previous screen's link |
| Navigation.UpdateOnEmptyElement | wp-app-kit/app/core/theme-app.js:218 | an update on an empty element leaves its click handlers unchanged |
| Navigation.OneNavigationPerClick | wp-app-kit/app/core/theme-app.js:217-230 | after an update on a non-empty element, a click navigates back once when the display is show (previous screen non-empty), and never when it is hide |
| Navigation.LastUpdateDecides | wp-app-kit/app/core/theme-app.js:217-230 | after a run of updates on a non-empty element, the bound handlers are those the last update alone binds |
| Navigation.RebindingNeverDoublesNavigation | wp-app-kit/app/core/theme-app.js:217-230 | however often the handler is rebound, a click navigates back at most once, as the last display says |
| Navigation.BackButton.UpdateBackButtonEvents | wp-app-kit/app/core/theme-app.js:217-230 | on a non-empty element, every click handler is unbound, and one navigating handler is bound again iff the display is show; an empty element is untouched |
| Navigation.BackButton.OnScreenShowed | wp-app-kit/app/core/theme-app.js:174-191 | `do_before_auto_action` gets true iff the display is show; a non-empty element becomes visible iff the display is show; its handlers are updated |
| Navigation.GetGetMoreLinkDisplay | wp-app-kit/app/core/theme-app.js:236-253 | display iff `nb_left > 0`; `nb_left` is `total - ids.length` for a list screen whose component exists and has `ids`; otherwise the result is `{false, 0}` |
| Observers.RemoveFirst | wp-appkit/lib/apps/apps.js:12-20 | removal shortens the list by one iff the element is present |
| Observers.FirstIndex | wp-appkit/lib/apps/apps.js:13-14 | the result is the first position holding the element, or the length when the element is absent |
| Observers.RemoveFirstAt | wp-appkit/lib/apps/apps.js:13-17 | removal at the first occurrence keeps the entries before and after it, in order |
| Observers.RemoveFirstAbsent | wp-appkit/lib/apps/apps.js:19 | an absent element leaves the list unchanged |
| Observers.RemoveFirstMultiset | wp-appkit/lib/apps/apps.js:12-17 | a present element loses exactly one copy |
| Observers.ObserveUnobserve | wp-appkit/lib/apps/apps.js:8-17 | unobserving a just-observed, previously absent element restores the list |
| Observers.Subject.constructor | wp-appkit/lib/apps/apps.js:3-5 | a new subject has an empty list |
| Observers.Subject.Observe | wp-appkit/lib/apps/apps.js:8-10 | the element is appended at the end, and earlier entries and duplicates are kept |
| Observers.Subject.Unobserve | wp-appkit/lib/apps/apps.js:12-20 | returns true iff the element was present; the list loses its first occurrence, or is unchanged |
| Observers.Subject.Notify | wp-appkit/lib/apps/apps.js:22-27 | exactly one `update` per entry, in list order, all with the same arguments; the list is not changed |

## Left out

- Hooks module: `Hooks.addFilter`/`addAction` are only recorded as forwarded registrations. The filter chaining and action invocation of `core/lib/hooks` are not part of this model.
- Backbone events: which `vent` or region-manager handlers a trigger reaches, and in what order, is not modelled. Triggers are recorded in the trace and subscriptions in ordered registries.
- `App.sync` and `RegionManager.buildMenu` are modelled as one completion that succeeds or fails. A `buildMenu` that never calls back is not modelled.
- `App.resetDefaultRoute`, `App.router.default_route` and `Backbone.history.stop/start` (theme-app.js:127-130) are one `RoutingReset` step.
- DOM work: `show`/`hide` is a `visible` flag. jQuery click binding is the element's list of click handlers. `preventDefault` is not modelled.
- `setContextClass`/`setAutoContextClass` (regex class changes on DOM elements) and `getMoreComponentItems` (view rendering after `App.getMoreOfComponent`) are left out as DOM and rendering work.
- `navigate`, `setParam` and `showCustomPage` are left out because they only pass calls on to the core. `setParam` appears only as the call `setAutoScreenTransitions` makes.
- `setAutoBackButton`'s own registration on "screen:showed" is left out. The handler it registers is `BackButton.OnScreenShowed`.
- The `default` branch of the transition `switch` (theme-app.js:351-353) is left out because it cannot be reached: the direction is always one of the three values.
- Payloads: `data.type == 'ajax'` is modelled as the string the property compares equal to. Coercion of non-string values and property getters are not modelled.
- `GetGetMoreLinkDisplay` assumes well-formed component data. A component without a `data` attribute, `ids` that are not an array, or a non-numeric `total` (which gives NaN) are not modelled.
- The `refreshing` counter is an unbounded integer. JavaScript's 2^53 limit is not modelled.
- Re-entrant calls from theme callbacks are not modelled. `vent` handlers, `cb_ok`, `cb_error` and `do_before_auto_action` are treated as opaque and effect-free. In the source they run synchronously and may call `themeApp.refresh()`. A `refresh:end` handler or a `cb_error` that refreshes would put an increment and `refresh:start` inside a completion's steps, and `CompleteRefresh` does not produce such traces.
- `BackButton.OnScreenShowed` returns the argument given to `do_before_auto_action`. It does not record that the call happens before `show()`/`hide()` (theme-app.js:178-188).
- Theme callbacks, `vent` handlers and observer `update` functions are assumed to return normally. Neither the source nor Backbone's `trigger` catches exceptions, so a throw ends the calling operation early. Four cases are not modelled:
  - A `cb_error` that throws (theme-app.js:144) skips `vent.trigger('refresh:end')` (theme-app.js:146). After that failed sync the code emits a decrement but no `refresh:end`, so the start/end balance in `ThemeApp.Valid()`, `Completion` and `CompletionBalanced` does not hold on that path.
  - A handler of the first relay trigger (theme-app.js:53) that throws suppresses the second trigger (theme-app.js:54). `Relay` always gives both triggers.
  - A `refresh:end` handler that throws (theme-app.js:133) skips `cb_ok` (theme-app.js:135-137).
  - An `update` that throws, or an entry without an `update` method, stops `notify` (apps.js:25) before the later entries. `Subject.Notify` promises one call per entry.
- `Subject.Notify`: an `update` that changes the subject while `notify` runs is not modelled. The model treats `update` as an external call that does not touch the subject.
- The admin wizard in apps.js (lines 32-135) is left out as jQuery form checks and CSS toggling.
