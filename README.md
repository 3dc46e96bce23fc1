# Teddy Virtue Mythos — a verified model of the storybook viewer's logic

The storybook viewer has two pages. The library page shows a shelf of teddy
cards, one per story, and a row of virtue filter buttons. Hovering a card or
tapping it once shows a preview bubble with the story's title and preview.
Clicking a card, or tapping it a second time, opens the story page. The story
page looks the story up by the `id` query parameter. It shows the story, or
sends the reader back to the library when there is no such story.

This project models the logic of `js/app.js` with the DOM taken away:

- `wrappers.dfy` (`Wrappers`): `Option`, the model's `null`.
- `stories.dfy` (`Stories`): the feed's records and the fallback feed.
  Selecting the stories for a filter (`"all"` or a virtue). Finding a story by
  id. The story URL and the document title. What the story page does for an
  id: redirect or populate.
- `placement.dfy` (`Placement`): the integer arithmetic that places the bubble.
  It anchors the bubble centred above the card. On hover it pins the bubble
  10 pixels from a side edge or flips it below the card.
- `navigation.dfy` (`Navigation`): `navigateWithTransition` as a log of effects
  on the browser. The effects are the `page-exit` class and the assignments to
  the location. The browser's capabilities are boolean inputs.
- `library.dfy` (`Library`): cards as objects. The `Shelf` class renders the
  grid and handles filter clicks. `HandleCardClick` opens a card's story.
- `preview.dfy` (`Preview`): the preview bubble's state machine. `Step` gives
  the effect of one event and `Run` folds it over a trace. Lemmas prove the
  debounce, the tap gesture and coherence over traces. The `PreviewBubble`
  class holds the handlers' shared variables in fields. Each of its methods
  is proved to do what `Step` says.

The hover delay is the `TimerFires` event: a scheduled show is a single
pending slot that `Enter` replaces and `Leave` clears. When a timer fires with
nothing pending, nothing happens. The tap path places the bubble at the
unclamped anchor, while the hover path clamps it. The model keeps that
difference (`Placement.TapPlacementIsUnclamped`).

Two behaviours of the code are easy to misread; the model follows the code:

- A natural reading would be that the bubble is visible only while some card
  is its target. In the code a second tap clears the remembered card and
  leaves the bubble visible. Leaving a card hides the bubble but keeps the remembered
  tap. `Preview.TwoTapsOpenStory` shows the first case.
- The hover clamp tests are strict (`left < 10`, `right > innerWidth - 10`,
  `top < 10`). All three read the rectangle measured before any correction.
  So when both side tests fire, the right-edge pin wins.

## Model

| member | source | states |
|---|---|---|
| `Stories.Fallback` | js/app.js:26-41 | the fallback feed holds exactly one story, whose virtue is one of its declared virtues and whose id is non-empty |
| `Stories.WithVirtue` | js/app.js:61 | the filtered list is no longer than the feed and holds exactly the stories with that virtue |
| `Stories.WithVirtueAppend` | js/app.js:61 | filtering keeps feed order: filtering a concatenation is the concatenation of the filtered parts |
| `Stories.WithVirtueCounts` | js/app.js:61 | filtering keeps every copy of a story with the virtue and drops every other story |
| `Stories.Select` | js/app.js:59-61 | `"all"` selects the whole feed unchanged; any other filter selects exactly the stories with that virtue |
| `Stories.SelectIsOrderedSubsequence` | js/app.js:59-61 | for a virtue filter the selection preserves order across any split of the feed and keeps each matching story's multiplicity |
| `Stories.Find` | js/app.js:239 | the lookup fails exactly when no story has the id; a found story has the id and is in the feed |
| `Stories.FindIsFirst` | js/app.js:239 | the found story is the first one in the feed with that id |
| `Stories.UniqueIdFindsStory` | js/app.js:239 | with unique ids, looking up a story's id yields that very story |
| `Stories.StoryUrl` | js/app.js:205 | the URL is `story.html?id=` followed by the id, unencoded |
| `Stories.StoryUrlInjective` | js/app.js:205 | different ids give different story URLs |
| `Stories.DocumentTitle` | js/app.js:271 | the document title is the story title followed by ` - Teddy Virtue Mythos` |
| `Stories.DocumentTitleInjective` | js/app.js:271 | different story titles give different document titles |
| `Stories.StoryPage` | js/app.js:230-258 | the page redirects to `index.html` exactly when the id is missing or empty, there is no feed, or no story has the id; otherwise it populates title, virtue, text and document title from a story with that id |
| `Stories.StoryPageShowsFirstMatch` | js/app.js:239-258 | when some story has the requested non-empty id, the page shows the first story in the feed with that id |
| `Stories.StoryPageShowsOpenedStory` | js/app.js:231-244 | with unique, non-empty ids, a story page whose `id` parameter equals a story's id shows exactly that story |
| `Placement.Anchor` | js/app.js:140-142 | the bubble's centre lies over the card's centre and its top is 120 pixels above the card's top |
| `Placement.HoverPlacement` | js/app.js:140-154 | in a viewport at least 270 wide the bubble ends inside both side margins; an anchor that fits is left alone, and in such a viewport only one that fits; the bubble stays above the card exactly when that clears the top margin, and otherwise sits 20 pixels below the card |
| `Placement.LeftEdgePin` | js/app.js:146-148 | a bubble past the left margin (and not past the right one) is pinned at left 10 |
| `Placement.RightEdgePinWins` | js/app.js:145-151 | a bubble past the right margin is pinned at `innerWidth - 260`, even when it is also past the left margin |
| `Placement.NarrowViewportBothPinsFire` | js/app.js:145-151 | in a 100-pixel viewport both side tests fire and the right pin puts the bubble off the left edge |
| `Placement.TapPlacementIsUnclamped` | js/app.js:188-190 | for a card near the top-left corner the tap position is off screen where the hover position is clamped |
| `Navigation.LocationChanges` | js/app.js:213-224 | a URL is among the log's location changes exactly when some entry of the log assigns it to the location |
| `Navigation.TransitionEffects` | js/app.js:209-226 | exactly one location change, to `url`; inside the view transition if available, else 300 ms after adding `page-exit` if there is a container, else immediately; `page-exit` is added only on the delayed path |
| `Navigation.EachNavigationChangesLocationOnce` | js/app.js:209-226 | any sequence of navigations changes the location once per call, in call order |
| `Navigation.Browser.NavigateWithTransition` | js/app.js:209-226 | keeps the `page-exit` flag equal to whether the log has added the class; appends exactly the effects of one transition to the log, adds one location change, and sets `page-exit` only on the delayed path |
| `Library.Card.constructor` | js/app.js:64-68 | a card carries its story's id, title and preview |
| `Library.HandleCardClick` | js/app.js:203-206 | a card click navigates once, to that card's story URL |
| `Library.Shelf.constructor` | js/app.js:46-53 | the library page starts with filter `"all"` and one new card per story of the feed |
| `Library.Shelf.RenderTeddies` | js/app.js:53-98 | with a grid, the old cards are replaced by new, distinct cards, one per selected story in order, each with that story's id, title and preview; without a grid nothing changes |
| `Library.Shelf.ClickFilter` | js/app.js:107-117 | exactly the clicked button is active, the filter is its virtue and the grid shows that filter's selection |
| `Preview.Step` | js/app.js:127-199 | hover events never touch the tap memory or navigate, and taps never touch the pending show; Enter leaves one pending show, for its card; Leave cancels it and hides the bubble; a firing show displays its card's text at the hover placement; a tap elsewhere forgets and hides; a second tap on the same card navigates to its story and forgets it; a tap on another card shows it at the unclamped anchor |
| `Preview.TimersWithoutPendingAreInert` | js/app.js:161-166 | once the pending show is cancelled, timer firings change nothing |
| `Preview.EnterThenLeaveNeverShows` | js/app.js:127-166 | Enter then Leave before the show fires leaves the bubble hidden, and no later firing shows it |
| `Preview.DwellShowsCardOnce` | js/app.js:127-159 | Enter then the show firing makes the bubble visible with that card's text at the hover placement, and later firings change nothing |
| `Preview.TwoTapsOpenStory` | js/app.js:172-193 | for the `touchstart` handler alone, two taps on the same card navigate exactly once, to its story, clear the memory and leave the bubble visible with that card's text |
| `Preview.HoverTraceKeepsTapMemory` | js/app.js:127-167 | a trace without taps never changes the tap memory and never navigates |
| `Preview.TapTraceKeepsPendingShow` | js/app.js:172-199 | a trace of taps never changes the pending hover show |
| `Preview.InitialIsCoherent` | js/app.js:170 | the page starts with nothing pending, nothing tapped and the bubble hidden |
| `Preview.RunKeepsCoherent` | js/app.js:127-199 | along any trace over a set of cards, a visible bubble shows the title and preview of one of those cards, and every navigation goes to one of their stories |
| `Preview.PreviewBubble.constructor` | js/app.js:169-170 | the handlers start with nothing pending, nothing tapped and the bubble hidden |
| `Preview.PreviewBubble.MouseOver` | js/app.js:127-135 | the new state is `Step` of the old one for Enter |
| `Preview.PreviewBubble.ShowTimer` | js/app.js:135-157 | the new state is `Step` of the old one for the show firing, with the three corrections reading the uncorrected rectangle |
| `Preview.PreviewBubble.MouseOut` | js/app.js:161-167 | the new state is `Step` of the old one for Leave |
| `Preview.PreviewBubble.TouchStart` | js/app.js:172-199 | the new state is `Step` of the old one for the tap, and the browser log gains one navigation's effects exactly when `Step` navigates |

## Left out

- Fetching and parsing `/data/stories.json` is network I/O and is not modelled. Only the fallback feed is, as `Stories.Fallback`. The `console.error` call is not modelled.
- Card and story-page image markup, `onerror` placeholders and the `new Image()` preload check are presentation and asset loading.
- Registering the click listeners on cards and the back button's listener are event wiring. What those listeners do is modelled by `Library.HandleCardClick` and `Navigation.Browser.NavigateWithTransition`.
- Real timers are not modelled. The 300 ms hover delay is the `TimerFires` event, and only one show can be pending.
- Event bubbling, `closest()` and `mouseover`/`mouseout` firing again on child elements are abstracted as explicit `Enter`/`Leave` events on a card.
- A page without the bubble element, where `initPreviewBubble` would throw, is not modelled.
- `e.preventDefault()` on a first tap is not modelled. The `touchstart` listener is added to `document` without options, so by the DOM standard's default passive value it is passive and its `preventDefault()` has no effect: the browser's compatibility mouse events (`mouseover`, `click`) follow every tap.
- Preview.TwoTapsOpenStory: the model's `Tap` is the `touchstart` handler only. Every tap's compatibility `click` reaches the card's click listener, so in the page the first tap already navigates, and every tap's `mouseover` schedules a hover show. Those compatibility events are not modelled, so "exactly once" holds for the `touchstart` handler, not for the page.
- The View Transitions API, the `page-exit` animation, and what the browser does with `window.location` and `document.title` are recorded as outputs only.
- Stories.StoryPageShowsOpenedStory: the `id` parameter is assumed to read back verbatim the id that js/app.js:205 puts into the URL unencoded. `URLSearchParams` splits at `&`, cuts at `#`, turns `+` into a space and decodes `%xx`, so for ids containing those characters the page opened from a card may show another story or redirect.
- Reading the `id` query parameter with `URLSearchParams` is the browser's job. `Stories.StoryPage` takes the parameter's value. `Stories.StoryUrl` does not encode the id, and the model does not decode it.
- The bubble's initial text and position come from the page's HTML and CSS. The model starts them at `""` and (0, 0).
- Placement.Anchor: coordinates are integers, so `rect.width / 2` rounds down for odd widths, where the source keeps the half pixel in floating point.
- Placement.HoverPlacement: the bubble's measured rectangle is taken to start at its assigned position and to be 250 pixels wide. Real layout (CSS width, transforms, fractional pixels) is not modelled.
