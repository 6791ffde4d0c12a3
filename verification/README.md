# Cat swipe: gesture state machine and session tally

A model of the "swipe to like or dislike" page script `script.js`. Each cat card owns a
small gesture state machine: pointer-down starts a drag, pointer moves make the card
follow the pointer and light one of two indicators, and pointer-up either snaps the card
back (a cancel) or records a like or a dislike (a commit) and sends the card off-screen.
Commits feed the session tally: `likedCats`, the liked image URLs in like order, and
`totalSwiped`, the number of commits. A step deferred after each commit refreshes the
like counter and the gallery, and shows the summary popup once 20 commits are counted.

Modules:

- `Wrappers`: `Option`.
- `Presentation`: pure functions over the liked list. These are the decimal count text,
  the pluralised summary heading, the gallery of liked images and the popup content.
- `Tally`: class `Session` with the two globals and the page's display state. It keeps a
  ghost history of decisions; `Valid()` ties `likedCats` and `totalSwiped` to that history,
  so `|likedCats| <= totalSwiped` holds in every reachable state. `Reset` is the reset done
  by `initApp`. `AfterRemoval` is the 200 ms deferred callback, written as an explicit step.
- `Swipe`: class `SwipeController`, the per-card closure state of `enableSwipe`. It holds
  `startX`, `currentX`, `isDragging` and `moved`. The boolean `listening` stands for the
  five document listeners. The card's transform, transition and indicator opacities are
  fields too, and so is the count of deferred steps still to run. `Valid()` keeps
  `listening == isDragging`. It also keeps "`|currentX - startX| > 8` implies `moved`" and
  "at most one indicator lit". The release rule is the pure function `Decide`.
- `Loader`: the arithmetic and control of `loadCats`. The number of requests is
  `ceil(20 / 10) = 2`, and the request loop is modelled. The network responses are
  parameters, joined all-or-nothing, and one idle card is created per image.
- `Scenarios`: whole gestures on a fresh session and card, each with its result stated.

The network responses, the clock (the 200 ms timer) and the DOM are not modelled; the
network's answers are parameters and the timer callback is a method the caller invokes.

Behaviours of the script worth knowing, all modelled as written:

- Nothing bounds `totalSwiped` by 20. The script does nothing to stop swiping once the
  popup is shown, and a card can be committed again before it is removed.
- A committed card is not terminal. Its own pointer-down listener is never removed, so
  a second long drag during the 200 ms before removal records a second decision
  (`Scenarios.CommittedCardCanCommitAgain`).
- The popup is not shown exactly once. Every deferred step re-checks `totalSwiped >= 20`,
  so every callback that runs at or past 20 shows it again.
- `moved` adds nothing at release. Every move past 8 px sets it, and a commit needs more
  than 50 px, so only the final distance decides (`Swipe.CommitDependsOnDistanceOnly`).

## Model

| member | source | states |
|---|---|---|
| `Presentation.NatToString` | script.js:139 | the like count is written as non-empty decimal digits, with a leading `0` only for zero |
| `Presentation.ParseNatToString` | script.js:139 | the decimal text of a count reads back as that same count |
| `Presentation.NatToStringInjective` | script.js:193 | different counts never print the same text |
| `Presentation.Heading` | script.js:184-195 | "You liked 0 cat 😿" for no like, "You liked 1 cat ❤️" for one, "You liked n cats ❤️" for more |
| `Presentation.HeadingInjective` | script.js:184-195 | the heading determines the number of liked cats |
| `Presentation.Gallery` | script.js:158-161 | the gallery holds exactly one image per liked URL, in like order, each with alt text "Cat" |
| `Presentation.GalleryAppend` | script.js:158-161 | re-rendering after one more like gives the old gallery plus one image for the new URL |
| `Presentation.SummaryOf` | script.js:184-201 | the popup carries the heading for the count, plus the encouragement line iff nothing was liked, else the gallery of the liked URLs in order |
| `Presentation.FiveLikesSummary` | script.js:190-200 | five likes give "You liked 5 cats ❤️" and a gallery of exactly those five URLs |
| `Tally.LikedUrls` | script.js:130 | the liked list is never longer than the commit history, and each entry comes from a liked decision |
| `Tally.LikedUrlsAppend` | script.js:130-132 | a commit appends its URL to the liked list iff it is a like |
| `Tally.Session.constructor` | script.js:7-18 | the session starts with no likes, zero swipes, blank counter, empty gallery, popup hidden |
| `Tally.Session.Reset` | script.js:12-18 | reset empties the tally, counter and gallery and hides the popup (its content element is left as it was) |
| `Tally.Session.RecordDecision` | script.js:130-132 | a commit adds exactly 1 to `totalSwiped`, appends the URL iff liked, keeps `\|likedCats\| <= totalSwiped`, leaves the display alone |
| `Tally.Session.AfterRemoval` | script.js:137-143 | the counter is rewritten only when some cat is liked; the gallery is rebuilt; the popup is shown with the summary iff `totalSwiped >= 20`; the tally is unchanged |
| `Swipe.PointX` | script.js:95-96 | a mouse event gives its coordinate, a touch event its first touch, and only a touch event with no touch gives none |
| `Swipe.Decide` | script.js:121-135 | cancel iff not moved or `\|diff\| <= 50`; like iff moved and `diff > 50`; dislike iff moved and `diff < -50` |
| `Swipe.CommitDependsOnDistanceOnly` | script.js:98-121 | when every drag past 8 px is marked moved, a release commits iff `\|diff\| > 50`, and likes iff `diff > 50` |
| `Swipe.DragTransform` | script.js:102 | during a drag the card is at rest iff the pointer is back at the start, and both its offset and its rotation point to the side of the drag |
| `Swipe.OffScreen` | script.js:135 | a committed card goes 500 px to the side of the drag and turns 20 degrees that way |
| `Swipe.Opacity` | script.js:104 | the indicator value lies in [0, 1], is 0 only at no displacement, is `\|diff\| / 100` up to 100 px and 1 from 100 px on |
| `Swipe.OpacityMonotone` | script.js:104 | a longer drag never gives a fainter indicator |
| `Swipe.IndicatorsFor` | script.js:104-113 | at most one indicator is lit; like is lit iff `diff > 0`, dislike iff `diff < 0`; the lit one carries the opacity value |
| `Swipe.SwipeController.constructor` | script.js:70-75 | a new card is idle at offset 0 with no document listeners and no pending step |
| `Swipe.SwipeController.StartDrag` | script.js:77-89 | whatever the previous state, `startX` and `currentX` become the press coordinate, `moved` is cleared, dragging starts, the transition is switched off and the listeners are attached |
| `Swipe.SwipeController.OnDrag` | script.js:91-114 | nothing changes when not dragging or without a coordinate; otherwise `currentX` follows the pointer, `moved` is set past 8 px and never cleared, and the transform and indicators follow the displacement |
| `Swipe.SwipeController.EndDrag` | script.js:116-154 | no-op when not dragging; otherwise dragging stops and the listeners are released on both exits; a cancel resets transform and indicators and leaves the session unchanged; a commit records exactly one decision, sends the card off-screen and schedules one deferred step |
| `Swipe.SwipeController.RunDeferred` | script.js:137-143 | one scheduled deferred step of this card runs the session's post-commit refresh |
| `Loader.CeilDiv` | script.js:27 | the request count is the least number of 10-image batches covering 20 images |
| `Loader.RequestUrls` | script.js:24-34 | two requests are issued, each asking the search endpoint for 10 images |
| `Loader.JoinAll` | script.js:36-40 | the load fails iff some request failed; otherwise it yields every batch's images joined in request order (`Concat`) |
| `Loader.JoinTwo` | script.js:36-38 | two successful batches give their images back to back |
| `Loader.LoadCards` | script.js:36-41 | one fresh, distinct, idle card per loaded image, in order; no card when any request failed |
| `Loader.ConcatAppend` | script.js:38 | flattening one more successful batch appends its images to the list |
| `Scenarios.ShortDragSnapsBack` | script.js:121-127 | a 30 px drag is cancelled: card at rest, indicators dark, nothing recorded |
| `Scenarios.LongRightDragLikes` | script.js:130-135 | an 80 px right drag likes: the URL is appended, one swipe is counted, the card leaves right |
| `Scenarios.LongLeftDragDislikes` | script.js:130-135 | an 80 px left drag dislikes: one swipe is counted, nothing is liked, the card leaves left |
| `Scenarios.TouchWithoutPointIgnored` | script.js:95-96 | a touch move without a touch point leaves the drag where it was |
| `Scenarios.SecondReleaseIgnored` | script.js:116-118 | a second release after a commit is ignored; one drag records one decision |
| `Scenarios.CommittedCardCanCommitAgain` | script.js:74-75 | a committed card dragged again before removal records a second decision |
| `Scenarios.DragBackWithinThresholdCancels` | script.js:121 | a drag that went past 8 px and came back is still cancelled |

## Left out

- Image fetching: the HTTP requests, JSON decoding and `Promise.all` scheduling are
  network I/O. Their results are parameters of `Loader.JoinAll` and `Loader.LoadCards`.
  The `console.error` on failure is not modelled.
- DOM construction of a card: the elements, classes, overlay glyphs and stacking order.
  `LoadCards` keeps only the image URL of each card.
- Markup and styling: the `innerHTML` text of the gallery and popup, inline image styles,
  and the close-button span are left out. The gallery is a sequence of images (source, alt).
- Card removal: `card.remove()` and `initApp` emptying the card container are DOM
  operations on elements the session does not own. The cards themselves are not removed.
- Overlay scaling `scale(0.5 + opacity)` and CSS transform strings are rendering. The
  transform is kept as numbers (offset, degrees).
- `preventDefault` on cancelable moves and passive-listener options are left out: they do
  not affect the gesture state.
- Timing: the 200 ms timer and the 250 ms animation duration are not timed. The deferred
  step is `RunDeferred`/`AfterRemoval`, invoked explicitly.
- The popup's missing-content early return and the close-button wiring are left out; the
  model assumes the `.popup-content` element exists. The wiring calls `initApp` again,
  which is `Session.Reset` followed by a fresh `Loader.LoadCards`; emptying the card
  container in between is a DOM operation and is not modelled.
- The commented-out first version of `showPopup` is not modelled.
- Pointer coordinates are whole pixels (`int`). Fractional `clientX` values are not
  modelled; opacity and rotation are `real`.
- Concurrency between a commit and its deferred removal is modelled only as the count
  `pendingRemovals`. The order in which several pending steps run is the caller's choice.
