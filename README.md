# TimeMachine: a verified model of the snapshot scrubber

`src/components/TimeMachine.js` is a React widget that lets a user browse historical
snapshots of the election results. The snapshots are listed in a fixed catalog, `dirs`.
The user moves through them with a history button, the arrow keys, two step buttons
and a timeline of clickable segments, and hovering a segment previews its time.
This project models the logic under the JSX in Dafny:

- `catalog.dfy` (module `Catalog`): the 132 catalog rows, the `_.findIndex` lookup,
  and the proof that the catalog is non-empty, strictly ordered by time and free of
  duplicate ids.
- `digits.dfy` (module `Digits`): `\d`, and fixed-width decimal rendering with its
  inverse. The catalog is written with this rendering (see below).
- `readable_time.dfy` (module `ReadableTime`): `dirNameToReadableTime`, which is
  `n.replace(/(\d{4})(\d{2})(\d{2})(\d{2})(\d{2})\d+/, "$1-$2-$3 $4:$5")` with
  JavaScript's regex semantics for this one pattern: the leftmost match, a greedy
  final `\d+`, and only the first match replaced.
- `timeline.dfy` (module `Timeline`): the segments drawn by
  `dirs.slice(0, -1).map(...)`, with their flex weights and `data-active` flags.
- `status_line.dfy` (module `StatusLine`): the three-way status line, using
  JavaScript truthiness (`null` and `""` are false).
- `time_machine.dfy` (module `Widget`): class `TimeMachine`. It holds `override`,
  `hover`, the ref `timeout.current`, the set of pending timers and a ghost log of
  `trackEvent` calls. `GoBackTo`, `MoveTimeBy`, `HandleKeyDown`, `Toggle`,
  `MouseOver`, `MouseOut` and a host step `Fire` (a timer runs) update them.
- `scenarios.dfy` (module `Scenarios`): event sequences on a freshly mounted widget,
  proved from the handlers' contracts.

Each catalog id is a 14-digit timestamp string such as `"20190324181931"`. The model
writes each row's id as that numeral, and `Catalog.IdOf` renders it back as exactly 14
digits. The verifier can compare integers across the 132-row table cheaply, but not
strings. So the ids are proved distinct from "numerals strictly increase" plus
"rendering is injective below 10^14". The injectivity comes from the round trip
`Digits.ValueOfDecimal`.

The ids of the first and last rows are proved to render as the strings written in the
source (`Catalog.FirstId`, `Catalog.LastId`).

### Notes on the source

- The status line's "viewing latest" branch (src/components/TimeMachine.js:91-95) is never
  drawn, because the control that contains it is rendered only while the override is truthy
  (src/components/TimeMachine.js:64). `StatusLine.RenderedNeverLatest` and
  `Widget.TimeMachine.Rendered` state this.
- The time is taken from the leftmost run of at least 13 digits anywhere in the string. The
  rest of that run is dropped, and a string without such a run is returned unchanged.
- `hover` starts as `""` (`useState("")`, src/components/TimeMachine.js:25) and becomes `null`
  when the clear timer runs. Both values are falsy, and the model keeps them apart.

## Model

| member | source | states |
|---|---|---|
| Catalog.FindFrom | src/components/TimeMachine.js:36 | the result is -1 exactly when no entry at or after `from` has the key as id; otherwise it is the first such entry |
| Catalog.FindIndex | src/components/TimeMachine.js:36 | `_.findIndex(dirs, entry => entry[0] === override)`: -1 iff no entry matches (always for `null`), else the first matching index |
| Catalog.FindIndexOfId | src/components/TimeMachine.js:36 | with unique ids, looking up the id of entry `i` finds `i` |
| Catalog.Raw | src/components/TimeMachine.js:149-282 | the 132 rows of `dirs` in order, each id written as its numeral; `Catalog.Dirs` renders the ids with `IdOf`, and `DirsWellFormed`, `FirstId` and `LastId` state its properties |
| Catalog.IdOf | src/components/TimeMachine.js:150-281 | a row's id is a 14-character string of digits |
| Catalog.FirstId | src/components/TimeMachine.js:150 | the first row's id is the string `"20190324181931"` |
| Catalog.LastId | src/components/TimeMachine.js:281 | the last row's id is the string `"20190325095905"` |
| Catalog.TimesAscend | src/components/TimeMachine.js:150-281 | the capture times of consecutive rows strictly increase |
| Catalog.StampsIncrease | src/components/TimeMachine.js:150-281 | an earlier row's id numeral is smaller than any later row's |
| Catalog.DirsWellFormed | src/components/TimeMachine.js:149-282 | `dirs` is non-empty, strictly ordered by time, has no duplicate id, and every id is 14 digits |
| Digits.ValueOfDecimal | src/components/TimeMachine.js:150-281 | parsing the 14-digit rendering of a catalog numeral gives the numeral back |
| Digits.DecimalInjective | src/components/TimeMachine.js:150-281 | different numerals below 10^14 render as different id strings |
| ReadableTime.DirNameToReadableTime | src/components/TimeMachine.js:8-10 | the leftmost run of at least 13 digits is rewritten as `$1-$2-$3 $4:$5` with the rest of the run dropped; `NoMatchUnchanged` and `MatchRewritten` state this for every input |
| ReadableTime.FirstMatch | src/components/TimeMachine.js:9 | the result is the leftmost position at or after `from` where 13 digits start, or none when there is no such position |
| ReadableTime.RunEnd | src/components/TimeMachine.js:9 | the greedy `\d+` stops at the end of the digit run: digits up to the result, then a non-digit or the end of the string |
| ReadableTime.NoMatchUnchanged | src/components/TimeMachine.js:8-10 | a string with no 13 consecutive digits is returned unchanged |
| ReadableTime.MatchRewritten | src/components/TimeMachine.js:8-10 | otherwise the leftmost such run is replaced: its first 12 digits become `$1-$2-$3 $4:$5`, the rest of the run is dropped, and the text around it is kept |
| ReadableTime.IdRewritten | src/components/TimeMachine.js:8-10 | a digit string of length at least 13 becomes `D[0..4]-D[4..6]-D[6..8] D[8..10]:D[10..12]` |
| ReadableTime.IdReadableShape | src/components/TimeMachine.js:8-10 | the readable form of an id is 16 characters of shape `DDDD-DD-DD DD:DD`, and its digit fields give back the id's first 12 digits in order |
| ReadableTime.IdReadableIdempotent | src/components/TimeMachine.js:8-10 | formatting the readable form of an id again changes nothing |
| ReadableTime.FirstIdExample | src/components/TimeMachine.js:8-10 | `"20190324181931"` becomes `"2019-03-24 18:19"` |
| Timeline.Segments | src/components/TimeMachine.js:118 | `slice(0, -1)`: one segment per catalog entry except the last, and none for an empty catalog |
| Timeline.SegmentAt | src/components/TimeMachine.js:118-132 | segment `i` selects entry `i`; its weight is the gap to entry `i+1`, or 1800 when the gap is larger; it is active iff entry `i` is the override |
| Timeline.WeightsBounded | src/components/TimeMachine.js:130 | on a time-ordered catalog every weight is positive and at most 1800 |
| Timeline.AtMostOneActive | src/components/TimeMachine.js:121 | with unique ids no two segments are active |
| Timeline.ActiveSegmentOfSelection | src/components/TimeMachine.js:121 | while entry `k` is selected, segment `i` is active iff `i == k`, so none is active when the last entry is selected |
| Timeline.NoActiveForUnknown | src/components/TimeMachine.js:121 | an override that is no catalog id activates no segment |
| Timeline.CapExample | src/components/TimeMachine.js:130 | entries at times 0, 10 and 2000 give weights 10 and 1800 |
| Timeline.DirsTimeline | src/components/TimeMachine.js:118-130 | the catalog draws 131 segments, each with weight in (0, 1800] |
| StatusLine.StatusOf | src/components/TimeMachine.js:81-95 | the three-way choice between the hover preview, the override and "latest"; `StatusChoice` states it |
| StatusLine.StatusChoice | src/components/TimeMachine.js:81-95 | the hover preview is shown iff hover is truthy and differs from the override; otherwise the override is shown if truthy; "latest" is shown iff neither is truthy; a preview shows the hover's id and the viewing line the override's |
| StatusLine.HoverOnSelection | src/components/TimeMachine.js:81-90 | hovering the selected segment shows the selection, not a preview |
| StatusLine.RenderedNeverLatest | src/components/TimeMachine.js:64-95 | whenever the control is rendered (override truthy), the line is not "latest" |
| StatusLine.CatalogTimeShown | src/components/TimeMachine.js:84-89 | with catalog entry `i` selected and no differing hover, the line shows exactly `dirNameToReadableTime(dirs[i][0])`, which has the shape `DDDD-DD-DD DD:DD`: 16 characters, `-`, `-`, ` `, `:` at positions 4, 7, 10, 13 and digits everywhere else |
| StatusLine.FirstEntryShown | src/components/TimeMachine.js:8-10 | the first catalog entry's id is shown as `"2019-03-24 18:19"` |
| Widget.KeyDelta | src/components/TimeMachine.js:28-34 | `ArrowRight` asks for +1, `ArrowLeft` for -1, and every other key for nothing |
| Widget.StepTarget | src/components/TimeMachine.js:38 | the clamped index is always valid: `i+dt` when that is in range, 0 below it, and the last index above it |
| Widget.TimeMachine.constructor | src/components/TimeMachine.js:24-26 | mounting takes the store's override, hover `""`, an undefined timeout ref, no timers and an empty log |
| Widget.TimeMachine.GoBackTo | src/components/TimeMachine.js:40-44 | the override becomes exactly `dirs[index][0]`, one `("Time Machine", id)` record is appended to the log, and nothing else changes |
| Widget.TimeMachine.MoveTimeBy | src/components/TimeMachine.js:35-39 | from catalog index `i`, the clamped index `i+dt` is selected and tracked, even when the clamp re-selects `i`; with an unknown or `null` override neither the override nor the log changes |
| Widget.TimeMachine.HandleKeyDown | src/components/TimeMachine.js:28-34 | arrow keys step as `MoveTimeBy(±1)`; other keys change nothing |
| Widget.TimeMachine.Toggle | src/components/TimeMachine.js:60 | a truthy override is cleared to `null` without tracking; otherwise entry 0 is selected and tracked |
| Widget.TimeMachine.MouseOver | src/components/TimeMachine.js:133-136 | the timer held in `timeout.current` is cancelled, and hover becomes the segment's id |
| Widget.TimeMachine.MouseOut | src/components/TimeMachine.js:137-139 | a fresh timer is scheduled and stored in `timeout.current`; hover is not yet changed |
| Widget.TimeMachine.Fire | src/components/TimeMachine.js:138 | a pending timer clears the hover when it runs; a cancelled timer never runs |
| Widget.TimeMachine.Rendered | src/components/TimeMachine.js:64 | the control is drawn iff the override is truthy; it then has 131 segments and a status line other than "latest" |
| Scenarios.StepFromEntry | src/components/TimeMachine.js:35-44 | browsing entry `i`, a step by `dt` selects the clamped entry and tracks exactly its id |
| Scenarios.KeysClampAtEnds | src/components/TimeMachine.js:28-39 | ArrowRight on the last entry and ArrowLeft on the first re-select that entry, and each press logs exactly one `("Time Machine", id)` record for that entry |
| Scenarios.StepWithUnknownOverride | src/components/TimeMachine.js:35-37 | a step leaves an override that is no catalog id unchanged and tracks nothing |
| Scenarios.ToggleTwiceFromLive | src/components/TimeMachine.js:60 | from live mode, the first toggle selects entry 0 and the second returns to live mode |
| Scenarios.HoverCancelsPendingClear | src/components/TimeMachine.js:133-138 | hover, leave, then hover another segment: the cancelled clear never fires, and the second segment stays hovered |
| Scenarios.UnhoverClears | src/components/TimeMachine.js:137-138 | leaving a segment and letting its timer run clears the hover, and the line falls back to the override |

## Left out

- JSX rendering, CSS-in-JS styles, the Thai captions and button titles, and the FontAwesome
  icon: these are presentation. The status line is an enum carrying the id whose time it shows.
- The internals of `useDirectoryOverride` (src/components/TimeMachine.js:2, 24): this is an external store. The override
  is a field. The constructor takes the store's value, and the handlers write the field.
- `trackEvent` (src/components/TimeMachine.js:6, 42): this is a foreign analytics call. It is modelled as an append to a
  ghost log.
- Attaching and detaching the document-level `keydown` listener in `useEffect` (src/components/TimeMachine.js:45-48),
  and React's asynchronous state updates: this is host lifecycle plumbing. The effect re-attaches
  the listener after each commit in which `override` changed, so a key event arriving before that
  would see the previous override. The model assumes each `setOverride`/`setHover` takes effect,
  and the re-attached handler sees the current override, before the next event. It covers only
  the key-to-step mapping.
- Real `setTimeout`/`clearTimeout` timing (src/components/TimeMachine.js:134, 138): timers are handles in a pending set.
  The host's running of a timer is the explicit step `Fire`, and the delay is not modelled.
- General regular-expression semantics: only this one pattern is modelled.
- The step buttons (src/components/TimeMachine.js:100-106) and the segment click (src/components/TimeMachine.js:132): they call `moveTimeBy(∓1)`
  and `goBackTo(index)`, which are `MoveTimeBy` and `GoBackTo`.
- The vote count of each catalog row: it is kept as data, but the widget never reads it.
