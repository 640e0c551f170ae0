# Classroom observation notes, modelled in Dafny

This project models the core of a browser application that classroom coaches
use to observe teachers. A coach opens an observation **session**: a school,
campus, teacher, date, unit and lesson. For each of the 18 indicators of a
fixed teaching rubric the coach stores a **note**. A note holds a handwritten
drawing, a "good point" or "growth area" mark, and an auto-comment flag.

The core pieces are:

- **schools** (groups), with their campuses and administrators;
- a **trash bin** shared by groups and sessions;
- a **progress figure** per session;
- **filters** and **search** over the session list;
- a **pen-only drawing canvas**;
- a small **stroke library** that samples, sizes and smooths pen strokes.

Modules follow the source files:

| module | file | models |
|---|---|---|
| `Wrappers`, `Sequences`, `JsStrings` | `wrappers.dfy`, `sequences.dfy`, `jsstrings.dfy` | `Option`, array helpers, and the JavaScript library behaviour the logic relies on |
| `Records` | `records.dfy` | the stored records: sessions, notes, groups and trash entries |
| `Groups` | `groups_manager.dfy` | `js/groupsManager.js` |
| `Sessions` | `session_manager.dfy` | `js/sessionManager.js` |
| `Indicators` | `indicators.dfy` | `js/indicators.js`: the manager's lookups, toggles and counts |
| `Rubric` | `rubric.dfy` | `js/indicators.js`: the `TEACHING_INDICATORS` table |
| `Drawing` | `drawing.dfy` | `js/drawing.js` |
| `Freehand` | `perfect_freehand.dfy` | `lib/perfect-freehand.js` |

The JavaScript library behaviour covered by `JsStrings` is:

- `trim`;
- `includes`;
- `parseInt`;
- integer `toString`;
- `Math.round`;
- the default string order of `sort`.

The two managers and the canvas are classes. Their fields are the ones the
source keeps on its objects. Their methods change those fields with `modifies`
clauses, and each method states its whole new state. For the managers that
state is a pure transition function (`Groups.AfterDeleteGroup`,
`Sessions.Upsert`, …), and the lifecycle properties are lemmas about those
functions. For the canvas, the pointer handlers are tied to a pure step
function `Drawing.Step` over the pen state.

The read-only queries are functions of the lists:

- progress and the complete/incomplete split;
- filters and filter options;
- search;
- campus lists and the dropdown data.

Loops in the source are loops here:

- `getSchoolsForDropdown`;
- `getPerformanceStats`;
- the sampling loop of `getStroke`;
- `smoothStroke`.

Each of these loops is proved against a specification.

Values that come from the environment are parameters:

- clock readings (`millis` for `Date.now()`, `now` for the ISO timestamp), read once per operation (see "## Left out");
- `toLowerCase` (`lower`);
- `Math.hypot` (`hypot`, of which only non-negativity is used);
- the rendering of numbers inside an SVG path (`show`);
- canvas coordinates, which arrive already converted.

## Model

| member | source | states |
|---|---|---|
| JsStrings.TrimEmptyIffBlank | js/groupsManager.js:219 | `q.trim() === ''` holds exactly when every character of `q` is white space |
| JsStrings.TrimmedIsEmpty | js/groupsManager.js:531 | computes `s.trim() === ''`, which holds exactly when `s` is blank |
| JsStrings.Includes | js/groupsManager.js:224-230 | `s.includes(sub)` holds exactly when `sub` occurs in `s` at some index |
| JsStrings.OccursInTail | js/groupsManager.js:224-230 | when `sub` is not a prefix of `s`, it occurs in `s` exactly when it occurs in the rest of `s` |
| JsStrings.ParsedOrOne | js/sessionManager.js:16-17 | `parseInt(x) \|\| 1` is never 0; a non-zero parse is kept, and `NaN` or 0 become 1 |
| JsStrings.SortStrings | js/sessionManager.js:252-256 | `sort()` on strings gives a sorted permutation of its input |
| Groups.GroupIndex | js/groupsManager.js:108 | `findIndex` by id: the first group with that id, or none exactly when no group has it |
| Groups.TrashIndex | js/groupsManager.js:155 | `findIndex` by trash id: the first matching entry, or none exactly when there is none |
| Groups.Patched | js/groupsManager.js:110-114 | `{...g, ...updates, updatedAt}`: for each of the nine other fields a given value overrides and a missing one is kept; `updatedAt` is always the new time |
| Groups.PatchedEmpty | js/groupsManager.js:110-114 | an update with no fields changes only `updatedAt` |
| Groups.PatchedIdempotent | js/groupsManager.js:107-119 | applying the same update twice gives what applying it once gives |
| Groups.Trashed | js/groupsManager.js:141-151 | `moveToTrash` puts the stamped item at the front of the trash, with trash id `trash_<millis>`, and leaves the groups alone |
| Groups.AfterDeleteGroup | js/groupsManager.js:121-135 | an unknown id changes nothing; otherwise the first matching group is removed, and it is prepended to the trash exactly when `moveToTrash` |
| Groups.RestoredEntry | js/groupsManager.js:153-188 | restore gives `null` exactly for an unknown trash id, and otherwise the stored record of the first matching entry, the one `AfterRestore` removes |
| Groups.AfterRestore | js/groupsManager.js:153-188 | the first matching entry leaves the trash; a group record goes back to the front of `groups`, and a session record leaves `groups` alone |
| Groups.AfterPermanentDelete | js/groupsManager.js:190-198 | the first matching trash entry is dropped and the groups are untouched |
| Groups.DeleteThenRestore | js/groupsManager.js:121-188 | deleting a group into the trash and then restoring the entry that deletion made gives back the same record at the front of the list, and the old trash |
| Groups.RestoreSessionKeepsGroups | js/groupsManager.js:171-177 | restoring a session entry keeps `groups` and shortens the trash by one |
| Groups.SearchGroups | js/groupsManager.js:218-231 | a missing or blank query gives every group; otherwise the result keeps list order and holds exactly the groups with a field containing the trimmed, lower-cased query (the phone is not lower-cased) |
| Groups.GroupBySchoolAndCampus | js/groupsManager.js:561-565 | the first group with both names (no earlier group has both), or none exactly when no group has both |
| Groups.CampusCandidatesSpec | js/groupsManager.js:552-556 | the campuses the loop adds are non-blank, each comes from a group of that school, and every non-blank campus of such a group is among them |
| Groups.CampusesForSchool | js/groupsManager.js:550-559 | no duplicates; every entry is a non-blank campus of a group of that school; every such campus is listed |
| Groups.CampusesSnoc | js/groupsManager.js:550-559 | one more group adds its campus at the end exactly when it offers a campus of that school that is not yet listed |
| Groups.CampusesNone | js/groupsManager.js:550-559 | a school that names no group has no campuses |
| Groups.DropdownExtendListed | js/groupsManager.js:530-538 | a group with a non-blank school: recomputing that school's list keeps the map exactly the listed schools seen so far, each with its campus list |
| Groups.DropdownExtendUnlisted | js/groupsManager.js:530-538 | a group with a blank school leaves the map exact for the groups seen so far |
| Groups.AddToDropdownListed | js/groupsManager.js:531-537 | for a non-blank school, one step replaces that school's entry alone, adding the campus when it is non-blank and new |
| Groups.DropdownStep | js/groupsManager.js:530-538 | one loop iteration keeps the invariant that the map holds exactly the listed schools seen so far, each with its campus list |
| Groups.AddGroupToDropdown | js/groupsManager.js:530-538 | the loop body, with its two `trim() !== ''` tests, computes `AddToDropdown` |
| Groups.SchoolsForDropdown | js/groupsManager.js:527-548 | the keys are exactly the non-blank school names of the groups, and each maps to `getCampusesForSchool` of that name |
| Groups.GroupsManager.constructor | js/groupsManager.js:2-4 | the manager starts from the stored lists |
| Groups.GroupsManager.CreateGroup | js/groupsManager.js:86-105 | the new active group with no sessions, missing optional fields as `''`, is prepended, and the trash is unchanged |
| Groups.GroupsManager.UpdateGroup | js/groupsManager.js:107-119 | an unknown id gives `null` and no change; otherwise only the first match is replaced, in place, by its patched record |
| Groups.GroupsManager.MoveToTrash | js/groupsManager.js:141-151 | the new state is `Trashed` of the old one |
| Groups.GroupsManager.DeleteGroup | js/groupsManager.js:121-135 | `true` exactly when the id was present; the new state is `AfterDeleteGroup` of the old one |
| Groups.GroupsManager.RestoreFromTrash | js/groupsManager.js:153-188 | returns `RestoredEntry`; the new state is `AfterRestore` of the old one |
| Groups.GroupsManager.PermanentlyDelete | js/groupsManager.js:190-198 | `true` exactly when an entry matched; the new state is `AfterPermanentDelete` of the old one |
| Groups.GroupsManager.EmptyTrash | js/groupsManager.js:200-203 | the trash is empty and the groups are unchanged |
| Sessions.SessionIndex | js/sessionManager.js:35 | `findIndex` by id: the first session with that id, or none exactly when absent |
| Sessions.FindSession | js/sessionManager.js:124-126 | `find` by id: the entry at the first matching index, or none exactly when absent |
| Sessions.Upsert | js/sessionManager.js:35-40 | the first entry with the same id is replaced in place and nothing else moves; otherwise the session is prepended |
| Sessions.UpsertLookup | js/sessionManager.js:128-140 | after saving or restoring `s`, a lookup of `s.id` finds `s` and every other id finds what it found before |
| Sessions.NotedKeys | js/sessionManager.js:553-556 | exactly the indicator ids whose note has drawing data or a performance type |
| Sessions.NotesCount | js/sessionManager.js:553-557 | the counted notes never outnumber the session's notes |
| Sessions.ProgressFormula | js/sessionManager.js:559 | `Math.round(n / 18 * 100)` equals the integer expression `(200n + 18) div 36` |
| Sessions.ProgressBounds | js/sessionManager.js:550-561 | within the rubric the percentage is in 0..100; it is 100 exactly when all 18 are noted and 0 exactly when none are |
| Sessions.ProgressMonotone | js/sessionManager.js:559 | more counted notes never give a lower percentage |
| Sessions.SessionProgress | js/sessionManager.js:550-561 | 0 for an unknown id; otherwise the rounded percentage of the first matching session's counted notes |
| Sessions.CompleteSessions | js/sessionManager.js:647-655 | keeps list order; holds exactly the sessions with 18 counted notes |
| Sessions.IncompleteSessions | js/sessionManager.js:636-644 | keeps list order; holds exactly the sessions with fewer than 18 counted notes |
| Sessions.CompleteIncompleteSplit | js/sessionManager.js:636-655 | no session is in both lists, and each listed session within the rubric is in one of them |
| Sessions.FilterSessionsFused | js/sessionManager.js:144-183 | the four filter steps applied one after another are one filter by the conjunction of the applying conditions |
| Sessions.FilterSessionsSpec | js/sessionManager.js:144-183 | the filtered list keeps order, and holds exactly the sessions passing every applying school, campus, status and progress filter (`'all'` and unset filters do not apply) |
| Sessions.CompleteFilterAgrees | js/sessionManager.js:173-180 | with distinct ids, the `'complete'` progress filter selects exactly what `getCompleteSessions` returns |
| Sessions.DistinctSorted | js/sessionManager.js:248-256 | `[...new Set(values)].sort()`: sorted, without duplicates, and holding exactly the values |
| Sessions.OptionList | js/sessionManager.js:248-256 | a set-then-sort list: sorted, without duplicates, and holding exactly the kept values |
| Sessions.FieldOptions | js/sessionManager.js:248-256 | the option list of one session field: sorted, duplicate-free, and exactly the (non-empty, when asked) values of that field |
| Sessions.FilterOptionsOf | js/sessionManager.js:247-257 | each option list is sorted and duplicate-free; schools and campuses are exactly the non-empty values present, and statuses are exactly the values present |
| Sessions.SearchSessions | js/sessionManager.js:609-622 | a missing or blank query gives every session; otherwise the result keeps order and holds exactly the sessions whose teacher, school, campus, unit or lesson text contains the query |
| Sessions.Edited | js/sessionManager.js:100-109 | an edit keeps id, notes, status and creation time; it sets school, campus and teacher; an empty date becomes today's; unit and lesson become `parseInt(x) \|\| 1` (never 0) |
| Sessions.SessionManager.constructor | js/sessionManager.js:2-5 | no current session; the stored list |
| Sessions.SessionManager.CreateSession | js/sessionManager.js:7-27 | the new draft with no notes, today's date for an empty one, and unit and lesson defaulting to 1, becomes current and is upserted into the list |
| Sessions.SessionManager.SaveCurrentSession | js/sessionManager.js:29-44 | without a current session nothing changes; otherwise it gets the new `updatedAt` and is upserted |
| Sessions.SessionManager.IndicatorNotes | js/sessionManager.js:60-65 | the current session's note for an id, or none exactly when there is no current session or no note |
| Sessions.SessionManager.SaveIndicatorNotes | js/sessionManager.js:46-58 | only the note of that indicator changes, and it is the stored note; the session is then saved |
| Sessions.SessionManager.LoadSession | js/sessionManager.js:67-75 | returns the first match; a found session becomes current; the list is unchanged |
| Sessions.SessionManager.DeleteSession | js/sessionManager.js:77-95 | `true` exactly when present; only that entry leaves the list; it goes into the trash bin exactly when asked; a current session with that id is closed |
| Sessions.SessionManager.UpdateSession | js/sessionManager.js:97-122 | an unknown id gives `null` and no change; otherwise that entry is replaced in place by its edited record, and a current session with that id follows it |
| Sessions.SessionManager.RestoreSession | js/sessionManager.js:128-140 | the record is upserted and returned, and the current session is untouched |
| Sessions.SessionManager.UpdateSessionStatus | js/sessionManager.js:535-547 | only the first matching entry gets the status and new time; a current session with that id gets the status |
| Sessions.SessionManager.Stats | js/sessionManager.js:489-502 | zeros without a current session; otherwise 18 and the counted notes, which never exceed the notes stored |
| Indicators.IndicatorById | js/indicators.js:346-348 | an entry with that id, or none exactly when no entry has it |
| Indicators.IndicatorByIdOfEntry | js/indicators.js:346-348 | with distinct ids, looking up an entry's own id gives back that entry |
| Indicators.IndicatorsByArea | js/indicators.js:350-352 | table order kept; exactly the entries of that area |
| Indicators.AreaColumn | js/indicators.js:355 | `map(ind => ind.area)`: one area per entry, in order |
| Indicators.Areas | js/indicators.js:354-356 | each area once; every area of the table is listed, and nothing else |
| Indicators.AreasInTableOrder | js/indicators.js:354-356 | areas appear in the order the table introduces them |
| Indicators.KeptDrawing | js/indicators.js:246 | `notes.drawingData \|\| null`: a non-empty drawing is kept and an empty one dropped |
| Indicators.KeptPerformance | js/indicators.js:268 | `notes.performanceType \|\| null`: a non-empty type is kept and an empty one dropped |
| Indicators.KeptAutoComment | js/indicators.js:269 | `notes.autoComment \|\| false` is true exactly for a stored true flag |
| Indicators.PerformanceAfterToggle | js/indicators.js:249-257 | the type is cleared exactly when it already was `t`, and set to `t` otherwise |
| Indicators.PerformanceToggleTwice | js/indicators.js:238-258 | toggling the same type twice restores whether it was `t`, and keeps drawing and auto-comment |
| Indicators.TogglesKeepOtherFields | js/indicators.js:238-286 | each toggle keeps the other two fields of the note |
| Indicators.AutoCommentToggleTwice | js/indicators.js:260-286 | toggling the auto-comment twice restores the flag and keeps drawing and type |
| Indicators.HandlePerformanceToggle | js/indicators.js:238-258 | the new current session is the old one with only that indicator's note replaced by the toggled note and `updatedAt` stamped; no other note changes; that session is upserted into the list |
| Indicators.HandleAutoCommentToggle | js/indicators.js:260-286 | the new current session is the old one with only that indicator's note replaced by the note with the flipped flag and `updatedAt` stamped; no other note changes; that session is upserted into the list |
| Indicators.StatsBounds | js/indicators.js:358-383 | good plus growth never exceed the counted notes, nor those the stored notes |
| Indicators.PerformanceStatsOf | js/indicators.js:358-383 | zeros without a store or current session; otherwise the tallies of the current session's notes, with good + growth ≤ total ≤ notes |
| Indicators.TallyNotes | js/indicators.js:363-376 | the one-pass tallies equal the sizes of the counted, good and growth sets, with good + growth ≤ total ≤ notes |
| Indicators.CountNote | js/indicators.js:368-375 | one note adds 1 to the total exactly when it has content, and 1 to good or growth exactly when it also has that type |
| Indicators.TallyStep | js/indicators.js:368-375 | visiting one more note adds it to exactly the count sets it belongs to |
| Rubric.TableSize | js/indicators.js:2-129 | the rubric has 18 entries, as many as progress divides by |
| Rubric.TableIdColumn | js/indicators.js:2-129 | the entries' ids are `1.1` … `8.1` in table order |
| Rubric.AscendingDistinct | js/indicators.js:2-129 | ids that ascend from each entry to the next ascend across the whole list |
| Rubric.TableIdsDistinct | js/indicators.js:2-129 | no two entries of the table share an id |
| Rubric.TableLookup | js/indicators.js:131-134 | `getIndicatorById` on the table the constructor installs finds every entry by its own id |
| Drawing.Mid | js/drawing.js:131-132 | the control end point is equidistant from its two points |
| Drawing.PushWindow | js/drawing.js:103-108 | push-then-shift keeps the last three points, ending with the new one |
| Drawing.PushAllKeepsLastThree | js/drawing.js:97-112 | after any number of pushes the window is the last three points pushed: first in, first out |
| Drawing.PushThenLastThree | js/drawing.js:103-108 | one push followed by the last three of the rest is the last three of everything |
| Drawing.StepKeepsValid | js/drawing.js:39-64 | every handler keeps `isDrawing == usingPencil`, at most three points, and points present exactly while drawing |
| Drawing.RunKeepsValid | js/drawing.js:39-64 | every event sequence keeps that invariant |
| Drawing.NoPenDownStaysIdle | js/drawing.js:39-64 | without a pen `pointerdown`, an idle canvas stays idle: it never draws and records no point |
| Drawing.ReleaseEndsStroke | js/drawing.js:52-64 | a `pointerup` or `pointercancel` of any type while the pen is in use leaves the canvas idle |
| Drawing.MovesKeepLastThree | js/drawing.js:46-50 | moves of any pointer type during a stroke keep exactly the last three positions |
| Drawing.Segment | js/drawing.js:124-136 | two points give a straight line between them; more give a curve from the first, controlled by the second, to the midpoint of the second and third |
| Drawing.DrawingCanvas.constructor | js/drawing.js:2-34 | pen tool, black, size 4, idle, and the canvas cleared to white |
| Drawing.DrawingCanvas.PointerDown | js/drawing.js:39-44 | a non-pen pointer changes nothing; a pen starts a stroke at the point and paints a dot |
| Drawing.DrawingCanvas.StartDrawing | js/drawing.js:81-95 | drawing starts with the window `[at]`, the last position at `at`, and a dot of half the brush size in the tool's colour |
| Drawing.DrawingCanvas.PointerMove | js/drawing.js:46-50 | the pen state follows `Step`; with an open pen stroke the last position becomes the new point and the context gets the tool's width and colour and the newest segment; with no open pen stroke nothing changes |
| Drawing.DrawingCanvas.Draw | js/drawing.js:97-112 | with no open stroke nothing changes; otherwise the point enters the window and the newest segment is painted |
| Drawing.DrawingCanvas.DrawSmoothLine | js/drawing.js:114-143 | with fewer than two points nothing changes; otherwise the width is three times the brush for the eraser and the brush otherwise, the colour is white for the eraser, the segment is painted, and the last position is the newest point |
| Drawing.DrawingCanvas.PointerRelease | js/drawing.js:52-64 | a pen in use ends idle; otherwise nothing changes |
| Drawing.DrawingCanvas.StopDrawing | js/drawing.js:145-151 | drawing stops, and the window empties if a stroke was open |
| Drawing.DrawingCanvas.ClearCanvas | js/drawing.js:153-156 | the canvas is painted white; nothing else changes |
| Drawing.DrawingCanvas.SetTool | js/drawing.js:158-160 | only the tool changes |
| Drawing.DrawingCanvas.SetColor | js/drawing.js:162-165 | only the colour and the context's stroke colour change |
| Drawing.DrawingCanvas.SetBrushSize | js/drawing.js:167-169 | only the brush size changes, to `parseInt(size)` |
| Freehand.SettingsOf | lib/perfect-freehand.js:9-16 | no options give size 16, thinning, smoothing and streamline 0.5, simulated pressure and no cap; for each of the six options a given value wins over its default |
| Freehand.PressureOr | lib/perfect-freehand.js:19 | `p \|\| fallback`: a missing or zero pressure gives the fallback |
| Freehand.GetPressure | lib/perfect-freehand.js:72-83 | in [0.25, 1] for an interior point, 0.5 when a neighbour is missing |
| Freehand.GetStepSize | lib/perfect-freehand.js:85-88 | in (0, 0.5] |
| Freehand.Interpolate | lib/perfect-freehand.js:90-96 | t = 0 gives `a` and t = 1 gives `b` |
| Freehand.InterpolatedPressureBetween | lib/perfect-freehand.js:90-96 | for t in [0, 1] the interpolated pressure stays between the two end pressures |
| Freehand.GetStrokeSize | lib/perfect-freehand.js:98-100 | at least 0.5; at pressure 1 it is max(0.5, size) |
| Freehand.StrokeSizeMonotone | lib/perfect-freehand.js:98-100 | with non-negative size and thinning, more pressure never gives a smaller size |
| Freehand.Extended | lib/perfect-freehand.js:18-19 | the caller's array gains a copy of a lone point, with pressure `points[0].pressure || 0.5`; any other array is left as it was |
| Freehand.PressureAt | lib/perfect-freehand.js:24 | a truthy pressure is kept; otherwise an interior point with simulation gets one in [0.25, 1], and any other point 0.5 |
| Freehand.Resolved | lib/perfect-freehand.js:21-26 | one sample per point, same position, with the resolved pressure |
| Freehand.SampleSegment | lib/perfect-freehand.js:35-55 | one segment in steps of `getStepSize`: an existing first point stays first, an empty stroke starts with the segment's start, and both stroke properties below are kept |
| Freehand.SampleStroke | lib/perfect-freehand.js:28-56 | empty for fewer than two samples; otherwise begins with the first sample; every size is the one its pressure gives; no point lies closer than a quarter of its size to the one before |
| Freehand.Cap | lib/perfect-freehand.js:58-67 | the last sample's position and pressure, sized by that pressure |
| Freehand.GetStroke | lib/perfect-freehand.js:8-70 | no points give an empty stroke; the caller's array is `Extended`; otherwise the stroke starts at the first point with its resolved pressure; every size is the one its pressure gives; with `last` the final point is the cap |
| Freehand.SmoothStroke | lib/perfect-freehand.js:102-124 | fewer than three points come back unchanged; otherwise same length, same ends, and each interior point is its averaged point |
| Freehand.Averaged | lib/perfect-freehand.js:112-117 | the mean position of the point and its two neighbours, with its own pressure and size |
| Freehand.SmoothingKeepsSizes | lib/perfect-freehand.js:102-124 | smoothing keeps every size tied to its pressure |
| Freehand.SmoothedBetween | lib/perfect-freehand.js:113-114 | each coordinate of a smoothed interior point lies between the smallest and largest of that coordinate over the point and its two neighbours |
| Freehand.Commands | lib/perfect-freehand.js:129-131 | `M` for the first point and `L` for every later one |
| Freehand.StrokeToSVG | lib/perfect-freehand.js:126-134 | empty exactly for an empty stroke; otherwise `M x0 y0` followed by ` L xi yi` for each later point |
| Freehand.JoinLines | lib/perfect-freehand.js:129-131 | joining the commands with spaces is the move followed by one ` L x y` per point |
| Freehand.StrokeToSVGSnoc | lib/perfect-freehand.js:126-134 | one more point adds exactly one ` L x y` to the path |

## Left out

- Persistence. `loadGroups`, `saveGroups`, `loadTrash`, `saveTrash`, `loadSessions` and `saveSessions` read and write `localStorage`. The constructors take the stored lists as parameters, and saving is a no-op.
- `preCreateSchools` is seed data inserted when the stored group list is empty. It makes the groups constructor return differently for an empty store; the model's constructor takes the list as given.
- `updateSessionCount` and `getSessionsBySchool` are left out. They would need the group module and the session module to import each other.
- `getGroup`, `getSessionForEdit`, `getGroupsCount`, `getTrashCount` and `getSessionsCount` are one-line lookups and lengths. `getGroup` and `getSessionForEdit` are covered by `GroupIndex` and `FindSession`; the three counts are simply the lengths `|groups|`, `|trash|` and `|sessions|` of the managers' state.
- `importSessionData`, `exportSessionData`, `getAllSchoolsFromSessions`, `getRecentSessions` and `formatSessionDate` are not part of this model.
- The date-range filters and the sort step of `filterSessions`, and `getSessionsByDateRange`, are left out. They rely on `Date` parsing, and the sort comparator leaves the order to the engine.
- All rendering, DOM, swipe and event-listener code is left out, as is `app.js`. One part of rendering changes state: `renderGroupsList` sorts `this.groups` in place by school name and then campus, using `localeCompare`. After a render, the source's group order is that sorted order, not the model's prepend order. That changes which of two duplicates `GroupIndex` and `GroupBySchoolAndCampus` find first.
- Sessions.SessionManager.CreateSession: the model reads the clock once. The source reads it separately for the default date, `createdAt`, `updatedAt` and again in `saveCurrentSession`. So the model's `createdAt == updatedAt` and default date `== Today(createdAt)` are not guaranteed by the source: two readings can differ by a millisecond, and the date can differ across midnight.
- Sessions.SessionManager.SaveIndicatorNotes: the note's `savedAt` and the session's new `updatedAt` are one reading `now` in the model. The source takes two readings, so their equality is a simplification.
- Groups.GroupsManager.CreateGroup: `createdAt` and `updatedAt` are one reading `now` in the model. In the source they are two `new Date()` readings that can differ.
- Trash entries of another type: a trash entry's `originalType` is given by which payload constructor it holds, so stored trash items whose `originalType` is neither `'group'` nor `'session'` cannot be represented. For such an item the source's `restoreFromTrash` returns null and still removes the entry. The model does not capture that case.
- Canvas painting itself is not modelled: `arc`, `quadraticCurveTo`, `stroke`, `fillRect`, `resizeCanvas`, and the coordinate scaling of `getCanvasCoordinates`. The model only records which marks are painted, in order, with what width and colour.
- `addCommentToCanvas` (js/indicators.js:280-283) is not modelled. Its guard reads `currentIndicatorId`, which the canvas class never sets, so the call is not reached.
- `window.app.sessionManager` becomes a nullable `SessionManager` parameter.
- `IndicatorsManager` has no class. Its constructor only installs `TEACHING_INDICATORS` (`Rubric.Table`) and clears `activeIndicatorId`, which nothing in the core reads, so the lookups take the table as their first parameter.
- Aliasing between `currentSession` and the list entry is not modelled: the model keeps values. `saveIndicatorNotes` writes into an object the list may share, which the model covers because the session is saved at once.
- Sessions.SessionManager.UpdateSessionStatus: the current session gets the new status but not the new `updatedAt`. In the source it also gets the time when it is the same object as the list entry.
- `toLowerCase` is the parameter `lower`, because case mapping is not modelled.
- JavaScript's `sort` on strings compares UTF-16 code units, while `JsStrings.LexLe` compares code points. The two orders differ only for strings outside the Basic Multilingual Plane.
- `getSchoolsForDropdown` stores schools as properties of a plain object. Names that clash with object prototype properties are not modelled.
- Filter values that are `undefined` or empty are both modelled as `""`.
- `undefined` text arguments are not modelled: `school || ''` and the like take strings as given.
- Sessions.PassesFilters: the progress filter looks each session up again by id, as the source does. With duplicate ids it therefore measures the first session with that id, so `CompleteFilterAgrees` requires distinct ids.
- The source reads `Math.hypot`; the model uses only that it is never negative.
- Floating-point arithmetic in the stroke library is not modelled. It is modelled on exact reals, so the `t += step` accumulation carries no rounding error.
- The `vector` field that `getStroke` computes for each point is never read and is left out. So are the unused `steps`, `smoothing` and `streamline` values.
- `NaN` pressures are not modelled.
- Number-to-string conversion inside an SVG path is the parameter `show`.
