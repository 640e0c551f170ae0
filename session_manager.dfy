/**
 * The observation-session store. `SessionManager` keeps the current session
 * and the list of saved sessions; its methods change them the way the source
 * does (in-place replacement, prepend, removal). The read-only queries over
 * the list (progress, filters, search, the complete/incomplete split) are
 * functions of the list.
 */
module Sessions {
  import opened Wrappers
  import opened Sequences
  import opened JsStrings
  import opened Records
  import Groups

  /** The number of rubric indicators the progress figures divide by. */
  const RubricSize: nat := 18

  /** `'session_' + Date.now()` for a clock reading `millis`. */
  function SessionId(millis: nat): string {
    "session_" + NatToString(millis)
  }

  /** `now.split('T')[0]`: the date part of an ISO timestamp. */
  function Today(now: string): string {
    BeforeFirst(now, 'T')
  }

  /** `sessions.findIndex(s => s.id === id)`. */
  function SessionIndex(sessions: seq<Session>, id: string): (r: Option<nat>)
    ensures r.Some? ==> r.value < |sessions| && sessions[r.value].id == id
    ensures r.Some? ==> forall j :: 0 <= j < r.value ==> sessions[j].id != id
    ensures r.None? <==> forall j :: 0 <= j < |sessions| ==> sessions[j].id != id
  {
    IndexWhere(sessions, (s: Session) => s.id == id)
  }

  /** `sessions.find(s => s.id === id)`: the first session with that id. */
  function FindSession(sessions: seq<Session>, id: string): (r: Option<Session>)
    ensures r.Some? ==> r.value in sessions && r.value.id == id
    ensures r.None? <==> forall j :: 0 <= j < |sessions| ==> sessions[j].id != id
    ensures r.Some? ==> r.value == sessions[SessionIndex(sessions, id).value]
  {
    match SessionIndex(sessions, id)
    case None => None
    case Some(i) => Some(sessions[i])
  }

  /**
   * The list after saving `s` (`saveCurrentSession`, `restoreSession`): the
   * first entry with the same id is replaced in place, or `s` is prepended.
   */
  function Upsert(sessions: seq<Session>, s: Session): (r: seq<Session>)
    ensures SessionIndex(sessions, s.id).Some? ==>
      var i := SessionIndex(sessions, s.id).value;
      |r| == |sessions| && r[i] == s && forall j :: 0 <= j < |r| && j != i ==> r[j] == sessions[j]
    ensures SessionIndex(sessions, s.id).None? ==> r == [s] + sessions
  {
    match SessionIndex(sessions, s.id)
    case Some(i) => sessions[i := s]
    case None => [s] + sessions
  }

  /** After an upsert, looking up `s.id` finds `s` and every other id finds what it found before. */
  lemma UpsertLookup(sessions: seq<Session>, s: Session, id: string)
    ensures FindSession(Upsert(sessions, s), id) == if id == s.id then Some(s) else FindSession(sessions, id)
  {
    var r := Upsert(sessions, s);
    var p := (x: Session) => x.id == id;
    match SessionIndex(sessions, s.id)
    case Some(i) =>
      if id == s.id {
        IndexWhereAt(r, p, i);
      } else if SessionIndex(sessions, id).Some? {
        IndexWhereAt(r, p, SessionIndex(sessions, id).value);
      }
    case None =>
      if id == s.id {
        IndexWhereAt(r, p, 0);
      } else if SessionIndex(sessions, id).Some? {
        IndexWhereAt(r, p, SessionIndex(sessions, id).value + 1);
      }
  }

  // ---- progress ------------------------------------------------------------

  /** The indicator ids whose note has drawing data or a performance type. */
  function NotedKeys(m: map<string, Note>): (ks: set<string>)
    ensures ks <= m.Keys
    ensures forall k :: k in ks <==> k in m && HasNotes(m[k])
  {
    set k | k in m && HasNotes(m[k])
  }

  /** How many of a session's notes count toward its progress. */
  function NotesCount(s: Session): (n: nat)
    ensures n <= |s.indicators|
  {
    var ks := NotedKeys(s.indicators);
    SubsetCardinality(ks, s.indicators.Keys);
    |ks|
  }

  /** `Math.round(n / 18 * 100)`. */
  function ProgressOf(n: nat): int {
    Round(n as real / RubricSize as real * 100.0)
  }

  /** The rounding needs no reals: it is `(200n + 18) div 36`. */
  lemma ProgressFormula(n: nat)
    ensures ProgressOf(n) == (200 * n + 18) / 36
  {
    var q := (200 * n + 18) / 36;
    var x := n as real / 18.0 * 100.0;
    assert x + 0.5 == (200 * n + 18) as real / 36.0;
    assert 36 * q <= 200 * n + 18 < 36 * q + 36;
    assert q as real <= x + 0.5 < q as real + 1.0;
  }

  /** Within the rubric the percentage is 0..100, 100 only when complete and 0 only when empty. */
  lemma ProgressBounds(n: nat)
    requires n <= RubricSize
    ensures 0 <= ProgressOf(n) <= 100
    ensures ProgressOf(n) == 100 <==> n == RubricSize
    ensures ProgressOf(n) == 0 <==> n == 0
  {
    ProgressFormula(n);
  }

  /** More notes never lower the percentage. */
  lemma ProgressMonotone(m: nat, n: nat)
    requires m <= n
    ensures ProgressOf(m) <= ProgressOf(n)
  {
    ProgressFormula(m);
    ProgressFormula(n);
  }

  /** `getSessionProgress(id)`: 0 for an unknown id, else the rounded percentage of counted notes. */
  function SessionProgress(sessions: seq<Session>, id: string): (p: int)
    ensures FindSession(sessions, id).None? ==> p == 0
    ensures FindSession(sessions, id).Some? ==> p == (200 * NotesCount(FindSession(sessions, id).value) + 18) / 36
    ensures p >= 0
  {
    match FindSession(sessions, id)
    case None => 0
    case Some(s) =>
      ProgressFormula(NotesCount(s));
      ProgressOf(NotesCount(s))
  }

  /** `getCompleteSessions()`: the sessions with every rubric indicator noted. */
  function CompleteSessions(sessions: seq<Session>): (r: seq<Session>)
    ensures IsSubseq(r, sessions)
    ensures forall x :: x in r <==> x in sessions && NotesCount(x) == RubricSize
  {
    Filter(sessions, (s: Session) => NotesCount(s) == RubricSize)
  }

  /** `getIncompleteSessions()`: the sessions with fewer counted notes than indicators. */
  function IncompleteSessions(sessions: seq<Session>): (r: seq<Session>)
    ensures IsSubseq(r, sessions)
    ensures forall x :: x in r <==> x in sessions && NotesCount(x) < RubricSize
  {
    Filter(sessions, (s: Session) => NotesCount(s) < RubricSize)
  }

  /** No session is both complete and incomplete, and each session within the rubric is one of them. */
  lemma CompleteIncompleteSplit(sessions: seq<Session>, x: Session)
    ensures !(x in CompleteSessions(sessions) && x in IncompleteSessions(sessions))
    ensures x in sessions && NotesCount(x) <= RubricSize ==>
      x in CompleteSessions(sessions) || x in IncompleteSessions(sessions)
  {
  }

  // ---- filters ---------------------------------------------------------------

  /**
   * The school, campus, status and progress filters of `filterSessions`.
   * A field is `""` when the filter object does not set it.
   */
  datatype SessionFilters = SessionFilters(school: string, campus: string, status: string, progress: string)

  /** `filters.x && filters.x !== 'all'`. */
  predicate Applies(v: string) {
    v != "" && v != "all"
  }

  /** The progress filter: an unrecognised value lets every session through. */
  predicate ProgressMatches(p: int, which: string) {
    if which == "complete" then p == 100
    else if which == "in-progress" then 0 < p < 100
    else if which == "not-started" then p == 0
    else true
  }

  /**
   * `x` passes every filter that applies. The progress filter looks the
   * session up again by id, so it measures the first session with `x`'s id.
   */
  predicate PassesFilters(sessions: seq<Session>, f: SessionFilters, x: Session) {
    && (Applies(f.school) ==> x.school == f.school)
    && (Applies(f.campus) ==> x.campus == f.campus)
    && (Applies(f.status) ==> x.status == f.status)
    && (Applies(f.progress) ==> ProgressMatches(SessionProgress(sessions, x.id), f.progress))
  }

  function SchoolIs(v: string): Session -> bool {
    (x: Session) => x.school == v
  }

  function CampusIs(v: string): Session -> bool {
    (x: Session) => x.campus == v
  }

  function StatusIs(v: string): Session -> bool {
    (x: Session) => x.status == v
  }

  function ProgressIs(sessions: seq<Session>, v: string): Session -> bool {
    (x: Session) => ProgressMatches(SessionProgress(sessions, x.id), v)
  }

  /** The filter part of `filterSessions`: the four filters applied one after another. */
  function FilterSessions(sessions: seq<Session>, f: SessionFilters): seq<Session> {
    var a := if Applies(f.school) then Filter(sessions, SchoolIs(f.school)) else sessions;
    var b := if Applies(f.campus) then Filter(a, CampusIs(f.campus)) else a;
    var c := if Applies(f.status) then Filter(b, StatusIs(f.status)) else b;
    if Applies(f.progress) then Filter(c, ProgressIs(sessions, f.progress)) else c
  }

  /** The one predicate the four filter steps amount to. */
  function Passing(sessions: seq<Session>, f: SessionFilters): Session -> bool {
    (x: Session) => PassesFilters(sessions, f, x)
  }

  /** The conjunction of the school and campus filters. */
  function SchoolAndCampus(f: SessionFilters): Session -> bool {
    (x: Session) => (!Applies(f.school) || x.school == f.school) && (!Applies(f.campus) || x.campus == f.campus)
  }

  /** The conjunction of the school, campus and status filters. */
  function SchoolCampusStatus(f: SessionFilters): Session -> bool {
    (x: Session) => SchoolAndCampus(f)(x) && (!Applies(f.status) || x.status == f.status)
  }

  /** The four filter steps are one filter with the conjunction of their predicates. */
  lemma FilterSessionsFused(sessions: seq<Session>, f: SessionFilters)
    ensures FilterSessions(sessions, f) == Filter(sessions, Passing(sessions, f))
  {
    var school := (x: Session) => !Applies(f.school) || x.school == f.school;
    FilterWhen(sessions, Applies(f.school), SchoolIs(f.school), school);
    FilterThenWhen(sessions, school, Applies(f.campus), CampusIs(f.campus), SchoolAndCampus(f));
    FilterThenWhen(sessions, SchoolAndCampus(f), Applies(f.status), StatusIs(f.status), SchoolCampusStatus(f));
    FilterThenWhen(sessions, SchoolCampusStatus(f), Applies(f.progress), ProgressIs(sessions, f.progress), Passing(sessions, f));
  }

  /**
   * The filter part of `filterSessions` keeps the list's order and holds
   * exactly the sessions that pass every applying filter.
   */
  lemma FilterSessionsSpec(sessions: seq<Session>, f: SessionFilters)
    ensures IsSubseq(FilterSessions(sessions, f), sessions)
    ensures forall i :: 0 <= i < |FilterSessions(sessions, f)| ==>
      FilterSessions(sessions, f)[i] in sessions && PassesFilters(sessions, f, FilterSessions(sessions, f)[i])
    ensures forall i :: 0 <= i < |sessions| && PassesFilters(sessions, f, sessions[i]) ==>
      sessions[i] in FilterSessions(sessions, f)
  {
    FilterSessionsFused(sessions, f);
  }

  /** With distinct ids, the `'complete'` progress filter alone selects exactly the complete sessions. */
  lemma CompleteFilterAgrees(sessions: seq<Session>, x: Session)
    requires forall i, j :: 0 <= i < j < |sessions| ==> sessions[i].id != sessions[j].id
    requires NotesCount(x) <= RubricSize
    ensures x in FilterSessions(sessions, SessionFilters("", "", "", "complete")) <==> x in CompleteSessions(sessions)
  {
    var f := SessionFilters("", "", "", "complete");
    FilterSessionsSpec(sessions, f);
    if x in sessions {
      var i :| 0 <= i < |sessions| && sessions[i] == x;
      IndexWhereAt(sessions, (s: Session) => s.id == x.id, i);
      ProgressBounds(NotesCount(x));
      ProgressFormula(NotesCount(x));
      assert PassesFilters(sessions, f, x) <==> NotesCount(x) == RubricSize;
    }
  }

  /** The option lists of the filter menus. */
  datatype FilterOptions = FilterOptions(schools: seq<string>, campuses: seq<string>, statuses: seq<string>)

  /**
   * `[...new Set(values.filter(Boolean))].sort()` when `dropEmpty`, else
   * `[...new Set(values)].sort()`: each kept value once, in ascending order.
   */
  function OptionList(values: seq<string>, dropEmpty: bool): (r: seq<string>)
    ensures Sorted(r) && NoDuplicates(r)
    ensures forall i :: 0 <= i < |r| ==> r[i] in values && (dropEmpty ==> r[i] != "")
    ensures forall i :: 0 <= i < |values| && (!dropEmpty || values[i] != "") ==> values[i] in r
  {
    var kept := if dropEmpty then Filter(values, (v: string) => v != "") else values;
    var r := DistinctSorted(kept);
    forall i | 0 <= i < |r| ensures r[i] in values && (dropEmpty ==> r[i] != "") {
      assert r[i] in kept;
    }
    forall i | 0 <= i < |values| && (!dropEmpty || values[i] != "") ensures values[i] in r {
      assert values[i] in kept;
    }
    r
  }

  /** `[...new Set(values)].sort()`: each value once, in ascending order. */
  function DistinctSorted(values: seq<string>): (r: seq<string>)
    ensures Sorted(r) && NoDuplicates(r)
    ensures forall v :: v in r <==> v in values
  {
    var d := Dedup(values);
    DedupOrdered(values);
    var r := SortStrings(d);
    NoDuplicatesPermutation(d, r);
    forall v ensures v in r <==> v in d {
      calc {
        v in r;
        v in multiset(r);
        v in multiset(d);
        v in d;
      }
    }
    r
  }

  /** The option list of one session field: its (non-empty, when `dropEmpty`) values, once each, sorted. */
  function FieldOptions(sessions: seq<Session>, field: Session -> string, dropEmpty: bool): (r: seq<string>)
    ensures Sorted(r) && NoDuplicates(r)
    ensures forall v :: v in r <==> (dropEmpty ==> v != "") && exists i :: 0 <= i < |sessions| && field(sessions[i]) == v
  {
    var values := Map(sessions, field);
    var r := OptionList(values, dropEmpty);
    forall v | v in r
      ensures exists i :: 0 <= i < |sessions| && field(sessions[i]) == v
    {
      var j :| 0 <= j < |r| && r[j] == v;
      assert v in values;
      var k :| 0 <= k < |values| && values[k] == v;
      assert field(sessions[k]) == v;
    }
    forall v, i | 0 <= i < |sessions| && field(sessions[i]) == v && (dropEmpty ==> v != "")
      ensures v in r
    {
      assert values[i] == v;
    }
    r
  }

  function SchoolOf(s: Session): string { s.school }
  function CampusOf(s: Session): string { s.campus }
  function StatusOf(s: Session): string { s.status }

  /** `getFilterOptions()`: the non-empty schools and campuses, and all statuses, each list sorted. */
  function FilterOptionsOf(sessions: seq<Session>): (r: FilterOptions)
    ensures Sorted(r.schools) && NoDuplicates(r.schools)
    ensures Sorted(r.campuses) && NoDuplicates(r.campuses)
    ensures Sorted(r.statuses) && NoDuplicates(r.statuses)
    ensures forall v :: v in r.schools <==> v != "" && exists i :: 0 <= i < |sessions| && sessions[i].school == v
    ensures forall v :: v in r.campuses <==> v != "" && exists i :: 0 <= i < |sessions| && sessions[i].campus == v
    ensures forall v :: v in r.statuses <==> exists i :: 0 <= i < |sessions| && sessions[i].status == v
  {
    FilterOptions(FieldOptions(sessions, SchoolOf, true), FieldOptions(sessions, CampusOf, true),
                  FieldOptions(sessions, StatusOf, false))
  }

  // ---- search ----------------------------------------------------------------

  /** One field of `x` contains the (lower-cased, trimmed) query `q`. */
  predicate SessionMatches(x: Session, q: string, lower: string -> string) {
    || Includes(lower(x.teacher), q)
    || Includes(lower(x.school), q)
    || (x.campus != "" && Includes(lower(x.campus), q))
    || Includes(IntToString(x.unit), q)
    || Includes(IntToString(x.lesson), q)
  }

  /**
   * `searchSessions(query)`. A missing or blank query gives every session;
   * otherwise the sessions with a field containing the lower-cased, trimmed query.
   */
  function SearchSessions(sessions: seq<Session>, query: Option<string>, lower: string -> string): (r: seq<Session>)
    ensures query.None? || IsBlank(query.value) ==> r == sessions
    ensures query.Some? && !IsBlank(query.value) ==>
      && IsSubseq(r, sessions)
      && (forall i :: 0 <= i < |r| ==> SessionMatches(r[i], Trim(lower(query.value)), lower))
      && (forall i :: 0 <= i < |sessions| && SessionMatches(sessions[i], Trim(lower(query.value)), lower) ==> sessions[i] in r)
  {
    if query.None? || Trim(query.value) == "" then
      TrimEmptyIffBlank(if query.None? then "" else query.value);
      sessions
    else
      TrimEmptyIffBlank(query.value);
      var q := Trim(lower(query.value));
      Filter(sessions, (x: Session) => SessionMatches(x, q, lower))
  }

  // ---- the current session ----------------------------------------------------

  /** `getSessionStats()`. */
  datatype SessionStats = SessionStats(total: nat, withNotes: nat)

  /** The fields `updateSession` takes from its `updates`; `""` is a missing or empty field. */
  datatype SessionEdit = SessionEdit(school: string, campus: string, teacher: string, date: string, unit: string, lesson: string)

  /** `{...s, <edited fields>, updatedAt: now}`. */
  function Edited(s: Session, e: SessionEdit, now: string): (r: Session)
    ensures r.id == s.id && r.indicators == s.indicators && r.status == s.status && r.createdAt == s.createdAt
    ensures r.school == e.school && r.campus == e.campus && r.teacher == e.teacher
    ensures e.date != "" ==> r.date == e.date
    ensures e.date == "" ==> r.date == Today(now)
    ensures r.unit == ParsedOrOne(e.unit) && r.lesson == ParsedOrOne(e.lesson)
    ensures r.unit != 0 && r.lesson != 0
    ensures r.updatedAt == now
  {
    s.(school := e.school, campus := e.campus, teacher := e.teacher,
       date := if e.date == "" then Today(now) else e.date,
       unit := ParsedOrOne(e.unit), lesson := ParsedOrOne(e.lesson), updatedAt := now)
  }

  /** `currentSession` after the session `id` has become `s` in the list. */
  function Follow(current: Option<Session>, id: string, s: Option<Session>): Option<Session> {
    if current.Some? && current.value.id == id then s else current
  }

  class SessionManager {
    var currentSession: Option<Session>
    var sessions: seq<Session>

    /** The store over the sessions already loaded from storage, with nothing open. */
    constructor (saved: seq<Session>)
      ensures currentSession.None? && sessions == saved
    {
      currentSession := None;
      sessions := saved;
    }

    /**
     * `createSession`: a fresh draft with no notes becomes current and is saved.
     * An empty date becomes today's; a unit or lesson parsing to `NaN` or 0 becomes 1.
     */
    method CreateSession(school: string, campus: string, teacher: string, date: string,
                         unit: string, lesson: string, millis: nat, now: string)
      returns (s: Session)
      modifies this
      ensures s.id == SessionId(millis) && s.school == school && s.campus == campus && s.teacher == teacher
      ensures s.date == if date == "" then Today(now) else date
      ensures s.unit == ParsedOrOne(unit) && s.lesson == ParsedOrOne(lesson)
      ensures s.createdAt == now && s.updatedAt == now
      ensures s.indicators == map[] && s.status == "draft"
      ensures currentSession == Some(s)
      ensures sessions == Upsert(old(sessions), s)
    {
      currentSession := Some(Session(SessionId(millis), school, campus, teacher,
                                     if date == "" then Today(now) else date,
                                     ParsedOrOne(unit), ParsedOrOne(lesson), now, now, map[], "draft"));
      SaveCurrentSession(now);
      s := currentSession.value;
    }

    /**
     * `saveCurrentSession`: without a current session nothing happens;
     * otherwise its `updatedAt` is refreshed and it is upserted into the list.
     */
    method SaveCurrentSession(now: string)
      modifies this
      ensures old(currentSession).None? ==> currentSession.None? && sessions == old(sessions)
      ensures old(currentSession).Some? ==>
        && currentSession == Some(old(currentSession).value.(updatedAt := now))
        && sessions == Upsert(old(sessions), currentSession.value)
    {
      if currentSession.None? {
        return;
      }
      var c := currentSession.value.(updatedAt := now);
      currentSession := Some(c);
      var idx := SessionIndex(sessions, c.id);
      if idx.Some? {
        sessions := sessions[idx.value := c];
      } else {
        sessions := [c] + sessions;
      }
    }

    /** `getIndicatorNotes(id)`: the current session's note for `id`, if there is one. */
    function IndicatorNotes(id: string): (r: Option<Note>)
      reads this
      ensures r.Some? <==> currentSession.Some? && id in currentSession.value.indicators
      ensures r.Some? ==> r.value == currentSession.value.indicators[id]
    {
      if currentSession.Some? && id in currentSession.value.indicators then
        Some(currentSession.value.indicators[id])
      else None
    }

    /**
     * `saveIndicatorNotes`: without a current session nothing happens;
     * otherwise only the note of `indicatorId` changes, and the session is saved.
     */
    method SaveIndicatorNotes(indicatorId: string, drawingData: Option<string>, performanceType: Option<string>,
                              autoComment: bool, now: string)
      modifies this
      ensures old(currentSession).None? ==> currentSession.None? && sessions == old(sessions)
      ensures old(currentSession).Some? ==>
        var c := old(currentSession).value;
        && currentSession == Some(c.(indicators := c.indicators[indicatorId := Note(drawingData, performanceType, autoComment, now)],
                                     updatedAt := now))
        && sessions == Upsert(old(sessions), currentSession.value)
      ensures old(currentSession).Some? ==> IndicatorNotes(indicatorId) == Some(Note(drawingData, performanceType, autoComment, now))
      ensures forall k :: k != indicatorId ==> IndicatorNotes(k) == old(IndicatorNotes(k))
    {
      if currentSession.None? {
        return;
      }
      var c := currentSession.value;
      currentSession := Some(c.(indicators := c.indicators[indicatorId := Note(drawingData, performanceType, autoComment, now)]));
      SaveCurrentSession(now);
    }

    /** `loadSession(id)`: the first session with `id` becomes current; an unknown id changes nothing. */
    method LoadSession(id: string) returns (r: Option<Session>)
      modifies this
      ensures r == FindSession(old(sessions), id)
      ensures sessions == old(sessions)
      ensures currentSession == if r.Some? then r else old(currentSession)
    {
      r := FindSession(sessions, id);
      if r.Some? {
        currentSession := r;
      }
    }

    /**
     * `deleteSession(id, moveToTrash)`: an unknown id gives `false` and changes
     * nothing; otherwise exactly that entry leaves the list (into `trashBin`
     * when asked and when there is one) and the current session is closed iff
     * it had that id.
     */
    method DeleteSession(id: string, moveToTrash: bool, trashBin: Groups.GroupsManager?, now: string, millis: nat)
      returns (deleted: bool)
      modifies this, trashBin
      ensures deleted <==> SessionIndex(old(sessions), id).Some?
      ensures !deleted ==> sessions == old(sessions) && currentSession == old(currentSession)
      ensures deleted ==>
        && sessions == RemoveAt(old(sessions), SessionIndex(old(sessions), id).value)
        && currentSession == Follow(old(currentSession), id, None)
      ensures trashBin != null && deleted && moveToTrash ==>
        trashBin.State() == Groups.Trashed(old(trashBin.State()),
                                           SessionEntry(old(sessions)[SessionIndex(old(sessions), id).value]), now, millis)
      ensures trashBin != null && !(deleted && moveToTrash) ==> trashBin.State() == old(trashBin.State())
    {
      var idx := SessionIndex(sessions, id);
      if idx.None? {
        return false;
      }
      var i := idx.value;
      if moveToTrash && trashBin != null {
        trashBin.MoveToTrash(SessionEntry(sessions[i]), now, millis);
      }
      sessions := RemoveAt(sessions, i);
      currentSession := Follow(currentSession, id, None);
      deleted := true;
    }

    /**
     * `updateSession(id, updates)`: an unknown id gives `None` and changes
     * nothing; otherwise only that entry is rewritten, in place, and the
     * current session follows it when it has that id.
     */
    method UpdateSession(id: string, e: SessionEdit, now: string) returns (r: Option<Session>)
      modifies this
      ensures SessionIndex(old(sessions), id).None? ==>
        r.None? && sessions == old(sessions) && currentSession == old(currentSession)
      ensures SessionIndex(old(sessions), id).Some? ==>
        var i := SessionIndex(old(sessions), id).value;
        && r == Some(Edited(old(sessions)[i], e, now))
        && sessions == old(sessions)[i := r.value]
        && currentSession == Follow(old(currentSession), id, r)
    {
      var idx := SessionIndex(sessions, id);
      if idx.None? {
        return None;
      }
      var i := idx.value;
      var s := Edited(sessions[i], e, now);
      sessions := sessions[i := s];
      r := Some(s);
      currentSession := Follow(currentSession, id, r);
    }

    /** `restoreSession(data)`: upserts `data` without touching the current session. */
    method RestoreSession(data: Session) returns (r: Session)
      modifies this
      ensures r == data
      ensures sessions == Upsert(old(sessions), data)
      ensures currentSession == old(currentSession)
    {
      var idx := SessionIndex(sessions, data.id);
      if idx.Some? {
        sessions := sessions[idx.value := data];
      } else {
        sessions := [data] + sessions;
      }
      r := data;
    }

    /**
     * `updateSessionStatus(id, status)`: the first entry with `id` gets the
     * status and a new `updatedAt`; a current session with that id gets the status.
     */
    method UpdateSessionStatus(id: string, status: string, now: string)
      modifies this
      ensures SessionIndex(old(sessions), id).None? ==>
        sessions == old(sessions) && currentSession == old(currentSession)
      ensures SessionIndex(old(sessions), id).Some? ==>
        var i := SessionIndex(old(sessions), id).value;
        && sessions == old(sessions)[i := old(sessions)[i].(status := status, updatedAt := now)]
        && currentSession == Follow(old(currentSession), id, Some(old(currentSession).GetOr(old(sessions)[i]).(status := status)))
    {
      var idx := SessionIndex(sessions, id);
      if idx.None? {
        return;
      }
      var i := idx.value;
      sessions := sessions[i := sessions[i].(status := status, updatedAt := now)];
      if currentSession.Some? && currentSession.value.id == id {
        currentSession := Some(currentSession.value.(status := status));
      }
    }

    /** `getSessionStats()`: zeros without a current session, else 18 and its counted notes. */
    function Stats(): (r: SessionStats)
      reads this
      ensures currentSession.None? ==> r == SessionStats(0, 0)
      ensures currentSession.Some? ==> r.total == RubricSize && r.withNotes == NotesCount(currentSession.value)
      ensures currentSession.Some? ==> r.withNotes <= |currentSession.value.indicators|
    {
      if currentSession.None? then SessionStats(0, 0)
      else SessionStats(RubricSize, NotesCount(currentSession.value))
    }
  }
}
