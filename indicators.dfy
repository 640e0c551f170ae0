/**
 * The indicator lookups over the rubric, the two note toggles an indicator
 * card offers (good point / growth area, and the canned auto-comment), and the
 * counts over a session's notes.
 */
module Indicators {
  import opened Wrappers
  import opened Sequences
  import opened Records
  import Sessions

  /** One rubric entry; `title` is the source's `indicator` field. */
  datatype Indicator = Indicator(id: string, area: string, title: string, explanation: string, autoComment: string)

  /** No two entries share an id. */
  predicate DistinctIds(indicators: seq<Indicator>) {
    forall i, j :: 0 <= i < j < |indicators| ==> indicators[i].id != indicators[j].id
  }

  // The lookups below read the manager's `indicators` field, which its
  // constructor sets to `Rubric.Table` and nothing changes; it is their first parameter.

  /** `getIndicatorById(id)`: the entry with that id, if any. */
  function IndicatorById(indicators: seq<Indicator>, id: string): (r: Option<Indicator>)
    ensures r.Some? ==> r.value in indicators && r.value.id == id
    ensures r.None? <==> forall i :: 0 <= i < |indicators| ==> indicators[i].id != id
  {
    Find(indicators, (ind: Indicator) => ind.id == id)
  }

  /** Looking up an entry's id gives back that entry when the ids are distinct, as in `Table`. */
  lemma IndicatorByIdOfEntry(indicators: seq<Indicator>, i: nat)
    requires DistinctIds(indicators) && i < |indicators|
    ensures IndicatorById(indicators, indicators[i].id) == Some(indicators[i])
  {
    IndexWhereAt(indicators, (ind: Indicator) => ind.id == indicators[i].id, i);
  }

  /** `getIndicatorsByArea(area)`: the entries of that area, in table order. */
  function IndicatorsByArea(indicators: seq<Indicator>, area: string): (r: seq<Indicator>)
    ensures IsSubseq(r, indicators)
    ensures forall x :: x in r <==> x in indicators && x.area == area
  {
    Filter(indicators, (ind: Indicator) => ind.area == area)
  }

  /** The area of every entry, in table order. */
  function AreaColumn(indicators: seq<Indicator>): (all: seq<string>)
    ensures |all| == |indicators|
    ensures forall i :: 0 <= i < |indicators| ==> all[i] == indicators[i].area
  {
    Map(indicators, (ind: Indicator) => ind.area)
  }

  /** `getAreas()`: each area once, in order of first appearance in the table. */
  function Areas(indicators: seq<Indicator>): (r: seq<string>)
    ensures NoDuplicates(r)
    ensures forall i :: 0 <= i < |indicators| ==> indicators[i].area in r
    ensures forall i :: 0 <= i < |r| ==> exists j :: 0 <= j < |indicators| && indicators[j].area == r[i]
  {
    var all := AreaColumn(indicators);
    DedupOrdered(all);
    forall i | 0 <= i < |indicators| ensures indicators[i].area in Dedup(all) {
      assert all[i] == indicators[i].area;
    }
    Dedup(all)
  }

  /** The areas follow the order in which the table introduces them. */
  lemma AreasInTableOrder(indicators: seq<Indicator>)
    ensures
      var all := AreaColumn(indicators);
      forall i, j :: 0 <= i < j < |Areas(indicators)| ==>
        FirstIndex(all, Areas(indicators)[i]) < FirstIndex(all, Areas(indicators)[j])
  {
    DedupOrdered(AreaColumn(indicators));
  }

  // ---- note toggles ----------------------------------------------------------

  /** `notes.drawingData || null`: an empty drawing is dropped. */
  function KeptDrawing(n: Option<Note>): (r: Option<string>)
    ensures r.Some? ==> r.value != "" && n.Some? && n.value.drawingData == r
    ensures n.Some? && Truthy(n.value.drawingData) ==> r == n.value.drawingData
  {
    if n.Some? && Truthy(n.value.drawingData) then n.value.drawingData else None
  }

  /** `notes.performanceType || null`. */
  function KeptPerformance(n: Option<Note>): (r: Option<string>)
    ensures r.Some? ==> r.value != "" && n.Some? && n.value.performanceType == r
    ensures n.Some? && Truthy(n.value.performanceType) ==> r == n.value.performanceType
  {
    if n.Some? && Truthy(n.value.performanceType) then n.value.performanceType else None
  }

  /** `notes.autoComment || false`. */
  function KeptAutoComment(n: Option<Note>): (r: bool)
    ensures r <==> n.Some? && n.value.autoComment
  {
    n.Some? && n.value.autoComment
  }

  /** `notes.performanceType` as the toggle compares it (missing notes have none). */
  function StoredPerformance(n: Option<Note>): Option<string> {
    if n.Some? then n.value.performanceType else None
  }

  /** The performance type after a toggle to `t`: cleared when `t` was already set, else `t`. */
  function PerformanceAfterToggle(n: Option<Note>, t: string): (r: Option<string>)
    ensures r.None? <==> StoredPerformance(n) == Some(t)
    ensures r.Some? ==> r.value == t
  {
    if StoredPerformance(n) == Some(t) then None else Some(t)
  }

  /** The note `handlePerformanceToggle(id, t)` stores. */
  function PerformanceToggled(n: Option<Note>, t: string, now: string): Note {
    Note(KeptDrawing(n), PerformanceAfterToggle(n, t), KeptAutoComment(n), now)
  }

  /** The note `handleAutoCommentToggle` stores. */
  function AutoCommentToggled(n: Option<Note>, now: string): Note {
    Note(KeptDrawing(n), KeptPerformance(n), !KeptAutoComment(n), now)
  }

  /**
   * Toggling the same type twice keeps drawing and auto-comment, and leaves
   * the type set exactly when it was `t` to begin with.
   */
  lemma PerformanceToggleTwice(n: Option<Note>, t: string, now1: string, now2: string)
    ensures
      var once := Some(PerformanceToggled(n, t, now1));
      var twice := PerformanceToggled(once, t, now2);
      && twice.performanceType == (if StoredPerformance(n) == Some(t) then Some(t) else None)
      && twice.drawingData == KeptDrawing(n)
      && twice.autoComment == KeptAutoComment(n)
  {
  }

  /** Both toggles keep the other two fields of the note. */
  lemma TogglesKeepOtherFields(n: Option<Note>, t: string, now: string)
    ensures PerformanceToggled(n, t, now).drawingData == KeptDrawing(n)
    ensures PerformanceToggled(n, t, now).autoComment == KeptAutoComment(n)
    ensures AutoCommentToggled(n, now).drawingData == KeptDrawing(n)
    ensures AutoCommentToggled(n, now).performanceType == KeptPerformance(n)
  {
  }

  /** The auto-comment toggle applied twice restores the original flag and keeps the other fields. */
  lemma AutoCommentToggleTwice(n: Option<Note>, now1: string, now2: string)
    ensures
      var twice := AutoCommentToggled(Some(AutoCommentToggled(n, now1)), now2);
      && twice.autoComment == KeptAutoComment(n)
      && twice.drawingData == KeptDrawing(n)
      && twice.performanceType == KeptPerformance(n)
  {
  }

  /**
   * `handlePerformanceToggle(id, t)` on the session store `sm` (`null` when
   * the application is not available): the note of `id` gets the toggled type
   * and keeps its drawing and auto-comment; nothing else changes.
   */
  method HandlePerformanceToggle(sm: Sessions.SessionManager?, id: string, t: string, now: string)
    modifies sm
    ensures sm != null && old(sm.currentSession).None? ==>
      sm.currentSession.None? && sm.sessions == old(sm.sessions)
    ensures sm != null && old(sm.currentSession).Some? ==>
      && sm.IndicatorNotes(id) == Some(PerformanceToggled(old(sm.IndicatorNotes(id)), t, now))
      && sm.sessions == Sessions.Upsert(old(sm.sessions), sm.currentSession.value)
    ensures sm != null && old(sm.currentSession).Some? ==>
      var c := old(sm.currentSession).value;
      sm.currentSession == Some(c.(indicators := c.indicators[id := PerformanceToggled(old(sm.IndicatorNotes(id)), t, now)],
                                   updatedAt := now))
    ensures sm != null ==> forall k :: k != id ==> sm.IndicatorNotes(k) == old(sm.IndicatorNotes(k))
  {
    if sm == null {
      return;
    }
    var notes := sm.IndicatorNotes(id);
    if StoredPerformance(notes) == Some(t) {
      sm.SaveIndicatorNotes(id, KeptDrawing(notes), None, KeptAutoComment(notes), now);
    } else {
      sm.SaveIndicatorNotes(id, KeptDrawing(notes), Some(t), KeptAutoComment(notes), now);
    }
  }

  /**
   * `handleAutoCommentToggle(indicator)`: the note of the indicator gets the
   * flipped auto-comment flag and keeps its drawing and performance type.
   */
  method HandleAutoCommentToggle(sm: Sessions.SessionManager?, indicator: Indicator, now: string)
    modifies sm
    ensures sm != null && old(sm.currentSession).None? ==>
      sm.currentSession.None? && sm.sessions == old(sm.sessions)
    ensures sm != null && old(sm.currentSession).Some? ==>
      && sm.IndicatorNotes(indicator.id) == Some(AutoCommentToggled(old(sm.IndicatorNotes(indicator.id)), now))
      && sm.sessions == Sessions.Upsert(old(sm.sessions), sm.currentSession.value)
    ensures sm != null && old(sm.currentSession).Some? ==>
      var c := old(sm.currentSession).value;
      sm.currentSession == Some(c.(indicators := c.indicators[indicator.id := AutoCommentToggled(old(sm.IndicatorNotes(indicator.id)), now)],
                                   updatedAt := now))
    ensures sm != null ==> forall k :: k != indicator.id ==> sm.IndicatorNotes(k) == old(sm.IndicatorNotes(k))
  {
    if sm == null {
      return;
    }
    var notes := sm.IndicatorNotes(indicator.id);
    if KeptAutoComment(notes) {
      sm.SaveIndicatorNotes(indicator.id, KeptDrawing(notes), KeptPerformance(notes), false, now);
    } else {
      sm.SaveIndicatorNotes(indicator.id, KeptDrawing(notes), KeptPerformance(notes), true, now);
    }
  }

  // ---- statistics ------------------------------------------------------------

  /** A note `getPerformanceStats` counts: a non-empty drawing, a performance type or an auto-comment. */
  predicate HasContent(n: Note) {
    Truthy(n.drawingData) || Truthy(n.performanceType) || n.autoComment
  }

  /** The ids of the counted notes. */
  function ContentKeys(m: map<string, Note>): set<string> {
    set k | k in m && HasContent(m[k])
  }

  /** The ids of the counted notes whose performance type is `t`. */
  function TypedKeys(m: map<string, Note>, t: string): set<string> {
    set k | k in m && HasContent(m[k]) && m[k].performanceType == Some(t)
  }

  datatype PerformanceStats = PerformanceStats(good: nat, growth: nat, total: nat)

  /** The good and growth counts never exceed the total, nor the total the number of notes. */
  lemma StatsBounds(m: map<string, Note>)
    ensures |TypedKeys(m, "good")| + |TypedKeys(m, "growth")| <= |ContentKeys(m)| <= |m|
  {
    var g, w, c := TypedKeys(m, "good"), TypedKeys(m, "growth"), ContentKeys(m);
    assert g * w == {};
    assert |g + w| == |g| + |w|;
    SubsetCardinality(g + w, c);
    SubsetCardinality(c, m.Keys);
  }

  /** One key moves from the unvisited set `rest` to the visited part of `s`. */
  lemma VisitOne(s: set<string>, rest: set<string>, k: string)
    requires k in rest
    ensures |s - (rest - {k})| == |s - rest| + (if k in s then 1 else 0)
  {
    if k in s {
      assert s - (rest - {k}) == (s - rest) + {k};
    } else {
      assert s - (rest - {k}) == s - rest;
    }
  }

  /** Before the walk nothing is counted; after it, everything is. */
  lemma TallyEnds(m: map<string, Note>)
    ensures |ContentKeys(m) - m.Keys| == |TypedKeys(m, "good") - m.Keys| == |TypedKeys(m, "growth") - m.Keys| == 0
    ensures ContentKeys(m) - {} == ContentKeys(m)
    ensures TypedKeys(m, "good") - {} == TypedKeys(m, "good")
    ensures TypedKeys(m, "growth") - {} == TypedKeys(m, "growth")
  {
    WithinKeys(ContentKeys(m), m.Keys);
    WithinKeys(TypedKeys(m, "good"), m.Keys);
    WithinKeys(TypedKeys(m, "growth"), m.Keys);
  }

  lemma WithinKeys(s: set<string>, keys: set<string>)
    requires s <= keys
    ensures |s - keys| == 0 && s - {} == s
  {
    assert s - keys == {};
  }

  /** Visiting the note `k` adds it to exactly the counts it belongs to. */
  lemma TallyStep(m: map<string, Note>, rest: set<string>, k: string)
    requires k in rest && rest <= m.Keys
    ensures var counted := HasContent(m[k]);
      && |ContentKeys(m) - (rest - {k})| == |ContentKeys(m) - rest| + (if counted then 1 else 0)
      && |TypedKeys(m, "good") - (rest - {k})| ==
         |TypedKeys(m, "good") - rest| + (if counted && m[k].performanceType == Some("good") then 1 else 0)
      && |TypedKeys(m, "growth") - (rest - {k})| ==
         |TypedKeys(m, "growth") - rest| + (if counted && m[k].performanceType == Some("growth") then 1 else 0)
  {
    VisitOne(ContentKeys(m), rest, k);
    VisitOne(TypedKeys(m, "good"), rest, k);
    VisitOne(TypedKeys(m, "growth"), rest, k);
  }

  /**
   * `getPerformanceStats(sm)`: zeros without a store or a current session;
   * otherwise the tally of the current session's notes.
   */
  method PerformanceStatsOf(sm: Sessions.SessionManager?) returns (r: PerformanceStats)
    ensures sm == null || sm.currentSession.None? ==> r == PerformanceStats(0, 0, 0)
    ensures sm != null && sm.currentSession.Some? ==>
      var m := sm.currentSession.value.indicators;
      && r.total == |ContentKeys(m)|
      && r.good == |TypedKeys(m, "good")|
      && r.growth == |TypedKeys(m, "growth")|
    ensures r.good + r.growth <= r.total
    ensures sm != null && sm.currentSession.Some? ==> r.total <= |sm.currentSession.value.indicators|
  {
    if sm == null || sm.currentSession.None? {
      return PerformanceStats(0, 0, 0);
    }
    r := TallyNotes(sm.currentSession.value.indicators);
  }

  /**
   * The loop of `getPerformanceStats` over the notes `m`: the counted notes
   * and those marked good and growth, tallied in one pass.
   */
  method TallyNotes(m: map<string, Note>) returns (r: PerformanceStats)
    ensures r.total == |ContentKeys(m)|
    ensures r.good == |TypedKeys(m, "good")|
    ensures r.growth == |TypedKeys(m, "growth")|
    ensures r.good + r.growth <= r.total <= |m|
  {
    var goodCount, growthCount, total := 0, 0, 0;
    var rest := m.Keys;
    TallyEnds(m);
    while rest != {}
      invariant rest <= m.Keys
      invariant total == |ContentKeys(m) - rest|
      invariant goodCount == |TypedKeys(m, "good") - rest|
      invariant growthCount == |TypedKeys(m, "growth") - rest|
      decreases |rest|
    {
      var k :| k in rest;
      TallyStep(m, rest, k);
      goodCount, growthCount, total := CountNote(m[k], goodCount, growthCount, total);
      rest := rest - {k};
    }
    StatsBounds(m);
    r := PerformanceStats(goodCount, growthCount, total);
  }

  /** The `forEach` callback of `getPerformanceStats`: one note's contribution to the three counters. */
  method CountNote(note: Note, goodCount: nat, growthCount: nat, total: nat) returns (good': nat, growth': nat, total': nat)
    ensures total' == total + (if HasContent(note) then 1 else 0)
    ensures good' == goodCount + (if HasContent(note) && note.performanceType == Some("good") then 1 else 0)
    ensures growth' == growthCount + (if HasContent(note) && note.performanceType == Some("growth") then 1 else 0)
  {
    good', growth', total' := goodCount, growthCount, total;
    if HasContent(note) {
      total' := total' + 1;
      if note.performanceType == Some("good") {
        good' := good' + 1;
      }
      if note.performanceType == Some("growth") {
        growth' := growth' + 1;
      }
    }
  }
}
