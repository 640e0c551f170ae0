/**
 * The school groups and the trash bin shared by groups and sessions.
 * `GroupsManager` holds the two lists the source keeps on its object; every
 * state-changing method is specified by a transition on the pure `Store`
 * value, and the lifecycle properties (delete then restore, nothing else
 * changes) are lemmas about those transitions.
 */
module Groups {
  import opened Wrappers
  import opened Sequences
  import opened JsStrings
  import opened Records

  /** `'group_' + Date.now()` for a clock reading `millis`. */
  function GroupId(millis: nat): string {
    "group_" + NatToString(millis)
  }

  /** `'trash_' + Date.now()` for a clock reading `millis`. */
  function TrashId(millis: nat): string {
    "trash_" + NatToString(millis)
  }

  /** `groups.findIndex(g => g.id === id)`. */
  function GroupIndex(groups: seq<Group>, id: string): (r: Option<nat>)
    ensures r.Some? ==> r.value < |groups| && groups[r.value].id == id
    ensures r.Some? ==> forall j :: 0 <= j < r.value ==> groups[j].id != id
    ensures r.None? <==> forall j :: 0 <= j < |groups| ==> groups[j].id != id
  {
    IndexWhere(groups, (g: Group) => g.id == id)
  }

  /** `trash.findIndex(t => t.trashId === trashId)`. */
  function TrashIndex(trash: seq<TrashItem>, trashId: string): (r: Option<nat>)
    ensures r.Some? ==> r.value < |trash| && trash[r.value].trashId == trashId
    ensures r.Some? ==> forall j :: 0 <= j < r.value ==> trash[j].trashId != trashId
    ensures r.None? <==> forall j :: 0 <= j < |trash| ==> trash[j].trashId != trashId
  {
    IndexWhere(trash, (t: TrashItem) => t.trashId == trashId)
  }

  /**
   * The fields an `updateGroup` call may carry; `None` is a field the
   * update object does not have. `updatedAt` is always overwritten.
   */
  datatype GroupPatch = GroupPatch(
    id: Option<string>,
    schoolName: Option<string>,
    campus: Option<string>,
    adminName: Option<string>,
    adminPhone: Option<string>,
    schoolAddress: Option<string>,
    createdAt: Option<string>,
    sessionCount: Option<int>,
    isActive: Option<bool>)

  /** `{...g, ...u, updatedAt: now}`: a field of `u` overrides the same field of `g`. */
  function Patched(g: Group, u: GroupPatch, now: string): (r: Group)
    ensures r.updatedAt == now
    ensures GivenOr(u.id, g.id, r.id) && GivenOr(u.schoolName, g.schoolName, r.schoolName)
    ensures GivenOr(u.campus, g.campus, r.campus) && GivenOr(u.adminName, g.adminName, r.adminName)
    ensures GivenOr(u.adminPhone, g.adminPhone, r.adminPhone) && GivenOr(u.schoolAddress, g.schoolAddress, r.schoolAddress)
    ensures GivenOr(u.createdAt, g.createdAt, r.createdAt) && GivenOr(u.sessionCount, g.sessionCount, r.sessionCount)
    ensures GivenOr(u.isActive, g.isActive, r.isActive)
  {
    Group(
      u.id.GetOr(g.id),
      u.schoolName.GetOr(g.schoolName),
      u.campus.GetOr(g.campus),
      u.adminName.GetOr(g.adminName),
      u.adminPhone.GetOr(g.adminPhone),
      u.schoolAddress.GetOr(g.schoolAddress),
      u.createdAt.GetOr(g.createdAt),
      now,
      u.sessionCount.GetOr(g.sessionCount),
      u.isActive.GetOr(g.isActive))
  }

  /** An update object without fields only refreshes `updatedAt`. */
  lemma PatchedEmpty(g: Group, now: string)
    ensures Patched(g, GroupPatch(None, None, None, None, None, None, None, None, None), now) == g.(updatedAt := now)
  {
  }

  /** Applying the same update twice is applying it once. */
  lemma PatchedIdempotent(g: Group, u: GroupPatch, now: string)
    ensures Patched(Patched(g, u, now), u, now) == Patched(g, u, now)
  {
  }

  /** The two lists the manager keeps. */
  datatype Store = Store(groups: seq<Group>, trash: seq<TrashItem>)

  /** `moveToTrash(type, item)`: the item, stamped, goes to the front of the trash. */
  function Trashed(st: Store, entry: Trashable, now: string, millis: nat): (r: Store)
    ensures r.groups == st.groups
    ensures |r.trash| == |st.trash| + 1 && r.trash[1..] == st.trash
    ensures r.trash[0].entry == entry && r.trash[0].deletedAt == now && r.trash[0].trashId == TrashId(millis)
  {
    st.(trash := [TrashItem(entry, now, TrashId(millis))] + st.trash)
  }

  /** `deleteGroup(id, move)`: the first group with `id` leaves the list, into the trash when `move`. */
  function AfterDeleteGroup(st: Store, id: string, move: bool, now: string, millis: nat): (r: Store)
    ensures GroupIndex(st.groups, id).None? ==> r == st
    ensures GroupIndex(st.groups, id).Some? ==>
      var i := GroupIndex(st.groups, id).value;
      && r.groups == RemoveAt(st.groups, i)
      && (move ==> r.trash == [TrashItem(GroupEntry(st.groups[i]), now, TrashId(millis))] + st.trash)
      && (!move ==> r.trash == st.trash)
  {
    match GroupIndex(st.groups, id)
    case None => st
    case Some(i) =>
      var st1 := if move then Trashed(st, GroupEntry(st.groups[i]), now, millis) else st;
      st1.(groups := RemoveAt(st.groups, i))
  }

  /**
   * What `restoreFromTrash(trashId)` hands back: the stored record without
   * its trash fields, or `None` for an unknown trash id.
   */
  function RestoredEntry(st: Store, trashId: string): (r: Option<Trashable>)
    ensures r.None? <==> TrashIndex(st.trash, trashId).None?
    ensures r.Some? ==>
      exists j :: 0 <= j < |st.trash| && st.trash[j].trashId == trashId && st.trash[j].entry == r.value &&
        (forall k :: 0 <= k < j ==> st.trash[k].trashId != trashId)
  {
    match TrashIndex(st.trash, trashId)
    case None => None
    case Some(i) => Some(st.trash[i].entry)
  }

  /**
   * The lists after `restoreFromTrash(trashId)`: the first matching trash entry
   * is removed, and a group entry goes back to the front of `groups`.
   */
  function AfterRestore(st: Store, trashId: string): (r: Store)
    ensures TrashIndex(st.trash, trashId).None? ==> r == st
    ensures TrashIndex(st.trash, trashId).Some? ==>
      var i := TrashIndex(st.trash, trashId).value;
      && r.trash == RemoveAt(st.trash, i)
      && (st.trash[i].OriginalType() == "group" ==> r.groups == [st.trash[i].entry.group] + st.groups)
      && (st.trash[i].OriginalType() == "session" ==> r.groups == st.groups)
  {
    match TrashIndex(st.trash, trashId)
    case None => st
    case Some(i) =>
      var item := st.trash[i];
      var groups := if item.entry.GroupEntry? then [item.entry.group] + st.groups else st.groups;
      Store(groups, RemoveAt(st.trash, i))
  }

  /** `permanentlyDelete(trashId)`: the first matching trash entry is dropped, nothing else changes. */
  function AfterPermanentDelete(st: Store, trashId: string): (r: Store)
    ensures r.groups == st.groups
    ensures TrashIndex(st.trash, trashId).None? ==> r.trash == st.trash
    ensures TrashIndex(st.trash, trashId).Some? ==> r.trash == RemoveAt(st.trash, TrashIndex(st.trash, trashId).value)
  {
    match TrashIndex(st.trash, trashId)
    case None => st
    case Some(i) => st.(trash := RemoveAt(st.trash, i))
  }

  /**
   * Deleting a group into the trash and restoring the trash entry that
   * deletion created gives back the same group record, now at the front of
   * `groups`, and leaves the trash as it was before the deletion.
   */
  lemma DeleteThenRestore(st: Store, id: string, now: string, millis: nat)
    requires GroupIndex(st.groups, id).Some?
    ensures
      var i := GroupIndex(st.groups, id).value;
      var st1 := AfterDeleteGroup(st, id, true, now, millis);
      && RestoredEntry(st1, TrashId(millis)) == Some(GroupEntry(st.groups[i]))
      && AfterRestore(st1, TrashId(millis)) == Store([st.groups[i]] + RemoveAt(st.groups, i), st.trash)
  {
    var i := GroupIndex(st.groups, id).value;
    var st1 := AfterDeleteGroup(st, id, true, now, millis);
    IndexWhereAt(st1.trash, (t: TrashItem) => t.trashId == TrashId(millis), 0);
    assert TrashIndex(st1.trash, TrashId(millis)) == Some(0);
    assert RemoveAt(st1.trash, 0) == st.trash;
  }

  /** Restoring a session entry leaves `groups` alone: the session goes back through the session store. */
  lemma RestoreSessionKeepsGroups(st: Store, trashId: string)
    requires TrashIndex(st.trash, trashId).Some?
    requires st.trash[TrashIndex(st.trash, trashId).value].entry.SessionEntry?
    ensures AfterRestore(st, trashId).groups == st.groups
    ensures |AfterRestore(st, trashId).trash| == |st.trash| - 1
  {
  }

  // ---- queries -----------------------------------------------------------

  /** One field matches the (already lower-cased and trimmed) query of `searchGroups`; the phone is not lower-cased. */
  predicate GroupMatches(g: Group, q: string, lower: string -> string) {
    || Includes(lower(g.schoolName), q)
    || (g.campus != "" && Includes(lower(g.campus), q))
    || Includes(lower(g.adminName), q)
    || (g.adminPhone != "" && Includes(g.adminPhone, q))
    || (g.schoolAddress != "" && Includes(lower(g.schoolAddress), q))
  }

  /**
   * `searchGroups(query)`. A missing or blank query gives every group;
   * otherwise the groups with a field containing the lower-cased, trimmed query.
   */
  function SearchGroups(groups: seq<Group>, query: Option<string>, lower: string -> string): (r: seq<Group>)
    ensures query.None? || IsBlank(query.value) ==> r == groups
    ensures query.Some? && !IsBlank(query.value) ==>
      && IsSubseq(r, groups)
      && (forall i :: 0 <= i < |r| ==> GroupMatches(r[i], Trim(lower(query.value)), lower))
      && (forall i :: 0 <= i < |groups| && GroupMatches(groups[i], Trim(lower(query.value)), lower) ==> groups[i] in r)
  {
    if query.None? || Trim(query.value) == "" then
      TrimEmptyIffBlank(if query.None? then "" else query.value);
      groups
    else
      TrimEmptyIffBlank(query.value);
      var q := Trim(lower(query.value));
      Filter(groups, (g: Group) => GroupMatches(g, q, lower))
  }

  /** `getGroupBySchoolAndCampus`: the first group with both names, if any. */
  function GroupBySchoolAndCampus(groups: seq<Group>, school: string, campus: string): (r: Option<Group>)
    ensures r.Some? ==> r.value in groups && r.value.schoolName == school && r.value.campus == campus
    ensures r.None? <==> forall j :: 0 <= j < |groups| ==> !(groups[j].schoolName == school && groups[j].campus == campus)
    ensures r.Some? ==>
      exists i :: 0 <= i < |groups| && groups[i] == r.value &&
        forall j :: 0 <= j < i ==> !(groups[j].schoolName == school && groups[j].campus == campus)
  {
    Find(groups, (g: Group) => g.schoolName == school && g.campus == campus)
  }

  /**
   * A group that contributes a campus to `school`'s list: same school name and
   * a campus that is not blank (`campus.trim() !== ''`, see `TrimEmptyIffBlank`).
   */
  predicate OffersCampus(g: Group, school: string) {
    g.schoolName == school && !IsBlank(g.campus)
  }

  /** The campus names, in group order, that `getCampusesForSchool` adds to its `Set`. */
  function CampusCandidates(groups: seq<Group>, school: string): seq<string> {
    if groups == [] then []
    else
      var c := CampusCandidates(groups[..|groups| - 1], school);
      var g := groups[|groups| - 1];
      if OffersCampus(g, school) then c + [g.campus] else c
  }

  /** The candidates are exactly the campuses of the groups that offer one for `school`. */
  lemma {:induction false} CampusCandidatesSpec(groups: seq<Group>, school: string)
    ensures forall k :: 0 <= k < |CampusCandidates(groups, school)| ==>
      !IsBlank(CampusCandidates(groups, school)[k])
    ensures forall k :: 0 <= k < |CampusCandidates(groups, school)| ==>
      exists j :: 0 <= j < |groups| && groups[j].schoolName == school && groups[j].campus == CampusCandidates(groups, school)[k]
    ensures forall j :: 0 <= j < |groups| && OffersCampus(groups[j], school) ==>
      groups[j].campus in CampusCandidates(groups, school)
  {
    if groups != [] {
      var n := |groups| - 1;
      var p, g := groups[..n], groups[n];
      CampusCandidatesSpec(p, school);
      var c0 := CampusCandidates(p, school);
      var c := CampusCandidates(groups, school);
      assert c == if OffersCampus(g, school) then c0 + [g.campus] else c0;
      forall k | 0 <= k < |c|
        ensures !IsBlank(c[k])
        ensures exists j :: 0 <= j < |groups| && groups[j].schoolName == school && groups[j].campus == c[k]
      {
        if k < |c0| {
          assert c[k] == c0[k] && !IsBlank(c0[k]);
          var j :| 0 <= j < |p| && p[j].schoolName == school && p[j].campus == c0[k];
          assert groups[j] == p[j];
          assert 0 <= j < |groups| && groups[j].schoolName == school && groups[j].campus == c[k];
        } else {
          assert c[k] == g.campus && OffersCampus(g, school);
          assert 0 <= n < |groups| && groups[n].schoolName == school && groups[n].campus == c[k];
        }
      }
      forall j | 0 <= j < |groups| && OffersCampus(groups[j], school) ensures groups[j].campus in c {
        if j < n {
          assert p[j] == groups[j];
          assert groups[j].campus in c0;
        }
      }
      assert forall k :: 0 <= k < |CampusCandidates(groups, school)| ==>
        exists j :: 0 <= j < |groups| && groups[j].schoolName == school && groups[j].campus == CampusCandidates(groups, school)[k];
    } else {
      assert CampusCandidates(groups, school) == [];
    }
  }

  /**
   * `getCampusesForSchool(school)`: the distinct non-blank campuses of the
   * groups named `school`, in order of first appearance.
   */
  function CampusesForSchool(groups: seq<Group>, school: string): (r: seq<string>)
    ensures NoDuplicates(r)
    ensures forall i :: 0 <= i < |r| ==> !IsBlank(r[i])
    ensures forall i :: 0 <= i < |r| ==> exists j :: 0 <= j < |groups| && groups[j].schoolName == school && groups[j].campus == r[i]
    ensures forall j :: 0 <= j < |groups| && OffersCampus(groups[j], school) ==> groups[j].campus in r
  {
    var c := CampusCandidates(groups, school);
    CampusCandidatesSpec(groups, school);
    DedupOrdered(c);
    Dedup(c)
  }

  /** One more group extends each campus list by at most its own campus. */
  lemma CampusesSnoc(groups: seq<Group>, g: Group, school: string)
    ensures CampusesForSchool(groups + [g], school) ==
      var c := CampusesForSchool(groups, school);
      if OffersCampus(g, school) && g.campus !in c then c + [g.campus] else c
  {
    var c0 := CampusCandidates(groups, school);
    assert (groups + [g])[..|groups|] == groups;
    if OffersCampus(g, school) {
      DedupSnoc(c0, g.campus);
    }
  }

  /** A school that names no group has no campuses. */
  lemma {:induction false} CampusesNone(groups: seq<Group>, school: string)
    requires forall j :: 0 <= j < |groups| ==> groups[j].schoolName != school
    ensures CampusesForSchool(groups, school) == []
  {
    if groups != [] {
      CampusesNone(groups[..|groups| - 1], school);
    }
  }

  /** A school name `getSchoolsForDropdown` lists: present and not blank. */
  predicate ListedSchool(name: string) {
    !IsBlank(name)
  }

  /** Some group of `groups` has the school name `k`. */
  ghost predicate NamesSchool(groups: seq<Group>, k: string) {
    exists j :: 0 <= j < |groups| && groups[j].schoolName == k
  }

  lemma NamesSchoolSnoc(groups: seq<Group>, g: Group, k: string)
    ensures NamesSchool(groups + [g], k) <==> k == g.schoolName || NamesSchool(groups, k)
  {
    var gs := groups + [g];
    if NamesSchool(gs, k) {
      var j :| 0 <= j < |gs| && gs[j].schoolName == k;
      if j < |groups| {
        assert groups[j].schoolName == k;
      }
    }
    if k == g.schoolName {
      assert gs[|groups|].schoolName == k;
    } else if NamesSchool(groups, k) {
      var j :| 0 <= j < |groups| && groups[j].schoolName == k;
      assert gs[j].schoolName == k;
    }
  }

  /** `m` maps exactly the listed school names of `groups` to their campus lists. */
  ghost predicate IsDropdown(m: map<string, seq<string>>, groups: seq<Group>) {
    && (forall k :: k in m <==> ListedSchool(k) && NamesSchool(groups, k))
    && (forall k :: k in m ==> m[k] == CampusesForSchool(groups, k))
  }

  /** The dropdown of one more group with a listed school: that school's campus list is recomputed. */
  lemma DropdownExtendListed(m: map<string, seq<string>>, groups: seq<Group>, g: Group)
    requires IsDropdown(m, groups) && ListedSchool(g.schoolName)
    ensures IsDropdown(m[g.schoolName := CampusesForSchool(groups + [g], g.schoolName)], groups + [g])
  {
    var gs, name := groups + [g], g.schoolName;
    var m2 := m[name := CampusesForSchool(gs, name)];
    forall k ensures k in m2 <==> ListedSchool(k) && NamesSchool(gs, k) {
      NamesSchoolSnoc(groups, g, k);
    }
    forall k | k in m2 ensures m2[k] == CampusesForSchool(gs, k) {
      if k != name {
        CampusesSnoc(groups, g, k);
      }
    }
  }

  /** A group whose school is blank leaves the dropdown as it is. */
  lemma DropdownExtendUnlisted(m: map<string, seq<string>>, groups: seq<Group>, g: Group)
    requires IsDropdown(m, groups) && !ListedSchool(g.schoolName)
    ensures IsDropdown(m, groups + [g])
  {
    var gs := groups + [g];
    forall k ensures k in m <==> ListedSchool(k) && NamesSchool(gs, k) {
      NamesSchoolSnoc(groups, g, k);
    }
    forall k | k in m ensures m[k] == CampusesForSchool(gs, k) {
      CampusesSnoc(groups, g, k);
    }
  }

  /** One pass of `getSchoolsForDropdown`'s loop: `g`'s campus joins its school's list. */
  function AddToDropdown(m: map<string, seq<string>>, g: Group): map<string, seq<string>> {
    if IsBlank(g.schoolName) then m
    else
      var current := if g.schoolName in m then m[g.schoolName] else [];
      m[g.schoolName := if !IsBlank(g.campus) && g.campus !in current then current + [g.campus] else current]
  }

  /** For a listed school, the step replaces that school's entry alone. */
  lemma AddToDropdownListed(m: map<string, seq<string>>, g: Group)
    requires ListedSchool(g.schoolName)
    ensures var current := if g.schoolName in m then m[g.schoolName] else [];
      AddToDropdown(m, g) == m[g.schoolName := if !IsBlank(g.campus) && g.campus !in current then current + [g.campus] else current]
  {
  }

  /** The loop's step keeps the dropdown exact for the groups seen so far. */
  lemma DropdownStep(m: map<string, seq<string>>, groups: seq<Group>, g: Group)
    requires IsDropdown(m, groups)
    ensures IsDropdown(AddToDropdown(m, g), groups + [g])
  {
    var name := g.schoolName;
    if !ListedSchool(name) {
      DropdownExtendUnlisted(m, groups, g);
    } else {
      DropdownExtendListed(m, groups, g);
      var current := if name in m then m[name] else [];
      if name !in m {
        CampusesNone(groups, name);
      }
      assert current == CampusesForSchool(groups, name);
      CampusesSnoc(groups, g, name);
      AddToDropdownListed(m, g);
      assert AddToDropdown(m, g) == m[name := CampusesForSchool(groups + [g], name)];
    }
  }

  /**
   * `getSchoolsForDropdown()`: every non-blank school name mapped to its
   * campus list, built in one pass over the groups as the source does.
   */
  method SchoolsForDropdown(groups: seq<Group>) returns (schools: map<string, seq<string>>)
    ensures forall k :: k in schools <==> ListedSchool(k) && NamesSchool(groups, k)
    ensures forall k :: k in schools ==> schools[k] == CampusesForSchool(groups, k)
  {
    schools := map[];
    for i := 0 to |groups|
      invariant IsDropdown(schools, groups[..i])
    {
      var g := groups[i];
      assert groups[..i + 1] == groups[..i] + [g];
      DropdownStep(schools, groups[..i], g);
      schools := AddGroupToDropdown(schools, g);
    }
    assert groups[..|groups|] == groups;
  }

  /** The body of `getSchoolsForDropdown`'s loop for the group `g`. */
  method AddGroupToDropdown(schools: map<string, seq<string>>, g: Group) returns (r: map<string, seq<string>>)
    ensures r == AddToDropdown(schools, g)
  {
    r := schools;
    var noSchool := TrimmedIsEmpty(g.schoolName);
    var noCampus := TrimmedIsEmpty(g.campus);
    if !noSchool {
      var name := g.schoolName;
      var current := if name in r then r[name] else [];
      if !noCampus && g.campus !in current {
        current := current + [g.campus];
      }
      r := r[name := current];
    }
  }

  // ---- the manager object ------------------------------------------------

  class GroupsManager {
    var groups: seq<Group>
    var trash: seq<TrashItem>

    /** The manager over lists already loaded from storage. */
    constructor (savedGroups: seq<Group>, savedTrash: seq<TrashItem>)
      ensures groups == savedGroups && trash == savedTrash
    {
      groups := savedGroups;
      trash := savedTrash;
    }

    function State(): Store
      reads this
    {
      Store(groups, trash)
    }

    /**
     * `createGroup`: a fresh active group with no sessions goes to the front.
     * A missing phone, address or campus becomes `''`.
     */
    method CreateGroup(schoolName: string, adminName: string, adminPhone: Option<string>,
                       schoolAddress: Option<string>, campus: Option<string>, millis: nat, now: string)
      returns (g: Group)
      modifies this
      ensures g.id == GroupId(millis) && g.schoolName == schoolName && g.adminName == adminName
      ensures g.campus == campus.GetOr("")
      ensures g.adminPhone == adminPhone.GetOr("") && g.schoolAddress == schoolAddress.GetOr("")
      ensures g.createdAt == now && g.updatedAt == now
      ensures g.sessionCount == 0 && g.isActive
      ensures groups == [g] + old(groups) && trash == old(trash)
    {
      g := Group(GroupId(millis), schoolName, campus.GetOr(""), adminName, adminPhone.GetOr(""),
                 schoolAddress.GetOr(""), now, now, 0, true);
      groups := [g] + groups;
    }

    /** `updateGroup(id, updates)`: only the first group with `id` changes, in place. */
    method UpdateGroup(id: string, u: GroupPatch, now: string) returns (r: Option<Group>)
      modifies this
      ensures trash == old(trash)
      ensures GroupIndex(old(groups), id).None? ==> r.None? && groups == old(groups)
      ensures GroupIndex(old(groups), id).Some? ==>
        var i := GroupIndex(old(groups), id).value;
        && r == Some(Patched(old(groups)[i], u, now))
        && groups == old(groups)[i := r.value]
    {
      var idx := GroupIndex(groups, id);
      if idx.None? {
        return None;
      }
      var i := idx.value;
      var g := Patched(groups[i], u, now);
      groups := groups[i := g];
      r := Some(g);
    }

    /** `moveToTrash(type, item)`. */
    method MoveToTrash(entry: Trashable, now: string, millis: nat)
      modifies this
      ensures State() == Trashed(old(State()), entry, now, millis)
    {
      trash := [TrashItem(entry, now, TrashId(millis))] + trash;
    }

    /** `deleteGroup(id, moveToTrash)`: `true` exactly when a group with `id` was there. */
    method DeleteGroup(id: string, move: bool, now: string, millis: nat) returns (deleted: bool)
      modifies this
      ensures deleted <==> GroupIndex(old(groups), id).Some?
      ensures State() == AfterDeleteGroup(old(State()), id, move, now, millis)
    {
      var idx := GroupIndex(groups, id);
      if idx.None? {
        return false;
      }
      var i := idx.value;
      if move {
        MoveToTrash(GroupEntry(groups[i]), now, millis);
      }
      groups := RemoveAt(groups, i);
      deleted := true;
    }

    /** `restoreFromTrash(trashId)`. */
    method RestoreFromTrash(trashId: string) returns (r: Option<Trashable>)
      modifies this
      ensures r == RestoredEntry(old(State()), trashId)
      ensures State() == AfterRestore(old(State()), trashId)
    {
      var idx := TrashIndex(trash, trashId);
      if idx.None? {
        return None;
      }
      var i := idx.value;
      var item := trash[i];
      if item.entry.GroupEntry? {
        groups := [item.entry.group] + groups;
      }
      trash := RemoveAt(trash, i);
      r := Some(item.entry);
    }

    /** `permanentlyDelete(trashId)`: `true` exactly when an entry was removed. */
    method PermanentlyDelete(trashId: string) returns (removed: bool)
      modifies this
      ensures removed <==> TrashIndex(old(trash), trashId).Some?
      ensures State() == AfterPermanentDelete(old(State()), trashId)
    {
      var idx := TrashIndex(trash, trashId);
      if idx.None? {
        return false;
      }
      trash := RemoveAt(trash, idx.value);
      removed := true;
    }

    /** `emptyTrash()`. */
    method EmptyTrash()
      modifies this
      ensures trash == [] && groups == old(groups)
    {
      trash := [];
    }
  }
}
