/**
 * `TEACHING_INDICATORS`: the fixed table of the 18 teaching indicators of the
 * observation rubric, and the facts about it that the lookups rely on.
 */
module Rubric {
  import Sessions
  import opened Wrappers
  import opened Indicators

  // The entries of `TEACHING_INDICATORS`.
  const Indicator1_1 := Indicator("1.1", "LEARNING ENVIRONMENT", "Organized Teaching Area",
        "Teaching area is highly organized; materials, props, and technology are easily accessible. Students can see the teaching materials well",
        "Classroom is exceptionally well-organized with clear learning zones")
  const Indicator1_2 := Indicator("1.2", "LEARNING ENVIRONMENT", "Safe teaching environment",
        "Teaching environment is completely safe for all activities. Classroom space is effectively organized for easy movement during AAs and Transitions.",
        "Classroom environment is completely safe for all activities")
  const Indicator1_3 := Indicator("1.3", "LEARNING ENVIRONMENT", "Visually stimulating environment",
        "Classroom visuals fully reinforce lesson content and engage students.",
        "Visual displays perfectly reinforce current learning objectives")
  const Indicator2_1 := Indicator("2.1", "CLASSROOM MANAGEMENT", "Established classroom routines",
        "Classroom routines are well-established and consistently followed.",
        "Classroom routines are well-established and consistently followed")
  const Indicator2_2 := Indicator("2.2", "CLASSROOM MANAGEMENT", "Positive classroom management",
        "Maintains positive classroom environment with clear expectations.",
        "Excellent classroom management creates positive learning environment")
  const Indicator2_3 := Indicator("2.3", "CLASSROOM MANAGEMENT", "Technical troubleshooting",
        "Proactively resolves technical issues without disrupting lesson flow.",
        "Proactively resolves technical issues without disrupting lesson flow")
  const Indicator3_1 := Indicator("3.1", "LESSON DELIVERY", "Follows lesson plan",
        "Lesson plans are followed with precision and clear purpose.",
        "Lesson plans are followed with precision and clear purpose")
  const Indicator3_2 := Indicator("3.2", "LESSON DELIVERY", "Memory Mode delivery",
        "Memory Mode is used effectively to enhance student engagement.",
        "Memory Mode is used effectively to enhance student engagement")
  const Indicator3_3 := Indicator("3.3", "LESSON DELIVERY", "Material usage",
        "GrapeSEED materials are used effectively as outlined in manuals.",
        "GrapeSEED materials are used effectively as outlined in manuals")
  const Indicator3_4 := Indicator("3.4", "LESSON DELIVERY", "Student progress monitoring",
        "Effectively monitors student progress and understanding.",
        "Excellent monitoring of student progress and understanding")
  const Indicator3_5 := Indicator("3.5", "LESSON DELIVERY", "Teaching adjustments",
        "Teaching is effectively adjusted based on student responses.",
        "Teaching is effectively adjusted based on student responses")
  const Indicator4_1 := Indicator("4.1", "QUESTIONING TECHNIQUES", "Purposeful questioning",
        "Questions are purposeful and aligned with learning objectives.",
        "Questions are purposeful and aligned with learning objectives")
  const Indicator4_2 := Indicator("4.2", "QUESTIONING TECHNIQUES", "Student engagement",
        "Questions engage all students and promote critical thinking.",
        "Questions engage all students and promote critical thinking")
  const Indicator5_1 := Indicator("5.1", "TRANSITION MANAGEMENT", "Smooth transitions",
        "Transitions are smooth and maintain lesson momentum.",
        "Transitions are smooth and maintain lesson momentum")
  const Indicator6_1 := Indicator("6.1", "TEACHER PRESENCE", "Gestures and expressions",
        "Uses gestures and expressions effectively to engage students.",
        "Excellent use of gestures and expressions to engage students")
  const Indicator6_2 := Indicator("6.2", "TEACHER PRESENCE", "Wait time",
        "Provides appropriate wait time for student responses.",
        "Provides appropriate wait time for student responses")
  const Indicator7_1 := Indicator("7.1", "STUDENT INTERACTION", "Peer practice facilitation",
        "Effectively facilitates peer practice and collaboration.",
        "Effectively facilitates peer practice and collaboration")
  const Indicator8_1 := Indicator("8.1", "INSTRUCTIONAL DELIVERY", "Modeling Actions",
        "Accurately models actions and movements that align with lesson content, enhancing comprehension and engagement.",
        "Actions and movements are perfectly aligned with lesson content")

  /** `TEACHING_INDICATORS`, in the source's order. */
  const Table: seq<Indicator> := [
    Indicator1_1, Indicator1_2, Indicator1_3, Indicator2_1, Indicator2_2, Indicator2_3,
    Indicator3_1, Indicator3_2, Indicator3_3, Indicator3_4, Indicator3_5, Indicator4_1,
    Indicator4_2, Indicator5_1, Indicator6_1, Indicator6_2, Indicator7_1, Indicator8_1]

  /** The rubric has as many entries as the progress figures divide by. */
  lemma TableSize()
    ensures |Table| == 18 == Sessions.RubricSize
  {
  }

  /** The ids of `Table`, in order. */
  const TableIds: seq<string> := ["1.1", "1.2", "1.3", "2.1", "2.2", "2.3", "3.1", "3.2", "3.3",
    "3.4", "3.5", "4.1", "4.2", "5.1", "6.1", "6.2", "7.1", "8.1"]

  lemma TableIdColumn()
    ensures |Table| == |TableIds| && forall k :: 0 <= k < |Table| ==> Table[k].id == TableIds[k]
  {
  }

  /** Ids of the form `d.d`, ordered by area digit then by entry digit. */
  predicate IdBefore(a: string, b: string) {
    |a| == 3 && |b| == 3 && (a[0] < b[0] || (a[0] == b[0] && a[2] < b[2]))
  }

  lemma TableIdsAscending()
    ensures forall k :: 0 <= k < |TableIds| - 1 ==> IdBefore(TableIds[k], TableIds[k + 1])
  {
  }

  lemma {:induction false} AscendingDistinct(ids: seq<string>)
    requires forall k :: 0 <= k < |ids| - 1 ==> IdBefore(ids[k], ids[k + 1])
    ensures forall i, j :: 0 <= i < j < |ids| ==> IdBefore(ids[i], ids[j])
  {
    forall i, j | 0 <= i < j < |ids|
      ensures IdBefore(ids[i], ids[j])
    {
      var m := i;
      while m + 1 < j
        invariant i <= m < j && IdBefore(ids[i], ids[m + 1])
      {
        m := m + 1;
      }
    }
  }

  lemma TableIdsDistinct()
    ensures DistinctIds(Table)
  {
    TableIdColumn();
    TableIdsAscending();
    AscendingDistinct(TableIds);
  }

  /** `getIndicatorById` on the manager's table finds every entry by its own id. */
  lemma TableLookup(i: nat)
    requires i < |Table|
    ensures IndicatorById(Table, Table[i].id) == Some(Table[i])
  {
    TableIdsDistinct();
    IndicatorByIdOfEntry(Table, i);
  }
}
