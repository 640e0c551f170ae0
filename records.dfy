/**
 * The records the application keeps: observation sessions with their
 * per-indicator notes, school groups, and trash entries. Ids and ISO
 * timestamps are strings handed in by the callers (the source derives them
 * from `Date.now()` and `new Date().toISOString()`).
 */
module Records {
  import opened Wrappers

  /**
   * What `saveIndicatorNotes` stores for one indicator. A missing
   * `drawingData` or `performanceType` (`null`) is `None`.
   */
  datatype Note = Note(drawingData: Option<string>, performanceType: Option<string>, autoComment: bool, savedAt: string)

  /** JavaScript truthiness of a nullable string: present and not empty. */
  predicate Truthy(s: Option<string>) {
    s.Some? && s.value != ""
  }

  /** `notes.drawingData || notes.performanceType`: the note counts toward progress. */
  predicate HasNotes(n: Note) {
    Truthy(n.drawingData) || Truthy(n.performanceType)
  }

  /** One classroom observation. `indicators` maps an indicator id to its note. */
  datatype Session = Session(
    id: string,
    school: string,
    campus: string,
    teacher: string,
    date: string,
    unit: int,
    lesson: int,
    createdAt: string,
    updatedAt: string,
    indicators: map<string, Note>,
    status: string)

  /** One school campus with its administrator. */
  datatype Group = Group(
    id: string,
    schoolName: string,
    campus: string,
    adminName: string,
    adminPhone: string,
    schoolAddress: string,
    createdAt: string,
    updatedAt: string,
    sessionCount: int,
    isActive: bool)

  /** The record a trash entry holds; its constructor is the entry's `originalType`. */
  datatype Trashable = GroupEntry(group: Group) | SessionEntry(session: Session)

  /** `{...item, originalType, deletedAt, trashId}`. */
  datatype TrashItem = TrashItem(entry: Trashable, deletedAt: string, trashId: string) {
    function OriginalType(): string {
      if entry.GroupEntry? then "group" else "session"
    }
  }
}
