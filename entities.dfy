/** The domain records kept by the in-memory store: todo entries and todo labels.
    Both carry an optional integer `id` that the mapper assigns on creation. */
module Entities {

  datatype Option<+T> = None | Some(value: T)

  /** A creation timestamp; the model never inspects it, it only has to survive unchanged. */
  type Timestamp = int

  /** A todo label: an optional id and a name. */
  datatype TodoLabel = TodoLabel(id: Option<int>, name: string)

  /** A todo entry. Its `attachedLabel` field (`label` in the source) is typed as an optional
      label, but the update path assigns whatever record is stored under the requested key,
      so the model lets it hold any record. */
  datatype TodoEntry = TodoEntry(
    id: Option<int>,
    summary: string,
    detail: Option<string>,
    createdAt: Timestamp,
    attachedLabel: Option<Record>)

  /** One value of the shared store: the same dictionary holds entries and labels. */
  datatype Record = EntryRecord(entry: TodoEntry) | LabelRecord(labelObject: TodoLabel)
  {
    /** The record's own `id` field, whichever kind it is. */
    function Id(): Option<int>
    {
      match this
      case EntryRecord(e) => e.id
      case LabelRecord(l) => l.id
    }
  }
}
