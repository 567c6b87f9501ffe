/** The in-memory mappers: one dictionary keyed by integer holds entries and labels alike, and
    both mappers may share it. The dictionary is a `Storage` object whose `records` map the
    mappers update in place; a mapper built over no dictionary at all holds `null`.

    Each random draw is a parameter: `draws` lists, in order, the values that successive calls
    of the random-number generator return. */
module MemoryMapper {
  import opened Entities
  import opened Errors

  type Table = map<int, Record>

  /** Range of every draw made for an entry, and of every redraw made for a label. */
  const EntryIdLow := 1
  const EntryIdHigh := 10000
  /** Range of the first draw made for a label. */
  const LabelIdLow := 10101
  const LabelIdHigh := 20000

  /** The shared dictionary. */
  class Storage {
    var records: Table

    constructor (initial: Table)
      ensures records == initial
    {
      records := initial;
    }
  }

  /** What a mapper sees of its store: None when it was built without one. */
  function View(storage: Storage?): Option<Table>
    reads storage
  {
    if storage == null then None else Some(storage.records)
  }

  /** `table[key]`: the stored record, or KeyError for a key the table does not hold
      (a missing `label_id` looks up the key None, which an integer-keyed table never holds). */
  function Subscript(table: Table, key: Option<int>): Result<Record>
  {
    if key.Some? && key.value in table then Ok(table[key.value]) else Raised(KeyError(key))
  }

  /** `fields.get("label_id")`. */
  function LabelKey(fields: map<string, int>): Option<int>
  {
    if "label_id" in fields then Some(fields["label_id"]) else None
  }

  // ---------------------------------------------------------------------------------------
  // Identifier generation

  /** Every draw lies in the entry range. */
  predicate EntryDraws(draws: seq<int>)
  {
    forall i :: 0 <= i < |draws| ==> EntryIdLow <= draws[i] <= EntryIdHigh
  }

  /** The first draw lies in the label range, every redraw in the entry range. */
  predicate LabelDraws(draws: seq<int>)
  {
    && |draws| > 0
    && LabelIdLow <= draws[0] <= LabelIdHigh
    && forall i :: 1 <= i < |draws| ==> EntryIdLow <= draws[i] <= EntryIdHigh
  }

  /** The redraw loop stops: some draw is not yet a key. */
  predicate HasFreeDraw(draws: seq<int>, table: Table)
  {
    exists i :: 0 <= i < |draws| && draws[i] !in table
  }

  /** How many draws the redraw loop makes, less one: the position of the first draw that is
      not a key of the table. */
  function FirstFreeIndex(draws: seq<int>, table: Table): (i: nat)
    requires HasFreeDraw(draws, table)
    ensures i < |draws| && draws[i] !in table
    ensures forall j :: 0 <= j < i ==> draws[j] in table
    decreases |draws|
  {
    if draws[0] !in table then 0
    else
      assert HasFreeDraw(draws[1..], table) by {
        var k :| 0 <= k < |draws| && draws[k] !in table;
        assert draws[1..][k - 1] == draws[k];
      }
      var rest := FirstFreeIndex(draws[1..], table);
      assert forall j :: 1 <= j < rest + 1 ==> draws[j] == draws[1..][j - 1];
      rest + 1
  }

  /** The identifier the redraw loop settles on. */
  function GeneratedId(draws: seq<int>, table: Table): int
    requires HasFreeDraw(draws, table)
  {
    draws[FirstFreeIndex(draws, table)]
  }

  // ---------------------------------------------------------------------------------------
  // Specification of each mapper operation, over the store as the mapper sees it

  /** Outcome of `get`: the stored record, whatever kind it is, or EntityNotFoundMapperError;
      with no store the subscript raises TypeError, which `get` does not catch. */
  function GetOutcome(table: Option<Table>, identifier: int): (r: Result<Record>)
    ensures table.None? ==> r == Raised(TypeError)
    ensures table.Some? ==> (r.Ok? <==> identifier in table.value)
    ensures table.Some? && identifier in table.value ==> r.value == table.value[identifier]
    ensures table.Some? && identifier !in table.value ==> r.error == EntityNotFoundMapperError(identifier)
  {
    match table
    case None => Raised(TypeError)
    case Some(t) =>
      match Subscript(t, Some(identifier))
      case Ok(record) => Ok(record)
      case Raised(_) => Raised(EntityNotFoundMapperError(identifier))
  }

  /** Outcome of entry `create`: the entry with a fresh identifier from the entry range and
      every other field as given; with no store the membership test raises TypeError, which
      becomes CreateMapperError. */
  function CreateEntryOutcome(table: Option<Table>, entity: TodoEntry, draws: seq<int>): (r: Result<TodoEntry>)
    requires table.Some? ==> EntryDraws(draws) && HasFreeDraw(draws, table.value)
    ensures r.Ok? <==> table.Some?
    ensures table.None? ==> r == Raised(CreateMapperError(TypeError))
    ensures r.Ok? ==> && r.value.id.Some?
                      && r.value.id.value !in table.value
                      && EntryIdLow <= r.value.id.value <= EntryIdHigh
                      && r.value.(id := entity.id) == entity
  {
    match table
    case None => Raised(CreateMapperError(TypeError))
    case Some(t) => Ok(entity.(id := Some(GeneratedId(draws, t))))
  }

  /** Outcome of label `create`: the label with a fresh identifier, drawn first from the label
      range and on collision from the entry range, and its name as given. */
  function CreateLabelOutcome(table: Option<Table>, valueObject: TodoLabel, draws: seq<int>): (r: Result<TodoLabel>)
    requires table.Some? ==> LabelDraws(draws) && HasFreeDraw(draws, table.value)
    ensures r.Ok? <==> table.Some?
    ensures table.None? ==> r == Raised(CreateMapperError(TypeError))
    ensures r.Ok? ==> && r.value.id.Some?
                      && r.value.id.value !in table.value
                      && (EntryIdLow <= r.value.id.value <= EntryIdHigh || LabelIdLow <= r.value.id.value <= LabelIdHigh)
                      && (draws[0] !in table.value ==> r.value.id == Some(draws[0]))
                      && r.value.name == valueObject.name
  {
    match table
    case None => Raised(CreateMapperError(TypeError))
    case Some(t) => Ok(valueObject.(id := Some(GeneratedId(draws, t))))
  }

  /** Outcome of `update`: both lookups come first and a missing key raises KeyError, which
      becomes UpdateMapperError; only then is the label assigned, which the model library
      refuses with ValueError when the target record is a label. */
  function UpdateOutcome(table: Option<Table>, identifier: int, fields: map<string, int>): (r: Result<Record>)
    ensures table.None? ==> r == Raised(TypeError)
    ensures r.Ok? <==> && table.Some?
                       && identifier in table.value
                       && table.value[identifier].EntryRecord?
                       && LabelKey(fields).Some?
                       && LabelKey(fields).value in table.value
    ensures r.Ok? ==> && r.value.EntryRecord?
                      && r.value.entry.attachedLabel == Some(table.value[LabelKey(fields).value])
                      && r.value.entry.(attachedLabel := table.value[identifier].entry.attachedLabel) == table.value[identifier].entry
    ensures table.Some? && identifier !in table.value ==>
              r == Raised(UpdateMapperError(KeyError(Some(identifier))))
    ensures table.Some? && identifier in table.value && !(LabelKey(fields).Some? && LabelKey(fields).value in table.value) ==>
              r == Raised(UpdateMapperError(KeyError(LabelKey(fields))))
    ensures (&& table.Some? && identifier in table.value && table.value[identifier].LabelRecord?
             && LabelKey(fields).Some? && LabelKey(fields).value in table.value) ==> r == Raised(ValueError)
  {
    match table
    case None => Raised(TypeError)
    case Some(t) =>
      match Subscript(t, Some(identifier))
      case Raised(e) => Raised(UpdateMapperError(e))
      case Ok(entity) =>
        match Subscript(t, LabelKey(fields))
        case Raised(e) => Raised(UpdateMapperError(e))
        case Ok(target) =>
          match entity
          case LabelRecord(_) => Raised(ValueError)
          case EntryRecord(e) => Ok(EntryRecord(e.(attachedLabel := Some(target))))
  }

  // ---------------------------------------------------------------------------------------
  // The store's invariant: every record sits under its own id, and every attached label is
  // the record of a key that the store holds

  ghost predicate KeyedById(t: Table)
  {
    forall k :: k in t ==> t[k].Id() == Some(k)
  }

  /** An attached label, if any, carries an id that is a key of the table. */
  predicate Resolves(attachedLabel: Option<Record>, t: Table)
  {
    attachedLabel.Some? ==> attachedLabel.value.Id().Some? && attachedLabel.value.Id().value in t
  }

  ghost predicate LabelsResolve(t: Table)
  {
    forall k :: k in t && t[k].EntryRecord? ==> Resolves(t[k].entry.attachedLabel, t)
  }

  ghost predicate StoreInvariant(t: Table)
  {
    KeyedById(t) && LabelsResolve(t)
  }

  /** Creating an entry whose label, if any, is the record of a stored key keeps the
      invariant, and the new entry can be read back under its id. */
  lemma CreateEntryKeepsInvariant(t: Table, entity: TodoEntry, draws: seq<int>)
    requires StoreInvariant(t) && EntryDraws(draws) && HasFreeDraw(draws, t)
    requires Resolves(entity.attachedLabel, t)
    ensures var created := CreateEntryOutcome(Some(t), entity, draws).value;
            var t' := t[created.id.value := EntryRecord(created)];
            && StoreInvariant(t')
            && t'.Keys == t.Keys + {created.id.value}
            && GetOutcome(Some(t'), created.id.value) == Ok(EntryRecord(created))
  {
  }

  /** Creating a label keeps the invariant, and the new label can be read back under its id. */
  lemma CreateLabelKeepsInvariant(t: Table, valueObject: TodoLabel, draws: seq<int>)
    requires StoreInvariant(t) && LabelDraws(draws) && HasFreeDraw(draws, t)
    ensures var created := CreateLabelOutcome(Some(t), valueObject, draws).value;
            var t' := t[created.id.value := LabelRecord(created)];
            && StoreInvariant(t')
            && t'.Keys == t.Keys + {created.id.value}
            && GetOutcome(Some(t'), created.id.value) == Ok(LabelRecord(created))
  {
  }

  /** A successful update keeps the invariant: the attached label is the record of a key the
      store holds, and that record carries that key as its id. */
  lemma UpdateKeepsInvariant(t: Table, identifier: int, fields: map<string, int>)
    requires StoreInvariant(t)
    requires UpdateOutcome(Some(t), identifier, fields).Ok?
    ensures var t' := t[identifier := UpdateOutcome(Some(t), identifier, fields).value];
            && StoreInvariant(t')
            && t'.Keys == t.Keys
            && t'[identifier].entry.attachedLabel.value.Id() == LabelKey(fields)
  {
    var updated := UpdateOutcome(Some(t), identifier, fields).value;
    var key := LabelKey(fields).value;
    var t' := t[identifier := updated];
    assert updated.Id() == t[identifier].Id();
    assert t'.Keys == t.Keys;
    assert t[key].Id() == Some(key);
    forall k | k in t' && t'[k].EntryRecord?
      ensures Resolves(t'[k].entry.attachedLabel, t')
    {
      if k == identifier {
        assert t'[k].entry.attachedLabel.value == t[key];
      } else {
        assert t'[k] == t[k];
      }
    }
  }

  // ---------------------------------------------------------------------------------------
  // The mappers

  /** Mapper for todo entries over a (possibly missing) shared store. */
  class MemoryTodoEntryMapper {
    const storage: Storage?

    constructor (storage: Storage?)
      ensures this.storage == storage
    {
      this.storage := storage;
    }

    /** Looks `identifier` up; the store is only read. */
    method Get(identifier: int) returns (r: Result<Record>)
      ensures r == GetOutcome(View(storage), identifier)
      ensures storage != null && identifier in storage.records ==> r == Ok(storage.records[identifier])
      ensures storage != null && identifier !in storage.records ==> r == Raised(EntityNotFoundMapperError(identifier))
    {
      if storage == null {
        return Raised(TypeError);
      }
      if identifier in storage.records {
        return Ok(storage.records[identifier]);
      }
      return Raised(EntityNotFoundMapperError(identifier));
    }

    /** Draws until the draw is not a key of the store; the store is only read. */
    method GenerateUniqueId(draws: seq<int>) returns (r: Result<int>)
      requires storage != null ==> EntryDraws(draws) && HasFreeDraw(draws, storage.records)
      ensures storage == null ==> r == Raised(TypeError)
      ensures storage != null ==> && r == Ok(GeneratedId(draws, storage.records))
                                  && r.value !in storage.records
                                  && EntryIdLow <= r.value <= EntryIdHigh
    {
      if storage == null {
        return Raised(TypeError);
      }
      var i := 0;
      var identifier := draws[0];
      while identifier in storage.records
        invariant 0 <= i <= FirstFreeIndex(draws, storage.records)
        invariant identifier == draws[i]
        decreases FirstFreeIndex(draws, storage.records) - i
      {
        i := i + 1;
        identifier := draws[i];
      }
      return Ok(identifier);
    }

    /** Assigns a fresh id to `entity` and inserts it; with no store, fails before any change. */
    method Create(entity: TodoEntry, draws: seq<int>) returns (r: Result<TodoEntry>)
      requires storage != null ==> EntryDraws(draws) && HasFreeDraw(draws, storage.records)
      modifies storage
      ensures r == CreateEntryOutcome(old(View(storage)), entity, draws)
      ensures storage != null ==> && r.Ok?
                                  && r.value.id.value !in old(storage.records)
                                  && storage.records == old(storage.records)[r.value.id.value := EntryRecord(r.value)]
      ensures storage != null && old(StoreInvariant(storage.records)) && Resolves(entity.attachedLabel, old(storage.records)) ==>
                StoreInvariant(storage.records)
    {
      var id := GenerateUniqueId(draws);
      match id
      case Raised(e) =>
        r := Raised(if e.TypeError? then CreateMapperError(e) else e);
      case Ok(k) =>
        if StoreInvariant(storage.records) && Resolves(entity.attachedLabel, storage.records) {
          CreateEntryKeepsInvariant(storage.records, entity, draws);
        }
        var created := entity.(id := Some(k));
        storage.records := storage.records[k := EntryRecord(created)];
        r := Ok(created);
    }

    /** Attaches the record stored under `fields["label_id"]` to the entry under `identifier`.
        Both lookups precede the assignment, so a failure leaves the store as it was. */
    method Update(identifier: int, fields: map<string, int>) returns (r: Result<Record>)
      modifies storage
      ensures r == UpdateOutcome(old(View(storage)), identifier, fields)
      ensures storage != null && r.Ok? ==> storage.records == old(storage.records)[identifier := r.value]
      ensures storage != null && r.Raised? ==> storage.records == old(storage.records)
      ensures storage != null ==> storage.records.Keys == old(storage.records.Keys)
      ensures storage != null && old(StoreInvariant(storage.records)) ==> StoreInvariant(storage.records)
    {
      if storage == null {
        return Raised(TypeError);
      }
      var entity := Subscript(storage.records, Some(identifier));
      if entity.Raised? {
        return Raised(UpdateMapperError(entity.error));
      }
      var target := Subscript(storage.records, LabelKey(fields));
      if target.Raised? {
        return Raised(UpdateMapperError(target.error));
      }
      match entity.value
      case LabelRecord(_) =>
        r := Raised(ValueError);
      case EntryRecord(e) =>
        if StoreInvariant(storage.records) {
          UpdateKeepsInvariant(storage.records, identifier, fields);
        }
        var updated := EntryRecord(e.(attachedLabel := Some(target.value)));
        storage.records := storage.records[identifier := updated];
        r := Ok(updated);
    }
  }

  /** Mapper for todo labels over a (possibly missing) shared store. */
  class MemoryTodoLabelMapper {
    const storage: Storage?

    constructor (storage: Storage?)
      ensures this.storage == storage
    {
      this.storage := storage;
    }

    /** Draws first from the label range, then redraws from the entry range until the draw
        is not a key of the store; the store is only read. */
    method GenerateUniqueId(draws: seq<int>) returns (r: Result<int>)
      requires storage != null ==> LabelDraws(draws) && HasFreeDraw(draws, storage.records)
      ensures storage == null ==> r == Raised(TypeError)
      ensures storage != null ==> && r == Ok(GeneratedId(draws, storage.records))
                                  && r.value !in storage.records
                                  && (EntryIdLow <= r.value <= EntryIdHigh || LabelIdLow <= r.value <= LabelIdHigh)
                                  && (LabelIdLow <= r.value <= LabelIdHigh <==> draws[0] !in storage.records)
    {
      if storage == null {
        return Raised(TypeError);
      }
      var i := 0;
      var identifier := draws[0];
      while identifier in storage.records
        invariant 0 <= i <= FirstFreeIndex(draws, storage.records)
        invariant identifier == draws[i]
        decreases FirstFreeIndex(draws, storage.records) - i
      {
        i := i + 1;
        identifier := draws[i];
      }
      return Ok(identifier);
    }

    /** Assigns a fresh id to `valueObject` and inserts it; with no store, fails before any change. */
    method Create(valueObject: TodoLabel, draws: seq<int>) returns (r: Result<TodoLabel>)
      requires storage != null ==> LabelDraws(draws) && HasFreeDraw(draws, storage.records)
      modifies storage
      ensures r == CreateLabelOutcome(old(View(storage)), valueObject, draws)
      ensures storage != null ==> && r.Ok?
                                  && r.value.id.value !in old(storage.records)
                                  && storage.records == old(storage.records)[r.value.id.value := LabelRecord(r.value)]
      ensures storage != null && old(StoreInvariant(storage.records)) ==> StoreInvariant(storage.records)
    {
      var id := GenerateUniqueId(draws);
      match id
      case Raised(e) =>
        r := Raised(if e.TypeError? then CreateMapperError(e) else e);
      case Ok(k) =>
        if StoreInvariant(storage.records) {
          CreateLabelKeepsInvariant(storage.records, valueObject, draws);
        }
        var created := valueObject.(id := Some(k));
        storage.records := storage.records[k := LabelRecord(created)];
        r := Ok(created);
    }
  }
}
