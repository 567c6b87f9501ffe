/** The repositories: a backend-independent face over one mapper. Each method calls the mapper
    once and re-raises exactly one mapper error class as the matching repository error class,
    passing the mapper's exception as its argument; everything else passes through untouched. */
module Repository {
  import opened Entities
  import opened Errors
  import MemoryMapper

  /** `except EntityNotFoundMapperError as error: raise EntityNotFoundError(error)` */
  function CatchEntityNotFoundMapperError<T>(r: Result<T>): (out: Result<T>)
    ensures r.Ok? ==> out == r
    ensures out != r <==> r.Raised? && r.error.EntityNotFoundMapperError?
    ensures out != r ==> out == Raised(EntityNotFoundError(r.error))
  {
    if r.Raised? && r.error.EntityNotFoundMapperError? then Raised(EntityNotFoundError(r.error)) else r
  }

  /** `except CreateMapperError as error: raise CreateError(error)` */
  function CatchCreateMapperError<T>(r: Result<T>): (out: Result<T>)
    ensures r.Ok? ==> out == r
    ensures out != r <==> r.Raised? && r.error.CreateMapperError?
    ensures out != r ==> out == Raised(CreateError(r.error))
  {
    if r.Raised? && r.error.CreateMapperError? then Raised(CreateError(r.error)) else r
  }

  /** `except UpdateMapperError as error: raise UpdateError(error)` */
  function CatchUpdateMapperError<T>(r: Result<T>): (out: Result<T>)
    ensures r.Ok? ==> out == r
    ensures out != r <==> r.Raised? && r.error.UpdateMapperError?
    ensures out != r ==> out == Raised(UpdateError(r.error))
  {
    if r.Raised? && r.error.UpdateMapperError? then Raised(UpdateError(r.error)) else r
  }

  /** Repository for todo entries. */
  class TodoEntryRepository {
    const mapper: MemoryMapper.MemoryTodoEntryMapper

    constructor (mapper: MemoryMapper.MemoryTodoEntryMapper)
      ensures this.mapper == mapper
    {
      this.mapper := mapper;
    }

    /** The mapper's record, or EntityNotFoundError around the mapper's not-found error. */
    method Get(identifier: int) returns (r: Result<Record>)
      ensures r == CatchEntityNotFoundMapperError(MemoryMapper.GetOutcome(MemoryMapper.View(mapper.storage), identifier))
      ensures mapper.storage != null && identifier in mapper.storage.records ==>
                r == Ok(mapper.storage.records[identifier])
      ensures mapper.storage != null && identifier !in mapper.storage.records ==>
                r == Raised(EntityNotFoundError(EntityNotFoundMapperError(identifier)))
      ensures mapper.storage == null ==> r == Raised(TypeError)
    {
      var m := mapper.Get(identifier);
      r := CatchEntityNotFoundMapperError(m);
    }

    /** The mapper's newly stored entry, or CreateError around the mapper's create error;
        the store changes exactly as the mapper changes it. */
    method Create(entity: TodoEntry, draws: seq<int>) returns (r: Result<TodoEntry>)
      requires mapper.storage != null ==>
                 MemoryMapper.EntryDraws(draws) && MemoryMapper.HasFreeDraw(draws, mapper.storage.records)
      modifies mapper.storage
      ensures r == CatchCreateMapperError(MemoryMapper.CreateEntryOutcome(old(MemoryMapper.View(mapper.storage)), entity, draws))
      ensures mapper.storage == null ==> r == Raised(CreateError(CreateMapperError(TypeError)))
      ensures mapper.storage != null ==>
                && r.Ok?
                && r.value.id.value !in old(mapper.storage.records)
                && mapper.storage.records == old(mapper.storage.records)[r.value.id.value := EntryRecord(r.value)]
    {
      var m := mapper.Create(entity, draws);
      r := CatchCreateMapperError(m);
    }

    /** The mapper's updated entry, or UpdateError around the mapper's update error; the store
        changes exactly as the mapper changes it. */
    method Update(identifier: int, fields: map<string, int>) returns (r: Result<Record>)
      modifies mapper.storage
      ensures r == CatchUpdateMapperError(MemoryMapper.UpdateOutcome(old(MemoryMapper.View(mapper.storage)), identifier, fields))
      ensures mapper.storage != null && r.Ok? ==>
                mapper.storage.records == old(mapper.storage.records)[identifier := r.value]
      ensures mapper.storage != null && r.Raised? ==> mapper.storage.records == old(mapper.storage.records)
      ensures mapper.storage == null ==> r == Raised(TypeError)
    {
      var m := mapper.Update(identifier, fields);
      r := CatchUpdateMapperError(m);
    }
  }

  /** Repository for todo labels. */
  class TodoLabelRepository {
    const mapper: MemoryMapper.MemoryTodoLabelMapper

    constructor (mapper: MemoryMapper.MemoryTodoLabelMapper)
      ensures this.mapper == mapper
    {
      this.mapper := mapper;
    }

    /** The mapper's newly stored label, or CreateError around the mapper's create error; the
        store changes exactly as the mapper changes it. */
    method Create(valueObject: TodoLabel, draws: seq<int>) returns (r: Result<TodoLabel>)
      requires mapper.storage != null ==>
                 MemoryMapper.LabelDraws(draws) && MemoryMapper.HasFreeDraw(draws, mapper.storage.records)
      modifies mapper.storage
      ensures r == CatchCreateMapperError(MemoryMapper.CreateLabelOutcome(old(MemoryMapper.View(mapper.storage)), valueObject, draws))
      ensures mapper.storage == null ==> r == Raised(CreateError(CreateMapperError(TypeError)))
      ensures mapper.storage != null ==>
                && r.Ok?
                && r.value.id.value !in old(mapper.storage.records)
                && mapper.storage.records == old(mapper.storage.records)[r.value.id.value := LabelRecord(r.value)]
    {
      var m := mapper.Create(valueObject, draws);
      r := CatchCreateMapperError(m);
    }
  }

  /** Against the memory mapper, a failed update reaches the repository's caller as UpdateError
      around the mapper's KeyError when a key is missing, but the pydantic ValueError and the
      missing-store TypeError pass through unwrapped. */
  lemma UpdateErrorKinds(table: Option<MemoryMapper.Table>, identifier: int, fields: map<string, int>)
    ensures var r := CatchUpdateMapperError(MemoryMapper.UpdateOutcome(table, identifier, fields));
            r.Raised? ==> (r.error.UpdateError? && r.error.arg.UpdateMapperError? && r.error.arg.arg.KeyError?)
                          || r.error == ValueError || r.error == TypeError
  {
  }

  /** The store shared by the repository tests: entry 1 and label 10001. Reading 1 succeeds,
      reading 42 fails with EntityNotFoundError, and attaching label 10001 to entry 1 yields
      entry 1 carrying a label whose id is 10001. */
  lemma SharedFixture(createdAt: Timestamp)
    ensures var t := map[1 := EntryRecord(TodoEntry(Some(1), "Lorem Ipsum", None, createdAt, None)),
                         10001 := LabelRecord(TodoLabel(Some(10001), "Lorem"))];
            var u := CatchUpdateMapperError(MemoryMapper.UpdateOutcome(Some(t), 1, map["label_id" := 10001]));
            && CatchEntityNotFoundMapperError(MemoryMapper.GetOutcome(Some(t), 1)) == Ok(t[1])
            && CatchEntityNotFoundMapperError(MemoryMapper.GetOutcome(Some(t), 42))
                 == Raised(EntityNotFoundError(EntityNotFoundMapperError(42)))
            && u.Ok? && u.value.Id() == Some(1) && u.value.entry.attachedLabel.value.Id() == Some(10001)
  {
  }
}
