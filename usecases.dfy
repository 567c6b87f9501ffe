/** The use cases: one repository call each, with repository errors re-raised as use-case errors.
    NotFoundError specialises UseCaseError, so a caller that handles UseCaseError handles a
    not-found outcome as well. */
module UseCases {
  import opened Entities
  import opened Errors
  import MemoryMapper
  import Repository

  /** `isinstance(e, UseCaseError)`: the class itself or its specialisation NotFoundError. */
  predicate IsUseCaseError(e: Error)
  {
    e.UseCaseError? || e.NotFoundError?
  }

  /** `except EntityNotFoundError as err: raise NotFoundError(err)` */
  function CatchEntityNotFoundError<T>(r: Result<T>): (out: Result<T>)
    ensures r.Ok? ==> out == r
    ensures out != r <==> r.Raised? && r.error.EntityNotFoundError?
    ensures out != r ==> out == Raised(NotFoundError(r.error)) && IsUseCaseError(out.error)
  {
    if r.Raised? && r.error.EntityNotFoundError? then Raised(NotFoundError(r.error)) else r
  }

  /** `except CreateError as error: raise UseCaseError(error)`: the generic class, never
      NotFoundError. */
  function CatchCreateError<T>(r: Result<T>): (out: Result<T>)
    ensures r.Ok? ==> out == r
    ensures out != r <==> r.Raised? && r.error.CreateError?
    ensures out != r ==> out == Raised(UseCaseError(r.error)) && IsUseCaseError(out.error) && !out.error.NotFoundError?
  {
    if r.Raised? && r.error.CreateError? then Raised(UseCaseError(r.error)) else r
  }

  /** `get_todo_entry`: the stored record, or NotFoundError built on the whole not-found chain;
      the store is only read. */
  method GetTodoEntry(identifier: int, repository: Repository.TodoEntryRepository) returns (r: Result<Record>)
    ensures r == CatchEntityNotFoundError(Repository.CatchEntityNotFoundMapperError(
                   MemoryMapper.GetOutcome(MemoryMapper.View(repository.mapper.storage), identifier)))
    ensures repository.mapper.storage != null && identifier in repository.mapper.storage.records ==>
              r == Ok(repository.mapper.storage.records[identifier])
    ensures repository.mapper.storage != null && identifier !in repository.mapper.storage.records ==>
              r == Raised(NotFoundError(EntityNotFoundError(EntityNotFoundMapperError(identifier))))
    ensures repository.mapper.storage == null ==> r == Raised(TypeError)
  {
    var found := repository.Get(identifier);
    r := CatchEntityNotFoundError(found);
  }

  /** `create_todo_entry`: the newly stored entry, or a generic UseCaseError built on the whole
      create-failure chain; the store changes exactly as the repository changes it. */
  method CreateTodoEntry(entity: TodoEntry, repository: Repository.TodoEntryRepository, draws: seq<int>)
    returns (r: Result<TodoEntry>)
    requires repository.mapper.storage != null ==>
               MemoryMapper.EntryDraws(draws) && MemoryMapper.HasFreeDraw(draws, repository.mapper.storage.records)
    modifies repository.mapper.storage
    ensures r == CatchCreateError(Repository.CatchCreateMapperError(
                   MemoryMapper.CreateEntryOutcome(old(MemoryMapper.View(repository.mapper.storage)), entity, draws)))
    ensures repository.mapper.storage == null ==>
              && r == Raised(UseCaseError(CreateError(CreateMapperError(TypeError))))
              && IsUseCaseError(r.error) && !r.error.NotFoundError?
    ensures repository.mapper.storage != null ==>
              && r.Ok?
              && r.value.id.value !in old(repository.mapper.storage.records)
              && repository.mapper.storage.records ==
                   old(repository.mapper.storage.records)[r.value.id.value := EntryRecord(r.value)]
  {
    var created := repository.Create(entity, draws);
    r := CatchCreateError(created);
  }

  /** `create_todo_label`: the newly stored label, or a generic UseCaseError built on the whole
      create-failure chain; the store changes exactly as the repository changes it. */
  method CreateTodoLabel(valueObject: TodoLabel, repository: Repository.TodoLabelRepository, draws: seq<int>)
    returns (r: Result<TodoLabel>)
    requires repository.mapper.storage != null ==>
               MemoryMapper.LabelDraws(draws) && MemoryMapper.HasFreeDraw(draws, repository.mapper.storage.records)
    modifies repository.mapper.storage
    ensures r == CatchCreateError(Repository.CatchCreateMapperError(
                   MemoryMapper.CreateLabelOutcome(old(MemoryMapper.View(repository.mapper.storage)), valueObject, draws)))
    ensures repository.mapper.storage == null ==>
              && r == Raised(UseCaseError(CreateError(CreateMapperError(TypeError))))
              && IsUseCaseError(r.error) && !r.error.NotFoundError?
    ensures repository.mapper.storage != null ==>
              && r.Ok?
              && r.value.id.value !in old(repository.mapper.storage.records)
              && repository.mapper.storage.records ==
                   old(repository.mapper.storage.records)[r.value.id.value := LabelRecord(r.value)]
  {
    var created := repository.Create(valueObject, draws);
    r := CatchCreateError(created);
  }

  /** Every failure of `get_todo_entry` over a store is a NotFoundError, which a handler for
      NotFoundError, and equally one for UseCaseError, catches; without a store the TypeError
      escapes both handlers. */
  lemma GetFailureIsNotFound(table: Option<MemoryMapper.Table>, identifier: int)
    ensures var r := CatchEntityNotFoundError(Repository.CatchEntityNotFoundMapperError(
                       MemoryMapper.GetOutcome(table, identifier)));
            && (table.Some? && r.Raised? ==> r.error.NotFoundError? && IsUseCaseError(r.error))
            && (table.None? ==> r == Raised(TypeError) && !IsUseCaseError(r.error))
  {
  }

  /** Every failure of `create_todo_entry` is a generic UseCaseError, never a NotFoundError, so
      a UseCaseError handler catches it. */
  lemma CreateEntryFailureIsUseCaseError(table: Option<MemoryMapper.Table>, entity: TodoEntry, draws: seq<int>)
    requires table.Some? ==> MemoryMapper.EntryDraws(draws) && MemoryMapper.HasFreeDraw(draws, table.value)
    ensures var r := CatchCreateError(Repository.CatchCreateMapperError(
                       MemoryMapper.CreateEntryOutcome(table, entity, draws)));
            r.Raised? ==> IsUseCaseError(r.error) && !r.error.NotFoundError?
  {
  }

  /** Every failure of `create_todo_label` is a generic UseCaseError, never a NotFoundError, so
      a UseCaseError handler catches it. */
  lemma CreateLabelFailureIsUseCaseError(table: Option<MemoryMapper.Table>, valueObject: TodoLabel, draws: seq<int>)
    requires table.Some? ==> MemoryMapper.LabelDraws(draws) && MemoryMapper.HasFreeDraw(draws, table.value)
    ensures var r := CatchCreateError(Repository.CatchCreateMapperError(
                       MemoryMapper.CreateLabelOutcome(table, valueObject, draws)));
            r.Raised? ==> IsUseCaseError(r.error) && !r.error.NotFoundError?
  {
  }
}
