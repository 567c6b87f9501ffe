# Todo entries: in-memory persistence and error translation

This project models the part of the Todo service that holds its own logic: the in-memory
persistence path and the exception-translation chain built on top of it.

- **Store and mappers** (`memory.dfy`, module `MemoryMapper`). One dictionary, keyed by
  integer, holds todo entries and todo labels alike, and both mappers may share it. It is the
  class `Storage`, whose `records: map<int, Record>` the mappers update in place. A mapper
  built without a dictionary holds `null`.
  - `Get` reads a key.
  - `Create` draws an identifier with a redraw-on-collision loop (`GenerateUniqueId`), sets
    the object's `id` and inserts it.
  - `Update` looks up the entry, then the record under `fields["label_id"]`, and only then
    attaches that record as the entry's label.
  - Each operation has a specification function on the store's value (`GetOutcome`,
    `CreateEntryOutcome`, `CreateLabelOutcome`, `UpdateOutcome`). The methods are proved
    against these functions.
  - `StoreInvariant` holds when every record sits under its own id and every attached label
    resolves to a key. Lemmas prove that it is kept by label create, by update, and by create
    of an entry whose label, if any, is the record of a stored key. The mutating mapper
    methods carry the same preservation in their own contracts.
- **Repositories** (`repository.dfy`). Each method makes one mapper call. It re-raises
  exactly one mapper error class as the matching repository class, passing the mapper's
  exception as the new exception's argument. Every other outcome passes through untouched.
- **Use cases** (`usecases.dfy`). Each makes one repository call. `EntityNotFoundError`
  becomes `NotFoundError` and `CreateError` becomes the generic `UseCaseError`.
  `NotFoundError` specialises `UseCaseError`.
- **Entities and errors** (`entities.dfy`, `errors.dfy`). Python exceptions become one
  `Error` datatype, with one constructor per exception class. A layer's outcome is a
  `Result<T>`: `Ok(value)` or `Raised(error)`. An exception that a layer does not catch stays
  the same value as it moves up, just as a raised exception would.

Random numbers are a parameter. `draws` lists, in order, the values that successive calls of
`randint` return. For entries, every draw lies in [1, 10000]. For labels, the first draw lies
in [10101, 20000] and every redraw in [1, 10000].

Where the code and its tests disagree, the model follows the code:
- With no dictionary (`storage=None`), `get` and `update` raise a `TypeError` that nothing
  catches (`src/app/persistence/mapper/memory.py:24`, `:38`). So `TodoEntryRepository.Update`
  yields `TypeError` there, not the `UpdateError` that the repository test expects
  (`src/app/tests/persistence/test_repository.py:92-103`).
- `UseCases.GetTodoEntry` with no dictionary likewise yields the uncaught `TypeError`; no test
  covers that case. The use-case test that expects `UseCaseError` with no dictionary
  (`src/app/tests/usecases/test_todo_entry.py:78-90`) calls `update_todo_entry`, which
  `src/app/usecases.py` does not define.
- Only `create` turns that `TypeError` into `CreateMapperError`.

## Model

| member | source | states |
|---|---|---|
| `MemoryMapper.FirstFreeIndex` | src/app/persistence/mapper/memory.py:45-50 | the redraw loop stops at a draw that is not a key, and every earlier draw was a key |
| `MemoryMapper.GetOutcome` | src/app/persistence/mapper/memory.py:22-26 | `get` returns the stored record whatever its kind; an absent key fails with EntityNotFoundMapperError(identifier); no store raises an uncaught TypeError |
| `MemoryMapper.CreateEntryOutcome` | src/app/persistence/mapper/memory.py:28-34 | entry `create` succeeds exactly when there is a store; the id it sets was not a key and lies in [1, 10000]; every other field is as given; with no store it fails with CreateMapperError(TypeError) |
| `MemoryMapper.CreateLabelOutcome` | src/app/persistence/mapper/memory.py:58-71 | label `create` sets an id that was not a key and lies in [1, 10000] ∪ [10101, 20000]; the id is the first draw when that draw is free; the name is kept; with no store it fails with CreateMapperError(TypeError) |
| `MemoryMapper.UpdateOutcome` | src/app/persistence/mapper/memory.py:36-43 | `update` succeeds exactly when the identifier holds an entry and `label_id` is given and is a key. On success the label is the record stored under `label_id` and no other field changes. A missing entry key or label key gives UpdateMapperError(KeyError(key)). A label as target gives an uncaught ValueError. No store gives TypeError |
| `MemoryMapper.CreateEntryKeepsInvariant` | src/app/persistence/mapper/memory.py:28-32 | inserting a created entry whose label, if any, is the record of a stored key adds exactly its new key, keeps every record under its own id with every label resolving, and `get` on the new id returns the entry |
| `MemoryMapper.CreateLabelKeepsInvariant` | src/app/persistence/mapper/memory.py:58-62 | inserting a created label adds exactly its new key, keeps the store invariant, and `get` on the new id returns the label |
| `MemoryMapper.UpdateKeepsInvariant` | src/app/persistence/mapper/memory.py:36-41 | a successful update keeps the key set and the store invariant, and the attached label's id is the requested `label_id` |
| `MemoryMapper.MemoryTodoEntryMapper.constructor` | src/app/persistence/mapper/memory.py:19-20 | the mapper keeps the store it is given, possibly none |
| `MemoryMapper.MemoryTodoEntryMapper.Get` | src/app/persistence/mapper/memory.py:22-26 | returns the stored record for a present key and EntityNotFoundMapperError for an absent one, reading the store only |
| `MemoryMapper.MemoryTodoEntryMapper.GenerateUniqueId` | src/app/persistence/mapper/memory.py:45-50 | the loop returns the first free draw: not a key of the store and within [1, 10000]; with no store the membership test raises TypeError |
| `MemoryMapper.MemoryTodoEntryMapper.Create` | src/app/persistence/mapper/memory.py:28-34 | the store gains exactly the fresh key, mapped to the given entry with its id set, all other keys keep their records, and that entry is returned; the store invariant is kept when the entry's label resolves; with no store nothing changes and CreateMapperError is raised |
| `MemoryMapper.MemoryTodoEntryMapper.Update` | src/app/persistence/mapper/memory.py:36-43 | on success only the record at `identifier` changes and it gets the label; on any failure the store is exactly as before; the key set never changes; the store invariant is kept |
| `MemoryMapper.MemoryTodoLabelMapper.constructor` | src/app/persistence/mapper/memory.py:55-56 | the mapper keeps the store it is given, possibly none |
| `MemoryMapper.MemoryTodoLabelMapper.GenerateUniqueId` | src/app/persistence/mapper/memory.py:66-71 | the loop returns the first free draw; it lies in [10101, 20000] exactly when the first draw was free, and otherwise in [1, 10000] |
| `MemoryMapper.MemoryTodoLabelMapper.Create` | src/app/persistence/mapper/memory.py:58-64 | the store gains exactly the fresh key, mapped to the label with its id set, and the label is returned; the store invariant is kept; with no store nothing changes and CreateMapperError is raised |
| `Repository.CatchEntityNotFoundMapperError` | src/app/persistence/repository.py:25-29 | success passes through; only EntityNotFoundMapperError is changed, into EntityNotFoundError with the mapper error as its argument |
| `Repository.CatchCreateMapperError` | src/app/persistence/repository.py:31-35 | success passes through; only CreateMapperError is changed, into CreateError with the mapper error as its argument |
| `Repository.CatchUpdateMapperError` | src/app/persistence/repository.py:37-44 | success passes through; only UpdateMapperError is changed, into UpdateError with the mapper error as its argument |
| `Repository.TodoEntryRepository.constructor` | src/app/persistence/repository.py:22-23 | the repository keeps the mapper it is given |
| `Repository.TodoEntryRepository.Get` | src/app/persistence/repository.py:25-29 | the mapper's record on success; an absent key gives EntityNotFoundError(EntityNotFoundMapperError(identifier)); no store gives TypeError unchanged |
| `Repository.TodoEntryRepository.Create` | src/app/persistence/repository.py:31-35 | the mapper's result with CreateMapperError re-raised as CreateError; the store changes exactly as in the mapper's `create` |
| `Repository.TodoEntryRepository.Update` | src/app/persistence/repository.py:37-44 | the mapper's result with UpdateMapperError re-raised as UpdateError; the store changes exactly as in the mapper's `update`, and not at all on failure |
| `Repository.TodoLabelRepository.constructor` | src/app/persistence/repository.py:50-51 | the repository keeps the mapper it is given |
| `Repository.TodoLabelRepository.Create` | src/app/persistence/repository.py:53-57 | the mapper's result with CreateMapperError re-raised as CreateError; the store changes exactly as in the mapper's `create` |
| `Repository.UpdateErrorKinds` | src/app/persistence/repository.py:37-44 | an update failure reaching the repository's caller is UpdateError around UpdateMapperError around KeyError, or an unwrapped ValueError or TypeError |
| `Repository.SharedFixture` | src/app/tests/persistence/test_repository.py:21-89 | on the shared test store, reading 1 succeeds, reading 42 fails with EntityNotFoundError, and attaching label 10001 to entry 1 gives entry 1 with a label whose id is 10001 |
| `UseCases.GetFailureIsNotFound` | src/app/usecases.py:13-25 | over a store, every failure of `get_todo_entry` is a NotFoundError, which a NotFoundError or UseCaseError handler catches; without a store the TypeError escapes both |
| `UseCases.CreateEntryFailureIsUseCaseError` | src/app/usecases.py:28-34 | every failure of `create_todo_entry` is an instance of UseCaseError and never a NotFoundError |
| `UseCases.CreateLabelFailureIsUseCaseError` | src/app/usecases.py:37-44 | every failure of `create_todo_label` is an instance of UseCaseError and never a NotFoundError |
| `UseCases.CatchEntityNotFoundError` | src/app/usecases.py:21-25 | success passes through; only EntityNotFoundError is changed, into NotFoundError, which a UseCaseError handler catches |
| `UseCases.CatchCreateError` | src/app/usecases.py:28-34 | success passes through; only CreateError is changed, into a generic UseCaseError that is not NotFoundError |
| `UseCases.GetTodoEntry` | src/app/usecases.py:21-25 | end to end: a present id yields the stored record; an absent id yields NotFoundError(EntityNotFoundError(EntityNotFoundMapperError(id))); the store is only read |
| `UseCases.CreateTodoEntry` | src/app/usecases.py:28-34 | end to end: with a store, the entry is stored under a fresh key and returned; with no store, UseCaseError(CreateError(CreateMapperError(TypeError))) and nothing changes |
| `UseCases.CreateTodoLabel` | src/app/usecases.py:37-44 | end to end: with a store, the label is stored under a fresh key and returned; with no store, a generic UseCaseError and nothing changes |

## Left out

- Randomness: `randint` is modelled by the `draws` parameter, and nothing is said about the distribution of draws.
- `MemoryMapper.MemoryTodoEntryMapper.GenerateUniqueId`: requires that some draw is not yet a key of the store. This is what makes the redraw loop stop; with no such draw the Python loop runs forever (for instance when the store is full), and the model does not capture that divergence.
- `MemoryMapper.MemoryTodoLabelMapper.GenerateUniqueId`: same requirement and the same gap as the entry generator.
- Object identity: records are values. The Python store keeps objects by reference, so the returned object and the stored object are one and the same, the caller's object gets its `id` set in place, and an entry's label is the stored label object itself. The model returns and stores equal values instead. A label later reached through another reference, or an entry attached as its own label, is therefore not captured.
- `fields` is a map from string to integer. A `fields` value that is not a dictionary, or a `label_id` that is not an integer, is not modelled.
- The store's keys are integers. Any other key a caller might put in the dictionary is not modelled.
- `src/app/persistence/errors.py` and `src/app/persistence/mapper/errors.py` are not part of this model. Each mapper and repository error class is taken to derive directly from `Exception`, with no subclassing among them.
- There is no update use case. The use-case tests import `update_todo_entry`, but `src/app/usecases.py` does not define it, so nothing here models it.
- The SQL mapper, table models and database engine (`sqlite.py`, `models.py`, `database.py`) are left out: they are calls into SQLAlchemy.
- The HTTP handlers and status mapping (`api.py`), JSON Schema validation (`apischema/validator.py`, `apischema/schema.py`) and JSON encoding (`apischema/encoder.py`) are left out: they are boundary glue over external libraries.
- The abstract mapper interfaces (`interfaces.py`) have no counterpart: they hold only method signatures.
- `async`/`await` and concurrent access to the shared dictionary are left out: every call is modelled as sequential and atomic.
- `created_at` is an opaque integer `Timestamp`. The model only carries it through unchanged.
