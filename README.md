# Loan application orchestrator, modelled in Dafny

This project models the loan application service of a small microservice
system. The service keeps loan application records in a repository table and
exposes these operations:

- list all records and get one by id;
- create a record from a request that carries three foreign ids. Each id is
  resolved against a remote directory: the user service for users and the
  admin service for loan products and vendors;
- full update, which overwrites the record's fields and resolves the three
  references again;
- delete;
- status-only update, which parses a status name;
- partial update, which takes a field-name-to-value map.

The model has three modules.

- `LoanModel` (`loan_model.dfy`) holds the values:
  - the stored `LoanApplication` record;
  - the remote entities `User`, `LoanProduct` and `Vendor`, each with its id
    and its other properties;
  - the create request `LoanApplicationDto`;
  - the partial-update request `Patch`, with one optional typed field per
    recognised key and the set of the map's other keys;
  - the `Status` enumeration and its partial parser `ValueOf`;
  - the error kinds `NotFound`, `MissingEntity(kind, id)` and
    `InvalidStatus`;
  - `Directories`, the three remote lookups as maps. An id that is not a key
    stands for a `null` reply.
- `LoanService` (`loan_service.dfy`) holds the class `LoanApplicationService`.
  Its `store` field is the repository table, and its methods change that table
  in place:
  - full update, status update and partial update load the stored record
    into a local value and set its fields one at a time, in the source's
    order;
  - delete loads the stored record and removes the entry under its id;
  - create collects the request's fields and the entities of its remote
    lookups in locals and builds the record at the save;
  - the remote lookups, if any, are made in the source's order;
  - each method ends with the single save or delete.

  The module also holds three specification functions that the methods are
  proved against. `Resolve` gives the sequential user, product and vendor
  lookups. `Patched` gives the record a partial update saves, and
  `WithStatus` the record a status update saves.
- `LoanProperties` (`loan_properties.dfy`) holds lemmas about those functions.
  They cover the frame of a partial update by key name, the empty request,
  unknown keys, idempotence, the agreement between the status-only update and
  a status-only patch, and the asymmetry between create/full update, which
  consult the directories, and partial update, which does not.

Setting the methods' contracts side by side shows three things:

- every operation on an absent id fails with `NotFound` and leaves the table
  as it was;
- create and full update either fail before the save with the first missing
  entity (user, then product, then vendor), or change exactly one entry;
- delete removes exactly that entry.

The table invariant `Valid()` says that each record is stored under its own id,
that every id is below the next one the generator assigns, and that every stored
status is a constant of the enumeration. Full update requires the incoming
status to be a constant, which Java's enum typing guarantees at every call.

The remote services are parameters of the operations that consult them
(`Directories`). The repository's id generator is a counter, `nextId`, that
stays above every stored id, so the id create assigns is never in use. The
names of the `Status` constants other than `Application_Submitted` are a
constructor parameter of the service (`statusNames`), because the enumeration
is not part of this model.

## Model

| member | source | states |
|---|---|---|
| `LoanModel.ValueOf` | src/main/java/com/example/service/LoanApplicationService.java:112 | parsing a name succeeds exactly when the name is `Application_Submitted` or another constant's name; the constant it yields is declared and carries that name |
| `LoanModel.ValueOfName` | src/main/java/com/example/service/LoanApplicationService.java:130 | round trip: a declared constant is what parsing a name yields exactly when the name is that constant's own |
| `LoanService.Resolve` | src/main/java/com/example/service/LoanApplicationService.java:47-65 | the lookups succeed exactly when all three ids are known, and yield the directories' entities; otherwise the failure names the first missing entity in the order user, product, vendor, with its id |
| `LoanService.Patched` | src/main/java/com/example/service/LoanApplicationService.java:120-146 | a partial update fails exactly when it carries a status that is not a constant's name, with InvalidStatus of that name; otherwise the id is kept, each present key sets its field to the carried value, and `user`/`product`/`vendor` attach a placeholder with only that id |
| `LoanService.LoanApplicationService.constructor` | src/main/java/com/example/service/LoanApplicationService.java:20-27 | the service starts over the injected repository's table and id counter, which must satisfy the table invariant |
| `LoanService.LoanApplicationService.GetAllLoanApplications` | src/main/java/com/example/service/LoanApplicationService.java:29-31 | a record is listed exactly when it is the one stored under its own id |
| `LoanService.LoanApplicationService.GetLoanApplicationById` | src/main/java/com/example/service/LoanApplicationService.java:33-36 | succeeds exactly when the id is stored, with the stored record carrying that id; otherwise fails with NotFound of that id |
| `LoanService.LoanApplicationService.AddLoanApplication` | src/main/java/com/example/service/LoanApplicationService.java:38-68 | succeeds exactly when all three lookups succeed. On failure it reports the first missing entity and leaves the table and the id counter unchanged. On success it inserts one record under an unused id and leaves every other entry unchanged. That record has status `Application_Submitted`, the request's amount, tenure and review message, and the entities the directories serve |
| `LoanService.LoanApplicationService.UpdateLoanApplication` | src/main/java/com/example/service/LoanApplicationService.java:70-101 | an absent id gives NotFound and no change. A failed lookup gives that failure and no change. Otherwise only that entry changes: its amount, tenure, review message and status are taken from the incoming record, its references are re-resolved from the incoming nested ids, and its id is kept |
| `LoanService.LoanApplicationService.DeleteLoanApplication` | src/main/java/com/example/service/LoanApplicationService.java:103-107 | the new table is the old one without that id; the outcome is NotFound exactly when the id was absent |
| `LoanService.LoanApplicationService.UpdateApplicationStatus` | src/main/java/com/example/service/LoanApplicationService.java:109-114 | an absent id gives NotFound and no change (this is checked before the name). A name that is not a constant's gives InvalidStatus and no change. Otherwise only that record's status changes |
| `LoanService.LoanApplicationService.PartialUpdateLoanApplication` | src/main/java/com/example/service/LoanApplicationService.java:116-149 | an absent id gives NotFound and no change. A bad status name fails before the save and leaves the table unchanged, even though earlier fields were already applied to the loaded copy. Otherwise only that entry changes, to the patched record |
| `LoanProperties.PatchedTouchesOnlyPresentKeys` | src/main/java/com/example/service/LoanApplicationService.java:120-146 | a partial update keeps the id and every field whose key the request does not carry |
| `LoanProperties.PatchedWithoutRecognisedKeys` | src/main/java/com/example/service/LoanApplicationService.java:116-148 | a request with no recognised key saves the record exactly as it was |
| `LoanProperties.PatchedIgnoresOtherKeys` | src/main/java/com/example/service/LoanApplicationService.java:120-146 | for a well-formed request, replacing its keys outside the recognised seven by any other such keys leaves the outcome identical |
| `LoanProperties.PatchedIdempotent` | src/main/java/com/example/service/LoanApplicationService.java:120-146 | applying a request to its own result changes nothing |
| `LoanProperties.PatchedAmountOnly` | src/main/java/com/example/service/LoanApplicationService.java:120-122 | a request carrying only `amount_required` changes the amount and nothing else |
| `LoanProperties.StatusUpdateIsStatusPatch` | src/main/java/com/example/service/LoanApplicationService.java:129-131 | a partial update carrying only `status` fails or saves exactly as the status-only update does |
| `LoanProperties.PartialUpdateBypassesDirectories` | src/main/java/com/example/service/LoanApplicationService.java:132-136 | some record whose references all come from the directories loses that property after a `user` key that names a known user, because the placeholder is not looked up |

## Left out

- The HTTP calls and the fixed service URLs are network I/O. They become the `Directories` parameter, so there is no transport failure distinct from a `null` reply.
- The repository's internals (JPA) are not modelled. The table is a map, `save` is the map update, and the id generator is a counter above every stored id. JPA dirty checking is not modelled either: an entity changed in memory but not saved stays unsaved.
- Record objects are values. The aliasing between a loaded entity and the repository's copy is not modelled.
- `getLoanProductsByProductName` is not modelled. It is a pass-through of a remote query, and `List.of` on a `null` reply would throw inside the library.
- The untyped map of the partial update and its casts (`(Integer)`, `(String)`, `(Number).longValue()`) become the typed `Patch`. Cast failures and the narrowing of `longValue` are not modelled. A `null` value for a present key is not modelled either.
- `null` fields are not modelled: an incoming record without user, product or vendor, or with a `null` status, would throw or store `null` in the source. Every model field always holds a value.
- Exception messages and exception classes are not modelled. Only the error kinds `NotFound`, `MissingEntity(kind, id)` and `InvalidStatus` are kept.
- The `Status` constants other than `Application_Submitted` are not visible. They are the names in `statusNames`.
- Ids are unbounded integers rather than Java `long`, and amount and tenure are unbounded rather than 32-bit. The service only copies them, so no arithmetic on them can wrap.
- `GetAllLoanApplications` returns the set of stored records, where `findAll` returns a `List`; the list's order is not modelled.
- A `Patch` whose `otherKeys` include a recognised name describes no Java map; `WellFormed` rules it out where a lemma relies on it, and the operations themselves accept any `Patch`.
- Concurrency is not modelled. Each operation reads, changes and saves a record with no transaction, so in the source two concurrent updates of one id can lose one of the writes; the model's operations run one at a time.
- A `null` status name in the status update is not modelled; `Status.valueOf(null)` throws a `NullPointerException` in the source, while `text` here is always a string.
- Spring dependency injection and annotations are not modelled.
