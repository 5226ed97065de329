# bccdata in Dafny

bccdata is a thin, metadata-driven mapping layer over Go's `database/sql`. A
`DatabaseContext` holds a database handle and a registry of
`EntityDescription`s, keyed by entity name. Each description carries:

- its table name and primary-key column;
- a prepared insert statement;
- a factory for blank instances;
- a registry of `EntityRelationship`s, keyed by target-entity name. Each relationship names a join table and its two join columns.

The CRUD operations build their SQL text from that metadata. They run it on a
caller-supplied transaction or on the context's database and turn result rows
into instances with the factory and each instance's `ScanFromRow`.

This project models:

- the two registries;
- the four SQL texts;
- the cursor-draining loop `CreateFromRows`;
- the step sequence of `Create`, with its commit/rollback decision;
- `FindEntities`, `FindEntity` and `FindRelatedEntity`.

The datastore is an oracle. Every call the layer makes to it goes into a
returned trace of `Call`s, and the caller supplies in advance what each call
answers (`CreateIO`, a `Result` of scans). A Go panic becomes a `Panicked`
outcome with its reason.

Files:

- `format.dfy`, module `Format`: the `%s`-only part of `fmt.Sprintf`. A format string is cut at its holes (`Runs`), and `SprintfFills` proves that Sprintf fills the holes with the arguments in order.
- `bccdata.dfy`, module `BccData`:
  - the values exchanged with the datastore;
  - Go maps with nil and zero-value lookups;
  - `EntityDescription`, a datatype, because Go copies the struct into and out of the context's map;
  - `DatabaseContext`, a class, because it is always used as `*DatabaseContext` and its map field is updated in place;
  - the operations and their lemmas.

`Create` is imperative. It has the source's mutable locals (`tx`,
`commitAtEnd`, `err`), and its `goto cleanup` jumps become breaks out of a
labelled block. It is proved equal to `CreateRun`, a step-by-step functional
statement of the same run, and the properties are proved about `CreateRun`.
`CreateFromRows` keeps the source's endless loop and is proved equal to
`Drained`.

## Model

| member | source | states |
|---|---|---|
| BccData.DatabaseContext.RegisterEntityDescription | bccdata.go:37-45 | the map exists afterwards; the name now looks up the description with its context set to this context; every other name looks up what it did before (so a second registration under a name overwrites the first); the key set grows by the name; the invariant that every entry points back to this context is kept |
| BccData.DatabaseContext.EntityDescriptionForName | bccdata.go:47-49 | a nil map or an unregistered name gives the zero description, not an error; a registered name gives its entry |
| BccData.EntityDescription.RegisterRelationship | bccdata.go:53-59 | the map exists afterwards, even if it was nil; the relationship's target name looks up the relationship unchanged; other names are unchanged; the key set grows by the name; no other field changes |
| BccData.EntityDescription.RelationshipForName | bccdata.go:61-63 | a nil map or an unknown name gives the zero relationship; a known name gives its entry |
| BccData.EntityDescription.CreateFromRows | bccdata.go:145-162 | the result is `Drained` of the factory and the cursor |
| BccData.Drained | bccdata.go:150-161 | a nil factory panics; a nil cursor panics; otherwise the scans up to the first that reports no row are all successful, the instances they populated are returned in scan order, and the returned error is the terminating scan's |
| BccData.FirstStop | bccdata.go:150-156 | the loop stops at the first scan that reports `false`; every earlier scan reported `true` |
| BccData.EntityDescription.FindQuery | bccdata.go:179-193 | the select goes to the transaction when there is one, else to the context's database, with the one value as argument; its text is `SELECT * FROM <table> WHERE <column>=?`, where the column is the primary key when `keyName` is nil and `*keyName` otherwise |
| BccData.EntityDescription.FindEntities | bccdata.go:171-209 | a nil transaction with a nil context, or with a context whose database is nil, panics before any call is made; otherwise exactly the `FindQuery` select is issued; a failed query reaches the deferred `rows.Close()` on a nil cursor and panics; otherwise the rows are drained as `Drained` says |
| BccData.EntityDescription.FindEntity | bccdata.go:166-169 | the same single query as `FindEntities`, and the same nil-context and nil-database panics; its other panics pass through; an empty result panics on `entities[0]` whatever the error; otherwise the first entity is returned with the error |
| BccData.EntityDescription.FindRelatedEntity | bccdata.go:211-244 | a nil context panics, and so does a nil database when no transaction is supplied; otherwise one query whose text takes the join table and both join columns from this description's relationship for the target and the target table from the context's description of the target; the rows are drained with the target's factory, and a failed query gives a nil cursor; an unregistered target has a nil factory and panics; in a valid context, the target's description refers back to that context |
| BccData.RelatedSql | bccdata.go:233 | the join text, piece by piece: `SELECT <target>.* FROM <join> LEFT OUTER JOIN <target> ON <join>.<foreignKey>=<target>.<targetKey> WHERE <join>.<queryKey>=?` |
| BccData.RelatedFill | bccdata.go:233 | filling the join format's nine holes with the source's argument list gives that text |
| BccData.RelatedTemplate | bccdata.go:233 | the cut-up join format is the source's format string |
| BccData.UpdateCreatedDateSql | bccdata.go:107 | `UPDATE <table> SET createdDate=? WHERE id=?` |
| BccData.UpdateCreatedDateTemplate | bccdata.go:107 | the cut-up format is the source's format string |
| BccData.SelectByIdSql | bccdata.go:113 | `SELECT * FROM <table> WHERE id=?` |
| BccData.SelectByIdTemplate | bccdata.go:113 | the cut-up format is the source's format string |
| BccData.SelectWhereSql | bccdata.go:187 | `SELECT * FROM <table> WHERE <column>=?` |
| BccData.SelectWhereTemplate | bccdata.go:187 | the cut-up format is the source's format string |
| BccData.SelectWhereColumn | bccdata.go:181-187 | two key selects on one table are equal if and only if their columns are equal |
| BccData.SelectByIdIsWhereId | bccdata.go:113 | the re-select is the key select on the literal column `id` |
| BccData.EntityDescription.ReselectIgnoresPrimaryKey | bccdata.go:113 | `Create`'s re-select equals the select `FindEntities` issues by default if and only if the primary key is called `id` |
| BccData.EntityDescription.Create | bccdata.go:67-143 | the result and the call trace are those of `CreateRun` |
| BccData.EntityDescription.InsertSteps | bccdata.go:92-123 | at least one and at most four calls are made after the transaction is known, and the first is the insert |
| BccData.StepsTaken | bccdata.go:94-117 | the number of those calls is one more than the number of leading steps (insert, `LastInsertId`, update) that succeed, and at most four: every step before the last call succeeded, and when fewer than four calls are made, the last one failed |
| BccData.EntityDescription.InsertStepsFacts | bccdata.go:92-123 | the calls are exactly the first `StepsTaken` of insert, `LastInsertId`, update and re-select, in that order; none begins or ends a transaction; the error returned is the first failing step's, else the scan's; the entity is the scanned instance when the scan is reached and nil otherwise; they end without a result exactly when every step succeeds and the factory is nil; the update and the re-select go to the transaction, carry the new row's id and use the `id`-keyed texts |
| BccData.EntityDescription.CreateRun | bccdata.go:81-140 | a run that panics never commits or rolls back: a panic skips the cleanup at the end |
| BccData.EntityDescription.CreateTrace | bccdata.go:81-140 | the whole call trace: a nil context, a nil database or a failed `Begin` end it before any step, with `Begin` as the only call in the last case; a nil insert statement ends it after the opening `Begin`, if any; otherwise the trace is the opening `Begin` when `Create` owns the transaction, then the first `StepsTaken` steps in order, then one more call (the commit or rollback) exactly when `Create` owns the transaction and returns |
| BccData.EntityDescription.CreateOwnership | bccdata.go:81-140 | a supplied transaction is never begun, committed or rolled back; only the last call can commit or roll back; when `Create` began the transaction itself and returns, `Begin` is the first call and the last call is `Commit` if the error is nil and `Rollback` otherwise |
| BccData.EntityDescription.CreateErrors | bccdata.go:82-140 | the returned error is the first error among exec, `LastInsertId`, update, query and scan, in that order; the returned entity is the scanned instance when the scan is reached and nil otherwise; `Create` panics exactly when it has no transaction and its context is nil, its database is nil or `Begin` fails (rollback of the nil transaction), when the insert statement is nil (re-bound by `transaction.Stmt`), or when every step succeeds and the factory is nil |
| BccData.EntityDescription.CreateKeyedOnId | bccdata.go:104-117 | every update issued is the `id`-keyed timestamp statement with the clock value and the new row's id; every query issued is the `id`-keyed re-select with that id |
| BccData.EntityDescription.NoRowScanCommits | bccdata.go:119-140 | a scan that reports no row with a nil error leaves the error nil, so a transaction `Create` began is committed after six calls and the scanned instance is returned |
| BccData.EntityDescription.ScanSuccessIrrelevant | bccdata.go:119-125 | whether the scan reports a row does not change `Create`'s outcome or calls: the jump at the scan goes where the code would go anyway |
| BccData.FirstErrorSteps | bccdata.go:85-123 | the first error of `Create`'s five steps is what the chain of `if err != nil { goto cleanup }` checks finds |
| Format.SprintfFills | bccdata.go:107 | `fmt.Sprintf` with only `%s` verbs and as many arguments as holes puts the arguments into the holes in order |

## Left out

- The `database/sql` objects (`DB`, `Tx`, `Stmt`, `Rows`, `Result`) are opaque handles. What each answers is supplied by the caller, and `transaction.Stmt(...)` re-binding is folded into the insert call.
- `defer rows.Close()` and `defer insertStatement.Close()` leave no trace in the model. The one exception is closing the nil cursor in `FindEntities`, which panics. That panic relies on `database/sql`'s `Rows.Close` dereferencing its receiver.
- `time.Now().Unix()` is the parameter `now`.
- Concrete `ScanFromRow` implementations and row contents are modelled as one `ScanStep` per scan: its report, its error and the instance as the scan leaves it (`populated`, which the scanner decides). The factory is a handle that is nil or not. A factory that returns a nil `Entity`, on which `ScanFromRow` would panic, is not modelled.
- Scanning a nil cursor in `FindRelatedEntity` is modelled as a panic. What the entity's own scanner does with a nil `*sql.Rows` is outside the model.
- Go's variadic `...interface{}` arguments are an opaque sequence of `Arg`s, passed through unchanged.
- Go's 64-bit integers (`objectID`, `createdTime`) are unbounded `int`s. No arithmetic is done on them.
- Concurrency, and what the SQL statements mean to the datastore (for example, what a LEFT OUTER JOIN returns), are not modelled.
- `fmt.Sprintf` is modelled only for the `%s` verb with string arguments, which is all the source uses.
- Each SQL builder fills the cut-up form of its format string. A separate lemma proves that the cut-up form is the source's literal, because evaluating `Sprintf` on a literal format is too costly for the verifier. The join format string is written as three concatenated literal pieces for the same reason.
- BccData.EntityDescription.RegisterRelationship: returns the updated description instead of updating the caller's variable through the `*EntityDescription` receiver. The Go map is shared between copies of a description, and that aliasing is not modelled.
- BccData.EntityDescription.CreateFromRows: requires that some scan eventually reports `false`. A cursor whose scans never stop makes the source loop forever, and that case is not modelled.
- A `Create` whose scan reports no row with a nil error commits and returns the blank instance with a nil error. The code does this, and the model follows the code. An alternative reading, in which a scan that reports no row counts as a failure and the transaction is rolled back, is not what the code does.
- BccData.EntityDescription.CreateErrors: a nil insert statement always panics in the model. In `database/sql`, `Tx.Stmt` on a transaction that is already finished returns a statement that fails instead, so a caller-supplied finished transaction with a nil insert statement returns an error rather than panic. The model does not track whether a transaction is finished.
- A call that panics on a nil receiver (`Begin` or `Query` on a nil database, `Rollback` on a nil transaction) is not recorded in the trace. The trace holds only calls that return.
