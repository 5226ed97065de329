/**
 * The bccdata mapping layer: a context that registers entity descriptions
 * by name, descriptions that register relationships by target name, the SQL
 * text built from that metadata, and the control logic of Create,
 * CreateFromRows, FindEntity, FindEntities and FindRelatedEntity.
 *
 * The datastore is an oracle: every call the layer makes to it appears in a
 * returned trace of `Call`s, and the caller supplies in advance what each of
 * those calls answers. A Go panic is a `Panicked` outcome.
 */
module BccData {
  import opened Format

  // ---------------------------------------------------------------------
  // Values exchanged with the datastore

  /** A Go reference or func value owned by database/sql or the caller (`*sql.DB`, `*sql.Tx`, `*sql.Stmt`, a factory); `Nil` is Go's nil. */
  datatype Handle = Nil | Ref(id: nat)

  /** A non-nil Go `error`. */
  datatype DbError = DbError(code: nat)

  datatype Option<T> = None | Some(value: T)

  /** A call that returns a value or an error; for `Begin` the value is the new transaction. */
  datatype Result<T> = Ok(value: T) | Failed(error: DbError)

  function ErrorOf<T>(r: Result<T>): Option<DbError>
  {
    if r.Failed? then Some(r.error) else None
  }

  /** A positional SQL argument, one element of Go's `...interface{}`. */
  datatype Arg = Int(n: int) | Opaque(id: nat)

  /** An `Entity` interface value: nil, or an instance in the state its `ScanFromRow` left it in. */
  datatype Entity = NilEntity | Instance(state: nat)

  /** What one `ScanFromRow` call reports, and the instance as it left it. */
  datatype ScanStep = ScanStep(success: bool, err: Option<DbError>, populated: Entity)

  /** A `*sql.Rows`: nil, or a cursor whose successive scans report `scans`. */
  datatype Cursor = NilRows | Rows(scans: seq<ScanStep>)

  datatype Target = OnTransaction(tx: Handle) | OnDatabase(db: Handle)

  /** The calls the layer makes to the datastore, in the order it makes them. */
  datatype Call =
    | Begin(db: Handle)
    | ExecInsert(tx: Handle, stmt: Handle, args: seq<Arg>)
    | LastInsertId
    | Exec(tx: Handle, sql: string, params: seq<Arg>)
    | Query(target: Target, sql: string, params: seq<Arg>)
    | Commit(tx: Handle)
    | Rollback(tx: Handle)
  {
    predicate EndsTransaction() { Commit? || Rollback? }
  }

  /** Why an operation panicked. */
  datatype Panic =
    | NilContext       // a nil `Context` field dereferenced
    | NilDatabase      // `Begin` or `Query` called on a nil `*sql.DB`
    | NilStatement     // a nil `InsertStatement` re-bound with `transaction.Stmt`
    | NilFactory       // a nil `CreateZeroInstance` func called
    | NilTransaction   // `Rollback` called on the nil transaction a failed `Begin` returned
    | NilCursor        // a nil `*sql.Rows` closed or scanned
    | IndexOutOfRange  // `entities[0]` on an empty slice

  datatype Outcome<T> = Returned(value: T) | Panicked(reason: Panic)

  /** The `(entities []Entity, err error)` pair. */
  datatype Listing = Listing(entities: seq<Entity>, err: Option<DbError>)

  /** The `(entity Entity, err error)` pair. */
  datatype Single = Single(entity: Entity, err: Option<DbError>)

  // ---------------------------------------------------------------------
  // Go maps

  /** A Go map value: nil until `make` creates it. */
  datatype GoMap<K, V> = NilMap | Made(entries: map<K, V>)
  {
    /** The entries; a nil map has none. */
    function Entries(): map<K, V>
    {
      if NilMap? then map[] else entries
    }

    /** Go's `m[key]`: the entry, or the value type's zero value when there is none. */
    function Get(key: K, zero: V): V
    {
      if key in Entries() then Entries()[key] else zero
    }
  }

  // ---------------------------------------------------------------------
  // Metadata

  datatype EntityRelationship = EntityRelationship(
    entityName: string,
    joinTableName: string,
    foreignKey: string,
    targetKey: string)

  /** The zero value of `EntityRelationship`. */
  const ZeroRelationship := EntityRelationship("", "", "", "")

  /**
   * An `EntityDescription` struct value. Go copies it into the context's map
   * and out of it again, so it is a value here; `createZeroInstance` stands
   * for the factory func, which is only ever called or found nil.
   */
  datatype EntityDescription = EntityDescription(
    name: string,
    tableName: string,
    primaryKey: string,
    relationships: GoMap<string, EntityRelationship>,
    insertStatement: Handle,
    createZeroInstance: Handle,
    context: DatabaseContext?)
  {
    /** `RelationshipForName`: the entry under `entityName`, or the zero relationship. */
    function RelationshipForName(entityName: string): (r: EntityRelationship)
      ensures relationships.NilMap? ==> r == ZeroRelationship
      ensures entityName !in relationships.Entries() ==> r == ZeroRelationship
      ensures entityName in relationships.Entries() ==> r == relationships.Entries()[entityName]
    {
      relationships.Get(entityName, ZeroRelationship)
    }

    /**
     * `RegisterRelationship`: makes the map if it is nil, then stores the
     * relationship under its target name. Go updates the receiver's variable
     * in place; here the updated description is returned.
     */
    method RegisterRelationship(entityRelationship: EntityRelationship) returns (updated: EntityDescription)
      ensures updated.relationships.Made?
      ensures updated.RelationshipForName(entityRelationship.entityName) == entityRelationship
      ensures forall n :: n != entityRelationship.entityName ==>
                updated.RelationshipForName(n) == RelationshipForName(n)
      ensures updated.relationships.Entries().Keys == relationships.Entries().Keys + {entityRelationship.entityName}
      ensures updated.(relationships := relationships) == this
    {
      var rels := relationships;
      if rels.NilMap? {
        rels := Made(map[]);
      }
      rels := Made(rels.entries[entityRelationship.entityName := entityRelationship]);
      updated := this.(relationships := rels);
    }

    // -------------------------------------------------------------------
    // CreateFromRows

    /**
     * `CreateFromRows`: one blank instance per iteration, scanned until a
     * scan reports no row; the scanned instances are collected in order and
     * the error of the final scan is returned.
     */
    method CreateFromRows(rows: Cursor) returns (r: Outcome<Listing>)
      requires rows.Rows? ==> Terminates(rows.scans)
      ensures r == Drained(createZeroInstance, rows)
    {
      if createZeroInstance == Nil {
        return Panicked(NilFactory);
      }
      if rows.NilRows? {
        return Panicked(NilCursor);
      }
      var scans := rows.scans;
      var entities: seq<Entity> := [];
      var err: Option<DbError>;
      var i := 0;
      while true
        invariant i <= FirstStop(scans)
        invariant |entities| == i
        invariant forall j :: 0 <= j < i ==> entities[j] == scans[j].populated
        decreases FirstStop(scans) - i
      {
        var step := scans[i];
        err := step.err;
        if !step.success {
          break;
        }
        entities := entities + [step.populated];
        i := i + 1;
      }
      assert entities == Populated(scans[..i]);
      r := Returned(Listing(entities, err));
    }

    // -------------------------------------------------------------------
    // FindEntities, FindEntity

    /** The query `FindEntities` issues: on the transaction if there is one, otherwise on the context's database. */
    function FindQuery(transaction: Handle, keyName: Option<string>, value: Arg): (q: Call)
      requires transaction != Nil || context != null
      reads context
      ensures q.Query? && q.params == [value]
      ensures q.target == if transaction != Nil then OnTransaction(transaction) else OnDatabase(context.database)
      ensures keyName.None? ==> q.sql == "SELECT * FROM " + tableName + " WHERE " + primaryKey + "=?"
      ensures keyName.Some? ==> q.sql == "SELECT * FROM " + tableName + " WHERE " + keyName.value + "=?"
    {
      var columnName := if keyName.None? then primaryKey else keyName.value;
      var target := if transaction != Nil then OnTransaction(transaction) else OnDatabase(context.database);
      Query(target, SelectWhereSql(tableName, columnName), [value])
    }

    /**
     * `FindEntities`: selects the rows whose `keyName` column (the primary
     * key when it is nil) equals `value` and drains them. `rows` is what the
     * query answers. A failed query leaves a nil cursor, which the deferred
     * `rows.Close()` dereferences.
     */
    method FindEntities(transaction: Handle, keyName: Option<string>, value: Arg, rows: Result<seq<ScanStep>>)
      returns (r: Outcome<Listing>, calls: seq<Call>)
      requires rows.Ok? ==> Terminates(rows.value)
      ensures transaction == Nil && context == null ==> r == Panicked(NilContext) && calls == []
      ensures transaction == Nil && context != null && context.database == Nil ==> r == Panicked(NilDatabase) && calls == []
      ensures transaction != Nil || (context != null && context.database != Nil) ==>
                && calls == [FindQuery(transaction, keyName, value)]
                && (rows.Failed? ==> r == Panicked(NilCursor))
                && (rows.Ok? ==> r == Drained(createZeroInstance, Rows(rows.value)))
    {
      var tableName := tableName;
      var columnName;
      if keyName.None? {
        columnName := primaryKey;
      } else {
        columnName := keyName.value;
      }
      var selectStatement := SelectWhereSql(tableName, columnName);
      if transaction != Nil {
        calls := [Query(OnTransaction(transaction), selectStatement, [value])];
      } else {
        if context == null {
          return Panicked(NilContext), [];
        }
        if context.database == Nil {
          return Panicked(NilDatabase), [];
        }
        calls := [Query(OnDatabase(context.database), selectStatement, [value])];
      }
      if rows.Failed? {
        // goto cleanup; `defer rows.Close()` on the nil cursor
        return Panicked(NilCursor), calls;
      }
      r := CreateFromRows(Rows(rows.value));
    }

    /**
     * `FindEntity`: the first entity `FindEntities` finds, with its error;
     * indexing the result panics when nothing was found, whatever the error.
     */
    method FindEntity(transaction: Handle, keyName: Option<string>, value: Arg, rows: Result<seq<ScanStep>>)
      returns (r: Outcome<Single>, calls: seq<Call>)
      requires rows.Ok? ==> Terminates(rows.value)
      ensures transaction == Nil && context == null ==> r == Panicked(NilContext) && calls == []
      ensures transaction == Nil && context != null && context.database == Nil ==> r == Panicked(NilDatabase) && calls == []
      ensures transaction != Nil || (context != null && context.database != Nil) ==>
                calls == [FindQuery(transaction, keyName, value)]
      ensures (transaction != Nil || (context != null && context.database != Nil)) && rows.Failed? ==>
                r == Panicked(NilCursor)
      ensures (transaction != Nil || (context != null && context.database != Nil)) && rows.Ok? ==>
                var all := Drained(createZeroInstance, Rows(rows.value));
                && (all.Panicked? ==> r == Panicked(all.reason))
                && (all.Returned? && all.value.entities == [] ==> r == Panicked(IndexOutOfRange))
                && (all.Returned? && all.value.entities != [] ==>
                      r == Returned(Single(all.value.entities[0], all.value.err)))
    {
      var entities;
      entities, calls := FindEntities(transaction, keyName, value, rows);
      match entities
      case Panicked(reason) =>
        r := Panicked(reason);
      case Returned(found) =>
        if |found.entities| == 0 {
          r := Panicked(IndexOutOfRange);
        } else {
          r := Returned(Single(found.entities[0], found.err));
        }
    }

    // -------------------------------------------------------------------
    // FindRelatedEntity

    /**
     * `FindRelatedEntity`: joins through this description's relationship to
     * `targetEntityName` and drains the result with the target's factory.
     * The query's error is discarded: a failed query hands a nil cursor to
     * `CreateFromRows`. When the context is valid, the target's description
     * is the one registered with this context.
     */
    method FindRelatedEntity(transaction: Handle, targetEntityName: string, queryKey: string, queryValue: Arg,
                             rows: Result<seq<ScanStep>>)
      returns (r: Outcome<Listing>, calls: seq<Call>)
      requires rows.Ok? ==> Terminates(rows.value)
      ensures context == null ==> r == Panicked(NilContext) && calls == []
      ensures context != null && transaction == Nil && context.database == Nil ==> r == Panicked(NilDatabase) && calls == []
      ensures context != null && (transaction != Nil || context.database != Nil) ==>
                var relationship := RelationshipForName(targetEntityName);
                var target := context.EntityDescriptionForName(targetEntityName);
                && calls == [Query(if transaction != Nil then OnTransaction(transaction) else OnDatabase(context.database),
                                   RelatedSql(target.tableName, relationship.joinTableName,
                                              relationship.foreignKey, relationship.targetKey, queryKey),
                                   [queryValue])]
                && r == Drained(target.createZeroInstance, if rows.Ok? then Rows(rows.value) else NilRows)
      ensures context != null && (transaction != Nil || context.database != Nil)
              && targetEntityName !in context.entityDescriptions.Entries() ==>
                r == Panicked(NilFactory)
      ensures context != null && context.Valid() && targetEntityName in context.entityDescriptions.Entries() ==>
                context.EntityDescriptionForName(targetEntityName).context == context
    {
      if context == null {
        return Panicked(NilContext), [];
      }
      var relationship := RelationshipForName(targetEntityName);
      var targetEntityDescription := context.EntityDescriptionForName(targetEntityName);
      var joinTableName := relationship.joinTableName;
      var targetTableName := targetEntityDescription.tableName;
      var joinTableForeignKey := relationship.foreignKey;
      var targetTableKey := relationship.targetKey;
      var selectStatement := RelatedSql(targetTableName, joinTableName, joinTableForeignKey, targetTableKey, queryKey);
      if transaction != Nil {
        calls := [Query(OnTransaction(transaction), selectStatement, [queryValue])];
      } else {
        if context.database == Nil {
          return Panicked(NilDatabase), [];
        }
        calls := [Query(OnDatabase(context.database), selectStatement, [queryValue])];
      }
      var cursor := if rows.Ok? then Rows(rows.value) else NilRows;
      r := targetEntityDescription.CreateFromRows(cursor);
    }

    // -------------------------------------------------------------------
    // Create

    /**
     * The steps of `Create` after the transaction is known, up to the first
     * that fails: the calls issued and how the sequence ended, `None` when
     * it reached a nil factory.
     */
    function InsertSteps(tx: Handle, args: seq<Arg>, now: int, io: CreateIO): (s: (seq<Call>, Option<Single>))
      ensures 1 <= |s.0| <= 4 && s.0[0] == ExecInsert(tx, insertStatement, args)
    {
      var insert := ExecInsert(tx, insertStatement, args);
      if io.exec.Some? then ([insert], Some(Single(NilEntity, io.exec)))
      else if io.lastInsertId.Failed? then ([insert, LastInsertId], Some(Single(NilEntity, ErrorOf(io.lastInsertId))))
      else
        var objectID := io.lastInsertId.value;
        var update := Exec(tx, UpdateCreatedDateSql(tableName), [Int(now), Int(objectID)]);
        if io.update.Some? then ([insert, LastInsertId, update], Some(Single(NilEntity, io.update)))
        else
          var issued := [insert, LastInsertId, update, Query(OnTransaction(tx), SelectByIdSql(tableName), [Int(objectID)])];
          if io.query.Some? then (issued, Some(Single(NilEntity, io.query)))
          else if createZeroInstance == Nil then (issued, None)
          else (issued, Some(Single(io.scan.populated, io.scan.err)))
    }

    /**
     * What `Create` does: begin a transaction when none is supplied, re-bind
     * the insert statement to it, run the steps, then commit a transaction it began itself when there is no error
     * and roll it back otherwise; a transaction the caller supplied is left
     * alone.
     */
    function CreateRun(transaction: Handle, args: seq<Arg>, now: int, io: CreateIO): (run: (Outcome<Single>, seq<Call>))
      reads context
      ensures run.0.Panicked? ==> forall c :: c in run.1 ==> !c.EndsTransaction()
    {
      if transaction == Nil && context == null then (Panicked(NilContext), [])
      else if transaction == Nil && context.database == Nil then (Panicked(NilDatabase), [])
      else if transaction == Nil && io.begin.Failed? then (Panicked(NilTransaction), [Begin(context.database)])
      else
        var owned := transaction == Nil;
        var tx := if owned then Ref(io.begin.value) else transaction;
        var opening := if owned then [Begin(context.database)] else [];
        if insertStatement == Nil then (Panicked(NilStatement), opening)
        else
        var s := InsertSteps(tx, args, now, io);
        if s.1.None? then (Panicked(NilFactory), opening + s.0)
        else
          var err := s.1.value.err;
          var ending := if !owned then [] else if err.None? then [Commit(tx)] else [Rollback(tx)];
          (Returned(s.1.value), opening + s.0 + ending)
    }

    /**
     * `Create`: inserts the row, stamps `createdDate` with `now`, re-selects
     * it and scans it into a new instance, then commits or rolls back a
     * transaction it began itself. The `goto cleanup` jumps are breaks out of
     * the `cleanup` block.
     */
    method Create(transaction: Handle, args: seq<Arg>, now: int, io: CreateIO)
      returns (r: Outcome<Single>, calls: seq<Call>)
      ensures (r, calls) == CreateRun(transaction, args, now, io)
    {
      var tx := transaction;
      var commitAtEnd := false;
      var err: Option<DbError> := None;
      var entity := NilEntity;
      calls := [];
      ghost var opening: seq<Call> := [];
      ghost var steps: (seq<Call>, Option<Single>) := ([], None);
      label cleanup: {
        if tx == Nil {
          if context == null {
            return Panicked(NilContext), calls;
          }
          if context.database == Nil {
            return Panicked(NilDatabase), calls;
          }
          calls := calls + [Begin(context.database)];
          commitAtEnd := true;
          match io.begin
          case Failed(e) =>
            err := Some(e);
            break cleanup;
          case Ok(id) =>
            tx := Ref(id);
        }
        if insertStatement == Nil {
          // `transaction.Stmt` reads the nil statement's database
          assert transaction != Nil || (context.database != Nil && io.begin.Ok?);
          assert calls == if transaction == Nil then [Begin(context.database)] else [];
          return Panicked(NilStatement), calls;
        }
        opening := calls;
        steps := InsertSteps(tx, args, now, io);
        calls := calls + [ExecInsert(tx, insertStatement, args)];
        err := io.exec;
        if err.Some? {
          assert calls == opening + steps.0;
          break cleanup;
        }
        calls := calls + [LastInsertId];
        var objectID := if io.lastInsertId.Ok? then io.lastInsertId.value else 0;
        err := ErrorOf(io.lastInsertId);
        if err.Some? {
          assert calls == opening + steps.0;
          break cleanup;
        }
        var createdTime := now;
        calls := calls + [Exec(tx, UpdateCreatedDateSql(tableName), [Int(createdTime), Int(objectID)])];
        err := io.update;
        if err.Some? {
          assert calls == opening + steps.0;
          break cleanup;
        }
        calls := calls + [Query(OnTransaction(tx), SelectByIdSql(tableName), [Int(objectID)])];
        err := io.query;
        if err.Some? {
          assert calls == opening + steps.0;
          break cleanup;
        }
        if createZeroInstance == Nil {
          assert calls == opening + steps.0 && steps.1.None?;
          assert tx == (if transaction == Nil then Ref(io.begin.value) else transaction);
          assert opening == (if transaction == Nil then [Begin(context.database)] else []);
          return Panicked(NilFactory), calls;
        }
        entity := io.scan.populated;
        err := io.scan.err;
        assert calls == opening + steps.0;
        if !io.scan.success {
          break cleanup;
        }
      }
      assert tx != Nil ==> calls == opening + steps.0 && steps.1 == Some(Single(entity, err));
      assert tx != Nil ==> tx == (if transaction == Nil then Ref(io.begin.value) else transaction);
      assert tx != Nil ==> opening == (if transaction == Nil then [Begin(context.database)] else []);
      assert commitAtEnd == (transaction == Nil);
      assert tx == Nil ==> transaction == Nil && io.begin.Failed? && context != null && context.database != Nil
                           && calls == [Begin(context.database)];
      if commitAtEnd {
        if err.Some? {
          if tx == Nil {
            return Panicked(NilTransaction), calls;
          }
          calls := calls + [Rollback(tx)];
        } else {
          calls := calls + [Commit(tx)];
        }
      }
      r := Returned(Single(entity, err));
      assert r == CreateRun(transaction, args, now, io).0;
      assert calls == CreateRun(transaction, args, now, io).1;
    }

    /** The four calls after the transaction is known, in the order `Create` makes them. */
    function StepOrder(tx: Handle, args: seq<Arg>, now: int, io: CreateIO): seq<Call>
    {
      var objectID := if io.lastInsertId.Ok? then io.lastInsertId.value else 0;
      [ExecInsert(tx, insertStatement, args),
       LastInsertId,
       Exec(tx, UpdateCreatedDateSql(tableName), [Int(now), Int(objectID)]),
       Query(OnTransaction(tx), SelectByIdSql(tableName), [Int(objectID)])]
    }

    /**
     * What the steps after the transaction issue, and how they end: the calls
     * in order up to and including the first that fails.
     */
    lemma InsertStepsFacts(tx: Handle, args: seq<Arg>, now: int, io: CreateIO)
      ensures InsertSteps(tx, args, now, io).0 == StepOrder(tx, args, now, io)[..StepsTaken(io)]
      ensures forall c :: c in InsertSteps(tx, args, now, io).0 ==> !c.EndsTransaction() && !c.Begin?
      ensures InsertSteps(tx, args, now, io).1.Some? ==> InsertSteps(tx, args, now, io).1.value.err == FirstError([io.exec, ErrorOf(io.lastInsertId), io.update, io.query, io.scan.err])
      ensures InsertSteps(tx, args, now, io).1.None? <==> FirstError([io.exec, ErrorOf(io.lastInsertId), io.update, io.query]).None? && createZeroInstance == Nil
      ensures InsertSteps(tx, args, now, io).1.Some? ==>
                InsertSteps(tx, args, now, io).1.value.entity
                == if FirstError([io.exec, ErrorOf(io.lastInsertId), io.update, io.query]).None? then io.scan.populated else NilEntity
      ensures forall c :: c in InsertSteps(tx, args, now, io).0 && c.Exec? ==>
                && io.lastInsertId.Ok? && c.tx == tx
                && c.sql == UpdateCreatedDateSql(tableName) && c.params == [Int(now), Int(io.lastInsertId.value)]
      ensures forall c :: c in InsertSteps(tx, args, now, io).0 && c.Query? ==>
                && io.lastInsertId.Ok? && c.target == OnTransaction(tx)
                && c.sql == SelectByIdSql(tableName) && c.params == [Int(io.lastInsertId.value)]
    {
      FirstErrorSteps(io.exec, ErrorOf(io.lastInsertId), io.update, io.query, io.scan.err);
    }

    /**
     * `Create` commits or rolls back only a transaction it began itself, and
     * as its last call: commit when there is no error, rollback otherwise. A
     * transaction the caller supplied is neither begun, committed nor rolled
     * back.
     */
    lemma CreateOwnership(transaction: Handle, args: seq<Arg>, now: int, io: CreateIO)
      ensures var run := CreateRun(transaction, args, now, io);
              transaction != Nil ==> forall c :: c in run.1 ==> !c.EndsTransaction() && !c.Begin?
      ensures var run := CreateRun(transaction, args, now, io);
              forall i :: 0 <= i < |run.1| - 1 ==> !run.1[i].EndsTransaction()
      ensures var run := CreateRun(transaction, args, now, io);
              transaction == Nil && run.0.Returned? ==>
                && context != null && io.begin.Ok? && |run.1| >= 3
                && run.1[0] == Begin(context.database)
                && run.1[|run.1| - 1] == (if run.0.value.err.None? then Commit(Ref(io.begin.value))
                                          else Rollback(Ref(io.begin.value)))
    {
      if transaction != Nil || (context != null && io.begin.Ok?) {
        var tx := if transaction == Nil then Ref(io.begin.value) else transaction;
        InsertStepsFacts(tx, args, now, io);
      }
    }

    /**
     * The calls `Create` makes, in order: `Begin` when it owns the
     * transaction, then the steps up to and including the first that fails,
     * then `Commit` or `Rollback` when it owns the transaction and returns.
     * A nil handle it dereferences on the way ends it there.
     */
    lemma CreateTrace(transaction: Handle, args: seq<Arg>, now: int, io: CreateIO)
      ensures var run := CreateRun(transaction, args, now, io);
              transaction == Nil && context == null ==> run == (Panicked(NilContext), [])
      ensures var run := CreateRun(transaction, args, now, io);
              transaction == Nil && context != null && context.database == Nil ==> run == (Panicked(NilDatabase), [])
      ensures var run := CreateRun(transaction, args, now, io);
              transaction == Nil && context != null && context.database != Nil && io.begin.Failed? ==>
                run == (Panicked(NilTransaction), [Begin(context.database)])
      ensures var run := CreateRun(transaction, args, now, io);
              (transaction != Nil || (context != null && context.database != Nil && io.begin.Ok?)) ==>
                var owned := transaction == Nil;
                var tx := if owned then Ref(io.begin.value) else transaction;
                var opening := if owned then [Begin(context.database)] else [];
                && (insertStatement == Nil ==> run == (Panicked(NilStatement), opening))
                && (insertStatement != Nil ==>
                      var n := |opening| + StepsTaken(io);
                      && n <= |run.1| <= n + 1
                      && run.1[..n] == opening + StepOrder(tx, args, now, io)[..StepsTaken(io)]
                      && (|run.1| == n + 1 <==> owned && run.0.Returned?))
    {
      if transaction != Nil || (context != null && context.database != Nil && io.begin.Ok?) {
        var tx := if transaction == Nil then Ref(io.begin.value) else transaction;
        InsertStepsFacts(tx, args, now, io);
      }
    }

    /**
     * The error `Create` returns is the first step's error, in step order,
     * ending with the scan's, and the entity is the scanned instance when the
     * scan is reached; it panics exactly when it dereferences a nil context,
     * database, transaction or insert statement or, with every step
     * succeeding, a nil factory.
     */
    lemma CreateErrors(transaction: Handle, args: seq<Arg>, now: int, io: CreateIO)
      ensures var run := CreateRun(transaction, args, now, io);
              run.0.Returned? ==>
                run.0.value.err == FirstError([io.exec, ErrorOf(io.lastInsertId), io.update, io.query, io.scan.err])
      ensures var run := CreateRun(transaction, args, now, io);
              run.0.Returned? ==>
                run.0.value.entity
                == if FirstError([io.exec, ErrorOf(io.lastInsertId), io.update, io.query]).None? then io.scan.populated
                   else NilEntity
      ensures var run := CreateRun(transaction, args, now, io);
              run.0.Panicked? <==>
                || (transaction == Nil && (context == null || context.database == Nil || io.begin.Failed?))
                || insertStatement == Nil
                || (FirstError([io.exec, ErrorOf(io.lastInsertId), io.update, io.query]).None?
                    && createZeroInstance == Nil)
    {
      if transaction != Nil || (context != null && io.begin.Ok?) {
        var tx := if transaction == Nil then Ref(io.begin.value) else transaction;
        InsertStepsFacts(tx, args, now, io);
      }
    }

    /** The timestamp update and the re-select are keyed on the new row's id through the column `id`. */
    lemma CreateKeyedOnId(transaction: Handle, args: seq<Arg>, now: int, io: CreateIO)
      ensures var run := CreateRun(transaction, args, now, io);
              forall c :: c in run.1 && c.Exec? ==>
                io.lastInsertId.Ok? && c.sql == UpdateCreatedDateSql(tableName)
                && c.params == [Int(now), Int(io.lastInsertId.value)]
      ensures var run := CreateRun(transaction, args, now, io);
              forall c :: c in run.1 && c.Query? ==>
                io.lastInsertId.Ok? && c.sql == SelectByIdSql(tableName) && c.params == [Int(io.lastInsertId.value)]
    {
      if transaction != Nil || (context != null && io.begin.Ok?) {
        var tx := if transaction == Nil then Ref(io.begin.value) else transaction;
        InsertStepsFacts(tx, args, now, io);
      }
    }

    /**
     * A scan that reports no row but no error leaves `err` nil, so a
     * transaction `Create` began is committed and the instance is returned.
     */
    lemma NoRowScanCommits(args: seq<Arg>, now: int, io: CreateIO)
      requires context != null && context.database != Nil && io.begin.Ok? && insertStatement != Nil
      requires io.exec.None? && io.lastInsertId.Ok? && io.update.None? && io.query.None?
      requires createZeroInstance != Nil
      requires io.scan == ScanStep(false, None, io.scan.populated)
      ensures CreateRun(Nil, args, now, io).0 == Returned(Single(io.scan.populated, None))
      ensures var calls := CreateRun(Nil, args, now, io).1;
              |calls| == 6 && calls[5] == Commit(Ref(io.begin.value))
    {
      FirstErrorSteps(io.exec, ErrorOf(io.lastInsertId), io.update, io.query, io.scan.err);
    }

    /** Whether the scan reports a row does not change what `Create` does: only its error does. */
    lemma ScanSuccessIrrelevant(transaction: Handle, args: seq<Arg>, now: int, io: CreateIO, success: bool)
      ensures CreateRun(transaction, args, now, io) == CreateRun(transaction, args, now, io.(scan := io.scan.(success := success)))
    {
    }

    /**
     * The statements `Create` keys on the new row name the column `id`, which
     * is not the select `FindEntities` issues by default unless the primary
     * key is itself called `id`.
     */
    lemma ReselectIgnoresPrimaryKey(transaction: Handle, value: Arg)
      requires transaction != Nil || context != null
      ensures SelectByIdSql(tableName) == SelectWhereSql(tableName, "id")
      ensures SelectByIdSql(tableName) == FindQuery(transaction, None, value).sql <==> primaryKey == "id"
    {
      SelectByIdIsWhereId(tableName);
      if SelectWhereSql(tableName, "id") == SelectWhereSql(tableName, primaryKey) {
        SelectWhereColumn(tableName, "id", primaryKey);
      }
    }
  }

  /** The zero value of `EntityDescription`: every field empty or nil. */
  const ZeroDescription := EntityDescription("", "", "", NilMap, Nil, Nil, null)

  /** What the datastore answers to each step of one `Create`. */
  datatype CreateIO = CreateIO(
    begin: Result<nat>,
    exec: Option<DbError>,
    lastInsertId: Result<int>,
    update: Option<DbError>,
    query: Option<DbError>,
    scan: ScanStep)

  // ---------------------------------------------------------------------
  // The context

  class DatabaseContext {
    var database: Handle
    var entityDescriptions: GoMap<string, EntityDescription>

    /** `&DatabaseContext{Database: database}`: no descriptions, a nil map. */
    constructor (database: Handle)
      ensures this.database == database && entityDescriptions == NilMap
      ensures Valid()
    {
      this.database := database;
      entityDescriptions := NilMap;
    }

    /** Every registered description refers back to this context. */
    ghost predicate Valid()
      reads this
    {
      forall n :: n in entityDescriptions.Entries() ==> entityDescriptions.Entries()[n].context == this
    }

    /** `EntityDescriptionForName`: the entry under `entityName`, or the zero description. */
    function EntityDescriptionForName(entityName: string): (d: EntityDescription)
      reads this
      ensures entityDescriptions.NilMap? ==> d == ZeroDescription
      ensures entityName !in entityDescriptions.Entries() ==> d == ZeroDescription
      ensures entityName in entityDescriptions.Entries() ==> d == entityDescriptions.Entries()[entityName]
    {
      entityDescriptions.Get(entityName, ZeroDescription)
    }

    /**
     * `RegisterEntityDescription`: makes the map if it is nil, stamps the
     * (copied) description with this context and stores it under its name,
     * replacing any earlier entry of that name.
     */
    method RegisterEntityDescription(entityDescription: EntityDescription)
      modifies this`entityDescriptions
      ensures entityDescriptions.Made?
      ensures EntityDescriptionForName(entityDescription.name) == entityDescription.(context := this)
      ensures forall n :: n != entityDescription.name ==>
                EntityDescriptionForName(n) == old(EntityDescriptionForName(n))
      ensures entityDescriptions.Entries().Keys == old(entityDescriptions.Entries().Keys) + {entityDescription.name}
      ensures old(Valid()) ==> Valid()
    {
      if entityDescriptions.NilMap? {
        entityDescriptions := Made(map[]);
      }
      var stamped := entityDescription.(context := this);
      entityDescriptions := Made(entityDescriptions.entries[entityDescription.name := stamped]);
    }
  }

  // ---------------------------------------------------------------------
  // Draining a cursor

  /** The cursor's scans eventually report that there is no further row. */
  predicate Terminates(scans: seq<ScanStep>)
  {
    exists k :: 0 <= k < |scans| && !scans[k].success
  }

  /** The index of the first scan that reports no row. */
  function FirstStop(scans: seq<ScanStep>): (k: nat)
    requires Terminates(scans)
    ensures k < |scans| && !scans[k].success
    ensures forall j :: 0 <= j < k ==> scans[j].success
  {
    if !scans[0].success then 0
    else
      assert Terminates(scans[1..]) by {
        var k :| 0 <= k < |scans| && !scans[k].success;
        assert k > 0 && !scans[1..][k - 1].success;
      }
      1 + FirstStop(scans[1..])
  }

  /** The instances the scans left behind, in scan order. */
  function Populated(scans: seq<ScanStep>): (es: seq<Entity>)
  {
    seq(|scans|, j requires 0 <= j < |scans| => scans[j].populated)
  }

  /**
   * What `CreateFromRows` returns for a factory and a cursor: the instances
   * of the scans before the first that reports no row, in order, and that
   * scan's error.
   */
  function Drained(factory: Handle, rows: Cursor): (r: Outcome<Listing>)
    requires rows.Rows? ==> Terminates(rows.scans)
    ensures factory == Nil ==> r == Panicked(NilFactory)
    ensures factory != Nil && rows.NilRows? ==> r == Panicked(NilCursor)
    ensures factory != Nil && rows.Rows? ==>
              && r.Returned?
              && var n := |r.value.entities|;
              && n < |rows.scans|
              && (forall j :: 0 <= j < n ==> rows.scans[j].success && r.value.entities[j] == rows.scans[j].populated)
              && !rows.scans[n].success
              && r.value.err == rows.scans[n].err
  {
    if factory == Nil then Panicked(NilFactory)
    else if rows.NilRows? then Panicked(NilCursor)
    else
      var k := FirstStop(rows.scans);
      Returned(Listing(Populated(rows.scans[..k]), rows.scans[k].err))
  }

  // ---------------------------------------------------------------------
  // Create's error bookkeeping

  /** The first error in `errors`, if any: what a chain of `if err != nil { goto cleanup }` ends with. */
  function FirstError(errors: seq<Option<DbError>>): Option<DbError>
  {
    if |errors| == 0 then None
    else if errors[0].Some? then errors[0]
    else FirstError(errors[1..])
  }

  /**
   * How many of the four calls after the transaction is known `Create` makes:
   * the insert, `LastInsertId` and the update each stop the sequence when
   * they fail, and the re-select is the last call of the sequence.
   */
  function StepsTaken(io: CreateIO): (n: nat)
    ensures 1 <= n <= 4
    ensures var errors := [io.exec, ErrorOf(io.lastInsertId), io.update];
            && (forall j :: 0 <= j < n - 1 ==> errors[j].None?)
            && (n < 4 ==> errors[n - 1].Some?)
  {
    if io.exec.Some? then 1 else if io.lastInsertId.Failed? then 2 else if io.update.Some? then 3 else 4
  }

  /** The first error of a list is its head's, when the head has one. */
  lemma FirstErrorCons(head: Option<DbError>, rest: seq<Option<DbError>>)
    ensures FirstError([head] + rest) == if head.Some? then head else FirstError(rest)
  {
    assert ([head] + rest)[1..] == rest;
  }

  /** The first error of `Create`'s steps, as the chain of `goto cleanup` checks finds it. */
  lemma FirstErrorSteps(exec: Option<DbError>, lastInsertId: Option<DbError>, update: Option<DbError>,
                        query: Option<DbError>, scan: Option<DbError>)
    ensures FirstError([exec, lastInsertId, update, query, scan])
            == if exec.Some? then exec else if lastInsertId.Some? then lastInsertId
               else if update.Some? then update else if query.Some? then query else scan
    ensures FirstError([exec, lastInsertId, update, query])
            == if exec.Some? then exec else if lastInsertId.Some? then lastInsertId
               else if update.Some? then update else query
  {
    FirstErrorCons(query, [scan]);
    FirstErrorCons(update, [query, scan]);
    FirstErrorCons(lastInsertId, [update, query, scan]);
    FirstErrorCons(exec, [lastInsertId, update, query, scan]);
    FirstErrorCons(query, []);
    FirstErrorCons(scan, []);
    FirstErrorCons(update, [query]);
    FirstErrorCons(lastInsertId, [update, query]);
    FirstErrorCons(exec, [lastInsertId, update, query]);
  }

  // ---------------------------------------------------------------------
  // SQL text

  /** `Create`'s timestamp statement, as the source writes its format string. */
  const UpdateCreatedDateFormat := "UPDATE %s SET createdDate=? WHERE id=?"

  /** `Create`'s re-select of the new row. */
  const SelectByIdFormat := "SELECT * FROM %s WHERE id=?"

  /** `FindEntities`' select. */
  const SelectWhereFormat := "SELECT * FROM %s WHERE %s=?"

  /** `FindRelatedEntity`'s join, in three pieces. */
  const RelatedFormat := "SELECT %s.* FROM %s" + " LEFT OUTER JOIN %s" + " ON %s.%s=%s.%s WHERE %s.%s=?"

  // The same format strings cut at each `%s`.
  const UpdateCreatedDateRuns := Run("UPDATE ", Last(" SET createdDate=? WHERE id=?"))
  const SelectByIdRuns := Run("SELECT * FROM ", Last(" WHERE id=?"))
  const SelectWhereRuns := Run("SELECT * FROM ", Run(" WHERE ", Last("=?")))
  const RelatedRuns :=
    Run("SELECT ", Run(".* FROM ", Run(" LEFT OUTER JOIN ", Run(" ON ", Run(".", Run("=", Run(".", Run(" WHERE ", Run(".", Last("=?"))))))))))

  lemma UpdateCreatedDateTemplate()
    ensures UpdateCreatedDateRuns.Template() == UpdateCreatedDateFormat
  {
    assert UpdateCreatedDateRuns.next.Template() == " SET createdDate=? WHERE id=?";
  }

  lemma SelectByIdTemplate()
    ensures SelectByIdRuns.Template() == SelectByIdFormat
  {
    assert SelectByIdRuns.next.Template() == " WHERE id=?";
  }

  lemma SelectWhereTemplate()
    ensures SelectWhereRuns.Template() == SelectWhereFormat
  {
  }

  /** The closing runs of the join's format string, built up from the end. */
  lemma RelatedTail6()
    ensures RelatedRuns.next.next.next.next.next.next.Template() == ".%s WHERE %s.%s=?"
  {
    assert RelatedRuns.next.next.next.next.next.next.next.next.next.Template() == "=?";
    assert RelatedRuns.next.next.next.next.next.next.next.next.Template() == ".%s=?";
    assert RelatedRuns.next.next.next.next.next.next.next.Template() == " WHERE %s.%s=?";
  }

  lemma RelatedTail5()
    ensures RelatedRuns.next.next.next.next.next.Template() == "=%s.%s WHERE %s.%s=?"
  {
    RelatedTail6();
  }

  lemma RelatedTail4()
    ensures RelatedRuns.next.next.next.next.Template() == ".%s=%s.%s WHERE %s.%s=?"
  {
    RelatedTail5();
  }

  lemma RelatedTail3()
    ensures RelatedRuns.next.next.next.Template() == " ON %s.%s=%s.%s WHERE %s.%s=?"
  {
    RelatedTail4();
  }

  lemma RelatedTemplate()
    ensures RelatedRuns.Template() == RelatedFormat
  {
    RelatedTail3();
  }

  /** The statement `Create` uses to stamp the new row: keyed on the column `id`. */
  function UpdateCreatedDateSql(tableName: string): (sql: string)
    ensures sql == "UPDATE " + tableName + " SET createdDate=? WHERE id=?"
  {
    var args := [tableName];
    SprintfFills(UpdateCreatedDateRuns, args, 0);
    assert args[0..] == args;
    Sprintf(UpdateCreatedDateRuns.Template(), args)
  }

  /** The statement `Create` uses to re-select the new row: keyed on the column `id`. */
  function SelectByIdSql(tableName: string): (sql: string)
    ensures sql == "SELECT * FROM " + tableName + " WHERE id=?"
  {
    var args := [tableName];
    SprintfFills(SelectByIdRuns, args, 0);
    assert args[0..] == args;
    Sprintf(SelectByIdRuns.Template(), args)
  }

  /** The statement `FindEntities` issues. */
  function SelectWhereSql(tableName: string, columnName: string): (sql: string)
    ensures sql == "SELECT * FROM " + tableName + " WHERE " + columnName + "=?"
  {
    var args := [tableName, columnName];
    SprintfFills(SelectWhereRuns, args, 0);
    assert args[0..] == args;
    assert SelectWhereRuns.next.next.Fill(args, 2) == "=?";
    assert SelectWhereRuns.next.Fill(args, 1) == " WHERE " + (columnName + "=?");
    Sprintf(SelectWhereRuns.Template(), args)
  }

  /** Filling the join's holes gives its nineteen pieces in order. */
  lemma RelatedFill(targetTableName: string, joinTableName: string, joinTableForeignKey: string,
                          targetTableKey: string, queryKey: string)
    ensures RelatedRuns.Holes() == 9
    ensures RelatedRuns.Fill([targetTableName, joinTableName, targetTableName, joinTableName, joinTableForeignKey, targetTableName, targetTableKey, joinTableName, queryKey], 0)
            == Concat(["SELECT ", targetTableName, ".* FROM ", joinTableName,
                    " LEFT OUTER JOIN ", targetTableName,
                    " ON ", joinTableName, ".", joinTableForeignKey, "=", targetTableName, ".", targetTableKey,
                    " WHERE ", joinTableName, ".", queryKey, "=?"])
  {
    var args := [targetTableName, joinTableName, targetTableName, joinTableName, joinTableForeignKey, targetTableName, targetTableKey, joinTableName, queryKey];
    var pieces := ["SELECT ", targetTableName, ".* FROM ", joinTableName,
                    " LEFT OUTER JOIN ", targetTableName,
                    " ON ", joinTableName, ".", joinTableForeignKey, "=", targetTableName, ".", targetTableKey,
                    " WHERE ", joinTableName, ".", queryKey, "=?"];
    assert RelatedRuns.next.next.next.next.next.next.next.next.next.Fill(args, 9) == ConcatFrom(pieces, 18);
    assert RelatedRuns.next.next.next.next.next.next.next.next.Fill(args, 8) == ConcatFrom(pieces, 16);
    assert RelatedRuns.next.next.next.next.next.next.next.Fill(args, 7) == ConcatFrom(pieces, 14);
    assert RelatedRuns.next.next.next.next.next.next.Fill(args, 6) == ConcatFrom(pieces, 12);
    assert RelatedRuns.next.next.next.next.next.Fill(args, 5) == ConcatFrom(pieces, 10);
    assert RelatedRuns.next.next.next.next.Fill(args, 4) == ConcatFrom(pieces, 8);
    assert RelatedRuns.next.next.next.Fill(args, 3) == ConcatFrom(pieces, 6);
    assert RelatedRuns.next.next.Fill(args, 2) == ConcatFrom(pieces, 4);
    assert RelatedRuns.next.Fill(args, 1) == ConcatFrom(pieces, 2);
    assert RelatedRuns.Fill(args, 0) == ConcatFrom(pieces, 0);
  }

  /** The statement `FindRelatedEntity` issues. */
  function RelatedSql(targetTableName: string, joinTableName: string, joinTableForeignKey: string,
                      targetTableKey: string, queryKey: string): (sql: string)
    ensures sql == Concat(["SELECT ", targetTableName, ".* FROM ", joinTableName,
                    " LEFT OUTER JOIN ", targetTableName,
                    " ON ", joinTableName, ".", joinTableForeignKey, "=", targetTableName, ".", targetTableKey,
                    " WHERE ", joinTableName, ".", queryKey, "=?"])
  {
    var args := [targetTableName, joinTableName, targetTableName, joinTableName, joinTableForeignKey, targetTableName, targetTableKey, joinTableName, queryKey];
    RelatedFill(targetTableName, joinTableName, joinTableForeignKey, targetTableKey, queryKey);
    SprintfFills(RelatedRuns, args, 0);
    assert args[0..] == args;
    Sprintf(RelatedRuns.Template(), args)
  }

  /** The re-select by `id` is the key select on the column `id`. */
  lemma SelectByIdIsWhereId(tableName: string)
    ensures SelectByIdSql(tableName) == SelectWhereSql(tableName, "id")
  {
    assert " WHERE " + "id" + "=?" == " WHERE id=?";
  }

  /** The key select names its column: different columns give different statements. */
  lemma SelectWhereColumn(tableName: string, c1: string, c2: string)
    ensures SelectWhereSql(tableName, c1) == SelectWhereSql(tableName, c2) <==> c1 == c2
  {
    if SelectWhereSql(tableName, c1) == SelectWhereSql(tableName, c2) {
      var prefix := "SELECT * FROM " + tableName + " WHERE ";
      var s1 := SelectWhereSql(tableName, c1);
      assert s1 == prefix + (c1 + "=?");
      assert SelectWhereSql(tableName, c2) == prefix + (c2 + "=?");
      assert |c1| == |c2|;
      assert s1[|prefix|..|prefix| + |c1|] == c1;
      assert SelectWhereSql(tableName, c2)[|prefix|..|prefix| + |c2|] == c2;
    }
  }
}
