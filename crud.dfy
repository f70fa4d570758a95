/**
 * The data-access functions (app/crud.py) as methods of the table they change.
 * `rows` is the committed content of the `configurations` table, keyed by country
 * code, and `ids` the ids in use. The outcome of the database's own steps is an
 * input: `commitOk` says whether `db.commit()` succeeds and `refreshOk` whether
 * the following `db.refresh(...)` does. A failed commit is rolled back and leaves
 * the table as it was; a failed refresh comes after the commit, so the rollback
 * finds nothing to undo and the change stays although the call reports an error.
 */
module Crud {
  import opened Wrappers
  import opened Models
  import opened Schemas

  class Store {
    var rows: map<string, Configuration>
    var ids: set<int>
    /** Exceeds every id the database has issued: witnesses that an unused id exists. */
    ghost var idBound: int

    /** The table's key constraints, plus the ghost witness for unused ids. */
    ghost predicate Valid()
      reads this
      ensures Valid() ==> forall a, b :: a in rows.Values && b in rows.Values && a.countryCode == b.countryCode ==> a == b
      ensures Valid() ==> forall a, b :: a in rows.Values && b in rows.Values && a.id == b.id ==> a == b
      ensures Valid() ==> forall cc :: cc in rows ==> rows[cc].countryCode == cc && rows[cc].id in ids
    {
      TableInvariant(rows, ids) && AboveAll(ids, idBound)
    }

    /** An empty table, as created at start-up. */
    constructor ()
      ensures Valid() && rows == map[] && ids == {}
    {
      rows := map[];
      ids := {};
      idBound := 0;
    }

    /**
     * `get_configuration`: the first row whose country_code equals the argument, or
     * None; thanks to the unique index this is the row filed under that code.
     */
    method GetConfiguration(countryCode: string) returns (found: Option<Configuration>)
      requires Valid()
      ensures found.Some? ==> found.value in rows.Values && found.value.countryCode == countryCode
      ensures found.None? ==> forall c :: c in rows.Values ==> c.countryCode != countryCode
      ensures found.Some? <==> countryCode in rows
      ensures found.Some? ==> found.value == rows[countryCode]
    {
      if countryCode in rows {
        found := Some(rows[countryCode]);
      } else {
        found := None;
      }
    }

    /**
     * `create_configuration`: INSERT a row with the payload's code and requirements and
     * an id no row uses. The unique index rejects an existing code at commit.
     */
    method CreateConfiguration(payload: ConfigurationCreate, commitOk: bool, refreshOk: bool)
      returns (r: Result<Configuration, DbError>)
      requires Valid()
      modifies this
      ensures Valid()
      ensures payload.countryCode in old(rows) ==>
        r == Err(UniqueViolation) && rows == old(rows) && ids == old(ids)
      ensures payload.countryCode !in old(rows) && !commitOk ==>
        r == Err(StorageFailure) && rows == old(rows) && ids == old(ids)
      ensures payload.countryCode !in old(rows) && commitOk ==>
        && payload.countryCode in rows
        && var row := rows[payload.countryCode];
        && row.countryCode == payload.countryCode
        && row.requirements == payload.requirements
        && row.id !in old(ids)
        && rows == old(rows)[payload.countryCode := row]
        && ids == old(ids) + {row.id}
        && r == (if refreshOk then Ok(row) else Err(StorageFailure))
    {
      var countryCode := payload.countryCode;
      // the INSERT draws an id that no row uses
      assert idBound !in ids;
      var id :| id !in ids;
      var row := Configuration(id, countryCode, payload.requirements);
      if countryCode in rows {
        // the unique index rejects the INSERT; db.rollback() discards the pending row
        r := Err(UniqueViolation);
        return;
      }
      if !commitOk {
        // db.rollback() discards the pending row
        r := Err(StorageFailure);
        return;
      }
      InsertPreservesInvariant(rows, ids, row);
      rows := rows[countryCode := row];
      ids := ids + {id};
      idBound := if id < idBound then idBound else id + 1;
      if !refreshOk {
        // committed already: db.rollback() has nothing left to undo
        r := Err(StorageFailure);
        return;
      }
      r := Ok(row);
    }

    /**
     * `update_configuration`: replace the requirements of the row with this code
     * wholesale; its id and code stay. None when no row has the code.
     */
    method UpdateConfiguration(countryCode: string, payload: ConfigurationUpdate, commitOk: bool, refreshOk: bool)
      returns (r: Result<Option<Configuration>, DbError>)
      requires Valid()
      modifies this
      ensures Valid() && ids == old(ids)
      ensures countryCode !in old(rows) ==> r == Ok(None) && rows == old(rows)
      ensures countryCode in old(rows) && !commitOk ==> r == Err(StorageFailure) && rows == old(rows)
      ensures countryCode in old(rows) && commitOk ==>
        && rows == old(rows)[countryCode := old(rows)[countryCode].(requirements := payload.requirements)]
        && rows[countryCode].id == old(rows)[countryCode].id
        && rows[countryCode].countryCode == countryCode
        && rows[countryCode].requirements == payload.requirements
        && r == (if refreshOk then Ok(Some(rows[countryCode])) else Err(StorageFailure))
    {
      var found := GetConfiguration(countryCode);
      if found.None? {
        r := Ok(None);
        return;
      }
      var updated := found.value.(requirements := payload.requirements);
      if !commitOk {
        // db.rollback() discards the pending attribute change
        r := Err(StorageFailure);
        return;
      }
      ReplacePreservesInvariant(rows, ids, countryCode, payload.requirements);
      rows := rows[countryCode := updated];
      if !refreshOk {
        // committed already: db.rollback() has nothing left to undo
        r := Err(StorageFailure);
        return;
      }
      r := Ok(Some(updated));
    }

    /**
     * `delete_configuration`: remove the row with this code and return the value it
     * had. None when no row has the code. There is no refresh after this commit.
     */
    method DeleteConfiguration(countryCode: string, commitOk: bool)
      returns (r: Result<Option<Configuration>, DbError>)
      requires Valid()
      modifies this
      ensures Valid()
      ensures countryCode !in old(rows) ==> r == Ok(None) && rows == old(rows) && ids == old(ids)
      ensures countryCode in old(rows) && !commitOk ==>
        r == Err(StorageFailure) && rows == old(rows) && ids == old(ids)
      ensures countryCode in old(rows) && commitOk ==>
        && r == Ok(Some(old(rows)[countryCode]))
        && rows == old(rows) - {countryCode}
        && ids == old(ids) - {old(rows)[countryCode].id}
    {
      var found := GetConfiguration(countryCode);
      if found.None? {
        r := Ok(None);
        return;
      }
      if !commitOk {
        // db.rollback() restores the row marked for deletion
        r := Err(StorageFailure);
        return;
      }
      RemovePreservesInvariant(rows, ids, countryCode);
      rows := rows - {countryCode};
      ids := ids - {found.value.id};
      r := Ok(found);
    }

    /**
     * `create_configuration` with the refresh moved inside the transaction (flush,
     * refresh, then commit), so that any failing step is undone by the rollback.
     */
    method CreateConfigurationRefreshFirst(payload: ConfigurationCreate, commitOk: bool, refreshOk: bool)
      returns (r: Result<Configuration, DbError>)
      requires Valid()
      modifies this
      ensures Valid()
      ensures r.Err? <==> payload.countryCode in old(rows) || !(commitOk && refreshOk)
      ensures r.Err? ==> rows == old(rows) && ids == old(ids)
      ensures payload.countryCode in old(rows) ==> r == Err(UniqueViolation)
      ensures payload.countryCode !in old(rows) && !(commitOk && refreshOk) ==> r == Err(StorageFailure)
      ensures r.Ok? ==>
        && r.value.countryCode == payload.countryCode
        && r.value.requirements == payload.requirements
        && r.value.id !in old(ids)
        && rows == old(rows)[payload.countryCode := r.value]
        && ids == old(ids) + {r.value.id}
    {
      var countryCode := payload.countryCode;
      assert idBound !in ids;
      var id :| id !in ids;
      var row := Configuration(id, countryCode, payload.requirements);
      if countryCode in rows {
        // the unique index rejects the flushed INSERT; db.rollback() discards it
        r := Err(UniqueViolation);
        return;
      }
      if !refreshOk || !commitOk {
        // still inside the transaction: db.rollback() discards the pending row
        r := Err(StorageFailure);
        return;
      }
      InsertPreservesInvariant(rows, ids, row);
      rows := rows[countryCode := row];
      ids := ids + {id};
      idBound := if id < idBound then idBound else id + 1;
      r := Ok(row);
    }

    /**
     * `update_configuration` with the refresh moved inside the transaction, so that
     * any failing step is undone by the rollback.
     */
    method UpdateConfigurationRefreshFirst(countryCode: string, payload: ConfigurationUpdate, commitOk: bool, refreshOk: bool)
      returns (r: Result<Option<Configuration>, DbError>)
      requires Valid()
      modifies this
      ensures Valid() && ids == old(ids)
      ensures countryCode !in old(rows) ==> r == Ok(None) && rows == old(rows)
      ensures countryCode in old(rows) && !(commitOk && refreshOk) ==> r == Err(StorageFailure) && rows == old(rows)
      ensures countryCode in old(rows) && commitOk && refreshOk ==>
        && rows == old(rows)[countryCode := old(rows)[countryCode].(requirements := payload.requirements)]
        && r == Ok(Some(rows[countryCode]))
    {
      var found := GetConfiguration(countryCode);
      if found.None? {
        r := Ok(None);
        return;
      }
      var updated := found.value.(requirements := payload.requirements);
      if !refreshOk || !commitOk {
        // still inside the transaction: db.rollback() discards the attribute change
        r := Err(StorageFailure);
        return;
      }
      ReplacePreservesInvariant(rows, ids, countryCode, payload.requirements);
      rows := rows[countryCode := updated];
      r := Ok(Some(updated));
    }
  }

  /**
   * As written, a create whose refresh fails reports an error although its row is
   * committed; the refresh-first variant leaves no row behind on the same input.
   */
  method RefreshFailureAfterCommit(payload: ConfigurationCreate)
    returns (asWritten: Result<Configuration, DbError>, asWrittenRows: map<string, Configuration>,
             corrected: Result<Configuration, DbError>, correctedRows: map<string, Configuration>)
    ensures asWritten == Err(StorageFailure) && corrected == Err(StorageFailure)
    ensures payload.countryCode in asWrittenRows && asWrittenRows[payload.countryCode].requirements == payload.requirements
    ensures correctedRows == map[]
  {
    var db := new Store();
    asWritten := db.CreateConfiguration(payload, true, false);
    asWrittenRows := db.rows;

    var other := new Store();
    corrected := other.CreateConfigurationRefreshFirst(payload, true, false);
    correctedRows := other.rows;
  }
}
