/**
 * The `configurations` table (app/models.py): one row per configuration, with an
 * auto-assigned integer primary key `id`, a unique non-null `country_code` and a
 * non-null JSON `requirements` list. The table is kept as a map from country code to
 * row, plus the set of ids in use; the constraints become the invariant below.
 * Non-null columns are non-null by typing: a Dafny string or sequence has no null.
 */
module Models {

  /** One row of the table; also the response model `schemas.Configuration`. */
  datatype Configuration = Configuration(id: int, countryCode: string, requirements: seq<string>)

  /** The database errors a mutation can raise (both are `SQLAlchemyError`s). */
  datatype DbError =
    | UniqueViolation   // the unique index on country_code rejects an INSERT
    | StorageFailure    // any other failure of commit or refresh

  /** Every row is filed under its own country code, so codes are unique. */
  ghost predicate KeyedByCode(rows: map<string, Configuration>)
  {
    forall cc :: cc in rows ==> rows[cc].countryCode == cc
  }

  /** The primary key: no two rows share an id. */
  ghost predicate DistinctIds(rows: map<string, Configuration>)
  {
    forall a, b :: a in rows && b in rows && a != b ==> rows[a].id != rows[b].id
  }

  function IdsOf(rows: map<string, Configuration>): set<int>
  {
    set cc | cc in rows :: rows[cc].id
  }

  /** The table's constraints, with `ids` the set of ids in use. */
  ghost predicate TableInvariant(rows: map<string, Configuration>, ids: set<int>)
  {
    KeyedByCode(rows) && DistinctIds(rows) && ids == IdsOf(rows)
  }

  /** `bound` exceeds every id in `ids`, so it is itself unused. */
  ghost predicate AboveAll(ids: set<int>, bound: int)
  {
    forall x :: x in ids ==> x < bound
  }

  /** An INSERT with an unused code and an unused id keeps both constraints. */
  lemma InsertPreservesInvariant(rows: map<string, Configuration>, ids: set<int>, row: Configuration)
    requires TableInvariant(rows, ids)
    requires row.countryCode !in rows && row.id !in ids
    ensures TableInvariant(rows[row.countryCode := row], ids + {row.id})
  {
    var rows' := rows[row.countryCode := row];
    forall cc | cc in rows ensures rows[cc].id in ids {
      assert rows[cc].id in IdsOf(rows);
    }
    assert IdsOf(rows') == ids + {row.id} by {
      forall i | i in ids + {row.id} ensures i in IdsOf(rows') {
        if i == row.id {
          assert rows'[row.countryCode].id == i;
        } else {
          var cc :| cc in rows && rows[cc].id == i;
          assert rows'[cc].id == i;
        }
      }
    }
  }

  /** Replacing the requirements of an existing row keeps both constraints and the ids in use. */
  lemma ReplacePreservesInvariant(rows: map<string, Configuration>, ids: set<int>, cc: string, requirements: seq<string>)
    requires TableInvariant(rows, ids) && cc in rows
    ensures TableInvariant(rows[cc := rows[cc].(requirements := requirements)], ids)
  {
    var rows' := rows[cc := rows[cc].(requirements := requirements)];
    assert forall k :: k in rows' ==> rows'[k].id == rows[k].id;
    assert IdsOf(rows') == IdsOf(rows) by {
      forall i | i in IdsOf(rows) ensures i in IdsOf(rows') {
        var k :| k in rows && rows[k].id == i;
        assert rows'[k].id == i;
      }
    }
  }

  /** A DELETE of an existing row keeps both constraints and frees exactly that row's id. */
  lemma RemovePreservesInvariant(rows: map<string, Configuration>, ids: set<int>, cc: string)
    requires TableInvariant(rows, ids) && cc in rows
    ensures TableInvariant(rows - {cc}, ids - {rows[cc].id})
  {
    var rows' := rows - {cc};
    assert IdsOf(rows') == ids - {rows[cc].id} by {
      forall i | i in ids - {rows[cc].id} ensures i in IdsOf(rows') {
        var k :| k in rows && rows[k].id == i;
        assert k != cc;
        assert rows'[k].id == i;
      }
    }
  }
}
