/**
 * The column editor and the table editor the listener writes through, as
 * objects whose setters update their fields in place.
 */
module Editors {
  import opened Wrappers
  import opened Relational

  class ColumnEditor {
    var name: string
    var jdbcType: int
    var typeName: string
    var length: int
    var scale: Option<int>
    var optional: bool
    var defaultValueExpression: Option<string>
    var modifyKeys: seq<ModifyKey>

    /** `create()`: the column the editor currently describes. */
    function Snapshot(): Column
      reads this
    {
      Column(name, jdbcType, typeName, length, scale, optional, defaultValueExpression, modifyKeys)
    }

    constructor (c: Column)
      ensures Snapshot() == c
    {
      name, jdbcType, typeName := c.name, c.jdbcType, c.typeName;
      length, scale, optional := c.length, c.scale, c.optional;
      defaultValueExpression, modifyKeys := c.defaultValueExpression, c.modifyKeys;
    }

    method SetName(n: string)
      modifies this
      ensures Snapshot() == old(Snapshot()).(name := n)
    {
      name := n;
    }

    method SetJdbcType(t: int)
      modifies this
      ensures Snapshot() == old(Snapshot()).(jdbcType := t)
    {
      jdbcType := t;
    }

    method SetType(t: string)
      modifies this
      ensures Snapshot() == old(Snapshot()).(typeName := t)
    {
      typeName := t;
    }

    method SetLength(n: int)
      modifies this
      ensures Snapshot() == old(Snapshot()).(length := n)
    {
      length := n;
    }

    method SetScale(n: int)
      modifies this
      ensures Snapshot() == old(Snapshot()).(scale := Some(n))
    {
      scale := Some(n);
    }

    method SetOptional(b: bool)
      modifies this
      ensures Snapshot() == old(Snapshot()).(optional := b)
    {
      optional := b;
    }

    method SetDefaultValueExpression(e: string)
      modifies this
      ensures Snapshot() == old(Snapshot()).(defaultValueExpression := Some(e))
    {
      defaultValueExpression := Some(e);
    }

    method SetModifyKeys(keys: seq<ModifyKey>)
      modifies this
      ensures Snapshot() == old(Snapshot()).(modifyKeys := keys)
    {
      modifyKeys := keys;
    }
  }

  class TableEditor {
    const id: TableId
    var columns: seq<Column>
    var primaryKeyNames: seq<string>
    var uniqueColumns: seq<UniqueEntry>
    var checkColumns: seq<CheckEntry>
    var foreignKeys: seq<map<string, string>>
    var constraintChanges: seq<ConstraintChange>
    var primaryKeyChanges: seq<PrimaryKeyChange>

    /** The table the editor currently describes. */
    function Snapshot(): Table
      reads this
    {
      Table(id, columns, primaryKeyNames, uniqueColumns, checkColumns, foreignKeys, constraintChanges, primaryKeyChanges)
    }

    constructor (t: Table)
      ensures Snapshot() == t
    {
      id, columns, primaryKeyNames := t.id, t.columns, t.primaryKeyNames;
      uniqueColumns, checkColumns, foreignKeys := t.uniqueColumns, t.checkColumns, t.foreignKeys;
      constraintChanges, primaryKeyChanges := t.constraintChanges, t.primaryKeyChanges;
    }

    method AddColumn(c: Column)
      modifies this
      ensures Snapshot() == old(Snapshot()).(columns := old(columns) + [c])
    {
      columns := columns + [c];
    }

    method SetPrimaryKeyNames(n: string)
      modifies this
      ensures Snapshot() == old(Snapshot()).(primaryKeyNames := [n])
    {
      primaryKeyNames := [n];
    }

    method SetUniqueColumns(u: seq<UniqueEntry>)
      modifies this
      ensures Snapshot() == old(Snapshot()).(uniqueColumns := u)
    {
      uniqueColumns := u;
    }

    method SetCheckColumns(cs: seq<CheckEntry>)
      modifies this
      ensures Snapshot() == old(Snapshot()).(checkColumns := cs)
    {
      checkColumns := cs;
    }

    method SetForeignKeys(fks: seq<map<string, string>>)
      modifies this
      ensures Snapshot() == old(Snapshot()).(foreignKeys := fks)
    {
      foreignKeys := fks;
    }

    method SetConstraintChanges(cs: seq<ConstraintChange>)
      modifies this
      ensures Snapshot() == old(Snapshot()).(constraintChanges := cs)
    {
      constraintChanges := cs;
    }

    method SetPrimaryKeyChanges(pks: seq<PrimaryKeyChange>)
      modifies this
      ensures Snapshot() == old(Snapshot()).(primaryKeyChanges := pks)
    {
      primaryKeyChanges := pks;
    }
  }
}
