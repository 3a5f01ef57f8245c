/**
 * The discovered schema and the column layout (src/schema.rs).  The
 * schema is a cell that is filled once, from the first stored record.
 */
module Schemas {
  import opened Wrappers
  import opened Json

  datatype ColumnConfig = ColumnConfig(fieldName: string, width: nat, visible: bool, order: nat)

  datatype TableConfig = TableConfig(theme: Option<string>, columns: seq<ColumnConfig>)

  /** The synthetic line-number column that heads every schema. */
  const LineNumberField: string := "#"
  const LineNumberWidth: nat := 80
  const FieldWidth: nat := 150

  /** `ks` lists every element of `keys` exactly once, in some order. */
  ghost predicate IsEnumeration(ks: seq<string>, keys: set<string>)
  {
    && (forall i, j | 0 <= i < j < |ks| :: ks[i] != ks[j])
    && (forall k :: k in keys <==> k in ks)
  }

  /** `map.keys()`: the keys in the map's own, unspecified, order. */
  method EnumerateKeys(m: map<string, Value>) returns (ks: seq<string>)
    ensures IsEnumeration(ks, m.Keys) && |ks| == |m|
  {
    ks := [];
    var rest := m.Keys;
    while rest != {}
      invariant rest <= m.Keys
      invariant forall k :: k in m.Keys <==> k in rest || k in ks
      invariant forall k | k in ks :: k !in rest
      invariant forall i, j | 0 <= i < j < |ks| :: ks[i] != ks[j]
      invariant |ks| + |rest| == |m.Keys|
      decreases rest
    {
      var k :| k in rest;
      ks := ks + [k];
      rest := rest - {k};
    }
  }

  class Schema {
    var fields: seq<string>
    var initialized: bool

    /** `Schema::new`: not yet initialised, no fields, hence no default columns. */
    constructor ()
      ensures fields == [] && !initialized
      ensures GetDefaultColumns() == []
    {
      fields := [];
      initialized := false;
    }

    /**
     * `initialize_from_first_entry`: the first call records "#" followed by
     * the record's keys; every later call leaves the schema as it is.
     */
    method InitializeFromFirstEntry(rawFields: map<string, Value>)
      modifies this
      ensures initialized
      ensures old(initialized) ==> fields == old(fields)
      ensures !old(initialized) ==>
        && |fields| == |rawFields| + 1
        && fields[0] == LineNumberField
        && IsEnumeration(fields[1..], rawFields.Keys)
    {
      if !initialized {
        var keys := EnumerateKeys(rawFields);
        fields := [LineNumberField] + keys;
        initialized := true;
      }
    }

    /**
     * `get_default_columns`: one visible column per field, in field order,
     * 80 wide for "#" and 150 wide otherwise.
     */
    function GetDefaultColumns(): (cols: seq<ColumnConfig>)
      reads this
      ensures |cols| == |fields|
      ensures forall i | 0 <= i < |cols| ::
        && cols[i].fieldName == fields[i]
        && cols[i].order == i
        && cols[i].visible
        && cols[i].width == (if fields[i] == LineNumberField then LineNumberWidth else FieldWidth)
    {
      var fs := fields;
      seq(|fs|, i requires 0 <= i < |fs| =>
        ColumnConfig(fs[i], if fs[i] == LineNumberField then LineNumberWidth else FieldWidth, true, i))
    }
  }

  /**
   * After initialisation from `rawFields` the default layout starts with the
   * 80-wide "#" column and has exactly one column per key of the record,
   * 150 wide unless the key is itself "#".
   */
  lemma DefaultColumnsAfterInit(s: Schema, rawFields: map<string, Value>)
    requires |s.fields| == |rawFields| + 1 && s.fields[0] == LineNumberField
    requires IsEnumeration(s.fields[1..], rawFields.Keys)
    ensures s.GetDefaultColumns()[0] == ColumnConfig(LineNumberField, LineNumberWidth, true, 0)
    ensures forall k | k in rawFields :: exists i | 1 <= i < |s.fields| ::
      s.GetDefaultColumns()[i] == ColumnConfig(k, if k == LineNumberField then LineNumberWidth else FieldWidth, true, i)
    ensures forall i | 1 <= i < |s.fields| :: s.GetDefaultColumns()[i].fieldName in rawFields
  {
    var cols := s.GetDefaultColumns();
    forall k | k in rawFields
      ensures exists i | 1 <= i < |s.fields| ::
        cols[i] == ColumnConfig(k, if k == LineNumberField then LineNumberWidth else FieldWidth, true, i)
    {
      var j :| 0 <= j < |s.fields[1..]| && s.fields[1..][j] == k;
      assert cols[j + 1].fieldName == k;
    }
    forall i | 1 <= i < |s.fields| ensures cols[i].fieldName in rawFields {
      assert s.fields[i] == s.fields[1..][i - 1];
    }
  }
}
