/**
 * The analyzer's and catalog's view of a MySQL scan, reduced to plain values,
 * and the column projection the scan node derives from it.
 */
module Descriptors {

  datatype Column = Column(name: string)

  /** One output column of the scan; only materialized slots must be fetched. */
  datatype SlotDescriptor = SlotDescriptor(column: Column, isMaterialized: bool)

  datatype TupleDescriptor = TupleDescriptor(id: int, slots: seq<SlotDescriptor>)

  datatype MysqlTable = MysqlTable(mysqlTableName: string)

  /** MySQL identifier quoting: one backtick on each side, no escaping. */
  function Quote(name: string): (q: string)
    ensures |q| == |name| + 2
    ensures q[0] == '`' && q[|q| - 1] == '`'
    ensures q[1..|q| - 1] == name
  {
    "`" + name + "`"
  }

  /** The quoted names of the materialized slots, in slot order. */
  function QuotedNames(slots: seq<SlotDescriptor>): (names: seq<string>)
    ensures |names| <= |slots|
    ensures forall i :: 0 <= i < |names| ==> |names[i]| >= 2 && names[i][0] == '`' && names[i][|names[i]| - 1] == '`'
  {
    if slots == [] then []
    else (if slots[0].isMaterialized then [Quote(slots[0].column.name)] else [])
         + QuotedNames(slots[1..])
  }

  /** The column list of a scan: the quoted materialized names, or `*` when there are none (`count(*)`). */
  function ResolveColumns(slots: seq<SlotDescriptor>): (cols: seq<string>)
    ensures cols != []
  {
    var names := QuotedNames(slots);
    if names == [] then ["*"] else names
  }

  function CountMaterialized(slots: seq<SlotDescriptor>): nat
  {
    if slots == [] then 0
    else (if slots[0].isMaterialized then 1 else 0) + CountMaterialized(slots[1..])
  }

  /** Projection is computed slot by slot: it distributes over concatenation, so slot order is kept. */
  lemma {:induction false} QuotedNamesAppend(a: seq<SlotDescriptor>, b: seq<SlotDescriptor>)
    ensures QuotedNames(a + b) == QuotedNames(a) + QuotedNames(b)
  {
    if a == [] {
      assert a + b == b;
    } else {
      assert (a + b)[1..] == a[1..] + b;
      QuotedNamesAppend(a[1..], b);
    }
  }

  /** One entry per materialized slot. */
  lemma {:induction false} QuotedNamesLength(slots: seq<SlotDescriptor>)
    ensures |QuotedNames(slots)| == CountMaterialized(slots)
  {
    if slots != [] {
      QuotedNamesLength(slots[1..]);
    }
  }

  /** A name is projected exactly when some materialized slot has it. */
  lemma {:induction false} QuotedNamesMember(slots: seq<SlotDescriptor>, q: string)
    ensures q in QuotedNames(slots) <==>
            exists i :: 0 <= i < |slots| && slots[i].isMaterialized && q == Quote(slots[i].column.name)
  {
    if slots != [] {
      QuotedNamesMember(slots[1..], q);
      if q in QuotedNames(slots[1..]) {
        var i :| 0 <= i < |slots[1..]| && slots[1..][i].isMaterialized && q == Quote(slots[1..][i].column.name);
        assert slots[i + 1] == slots[1..][i];
      }
      if exists i :: 0 <= i < |slots| && slots[i].isMaterialized && q == Quote(slots[i].column.name) {
        var i :| 0 <= i < |slots| && slots[i].isMaterialized && q == Quote(slots[i].column.name);
        if i > 0 {
          assert slots[1..][i - 1] == slots[i];
        }
      }
    }
  }

  /** The projection is exactly `["*"]` when no slot is materialized, and otherwise the quoted names; it is never empty. */
  lemma {:induction false} ResolveColumnsStar(slots: seq<SlotDescriptor>)
    ensures ResolveColumns(slots) != []
    ensures ResolveColumns(slots) == ["*"] <==> CountMaterialized(slots) == 0
    ensures CountMaterialized(slots) > 0 ==> ResolveColumns(slots) == QuotedNames(slots)
  {
    QuotedNamesLength(slots);
    if CountMaterialized(slots) > 0 {
      var q := QuotedNames(slots)[0];
      QuotedNamesMember(slots, q);
      var i :| 0 <= i < |slots| && slots[i].isMaterialized && q == Quote(slots[i].column.name);
      assert |q| >= 2;
    }
  }
}
