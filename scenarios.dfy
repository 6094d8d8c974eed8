/** Two planning scenarios driven through the node's public operations. */
module Scenarios {
  import opened Wrappers
  import opened Exprs
  import opened Descriptors
  import opened Planner

  /**
   * Table `t(id, name)`; only `name` is projected and the conjuncts are
   * `t.id = 5` and `t.name = 'a'`.
   */
  method ProjectionWithPushdown()
  {
    var desc := TupleDescriptor(0, [SlotDescriptor(Column("id"), false), SlotDescriptor(Column("name"), true)]);
    var node := new MysqlScanNode(1, desc, MysqlTable("t"));
    node.conjuncts := [BinOp(Eq, SlotRef(Some("t"), "id"), Literal("5")),
                       BinOp(Eq, SlotRef(Some("t"), "name"), Literal("'a'"))];
    node.Finalize();
    assert desc.slots[1..][1..] == [];
    assert QuotedNames(desc.slots) == [Quote("name")];
    assert Quote("name") == "`name`";
    assert node.columns == ["`name`"];
    ghost var cs := node.conjuncts;
    assert cs[1..][1..] == [];
    assert TranslateFilters(cs) == [ToMySql(StripQualifiers(cs[0])), ToMySql(StripQualifiers(cs[1]))];
    assert ToMySql(StripQualifiers(cs[0])) == "id" + " " + "=" + " " + "5" == "id = 5";
    assert ToMySql(StripQualifiers(cs[1])) == "name" + " " + "=" + " " + "'a'" == "name = 'a'";
    assert node.filters == ["id = 5", "name = 'a'"];
    // The node's own conjuncts keep their qualifiers.
    assert node.conjuncts[0].left.tblName == Some("t");
    assert Quote("t") == "`t`";
    assert node.tabName == "`t`";
    var msg := new TPlanNode();
    node.ToThrift(msg);
    assert msg.mysqlScanNode == Some(TMySQLScanNode(0, "`t`", ["`name`"], ["id = 5", "name = 'a'"]));
    var n := node.GetNumInstances();
    assert n == 1;
    var locations := node.GetScanRangeLocations(0);
    assert locations == None;
  }

  /** `SELECT count(*) FROM t`: no materialized slot and no conjunct. */
  method CountStar()
  {
    var desc := TupleDescriptor(0, [SlotDescriptor(Column("id"), false)]);
    var node := new MysqlScanNode(1, desc, MysqlTable("t"));
    node.Finalize();
    assert node.columns == ["*"];
    assert node.filters == [];
  }
}
