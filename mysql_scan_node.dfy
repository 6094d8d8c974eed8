/**
 * The planner's node for a full scan of a MySQL table: it resolves the column
 * list and the pushed-down filters at finalize time and hands them, with the
 * quoted table name, to the serialized plan.
 */
module Planner {
  import opened Wrappers
  import opened Exprs
  import opened Descriptors

  newtype int64 = x: int | -0x8000_0000_0000_0000 <= x < 0x8000_0000_0000_0000

  /** The filter strings pushed to MySQL: each conjunct, qualifiers stripped, rendered, in conjunct order. */
  function TranslateFilters(conjuncts: seq<Expr>): (filters: seq<string>)
    ensures |filters| == |conjuncts|
  {
    if conjuncts == [] then []
    else [ToMySql(StripQualifiers(conjuncts[0]))] + TranslateFilters(conjuncts[1..])
  }

  /** Translation works conjunct by conjunct. */
  lemma {:induction false} TranslateFiltersAppend(a: seq<Expr>, b: seq<Expr>)
    ensures TranslateFilters(a + b) == TranslateFilters(a) + TranslateFilters(b)
  {
    if a == [] {
      assert a + b == b;
    } else {
      assert (a + b)[1..] == a[1..] + b;
      TranslateFiltersAppend(a[1..], b);
    }
  }

  /** One filter per conjunct, the k-th rendering the k-th conjunct with its qualifiers stripped. */
  lemma {:induction false} TranslateFiltersAt(conjuncts: seq<Expr>, k: nat)
    requires k < |conjuncts|
    ensures TranslateFilters(conjuncts)[k] == ToMySql(StripQualifiers(conjuncts[k]))
  {
    if k > 0 {
      TranslateFiltersAt(conjuncts[1..], k - 1);
    }
  }

  datatype TPlanNodeType = MYSQL_SCAN_NODE

  /** The MySQL part of the serialized plan node. */
  datatype TMySQLScanNode = TMySQLScanNode(tupleId: int, tableName: string, columns: seq<string>, filters: seq<string>)

  /** A scan-range assignment; its contents are never produced by this node. */
  datatype TScanRangeLocations = TScanRangeLocations(hosts: seq<string>)

  /** The plan-node message the node's payload is written into. */
  class TPlanNode {
    var nodeType: Option<TPlanNodeType>
    var mysqlScanNode: Option<TMySQLScanNode>

    constructor ()
      ensures nodeType == None && mysqlScanNode == None
    {
      nodeType := None;
      mysqlScanNode := None;
    }
  }

  class MysqlScanNode {
    const id: int
    const desc: TupleDescriptor
    /** The conjuncts the planner assigns to the node before finalizing it. */
    var conjuncts: seq<Expr>
    var columns: seq<string>
    var filters: seq<string>
    var tabName: string
    /** Whether `Finalize` has run; the node must be finalized at most once. */
    ghost var finalized: bool

    ghost predicate Valid()
      reads this
    {
      (!finalized ==> columns == [] && filters == []) &&
      (finalized ==> columns == ResolveColumns(desc.slots))
    }

    constructor (id: int, desc: TupleDescriptor, tbl: MysqlTable)
      ensures Valid() && !finalized
      ensures this.id == id && this.desc == desc
      ensures tabName == Quote(tbl.mysqlTableName)
      ensures columns == [] && filters == [] && conjuncts == []
    {
      this.id := id;
      this.desc := desc;
      conjuncts := [];
      columns := [];
      filters := [];
      tabName := Quote(tbl.mysqlTableName);
      finalized := false;
    }

    /** Resolves the columns, then the filters; the conjuncts are only read. */
    method Finalize()
      requires Valid() && !finalized
      modifies this`columns, this`filters, this`finalized
      ensures Valid() && finalized
      ensures columns == ResolveColumns(desc.slots)
      ensures filters == TranslateFilters(conjuncts)
      ensures conjuncts == old(conjuncts) && tabName == old(tabName)
    {
      CreateMySQLColumns();
      CreateMySQLFilters();
      finalized := true;
    }

    /**
     * Appends the quoted name of every materialized slot to `columns`, then
     * appends `*` if `columns` is still empty.
     */
    method CreateMySQLColumns()
      modifies this`columns
      ensures var names := old(columns) + QuotedNames(desc.slots);
              columns == if names == [] then ["*"] else names
    {
      var slots := desc.slots;
      var i := 0;
      while i < |slots|
        invariant 0 <= i <= |slots|
        invariant columns == old(columns) + QuotedNames(slots[..i])
      {
        var slot := slots[i];
        QuotedNamesAppend(slots[..i], [slot]);
        assert slots[..i + 1] == slots[..i] + [slot];
        if slot.isMaterialized {
          columns := columns + [Quote(slot.column.name)];
        }
        i := i + 1;
      }
      assert slots[..i] == slots;
      if |columns| == 0 {
        columns := columns + ["*"];
      }
    }

    /**
     * Appends one MySQL filter per conjunct: the conjuncts are cloned under a
     * map sending each column reference to an unqualified copy of itself, and
     * each clone is rendered.
     */
    method CreateMySQLFilters()
      modifies this`filters
      ensures filters == old(filters) + TranslateFilters(conjuncts)
    {
      if |conjuncts| == 0 {
        return;
      }
      var slotRefs := CollectList(conjuncts);
      var sMap: map<Expr, Expr> := map[];
      var i := 0;
      while i < |slotRefs|
        invariant 0 <= i <= |slotRefs|
        invariant IsStripMap(sMap)
        invariant forall j :: 0 <= j < i ==> slotRefs[j] in sMap
      {
        var slotRef := slotRefs[i];
        var tmpRef := slotRef.(tblName := None);
        sMap := sMap[slotRef := tmpRef];
        i := i + 1;
      }
      var mysqlConjuncts := CloneList(conjuncts, sMap);
      CloneListStrips(conjuncts, sMap);
      var k := 0;
      while k < |mysqlConjuncts|
        invariant 0 <= k <= |conjuncts|
        invariant filters == old(filters) + TranslateFilters(conjuncts[..k])
      {
        TranslateFiltersAppend(conjuncts[..k], [conjuncts[k]]);
        assert conjuncts[..k + 1] == conjuncts[..k] + [conjuncts[k]];
        filters := filters + [ToMySql(mysqlConjuncts[k])];
        k := k + 1;
      }
      assert conjuncts[..k] == conjuncts;
    }

    /** Writes the node type and the payload (tuple id, table name, columns, filters as they stand) into `msg`. */
    method ToThrift(msg: TPlanNode)
      modifies msg
      ensures msg.nodeType == Some(MYSQL_SCAN_NODE)
      ensures msg.mysqlScanNode == Some(TMySQLScanNode(desc.id, tabName, columns, filters))
    {
      msg.nodeType := Some(MYSQL_SCAN_NODE);
      msg.mysqlScanNode := Some(TMySQLScanNode(desc.id, tabName, columns, filters));
    }

    /** No static scan-range locations, whatever the range length: MySQL resolves its endpoint at execution time. */
    method GetScanRangeLocations(maxScanRangeLength: int64) returns (r: Option<seq<TScanRangeLocations>>)
      ensures r == None
    {
      r := None;
    }

    /** One MySQL connection is the unit of work, so the scan always runs as a single instance. */
    method GetNumInstances() returns (n: int)
      ensures n == 1
    {
      n := 1;
    }
  }
}
