# MySQL scan node planning, modelled in Dafny

This project models `MysqlScanNode`, the Palo frontend's plan node for a full
scan of an external MySQL table. At plan time the node:

- quotes the MySQL table name in backticks when it is built;
- on `finalize`, resolves the column list. This is the backtick-quoted name of
  every materialized slot, in slot order, or `*` when no slot is materialized
  (`count(*)`);
- then translates the node's conjuncts into MySQL filter strings. It clones
  each conjunct under a substitution map that sends every column reference to
  a copy without its table qualifier, and renders each clone in order;
- writes the tuple id, the table name, the columns and the filters into the
  serialized plan node;
- reports one execution instance and no static scan-range locations.

Files:

- `wrappers.dfy`: `Option`, which stands for a nullable Java reference.
- `exprs.dfy` (module `Exprs`): predicate trees (`SlotRef`, `Literal`, `Not`,
  `BinOp`). Also qualifier stripping, column-reference collection, cloning under
  a substitution map, a small MySQL renderer, and the lemmas about them.
- `descriptors.dfy` (module `Descriptors`): slots, tuple descriptor and table as
  plain values. Also identifier quoting and the column projection with its
  lemmas.
- `mysql_scan_node.dfy` (module `Planner`): the class `MysqlScanNode`, whose
  fields `columns`, `filters` and `tabName` are updated in place, and the
  filter-translation specification `TranslateFilters`. It also holds the
  serialized payload and the `TPlanNode` message it is written into.
- `scenarios.dfy`: two planning scenarios stated through the class's methods. One
  projects `name` and pushes `t.id = 5` and `t.name = 'a'`; the other is a
  `count(*)` scan.

The substitution map is keyed by expression value, not by object identity.
Every key is a column reference mapped to its own unqualified copy, so two
equal references get equal images either way.

## Model

| member | source | states |
|---|---|---|
| Descriptors.Quote | fe/src/com/baidu/palo/planner/MysqlScanNode.java:60 | the quoted identifier is the name with exactly one backtick added on each side, so removing the first and last character gives the name back |
| Descriptors.QuotedNames | fe/src/com/baidu/palo/planner/MysqlScanNode.java:77-83 | every projected entry is a backtick-quoted identifier, and there are at most as many entries as slots; `QuotedNamesAppend`, `QuotedNamesLength` and `QuotedNamesMember` fix order, count and contents |
| Descriptors.ResolveColumns | fe/src/com/baidu/palo/planner/MysqlScanNode.java:77-87 | the resolved column list is never empty; `ResolveColumnsStar` gives the exact `*` case |
| Descriptors.QuotedNamesAppend | fe/src/com/baidu/palo/planner/MysqlScanNode.java:77-83 | the projection is computed slot by slot: the projection of `a + b` is that of `a` followed by that of `b`, so slot order is kept |
| Descriptors.QuotedNamesLength | fe/src/com/baidu/palo/planner/MysqlScanNode.java:77-83 | the projection has one entry per materialized slot; non-materialized slots contribute nothing |
| Descriptors.QuotedNamesMember | fe/src/com/baidu/palo/planner/MysqlScanNode.java:77-83 | a string is in the projection if and only if it is the quoted column name of some materialized slot |
| Descriptors.ResolveColumnsStar | fe/src/com/baidu/palo/planner/MysqlScanNode.java:84-87 | the resolved column list is never empty; it is exactly `["*"]` if and only if no slot is materialized, and otherwise it is the quoted materialized names |
| Exprs.StripQualifiers | fe/src/com/baidu/palo/planner/MysqlScanNode.java:99-102 | after stripping, no column reference has a table qualifier, and the column names are the same, in the same order |
| Exprs.StripKeepsShape | fe/src/com/baidu/palo/planner/MysqlScanNode.java:99-105 | stripping keeps the tree's operators, literals and column names; only qualifiers can differ |
| Exprs.StripIdentityIffUnqualified | fe/src/com/baidu/palo/planner/MysqlScanNode.java:99-105 | stripping leaves a tree unchanged if and only if it has no qualified column reference, so a qualified original differs from its translated clone |
| Exprs.CollectSlotRefs | fe/src/com/baidu/palo/planner/MysqlScanNode.java:96-97 | everything collected is a column reference occurring in the tree, and the i-th one collected names the tree's i-th column, left to right |
| Exprs.CollectSlotRefsComplete | fe/src/com/baidu/palo/planner/MysqlScanNode.java:96-97 | every column reference occurring anywhere in a tree is collected |
| Exprs.CollectList | fe/src/com/baidu/palo/planner/MysqlScanNode.java:96-97 | everything collected from a conjunct list is a column reference occurring in one of the conjuncts |
| Exprs.CollectListCovers | fe/src/com/baidu/palo/planner/MysqlScanNode.java:96-97 | every column reference of every conjunct is among those collected from the list |
| Exprs.Substitute | fe/src/com/baidu/palo/planner/MysqlScanNode.java:105 | a clone under a map none of whose keys occurs in the tree equals the original tree; `SubstituteStrips` gives the result under the map built at lines 98-104 |
| Exprs.CloneList | fe/src/com/baidu/palo/planner/MysqlScanNode.java:105 | the cloned list has one clone per conjunct |
| Exprs.SubstituteStrips | fe/src/com/baidu/palo/planner/MysqlScanNode.java:98-105 | cloning a conjunct under a map that sends each of its column references to an unqualified copy gives exactly the stripped conjunct |
| Exprs.CloneListStrips | fe/src/com/baidu/palo/planner/MysqlScanNode.java:96-105 | cloning the conjunct list under a strip map that covers every collected reference gives each conjunct stripped of its qualifiers, in order |
| Planner.TranslateFilters | fe/src/com/baidu/palo/planner/MysqlScanNode.java:96-108 | there is exactly one filter per conjunct; `TranslateFiltersAt` gives each filter |
| Planner.TranslateFiltersAppend | fe/src/com/baidu/palo/planner/MysqlScanNode.java:106-108 | translation works conjunct by conjunct: translating `a + b` gives the filters of `a` followed by those of `b` |
| Planner.TranslateFiltersAt | fe/src/com/baidu/palo/planner/MysqlScanNode.java:105-108 | the k-th filter is the rendering of the k-th conjunct with its qualifiers stripped |
| Planner.MysqlScanNode.constructor | fe/src/com/baidu/palo/planner/MysqlScanNode.java:50-61 | a new node has `tabName` equal to the quoted MySQL table name, empty `columns`, `filters` and conjuncts, and is not finalized |
| Planner.MysqlScanNode.Finalize | fe/src/com/baidu/palo/planner/MysqlScanNode.java:70-74 | on a node not yet finalized, `columns` becomes the resolved projection and `filters` the translation of the conjuncts; the conjuncts and `tabName` are untouched |
| Planner.MysqlScanNode.CreateMySQLColumns | fe/src/com/baidu/palo/planner/MysqlScanNode.java:76-88 | appends the quoted materialized names to `columns` in slot order, then `*` when `columns` is still empty; changes nothing else |
| Planner.MysqlScanNode.CreateMySQLFilters | fe/src/com/baidu/palo/planner/MysqlScanNode.java:91-109 | leaves `filters` unchanged when there are no conjuncts; otherwise appends exactly the translation of the conjuncts, in order; changes nothing else (the conjuncts keep their qualifiers) |
| Planner.MysqlScanNode.ToThrift | fe/src/com/baidu/palo/planner/MysqlScanNode.java:112-115 | the message gets node type `MYSQL_SCAN_NODE` and a payload of the tuple id, `tabName`, `columns` and `filters` as they currently stand |
| Planner.MysqlScanNode.GetScanRangeLocations | fe/src/com/baidu/palo/planner/MysqlScanNode.java:122-124 | for every 64-bit range length the answer is null (`None`) |
| Planner.MysqlScanNode.GetNumInstances | fe/src/com/baidu/palo/planner/MysqlScanNode.java:127-129 | the instance count is always 1 |

## Left out

- `debugString` and its Guava `ToStringHelper`: diagnostic formatting only.
- Logging. The model has no error path: `finalize` declares `InternalException` but nothing in the file throws it, and every conjunct is rendered.
- The `Analyzer` argument of `finalize` and its helpers: the code never reads it.
- Thrift encoding: `TPlanNode` keeps only the two fields this node sets, and `TMySQLScanNode` is a plain record. `TScanRangeLocations` is a placeholder, because this node never builds one.
- `Expr.toMySql` belongs to the expression library and is not part of this model. `Exprs.ToMySql` is a simple stand-in renderer. No property is claimed about the rendered text except in the two scenarios.
- `Expr.collectList`, `Expr.cloneList`, `ExprSubstitutionMap` and `SlotRef.clone` are library code that is not part of this model. They are modelled only as far as this file relies on them, by value: collection keeps duplicates and the map is keyed by value.
- Aliasing and in-place mutation of expression trees: expressions are immutable values here. So "the clone shares nothing with the original" holds by construction and is not proved.
- `MysqlTable`, `Column`, `TupleDescriptor`, `SlotDescriptor` and the `ScanNode`/`PlanNode` base classes are plain values or fields. The planner assigns the conjuncts by writing the `conjuncts` field before `Finalize`.
- Planner.MysqlScanNode.ToThrift: the payload holds copies of `columns` and `filters`. If the generated `TMySQLScanNode` keeps references to the node's lists instead (its code is not part of this model), a payload built before `Finalize` would later show the filled lists. The model does not capture that aliasing; only a call order the planner never uses could observe it.
- Planner.MysqlScanNode.Finalize: calling it twice appends duplicates in the code. The model forbids it with a precondition instead of modelling it. The two helper methods still model appending to whatever the lists already hold.
