/**
 * Predicate trees as the planner hands them to a scan node, reduced to the
 * shapes the MySQL filter translation cares about: column references, literals,
 * negation and binary operators (comparisons and AND/OR).
 */
module Exprs {
  import opened Wrappers

  datatype BinaryOp = Eq | Ne | Lt | Le | Gt | Ge | And | Or

  /** `SlotRef(tblName, col)` is a column reference, qualified by a table alias when `tblName` is `Some`. */
  datatype Expr =
    | SlotRef(tblName: Option<string>, col: string)
    | Literal(sql: string)
    | Not(operand: Expr)
    | BinOp(op: BinaryOp, left: Expr, right: Expr)

  /** No column reference anywhere in `e` carries a table qualifier. */
  predicate Unqualified(e: Expr)
  {
    match e
    case SlotRef(tbl, _) => tbl.None?
    case Literal(_) => true
    case Not(x) => Unqualified(x)
    case BinOp(_, l, r) => Unqualified(l) && Unqualified(r)
  }

  /** The column names referenced by `e`, left to right. */
  function ColumnNames(e: Expr): seq<string>
  {
    match e
    case SlotRef(_, col) => [col]
    case Literal(_) => []
    case Not(x) => ColumnNames(x)
    case BinOp(_, l, r) => ColumnNames(l) + ColumnNames(r)
  }

  /** `a` and `b` are the same tree except, possibly, for the qualifiers of their column references. */
  predicate SameUpToQualifiers(a: Expr, b: Expr)
  {
    match (a, b)
    case (SlotRef(_, c1), SlotRef(_, c2)) => c1 == c2
    case (Literal(s1), Literal(s2)) => s1 == s2
    case (Not(x1), Not(x2)) => SameUpToQualifiers(x1, x2)
    case (BinOp(o1, l1, r1), BinOp(o2, l2, r2)) =>
      o1 == o2 && SameUpToQualifiers(l1, l2) && SameUpToQualifiers(r1, r2)
    case _ => false
  }

  /**
   * The rewrite the MySQL scan applies to a pushed-down conjunct: every column
   * reference loses its table qualifier and nothing else changes.
   */
  function StripQualifiers(e: Expr): (r: Expr)
    ensures Unqualified(r)
    ensures ColumnNames(r) == ColumnNames(e)
  {
    match e
    case SlotRef(_, col) => SlotRef(None, col)
    case Literal(_) => e
    case Not(x) => Not(StripQualifiers(x))
    case BinOp(op, l, r) => BinOp(op, StripQualifiers(l), StripQualifiers(r))
  }

  /** Stripping keeps the shape and the literals of the tree. */
  lemma {:induction false} StripKeepsShape(e: Expr)
    ensures SameUpToQualifiers(e, StripQualifiers(e))
  {
    match e
    case SlotRef(_, _) =>
    case Literal(_) =>
    case Not(x) => StripKeepsShape(x);
    case BinOp(_, l, r) => StripKeepsShape(l); StripKeepsShape(r);
  }

  /** Stripping changes a tree exactly when some column reference in it is qualified. */
  lemma {:induction false} StripIdentityIffUnqualified(e: Expr)
    ensures StripQualifiers(e) == e <==> Unqualified(e)
  {
    match e
    case SlotRef(_, _) =>
    case Literal(_) =>
    case Not(x) => StripIdentityIffUnqualified(x);
    case BinOp(_, l, r) => StripIdentityIffUnqualified(l); StripIdentityIffUnqualified(r);
  }

  /** `s` occurs in `e` as a sub-tree (possibly `e` itself). */
  predicate SubExpr(s: Expr, e: Expr)
  {
    s == e ||
    match e
    case SlotRef(_, _) => false
    case Literal(_) => false
    case Not(x) => SubExpr(s, x)
    case BinOp(_, l, r) => SubExpr(s, l) || SubExpr(s, r)
  }

  /**
   * Every column reference inside `e`, in left-to-right order (the effect of
   * `Expr.collectList` for `SlotRef`): the i-th one collected is the i-th column
   * named by `e`.
   */
  function CollectSlotRefs(e: Expr): (refs: seq<Expr>)
    ensures forall r :: r in refs ==> r.SlotRef?
    ensures |refs| == |ColumnNames(e)|
    ensures forall i :: 0 <= i < |refs| ==> refs[i].col == ColumnNames(e)[i]
    ensures forall i :: 0 <= i < |refs| ==> SubExpr(refs[i], e)
  {
    match e
    case SlotRef(_, _) => [e]
    case Literal(_) => []
    case Not(x) => CollectSlotRefs(x)
    case BinOp(_, l, r) => CollectSlotRefs(l) + CollectSlotRefs(r)
  }

  /** The column references of a whole conjunct list. */
  function CollectList(es: seq<Expr>): (refs: seq<Expr>)
    ensures forall r :: r in refs ==> r.SlotRef?
    ensures forall i :: 0 <= i < |refs| ==> exists k :: 0 <= k < |es| && SubExpr(refs[i], es[k])
  {
    if es == [] then [] else CollectSlotRefs(es[0]) + CollectList(es[1..])
  }

  /** Nothing is missed: every column reference occurring in `e` is collected. */
  lemma {:induction false} CollectSlotRefsComplete(s: Expr, e: Expr)
    requires s.SlotRef? && SubExpr(s, e)
    ensures s in CollectSlotRefs(e)
  {
    if s != e {
      match e
      case Not(x) =>
        CollectSlotRefsComplete(s, x);
      case BinOp(_, l, r) =>
        if SubExpr(s, l) {
          CollectSlotRefsComplete(s, l);
        } else {
          CollectSlotRefsComplete(s, r);
        }
    }
  }

  /** Each conjunct's column references are among those collected from the list. */
  lemma {:induction false} CollectListCovers(es: seq<Expr>, k: nat)
    requires k < |es|
    ensures forall r :: r in CollectSlotRefs(es[k]) ==> r in CollectList(es)
  {
    if k > 0 {
      CollectListCovers(es[1..], k - 1);
    }
  }

  /**
   * Clone of `e` under substitution map `m` (`Expr.clone(ExprSubstitutionMap)`):
   * a sub-tree that is a key of `m` is replaced by its image, which is not
   * itself substituted again; every other node is copied.
   */
  function Substitute(e: Expr, m: map<Expr, Expr>): (r: Expr)
    ensures (forall k :: k in m ==> !SubExpr(k, e)) ==> r == e
  {
    if e in m then m[e]
    else match e
      case SlotRef(_, _) => e
      case Literal(_) => e
      case Not(x) => Not(Substitute(x, m))
      case BinOp(op, l, r) => BinOp(op, Substitute(l, m), Substitute(r, m))
  }

  /** `Expr.cloneList`: every expression of the list cloned under `m`, in order. */
  function CloneList(es: seq<Expr>, m: map<Expr, Expr>): (r: seq<Expr>)
    ensures |r| == |es|
  {
    seq(|es|, i requires 0 <= i < |es| => Substitute(es[i], m))
  }

  /** A map whose keys are column references, each mapped to its own unqualified clone. */
  predicate IsStripMap(m: map<Expr, Expr>)
  {
    forall k :: k in m ==> k.SlotRef? && m[k] == StripQualifiers(k)
  }

  /**
   * Cloning under a strip map that covers every column reference of `e` is the
   * same as stripping the qualifiers of `e`.
   */
  lemma {:induction false} SubstituteStrips(e: Expr, m: map<Expr, Expr>)
    requires IsStripMap(m)
    requires forall r :: r in CollectSlotRefs(e) ==> r in m
    ensures Substitute(e, m) == StripQualifiers(e)
  {
    match e
    case SlotRef(_, _) =>
      assert e in CollectSlotRefs(e);
    case Literal(_) =>
    case Not(x) =>
      SubstituteStrips(x, m);
    case BinOp(_, l, r) =>
      SubstituteStrips(l, m);
      SubstituteStrips(r, m);
  }

  /**
   * Cloning a conjunct list under a strip map that covers all its collected
   * column references strips every conjunct, in order.
   */
  lemma CloneListStrips(es: seq<Expr>, m: map<Expr, Expr>)
    requires IsStripMap(m)
    requires forall r :: r in CollectList(es) ==> r in m
    ensures forall i :: 0 <= i < |es| ==> CloneList(es, m)[i] == StripQualifiers(es[i])
  {
    forall i | 0 <= i < |es|
      ensures CloneList(es, m)[i] == StripQualifiers(es[i])
    {
      CollectListCovers(es, i);
      SubstituteStrips(es[i], m);
    }
  }

  function OpSql(op: BinaryOp): string
  {
    match op
    case Eq => "=" case Ne => "!=" case Lt => "<" case Le => "<="
    case Gt => ">" case Ge => ">=" case And => "AND" case Or => "OR"
  }

  /**
   * A MySQL rendering of a tree (`Expr.toMySql`). The real renderer belongs to
   * the expression library; this one is only concrete enough to state the scenarios' expected filters.
   */
  function ToMySql(e: Expr): string
  {
    match e
    case SlotRef(tbl, col) => if tbl.Some? then tbl.value + "." + col else col
    case Literal(sql) => sql
    case Not(x) => "NOT (" + ToMySql(x) + ")"
    case BinOp(op, l, r) =>
      if op == And || op == Or then "(" + ToMySql(l) + ") " + OpSql(op) + " (" + ToMySql(r) + ")"
      else ToMySql(l) + " " + OpSql(op) + " " + ToMySql(r)
  }
}
