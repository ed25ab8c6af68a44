/** Sums over child rows.

    Every quantity in the fulfilment chain is a sum of child rows grouped by the row they
    hang under.  A `Link` is one such child: the index of its parent row and the quantity it
    contributes, in units of 0.0001.  A row that a filter leaves out is a link of quantity 0.
  */
module Links {

  datatype Link = Link(parent: int, qty: int)

  /** The sum of the children of `p`. */
  function Total(rows: seq<Link>, p: int): int {
    if rows == [] then 0
    else
      var last := rows[|rows| - 1];
      Total(rows[..|rows| - 1], p) + if last.parent == p then last.qty else 0
  }

  /** Every child that contributes hangs under one of `n` parent rows, and no child points past them. */
  ghost predicate Under(rows: seq<Link>, n: nat) {
    forall i | 0 <= i < |rows| :: rows[i].parent < n && (rows[i].qty == 0 || 0 <= rows[i].parent)
  }

  ghost predicate NonNegative(rows: seq<Link>) {
    forall i | 0 <= i < |rows| :: 0 <= rows[i].qty
  }

  /** Regroups children by the parent of their parent: one step of a join path.  A child with no
      parent row keeps none. */
  function Lift(children: seq<Link>, parents: seq<Link>): (lifted: seq<Link>)
    ensures |lifted| == |children|
  {
    seq(|children|, i requires 0 <= i < |children| =>
      var p := children[i].parent;
      Link(if 0 <= p < |parents| then parents[p].parent else -1, children[i].qty))
  }

  /** New parent rows do not regroup the children of the old ones. */
  lemma {:induction false} LiftFrame(children: seq<Link>, parents: seq<Link>, parent: Link)
    requires Under(children, |parents|)
    ensures Lift(children, parents + [parent]) == Lift(children, parents)
  {
  }

  lemma {:induction false} LiftAppend(children: seq<Link>, child: Link, parents: seq<Link>)
    requires 0 <= child.parent < |parents|
    ensures Lift(children + [child], parents)
        == Lift(children, parents) + [Link(parents[child.parent].parent, child.qty)]
  {
  }

  lemma {:induction false} LiftConcat(children: seq<Link>, more: seq<Link>, parents: seq<Link>)
    ensures Lift(children + more, parents) == Lift(children, parents) + Lift(more, parents)
  {
  }

  /** One link per parent row, carrying the sum of that row's own children: one level of a nested sum. */
  function Roll(children: seq<Link>, parents: seq<Link>): (rolled: seq<Link>)
    ensures |rolled| == |parents|
  {
    seq(|parents|, i requires 0 <= i < |parents| => Link(parents[i].parent, Total(children, i)))
  }

  lemma {:induction false} TotalAppend(rows: seq<Link>, row: Link)
    ensures forall p :: Total(rows + [row], p) == Total(rows, p) + if row.parent == p then row.qty else 0
  {
    assert (rows + [row])[..|rows|] == rows;
  }

  lemma {:induction false} TotalConcat(rows: seq<Link>, more: seq<Link>, p: int)
    ensures Total(rows + more, p) == Total(rows, p) + Total(more, p)
  {
    if more == [] {
      assert rows + more == rows;
    } else {
      var k := |more| - 1;
      assert rows + more == (rows + more[..k]) + [more[k]];
      TotalAppend(rows + more[..k], more[k]);
      TotalConcat(rows, more[..k], p);
    }
  }

  lemma {:induction false} TotalNonNegative(rows: seq<Link>, p: int)
    requires NonNegative(rows)
    ensures 0 <= Total(rows, p)
  {
    if rows != [] {
      TotalNonNegative(rows[..|rows| - 1], p);
    }
  }

  lemma {:induction false} TotalZero(rows: seq<Link>, p: int)
    requires forall i | 0 <= i < |rows| :: rows[i].parent == p ==> rows[i].qty == 0
    ensures Total(rows, p) == 0
  {
    if rows != [] {
      TotalZero(rows[..|rows| - 1], p);
    }
  }

  lemma {:induction false} RowWithinTotal(rows: seq<Link>, i: nat)
    requires NonNegative(rows) && i < |rows|
    ensures rows[i].qty <= Total(rows, rows[i].parent)
  {
    var k := |rows| - 1;
    if i == k {
      TotalNonNegative(rows[..k], rows[k].parent);
    } else {
      RowWithinTotal(rows[..k], i);
    }
  }

  /** A table of links that keeps its rows and only gains quantity sums to no less. */
  lemma {:induction false} TotalGrows(rows: seq<Link>, more: seq<Link>, p: int)
    requires |rows| <= |more| && NonNegative(more)
    requires forall i | 0 <= i < |rows| :: rows[i].parent == more[i].parent && rows[i].qty <= more[i].qty
    ensures Total(rows, p) <= Total(more, p)
  {
    if rows == [] {
      TotalNonNegative(more, p);
    } else if |rows| == |more| {
      TotalGrows(rows[..|rows| - 1], more[..|more| - 1], p);
    } else {
      TotalGrows(rows, more[..|more| - 1], p);
    }
  }

  /** Row by row, `whole` carries what `a` and `b` carry together. */
  lemma {:induction false} TotalSplit(whole: seq<Link>, a: seq<Link>, b: seq<Link>, p: int)
    requires |whole| == |a| == |b|
    requires forall i | 0 <= i < |whole| ::
      whole[i].parent == a[i].parent == b[i].parent && whole[i].qty == a[i].qty + b[i].qty
    ensures Total(whole, p) == Total(a, p) + Total(b, p)
  {
    if whole != [] {
      var k := |whole| - 1;
      TotalSplit(whole[..k], a[..k], b[..k], p);
    }
  }

  /** Row by row, `whole` carries what five other tables carry together. */
  lemma {:induction false} TotalSplit5(whole: seq<Link>, a: seq<Link>, b: seq<Link>, c: seq<Link>, d: seq<Link>,
      e: seq<Link>, p: int)
    requires |whole| == |a| == |b| == |c| == |d| == |e|
    requires forall i | 0 <= i < |whole| ::
      && whole[i].parent == a[i].parent == b[i].parent == c[i].parent == d[i].parent == e[i].parent
      && whole[i].qty == a[i].qty + b[i].qty + c[i].qty + d[i].qty + e[i].qty
    ensures Total(whole, p) == Total(a, p) + Total(b, p) + Total(c, p) + Total(d, p) + Total(e, p)
  {
    if whole != [] {
      var k := |whole| - 1;
      TotalSplit5(whole[..k], a[..k], b[..k], c[..k], d[..k], e[..k], p);
    }
  }

  lemma {:induction false} LiftPrefix(children: seq<Link>, moreChildren: seq<Link>, parents: seq<Link>,
      moreParents: seq<Link>)
    requires children <= moreChildren && parents <= moreParents && Under(children, |parents|)
    ensures Lift(children, parents) <= Lift(moreChildren, moreParents)
  {
  }

  /** A child added under row `k` raises exactly that row's rolled sum. */
  lemma {:induction false} RollBump(rolled: seq<Link>, bumped: seq<Link>, k: nat, q: int, p: int)
    requires |rolled| == |bumped| && k < |rolled|
    requires forall i | 0 <= i < |rolled| ::
      bumped[i] == if i == k then Link(rolled[i].parent, rolled[i].qty + q) else rolled[i]
    ensures Total(bumped, p) == Total(rolled, p) + if rolled[k].parent == p then q else 0
  {
    var n := |rolled| - 1;
    if k == n {
      assert rolled[..n] == bumped[..n];
    } else {
      RollBump(rolled[..n], bumped[..n], k, q, p);
    }
  }

  /** Grouping children once by the joined path gives the same number as summing them level by level. */
  lemma {:induction false} GroupedEqualsNested(children: seq<Link>, parents: seq<Link>, p: int)
    requires Under(children, |parents|)
    ensures Total(Lift(children, parents), p) == Total(Roll(children, parents), p)
  {
    if children == [] {
      TotalZero(Roll(children, parents), p);
    } else {
      var k := |children| - 1;
      var init, last := children[..k], children[k];
      assert children == init + [last];
      GroupedEqualsNested(init, parents, p);
      var lifted := Lift(children, parents)[k];
      assert Lift(children, parents) == Lift(init, parents) + [lifted];
      TotalAppend(Lift(init, parents), lifted);
      TotalAppend(init, last);
      if 0 <= last.parent {
        RollBump(Roll(init, parents), Roll(children, parents), last.parent, last.qty, p);
      } else {
        assert Roll(init, parents) == Roll(children, parents);
      }
    }
  }

  lemma {:induction false} Pointwise(less: seq<Link>, more: seq<Link>, p: int)
    requires |less| == |more|
    requires forall i | 0 <= i < |less| :: less[i].parent == more[i].parent && less[i].qty <= more[i].qty
    ensures Total(less, p) <= Total(more, p)
    ensures Total(less, p) == Total(more, p) ==>
              forall i | 0 <= i < |less| && less[i].parent == p :: less[i].qty == more[i].qty
  {
    if less != [] {
      var k := |less| - 1;
      Pointwise(less[..k], more[..k], p);
      forall i | 0 <= i < k && less[i].parent == p && Total(less, p) == Total(more, p)
        ensures less[i].qty == more[i].qty
      {
        assert less[..k][i].parent == p;
      }
    }
  }

  /** If no parent row is overdrawn by its children, no grandparent is; and a grandparent that is
      drawn exactly has every one of its parent rows drawn exactly. */
  lemma {:induction false} LiftBound(children: seq<Link>, parents: seq<Link>, p: int)
    requires Under(children, |parents|)
    requires forall i | 0 <= i < |parents| :: Total(children, i) <= parents[i].qty
    ensures Total(Lift(children, parents), p) <= Total(parents, p)
    ensures Total(Lift(children, parents), p) == Total(parents, p) ==>
              forall i | 0 <= i < |parents| && parents[i].parent == p :: Total(children, i) == parents[i].qty
  {
    GroupedEqualsNested(children, parents, p);
    var rolled := Roll(children, parents);
    Pointwise(rolled, parents, p);
    if Total(rolled, p) == Total(parents, p) {
      forall i | 0 <= i < |parents| && parents[i].parent == p
        ensures Total(children, i) == parents[i].qty
      {
        assert rolled[i].parent == p;
      }
    }
  }

  /** One pass that files every row under its group, as an aggregate query returns it. */
  function Grouped(rows: seq<Link>): map<int, int> {
    if rows == [] then map[]
    else
      var k := |rows| - 1;
      var sums := Grouped(rows[..k]);
      var p := rows[k].parent;
      sums[p := (if p in sums then sums[p] else 0) + rows[k].qty]
  }

  /** Reading an aggregate with a default of zero. */
  function Get(sums: map<int, int>, p: int): int {
    if p in sums then sums[p] else 0
  }

  /** The aggregate has a group for exactly the parents that have a row, and each group holds that parent's sum. */
  lemma {:induction false} GroupedIsTotal(rows: seq<Link>, p: int)
    ensures p in Grouped(rows) <==> exists i :: 0 <= i < |rows| && rows[i].parent == p
    ensures Get(Grouped(rows), p) == Total(rows, p)
  {
    if rows != [] {
      var k := |rows| - 1;
      GroupedIsTotal(rows[..k], p);
      if exists i :: 0 <= i < |rows| && rows[i].parent == p {
        var i :| 0 <= i < |rows| && rows[i].parent == p;
        if i < k {
          assert rows[..k][i].parent == p;
        }
      }
    }
  }

  /** The sum of every row, whatever its parent. */
  function Grand(rows: seq<Link>): int {
    if rows == [] then 0 else Grand(rows[..|rows| - 1]) + rows[|rows| - 1].qty
  }

  /** `n` rows, all in the one group 0. */
  function OneGroup(n: nat): seq<Link> {
    seq(n, i => Link(0, 0))
  }

  /** Summed over all its groups, a table counts every row exactly once. */
  lemma {:induction false} EveryRowOnce(rows: seq<Link>, n: nat)
    requires Under(rows, n)
    ensures Total(Roll(rows, OneGroup(n)), 0) == Grand(rows)
  {
    GroupedEqualsNested(rows, OneGroup(n), 0);
    GrandOfOne(rows, Lift(rows, OneGroup(n)));
  }

  lemma {:induction false} GrandOfOne(rows: seq<Link>, same: seq<Link>)
    requires |rows| == |same|
    requires forall i | 0 <= i < |rows| :: same[i].qty == rows[i].qty && (same[i].qty == 0 || same[i].parent == 0)
    ensures Total(same, 0) == Grand(rows)
  {
    if rows != [] {
      var k := |rows| - 1;
      GrandOfOne(rows[..k], same[..k]);
    }
  }

  /** Row by row, the same quantity under the same parent, except that an empty row may hang anywhere. */
  lemma {:induction false} TotalMatch(a: seq<Link>, b: seq<Link>, p: int)
    requires |a| == |b|
    requires forall i | 0 <= i < |a| :: a[i].qty == b[i].qty && (a[i].qty == 0 || a[i].parent == b[i].parent)
    ensures Total(a, p) == Total(b, p)
  {
    if a != [] {
      var k := |a| - 1;
      TotalMatch(a[..k], b[..k], p);
    }
  }

  /** A join path may be followed from either end. */
  lemma {:induction false} LiftAssociative(a: seq<Link>, b: seq<Link>, c: seq<Link>)
    requires Under(b, |c|)
    ensures Lift(Lift(a, b), c) == Lift(a, Lift(b, c))
  {
  }

  /** Rolling up a joined table is rolling up the sums of its parts. */
  lemma {:induction false} RollOfLift(a: seq<Link>, b: seq<Link>, c: seq<Link>)
    requires Under(a, |b|) && Under(b, |c|)
    ensures Roll(Lift(a, b), c) == Roll(Roll(a, b), c)
  {
    forall i | 0 <= i < |c| ensures Total(Lift(a, b), i) == Total(Roll(a, b), i) {
      GroupedEqualsNested(a, b, i);
    }
  }

  // ---- covering: no parent row is overdrawn by its children

  ghost predicate Covered(children: seq<Link>, parents: seq<Link>) {
    forall i | 0 <= i < |parents| :: Total(children, i) <= parents[i].qty
  }

  lemma {:induction false} CoveredAddParent(children: seq<Link>, parents: seq<Link>, parent: Link)
    requires Under(children, |parents|) && Covered(children, parents) && 0 <= parent.qty
    ensures Covered(children, parents + [parent])
  {
    TotalZero(children, |parents|);
  }

  lemma {:induction false} CoveredAddChild(children: seq<Link>, child: Link, parents: seq<Link>)
    requires Covered(children, parents)
    requires 0 <= child.parent < |parents| ==> Total(children, child.parent) + child.qty <= parents[child.parent].qty
    ensures Covered(children + [child], parents)
  {
    TotalAppend(children, child);
  }

  // ---- agreement: two tables that hold the same sum for every parent

  ghost predicate Agree(a: seq<Link>, b: seq<Link>) {
    forall p :: Total(a, p) == Total(b, p)
  }

  lemma {:induction false} AgreeAppend(a: seq<Link>, b: seq<Link>, row: Link)
    requires Agree(a, b)
    ensures Agree(a + [row], b + [row])
    ensures row.qty == 0 ==> Agree(a + [row], b) && Agree(a, b + [row])
  {
    TotalAppend(a, row);
    TotalAppend(b, row);
  }
}
