/**
 How much of a restored window the monitors show. The sum of the intersections is compared with the set of window
 pixels that some monitor covers.
 */
module WindowVisibility {
  /** Pixels from `left` up to and not including `right`, from `top` up to and not including `bottom`. */
  datatype Rect = Rect(left: int, top: int, right: int, bottom: int)

  type Pixel = (int, int)

  function Min(a: int, b: int): int {
    if a < b then a else b
  }

  function Max(a: int, b: int): int {
    if a < b then b else a
  }

  function Clip(window: Rect, monitor: Rect): Rect {
    Rect(Max(window.left, monitor.left), Max(window.top, monitor.top),
         Min(window.right, monitor.right), Min(window.bottom, monitor.bottom))
  }

  /** A side that runs backwards counts as empty. */
  function Area(r: Rect): nat {
    NatProduct(Max(r.right - r.left, 0), Max(r.bottom - r.top, 0))
  }

  function NatProduct(a: nat, b: nat): nat {
    a * b
  }

  predicate Inside(p: Pixel, r: Rect) {
    r.left <= p.0 < r.right && r.top <= p.1 < r.bottom
  }

  function Pixels(r: Rect): (s: set<Pixel>)
    ensures forall p :: p in s <==> Inside(p, r)
  {
    set x, y | r.left <= x < r.right && r.top <= y < r.bottom :: (x, y)
  }

  function VisibleSum(window: Rect, monitors: seq<Rect>): nat {
    if monitors == [] then 0
    else VisibleSum(window, monitors[..|monitors| - 1]) + Area(Clip(window, monitors[|monitors| - 1]))
  }

  /** The fraction of the window on screen; a window without area has none. */
  method VisibleFraction(window: Rect, monitors: seq<Rect>) returns (fraction: real)
    ensures fraction == if Area(window) == 0 then 0.0 else VisibleSum(window, monitors) as real / Area(window) as real
  {
    var area := Area(window);
    if area == 0 { return 0.0; }
    var visible := 0;
    var i := 0;
    while i < |monitors|
      invariant 0 <= i <= |monitors| && visible == VisibleSum(window, monitors[..i])
    {
      assert monitors[..i + 1][..i] == monitors[..i];
      visible := visible + Area(Clip(window, monitors[i]));
      i := i + 1;
    }
    assert monitors[..i] == monitors;
    fraction := visible as real / area as real;
  }

  // ---------------------------------------------------------------------------------------------
  // Areas count pixels
  // ---------------------------------------------------------------------------------------------

  lemma {:induction false} ColumnCount(x: int, top: int, bottom: int)
    requires top <= bottom
    ensures |Pixels(Rect(x, top, x + 1, bottom))| == bottom - top
    decreases bottom - top
  {
    if top == bottom {
      assert Pixels(Rect(x, top, x + 1, bottom)) == {};
    } else {
      ColumnCount(x, top, bottom - 1);
      assert Pixels(Rect(x, top, x + 1, bottom)) == Pixels(Rect(x, top, x + 1, bottom - 1)) + {(x, bottom - 1)};
    }
  }

  lemma {:induction false} AreaCounts(r: Rect)
    ensures |Pixels(r)| == Area(r)
    decreases Max(r.right - r.left, 0)
  {
    if r.right <= r.left || r.bottom <= r.top {
      assert Pixels(r) == {};
      assert NatProduct(Max(r.right - r.left, 0), 0) == 0;
    } else {
      var rest, column := r.(right := r.right - 1), Rect(r.right - 1, r.top, r.right, r.bottom);
      AreaCounts(rest);
      ColumnCount(r.right - 1, r.top, r.bottom);
      assert Pixels(r) == Pixels(rest) + Pixels(column);
      assert Pixels(rest) !! Pixels(column);
      Distributes(r.right - r.left - 1, r.bottom - r.top);
    }
  }

  lemma Distributes(a: nat, b: nat)
    ensures NatProduct(a + 1, b) == NatProduct(a, b) + b
  {
  }

  // ---------------------------------------------------------------------------------------------
  // The sum and the union
  // ---------------------------------------------------------------------------------------------

  /** The pixels of the window that some monitor shows. */
  function Covered(window: Rect, monitors: seq<Rect>): (s: set<Pixel>)
    ensures forall p :: p in s <==> Inside(p, window) && exists m :: m in monitors && Inside(p, m)
  {
    set p | p in Pixels(window) && Shown(p, monitors)
  }

  predicate Shown(p: Pixel, monitors: seq<Rect>) {
    exists m :: m in monitors && Inside(p, m)
  }

  /** No two monitors show the same pixel of the window. */
  ghost predicate DisjointOn(window: Rect, monitors: seq<Rect>) {
    forall i, j :: 0 <= i < j < |monitors| ==> Pixels(Clip(window, monitors[i])) !! Pixels(Clip(window, monitors[j]))
  }

  lemma UnionCount<T>(a: set<T>, b: set<T>)
    ensures |a + b| + |a * b| == |a| + |b|
  {
    assert a + b == a + (b - a) && b == (b - a) + a * b;
  }

  /**
   The sum of the intersections never falls short of the pixels covered, and equals them exactly when the monitors do
   not overlap on the window.
   */
  lemma {:induction false} SumCounts(window: Rect, monitors: seq<Rect>)
    ensures VisibleSum(window, monitors) >= |Covered(window, monitors)|
    ensures VisibleSum(window, monitors) == |Covered(window, monitors)| <==> DisjointOn(window, monitors)
    decreases |monitors|
  {
    if monitors == [] {
      assert Covered(window, []) == {};
    } else {
      var init, last := monitors[..|monitors| - 1], monitors[|monitors| - 1];
      var a, b := Covered(window, init), Pixels(Clip(window, last));
      SumCounts(window, init);
      AreaCounts(Clip(window, last));
      CoveredSnoc(window, init, last);
      assert monitors == init + [last];
      UnionCount(a, b);
      DisjointSnoc(window, init, last);
      hide VisibleSum, Covered, DisjointOn, Area, Pixels, Clip;
      SumSnoc(window, init, last);
      assert VisibleSum(window, monitors) == VisibleSum(window, init) + |b|;
      assert a * b == {} <==> |a * b| == 0;
    }
  }

  lemma SumSnoc(window: Rect, init: seq<Rect>, last: Rect)
    ensures VisibleSum(window, init + [last]) == VisibleSum(window, init) + Area(Clip(window, last))
  {
    assert (init + [last])[..|init|] == init;
  }

  lemma CoveredSnoc(window: Rect, init: seq<Rect>, last: Rect)
    ensures Covered(window, init + [last]) == Covered(window, init) + Pixels(Clip(window, last))
  {
    forall p | Inside(p, window) ensures Shown(p, init + [last]) <==> Shown(p, init) || Inside(p, last) {
      if Inside(p, last) { assert last in init + [last]; }
    }
  }

  lemma DisjointSnoc(window: Rect, init: seq<Rect>, last: Rect)
    ensures DisjointOn(window, init + [last])
            <==> DisjointOn(window, init) && Covered(window, init) * Pixels(Clip(window, last)) == {}
  {
    hide Covered, Pixels, Clip;
    if DisjointOn(window, init + [last]) { DisjointInit(window, init, last); }
    if DisjointOn(window, init) && Covered(window, init) * Pixels(Clip(window, last)) == {} {
      DisjointLast(window, init, last);
    }
  }

  lemma DisjointInit(window: Rect, init: seq<Rect>, last: Rect)
    requires DisjointOn(window, init + [last])
    ensures DisjointOn(window, init) && Covered(window, init) * Pixels(Clip(window, last)) == {}
  {
    hide Clip;
    var all := init + [last];
    assert forall i :: 0 <= i < |init| ==> all[i] == init[i];
    forall p | p in Covered(window, init) ensures p !in Pixels(Clip(window, last)) {
      var m :| m in init && Inside(p, m);
      var i :| 0 <= i < |init| && init[i] == m;
      ClipInside(window, m, p);
      assert p in Pixels(Clip(window, all[i]));
      assert Pixels(Clip(window, all[i])) !! Pixels(Clip(window, all[|init|]));
    }
  }

  lemma ClipInside(window: Rect, m: Rect, p: Pixel)
    ensures Inside(p, Clip(window, m)) <==> Inside(p, window) && Inside(p, m)
  {
  }

  lemma DisjointLast(window: Rect, init: seq<Rect>, last: Rect)
    requires DisjointOn(window, init) && Covered(window, init) * Pixels(Clip(window, last)) == {}
    ensures DisjointOn(window, init + [last])
  {
    var all := init + [last];
    forall i, j | 0 <= i < j < |all| ensures Pixels(Clip(window, all[i])) !! Pixels(Clip(window, all[j])) {
      if j == |init| {
        ShownIsCovered(window, init, i);
        hide Covered, Pixels, Clip;
        Apart(Pixels(Clip(window, init[i])), Covered(window, init), Pixels(Clip(window, last)));
      } else {
        assert Pixels(Clip(window, init[i])) !! Pixels(Clip(window, init[j]));
      }
    }
  }

  lemma Apart<T>(a: set<T>, b: set<T>, c: set<T>)
    requires a <= b && b * c == {}
    ensures a !! c
  {
    assert forall x :: x in a && x in c ==> x in b * c;
  }

  lemma ShownIsCovered(window: Rect, monitors: seq<Rect>, i: nat)
    requires i < |monitors|
    ensures Pixels(Clip(window, monitors[i])) <= Covered(window, monitors)
  {
    assert monitors[i] in monitors;
  }

  /**
   On monitors that do not overlap the fraction is the share of the window's pixels that are shown, so at most one.
   */
  lemma FractionIsShare(window: Rect, monitors: seq<Rect>)
    requires DisjointOn(window, monitors) && Area(window) > 0
    ensures VisibleSum(window, monitors) == |Covered(window, monitors)| <= |Pixels(window)| == Area(window)
    ensures 0.0 <= VisibleSum(window, monitors) as real / Area(window) as real <= 1.0
  {
    hide VisibleSum;
    SumCounts(window, monitors);
    AreaCounts(window);
    SubsetCount(Covered(window, monitors), Pixels(window));
    hide Area;
    AtMostOne(VisibleSum(window, monitors), Area(window));
  }

  lemma SubsetCount<T>(a: set<T>, b: set<T>)
    requires a <= b
    ensures |a| <= |b|
  {
    assert b == a + (b - a);
  }

  lemma AtMostOne(a: nat, b: nat)
    requires a <= b && b > 0
    ensures 0.0 <= a as real / b as real <= 1.0
  {
  }

  /** The order in which the monitors are listed does not matter. */
  lemma {:induction false} OrderDoesNotMatter(window: Rect, a: seq<Rect>, b: seq<Rect>)
    requires multiset(a) == multiset(b)
    ensures VisibleSum(window, a) == VisibleSum(window, b)
    decreases |a|
  {
    if a == [] {
      assert |multiset(b)| == 0;
    } else {
      hide VisibleSum;
      var last := a[|a| - 1];
      assert a == a[..|a| - 1] + [last];
      assert last in multiset(a) && last in b;
      var i :| 0 <= i < |b| && b[i] == last;
      var rest := b[..i] + b[i + 1..];
      assert b == b[..i] + [last] + b[i + 1..];
      SameRest(a[..|a| - 1], last, b[..i], b[i + 1..]);
      OrderDoesNotMatter(window, a[..|a| - 1], rest);
      SumSnoc(window, a[..|a| - 1], last);
      SumWithout(window, b[..i], last, b[i + 1..]);
    }
  }

  lemma SameRest<T>(a: seq<T>, x: T, before: seq<T>, after: seq<T>)
    requires multiset(a + [x]) == multiset(before + [x] + after)
    ensures multiset(a) == multiset(before + after)
  {
    assert multiset(a + [x]) == multiset(a) + multiset{x};
    assert multiset(before + [x] + after) == multiset(before + after) + multiset{x};
    assert multiset(a) == multiset(a + [x]) - multiset{x};
  }

  lemma {:induction false} SumWithout(window: Rect, before: seq<Rect>, m: Rect, after: seq<Rect>)
    ensures VisibleSum(window, before + [m] + after) == VisibleSum(window, before + after) + Area(Clip(window, m))
    decreases |after|
  {
    hide Area, Clip;
    if after == [] {
      assert before + [m] + after == before + [m] && before + after == before;
      SumSnoc(window, before, m);
    } else {
      var init, last := after[..|after| - 1], after[|after| - 1];
      SumWithout(window, before, m, init);
      assert before + [m] + after == (before + [m] + init) + [last];
      assert before + after == (before + init) + [last];
      SumSnoc(window, before + [m] + init, last);
      SumSnoc(window, before + init, last);
    }
  }
}
