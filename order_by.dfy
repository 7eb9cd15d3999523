/**
 * `OrderBy(x => x.BusinessDays).ToList()` on the points of a curve. LINQ's
 * OrderBy is a STABLE sort: points with equal business days keep their input
 * order. It is modelled as an insertion sort that puts each point in front of
 * the first point whose business days are not smaller than its own.
 */
module OrderBy {
  import opened Domain

  ghost predicate Sorted<Num>(s: seq<EttjRate<Num>>) {
    forall i, j :: 0 <= i < j < |s| ==> s[i].businessDays <= s[j].businessDays
  }

  ghost predicate StrictlySorted<Num>(s: seq<EttjRate<Num>>) {
    forall i, j :: 0 <= i < j < |s| ==> s[i].businessDays < s[j].businessDays
  }

  /** No two positions of `s` carry the same business-day count. */
  ghost predicate DistinctBusinessDays<Num>(s: seq<EttjRate<Num>>) {
    forall i, j :: 0 <= i < j < |s| ==> s[i].businessDays != s[j].businessDays
  }

  /** `[p]` when `p` lies at `days` business days, else empty. */
  function Keep<Num>(p: EttjRate<Num>, days: int): seq<EttjRate<Num>> {
    if p.businessDays == days then [p] else []
  }

  /** The points of `s` that lie at `days` business days, in the order they appear in `s`. */
  function PointsAt<Num>(s: seq<EttjRate<Num>>, days: int): seq<EttjRate<Num>> {
    if s == [] then [] else Keep(s[0], days) + PointsAt(s[1..], days)
  }

  /** Inserts `p` in front of the first point of `s` whose business days are at least `p`'s. */
  function Insert<Num>(p: EttjRate<Num>, s: seq<EttjRate<Num>>): (r: seq<EttjRate<Num>>)
    ensures multiset(r) == multiset(s) + multiset{p}
    ensures |r| == |s| + 1
  {
    if s == [] then [p]
    else if p.businessDays <= s[0].businessDays then [p] + s
    else
      assert s == [s[0]] + s[1..];
      [s[0]] + Insert(p, s[1..])
  }

  lemma InsertAfterHead<Num>(p: EttjRate<Num>, s: seq<EttjRate<Num>>)
    requires s != [] && s[0].businessDays < p.businessDays
    ensures Insert(p, s) == [s[0]] + Insert(p, s[1..])
  {
  }

  lemma ConsSorted<Num>(p: EttjRate<Num>, s: seq<EttjRate<Num>>)
    requires Sorted(s)
    requires forall e | e in s :: p.businessDays <= e.businessDays
    ensures Sorted([p] + s)
  {
  }

  lemma ConsStrictlySorted<Num>(p: EttjRate<Num>, s: seq<EttjRate<Num>>)
    requires StrictlySorted(s)
    requires forall e | e in s :: p.businessDays < e.businessDays
    ensures StrictlySorted([p] + s)
  {
  }

  /** Inserting into a sorted sequence keeps it sorted. */
  lemma {:induction false} InsertSorted<Num>(p: EttjRate<Num>, s: seq<EttjRate<Num>>)
    requires Sorted(s)
    ensures Sorted(Insert(p, s))
  {
    if s != [] && s[0].businessDays < p.businessDays {
      var rest := Insert(p, s[1..]);
      InsertAfterHead(p, s);
      InsertSorted(p, s[1..]);
      forall e | e in rest ensures s[0].businessDays <= e.businessDays {
        assert e in multiset(rest);
      }
      ConsSorted(s[0], rest);
    }
  }

  /** The list `OrderBy(x => x.BusinessDays).ToList()` builds from `s`. */
  function OrderByBusinessDays<Num>(s: seq<EttjRate<Num>>): (r: seq<EttjRate<Num>>)
    ensures Sorted(r)
    ensures multiset(r) == multiset(s)
    ensures |r| == |s|
  {
    if s == [] then []
    else
      var sortedTail := OrderByBusinessDays(s[1..]);
      InsertSorted(s[0], sortedTail);
      assert s == [s[0]] + s[1..];
      Insert(s[0], sortedTail)
  }

  lemma PointsAtCons<Num>(p: EttjRate<Num>, s: seq<EttjRate<Num>>, days: int)
    ensures PointsAt([p] + s, days) == Keep(p, days) + PointsAt(s, days)
  {
  }

  lemma KeepsCommute<Num>(p: EttjRate<Num>, q: EttjRate<Num>, days: int, t: seq<EttjRate<Num>>)
    requires p.businessDays != q.businessDays
    ensures Keep(p, days) + (Keep(q, days) + t) == Keep(q, days) + (Keep(p, days) + t)
  {
  }

  lemma {:induction false} InsertPointsAt<Num>(p: EttjRate<Num>, s: seq<EttjRate<Num>>, days: int)
    ensures PointsAt(Insert(p, s), days) == Keep(p, days) + PointsAt(s, days)
  {
    if s == [] {
      PointsAtCons(p, [], days);
    } else if p.businessDays <= s[0].businessDays {
      PointsAtCons(p, s, days);
    } else {
      var rest := Insert(p, s[1..]);
      InsertAfterHead(p, s);
      InsertPointsAt(p, s[1..], days);
      PointsAtCons(s[0], rest, days);
      assert [s[0]] + s[1..] == s;
      PointsAtCons(s[0], s[1..], days);
      KeepsCommute(s[0], p, days, PointsAt(s[1..], days));
    }
  }

  /**
   * The first point of a list is the first of the points at its maturity. If the
   * second point shares that maturity, it is the next of them.
   */
  lemma PointsAtShortest<Num>(r: seq<EttjRate<Num>>)
    requires |r| >= 2
    ensures var ties := PointsAt(r, r[0].businessDays);
      && |ties| >= 1 && ties[0] == r[0]
      && (r[1].businessDays == r[0].businessDays ==> |ties| >= 2 && ties[1] == r[1])
  {
  }

  /** When the second point's maturity differs from the first's, it is the first of the points at its maturity. */
  lemma PointsAtSecond<Num>(r: seq<EttjRate<Num>>)
    requires |r| >= 2 && r[1].businessDays != r[0].businessDays
    ensures var ties := PointsAt(r, r[1].businessDays);
      |ties| >= 1 && ties[0] == r[1]
  {
    assert r == [r[0]] + ([r[1]] + r[2..]);
    PointsAtCons(r[0], [r[1]] + r[2..], r[1].businessDays);
    PointsAtCons(r[1], r[2..], r[1].businessDays);
  }

  /**
   * Stability: for every business-day count, the ordered list keeps the points
   * at that count in their input order.
   */
  lemma {:induction false} OrderByStable<Num>(s: seq<EttjRate<Num>>, days: int)
    ensures PointsAt(OrderByBusinessDays(s), days) == PointsAt(s, days)
  {
    if s != [] {
      OrderByStable(s[1..], days);
      InsertPointsAt(s[0], OrderByBusinessDays(s[1..]), days);
    }
  }

  lemma {:induction false} InsertStrict<Num>(p: EttjRate<Num>, s: seq<EttjRate<Num>>)
    requires StrictlySorted(s)
    requires forall e | e in s :: e.businessDays != p.businessDays
    ensures StrictlySorted(Insert(p, s))
  {
    if s != [] && s[0].businessDays < p.businessDays {
      var rest := Insert(p, s[1..]);
      InsertAfterHead(p, s);
      InsertStrict(p, s[1..]);
      forall e | e in rest ensures s[0].businessDays < e.businessDays {
        assert e in multiset(rest);
      }
      ConsStrictlySorted(s[0], rest);
    }
  }

  /** With distinct business days the ordered list is strictly increasing. */
  lemma {:induction false} OrderByStrict<Num>(s: seq<EttjRate<Num>>)
    requires DistinctBusinessDays(s)
    ensures StrictlySorted(OrderByBusinessDays(s))
  {
    if s != [] {
      var tail := OrderByBusinessDays(s[1..]);
      OrderByStrict(s[1..]);
      forall e | e in tail ensures e.businessDays != s[0].businessDays {
        assert e in multiset(s[1..]);
      }
      InsertStrict(s[0], tail);
    }
  }

  /** Two sorted arrangements of the same points, one strictly sorted, start with the same point. */
  lemma FirstPointsAgree<Num>(x: seq<EttjRate<Num>>, y: seq<EttjRate<Num>>)
    requires StrictlySorted(x) && Sorted(y)
    requires multiset(x) == multiset(y) && x != []
    ensures y != [] && x[0] == y[0]
  {
    assert x[0] in multiset(y);
    var j :| 0 <= j < |y| && y[j] == x[0];
    assert y[0] in multiset(x);
    var i :| 0 <= i < |x| && x[i] == y[0];
    assert x[i].businessDays <= x[0].businessDays;
  }

  lemma TailsAgree<Num>(x: seq<EttjRate<Num>>, y: seq<EttjRate<Num>>)
    requires multiset(x) == multiset(y) && x != [] && y != [] && x[0] == y[0]
    ensures multiset(x[1..]) == multiset(y[1..])
  {
    assert x == [x[0]] + x[1..] && y == [y[0]] + y[1..];
    assert multiset(x[1..]) == multiset(x) - multiset{x[0]};
    assert multiset(y[1..]) == multiset(y) - multiset{y[0]};
  }

  /** A strictly sorted sequence is the only sorted arrangement of its points. */
  lemma {:induction false} SortedArrangementUnique<Num>(x: seq<EttjRate<Num>>, y: seq<EttjRate<Num>>)
    requires StrictlySorted(x) && Sorted(y)
    requires multiset(x) == multiset(y)
    ensures x == y
  {
    if x == [] {
      assert |y| == |multiset(y)| == 0;
    } else {
      FirstPointsAgree(x, y);
      TailsAgree(x, y);
      SortedArrangementUnique(x[1..], y[1..]);
      assert x == [x[0]] + x[1..] && y == [y[0]] + y[1..];
    }
  }

  /**
   * With distinct business days, the ordered list depends only on which points
   * there are, not on their input order.
   */
  lemma {:induction false} OrderByOrderIndependent<Num>(a: seq<EttjRate<Num>>, b: seq<EttjRate<Num>>)
    requires DistinctBusinessDays(a)
    requires multiset(a) == multiset(b)
    ensures OrderByBusinessDays(a) == OrderByBusinessDays(b)
  {
    OrderByStrict(a);
    SortedArrangementUnique(OrderByBusinessDays(a), OrderByBusinessDays(b));
  }
}
