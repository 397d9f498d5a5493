/** The statistics of scripts/calculate-price-analysis.py over exact reals: midrank percentile,
    interpolated percentile, their summary, and the comparison of a price with its groups. */
module PriceStatistics {
  import opened Text

  // ---------- Counting ----------

  function CountLess(v: real, xs: seq<real>): nat {
    if xs == [] then 0 else (if xs[0] < v then 1 else 0) + CountLess(v, xs[1..])
  }

  function CountEqual(v: real, xs: seq<real>): nat {
    if xs == [] then 0 else (if xs[0] == v then 1 else 0) + CountEqual(v, xs[1..])
  }

  /** `midrank_percentile`. */
  function MidrankPercentile(v: real, population: seq<real>): Option<real> {
    if population == [] then None
    else
      var less, equal := CountLess(v, population), CountEqual(v, population);
      if equal == 0 then None
      else if |population| == 1 then Some(50.0)
      else Some(100.0 * (less as real + (equal - 1) as real / 2.0) / (|population| - 1) as real)
  }

  /** Twice the midrank of a member, counted from zero. */
  function TwiceMidrank(v: real, xs: seq<real>): int { 2 * CountLess(v, xs) + CountEqual(v, xs) - 1 }

  lemma {:induction false} CountsFit(v: real, xs: seq<real>)
    ensures CountLess(v, xs) + CountEqual(v, xs) <= |xs|
    ensures CountEqual(v, xs) > 0 <==> v in xs
    decreases |xs|
  {
    if xs != [] { CountsFit(v, xs[1..]); }
  }

  lemma {:induction false} CountLessBetween(v: real, w: real, xs: seq<real>)
    requires v < w
    ensures CountLess(v, xs) + CountEqual(v, xs) <= CountLess(w, xs)
    decreases |xs|
  {
    if xs != [] { CountLessBetween(v, w, xs[1..]); }
  }

  /** A member's percentile in terms of its midrank, without the division. */
  lemma {:induction false} PercentileOfMember(v: real, xs: seq<real>)
    requires v in xs && |xs| > 1
    ensures MidrankPercentile(v, xs).Some?
    ensures MidrankPercentile(v, xs).value * (|xs| - 1) as real == 50.0 * TwiceMidrank(v, xs) as real
    ensures 0 <= TwiceMidrank(v, xs) <= 2 * (|xs| - 1)
  {
    hide CountLess, CountEqual;
    CountsFit(v, xs);
    var n := (|xs| - 1) as real;
    var top := 100.0 * (CountLess(v, xs) as real + (CountEqual(v, xs) - 1) as real / 2.0);
    assert top / n * n == top;
    assert top == 50.0 * TwiceMidrank(v, xs) as real;
  }

  lemma {:induction false} Cancel(a: real, b: real, n: real)
    requires n > 0.0
    ensures a < b <==> a * n < b * n
    ensures a == b <==> a * n == b * n
  {
    if a < b { assert (b - a) * n > 0.0; } else if b < a { assert (a - b) * n > 0.0; }
  }

  lemma {:induction false} ScaledRange(p: real, n: int, t: int)
    requires n > 0 && p * n as real == 50.0 * t as real && 0 <= t <= 2 * n
    ensures 0.0 <= p <= 100.0
  {
    var m := n as real;
    assert t as real <= 2.0 * m;
    if p < 0.0 { Cancel(p, 0.0, m); }
    if p > 100.0 { Cancel(100.0, p, m); }
  }

  /** The percentile exists exactly for members, and lies between 0 and 100. */
  lemma {:induction false} PercentileInRange(v: real, xs: seq<real>)
    ensures MidrankPercentile(v, xs).Some? <==> v in xs
    ensures v in xs ==> 0.0 <= MidrankPercentile(v, xs).value <= 100.0
  {
    hide CountLess, CountEqual, TwiceMidrank;
    CountsFit(v, xs);
    if v in xs && |xs| > 1 {
      hide MidrankPercentile;
      PercentileOfMember(v, xs);
      ScaledRange(MidrankPercentile(v, xs).value, |xs| - 1, TwiceMidrank(v, xs));
    }
  }

  lemma {:induction false} TwoMembers(v: real, w: real, xs: seq<real>)
    requires v in xs && w in xs && v != w
    ensures |xs| > 1
  {
  }

  lemma {:induction false} MidrankIncreases(v: real, w: real, xs: seq<real>)
    requires v in xs && w in xs && v < w
    ensures TwiceMidrank(v, xs) < TwiceMidrank(w, xs)
  {
    hide CountLess, CountEqual;
    CountLessBetween(v, w, xs);
    CountsFit(v, xs);
    CountsFit(w, xs);
  }

  /** A larger member has a larger percentile. */
  lemma {:induction false} PercentileIncreases(v: real, w: real, xs: seq<real>)
    requires v in xs && w in xs && v < w
    ensures MidrankPercentile(v, xs).Some? && MidrankPercentile(w, xs).Some?
    ensures MidrankPercentile(v, xs).value < MidrankPercentile(w, xs).value
  {
    hide MidrankPercentile, TwiceMidrank;
    TwoMembers(v, w, xs);
    PercentileOfMember(v, xs);
    PercentileOfMember(w, xs);
    MidrankIncreases(v, w, xs);
    Cancel(MidrankPercentile(v, xs).value, MidrankPercentile(w, xs).value, (|xs| - 1) as real);
  }

  predicate Lowest(v: real, xs: seq<real>) { CountEqual(v, xs) == 1 && forall i :: 0 <= i < |xs| ==> v <= xs[i] }

  predicate Highest(v: real, xs: seq<real>) { CountEqual(v, xs) == 1 && forall i :: 0 <= i < |xs| ==> xs[i] <= v }

  lemma {:induction false} NothingLess(v: real, xs: seq<real>)
    ensures CountLess(v, xs) == 0 <==> forall i :: 0 <= i < |xs| ==> v <= xs[i]
    decreases |xs|
  {
    if xs != [] {
      NothingLess(v, xs[1..]);
      if forall i :: 0 <= i < |xs[1..]| ==> v <= xs[1..][i] {
        forall i | 1 <= i < |xs| ensures v <= xs[i] { assert xs[i] == xs[1..][i - 1]; }
      }
    }
  }

  lemma {:induction false} AllAccounted(v: real, xs: seq<real>)
    ensures CountLess(v, xs) + CountEqual(v, xs) == |xs| <==> forall i :: 0 <= i < |xs| ==> xs[i] <= v
    decreases |xs|
  {
    if xs != [] {
      AllAccounted(v, xs[1..]);
      CountsFit(v, xs[1..]);
      if forall i :: 0 <= i < |xs[1..]| ==> xs[1..][i] <= v {
        forall i | 1 <= i < |xs| ensures xs[i] <= v { assert xs[i] == xs[1..][i - 1]; }
      }
    }
  }

  /** Among several, exactly the unique minimum is at 0 and exactly the unique maximum at 100. */
  lemma {:induction false} PercentileEnds(v: real, xs: seq<real>)
    requires v in xs && |xs| > 1
    ensures MidrankPercentile(v, xs).Some?
    ensures MidrankPercentile(v, xs).value == 0.0 <==> Lowest(v, xs)
    ensures MidrankPercentile(v, xs).value == 100.0 <==> Highest(v, xs)
  {
    hide CountLess, CountEqual, MidrankPercentile;
    PercentileOfMember(v, xs);
    CountsFit(v, xs);
    NothingLess(v, xs);
    AllAccounted(v, xs);
    var p, n := MidrankPercentile(v, xs).value, (|xs| - 1) as real;
    Cancel(p, 0.0, n);
    Cancel(p, 100.0, n);
    assert CountLess(v, xs) + CountEqual(v, xs) <= |xs|;
    assert p == 0.0 <==> TwiceMidrank(v, xs) == 0;
    assert p == 100.0 <==> TwiceMidrank(v, xs) == 2 * (|xs| - 1);
  }

  // ---------- Double counting ----------

  /** 2 for a win, 1 for a tie. */
  function Score(x: real, y: real): nat { if y < x then 2 else if y == x then 1 else 0 }

  function Against(x: real, ys: seq<real>): nat { if ys == [] then 0 else Score(x, ys[0]) + Against(x, ys[1..]) }

  function Column(xs: seq<real>, y: real): nat { if xs == [] then 0 else Score(xs[0], y) + Column(xs[1..], y) }

  function Total(xs: seq<real>, ys: seq<real>): nat { if xs == [] then 0 else Against(xs[0], ys) + Total(xs[1..], ys) }

  lemma {:induction false} AgainstCounts(x: real, ys: seq<real>)
    ensures Against(x, ys) == 2 * CountLess(x, ys) + CountEqual(x, ys)
    decreases |ys|
  {
    if ys != [] { AgainstCounts(x, ys[1..]); }
  }

  lemma {:induction false} MatchesCount(x: real, ys: seq<real>)
    ensures Against(x, ys) + Column(ys, x) == 2 * |ys|
    decreases |ys|
  {
    if ys != [] { MatchesCount(x, ys[1..]); }
  }

  lemma {:induction false} TotalAddsColumn(xs: seq<real>, ys: seq<real>)
    requires ys != []
    ensures Total(xs, ys) == Column(xs, ys[0]) + Total(xs, ys[1..])
    decreases |xs|
  {
    if xs != [] { TotalAddsColumn(xs[1..], ys); }
  }

  /** Every pair is counted twice in the double sum. */
  lemma {:induction false} TotalIsSquare(xs: seq<real>)
    ensures Total(xs, xs) == |xs| * |xs|
    decreases |xs|
  {
    if xs != [] {
      var x, rest := xs[0], xs[1..];
      TotalAddsColumn(rest, xs);
      MatchesCount(x, rest);
      TotalIsSquare(rest);
      assert Against(x, xs) == 1 + Against(x, rest);
      assert |xs| * |xs| == (|rest| + 1) * (|rest| + 1) == |rest| * |rest| + 2 * |rest| + 1;
    }
  }

  function SumTwiceMidranks(xs: seq<real>, population: seq<real>): int {
    if xs == [] then 0 else TwiceMidrank(xs[0], population) + SumTwiceMidranks(xs[1..], population)
  }

  lemma {:induction false} SumIsTotal(xs: seq<real>, population: seq<real>)
    ensures SumTwiceMidranks(xs, population) == Total(xs, population) - |xs|
    decreases |xs|
  {
    if xs != [] {
      AgainstCounts(xs[0], population);
      SumIsTotal(xs[1..], population);
    }
  }

  /** The midranks of the members of a population of size n sum to n(n-1)/2. */
  lemma {:induction false} MidranksSum(xs: seq<real>)
    ensures SumTwiceMidranks(xs, xs) == |xs| * (|xs| - 1)
  {
    hide TwiceMidrank, Total;
    SumIsTotal(xs, xs);
    TotalIsSquare(xs);
    assert |xs| * |xs| - |xs| == |xs| * (|xs| - 1);
  }

  predicate Members(xs: seq<real>, population: seq<real>) { forall i :: 0 <= i < |xs| ==> xs[i] in population }

  function SumPercentiles(xs: seq<real>, population: seq<real>): real
    requires Members(xs, population)
  {
    if xs == [] then 0.0
    else
      assert xs[0] in population && forall i :: 0 <= i < |xs[1..]| ==> xs[1..][i] == xs[i + 1];
      MidrankPercentile(xs[0], population).GetOr(0.0) + SumPercentiles(xs[1..], population)
  }

  lemma {:induction false} PercentilesScale(xs: seq<real>, population: seq<real>)
    requires Members(xs, population) && |population| > 1
    ensures SumPercentiles(xs, population) * (|population| - 1) as real ==
            50.0 * SumTwiceMidranks(xs, population) as real
    decreases |xs|
  {
    hide MidrankPercentile, TwiceMidrank;
    if xs != [] {
      assert xs[0] in population && forall i :: 0 <= i < |xs[1..]| ==> xs[1..][i] == xs[i + 1];
      PercentileOfMember(xs[0], population);
      PercentilesScale(xs[1..], population);
      Distribute(MidrankPercentile(xs[0], population).value, SumPercentiles(xs[1..], population),
                 (|population| - 1) as real);
    }
  }

  lemma {:induction false} Distribute(a: real, b: real, n: real)
    ensures (a + b) * n == a * n + b * n
  {
  }

  /** The mean percentile of every population of more than one is 50. */
  lemma {:induction false} MeanPercentileIsFifty(xs: seq<real>)
    requires |xs| > 1
    ensures Members(xs, xs) && SumPercentiles(xs, xs) == 50.0 * |xs| as real
  {
    hide SumPercentiles, SumTwiceMidranks;
    assert forall i :: 0 <= i < |xs| ==> xs[i] in xs;
    PercentilesScale(xs, xs);
    MidranksSum(xs);
    var n := |xs|;
    CastProduct(n, n - 1);
    Cancel(SumPercentiles(xs, xs), 50.0 * n as real, (n - 1) as real);
  }

  lemma {:induction false} CastProduct(a: nat, b: nat)
    ensures (a * b) as real == a as real * b as real
  {
  }

  // ---------- Sorting ----------

  function Insert(x: real, xs: seq<real>): seq<real> {
    if xs == [] then [x] else if x <= xs[0] then [x] + xs else [xs[0]] + Insert(x, xs[1..])
  }

  /** `sorted`. */
  function Sort(xs: seq<real>): seq<real> { if xs == [] then [] else Insert(xs[0], Sort(xs[1..])) }

  predicate Ordered(xs: seq<real>) { forall i, j :: 0 <= i <= j < |xs| ==> xs[i] <= xs[j] }

  lemma {:induction false} InsertAdds(x: real, xs: seq<real>)
    ensures multiset(Insert(x, xs)) == multiset(xs) + multiset{x} && |Insert(x, xs)| == |xs| + 1
    decreases |xs|
  {
    if xs != [] && x > xs[0] {
      InsertAdds(x, xs[1..]);
      assert xs == [xs[0]] + xs[1..];
    }
  }

  lemma {:induction false} ConsOrdered(x: real, xs: seq<real>)
    requires Ordered(xs) && (xs == [] || x <= xs[0])
    ensures Ordered([x] + xs)
  {
    var r := [x] + xs;
    forall i, j | 0 <= i <= j < |r| ensures r[i] <= r[j] {
      if i > 0 { assert r[i] == xs[i - 1] && r[j] == xs[j - 1]; }
      else if j > 0 { assert xs[0] <= xs[j - 1] == r[j]; }
    }
  }

  lemma {:induction false} RestOrdered(xs: seq<real>)
    requires Ordered(xs) && xs != []
    ensures Ordered(xs[1..]) && (|xs| > 1 ==> xs[0] <= xs[1..][0])
  {
    var rest := xs[1..];
    forall i, j | 0 <= i <= j < |rest| ensures rest[i] <= rest[j] { assert xs[i + 1] <= xs[j + 1]; }
  }

  lemma {:induction false} InsertOrdered(x: real, xs: seq<real>)
    requires Ordered(xs)
    ensures Ordered(Insert(x, xs)) && |Insert(x, xs)| > 0
    ensures Insert(x, xs)[0] == if xs == [] || x <= xs[0] then x else xs[0]
    decreases |xs|
  {
    hide Ordered;
    if xs == [] {
      assert Ordered([x]) by { ConsOrdered(x, xs); assert [x] + xs == [x]; }
    } else if x <= xs[0] {
      ConsOrdered(x, xs);
    } else {
      RestOrdered(xs);
      InsertOrdered(x, xs[1..]);
      ConsOrdered(xs[0], Insert(x, xs[1..]));
    }
  }

  lemma {:induction false} SortSorts(xs: seq<real>)
    ensures Ordered(Sort(xs)) && multiset(Sort(xs)) == multiset(xs) && |Sort(xs)| == |xs|
    decreases |xs|
  {
    hide Ordered, Insert;
    if xs == [] {
      assert Ordered(xs) by { EmptyOrdered(); }
    } else {
      SortSorts(xs[1..]);
      InsertOrdered(xs[0], Sort(xs[1..]));
      InsertAdds(xs[0], Sort(xs[1..]));
      assert xs == [xs[0]] + xs[1..];
    }
  }

  lemma EmptyOrdered()
    ensures Ordered([])
  {
  }

  lemma {:induction false} FirstIsLeast(a: seq<real>, x: real)
    requires Ordered(a) && x in a
    ensures a[0] <= x
  {
    var i :| 0 <= i < |a| && a[i] == x;
    assert a[0] <= a[i];
  }

  lemma {:induction false} SameFirst(a: seq<real>, b: seq<real>)
    requires Ordered(a) && Ordered(b) && a != [] && multiset(a) == multiset(b)
    ensures b != [] && a[0] == b[0]
  {
    hide Ordered;
    assert a[0] in multiset(b) && b != [];
    assert b[0] in multiset(b);
    FirstIsLeast(a, b[0]);
    FirstIsLeast(b, a[0]);
  }

  lemma {:induction false} SameRest(a: seq<real>, b: seq<real>)
    requires a != [] && b != [] && a[0] == b[0] && multiset(a) == multiset(b)
    ensures multiset(a[1..]) == multiset(b[1..])
  {
    assert a == [a[0]] + a[1..] && b == [b[0]] + b[1..];
    assert multiset(a) == multiset{a[0]} + multiset(a[1..]);
    assert multiset(b) == multiset{b[0]} + multiset(b[1..]);
    assert multiset(a[1..]) == multiset(a) - multiset{a[0]};
    assert multiset(b[1..]) == multiset(b) - multiset{b[0]};
  }

  lemma {:induction false} OrderedIsUnique(a: seq<real>, b: seq<real>)
    requires Ordered(a) && Ordered(b) && multiset(a) == multiset(b)
    ensures a == b
    decreases |a|
  {
    hide Ordered;
    assert |a| == |multiset(a)| == |multiset(b)| == |b|;
    if a != [] {
      SameFirst(a, b);
      SameRest(a, b);
      RestOrdered(a);
      RestOrdered(b);
      OrderedIsUnique(a[1..], b[1..]);
      assert a == [a[0]] + a[1..] && b == [b[0]] + b[1..];
    }
  }

  lemma {:induction false} SortForgetsOrder(xs: seq<real>, ys: seq<real>)
    requires multiset(xs) == multiset(ys)
    ensures Sort(xs) == Sort(ys)
  {
    SortSorts(xs);
    SortSorts(ys);
    OrderedIsUnique(Sort(xs), Sort(ys));
  }

  // ---------- Ranks ----------

  lemma {:induction false} CountsOfInsert(v: real, x: real, xs: seq<real>)
    ensures CountLess(v, Insert(x, xs)) == (if x < v then 1 else 0) + CountLess(v, xs)
    ensures CountEqual(v, Insert(x, xs)) == (if x == v then 1 else 0) + CountEqual(v, xs)
    decreases |xs|
  {
    if xs != [] {
      CountsOfInsert(v, x, xs[1..]);
      assert ([x] + xs)[1..] == xs;
      assert ([xs[0]] + Insert(x, xs[1..]))[1..] == Insert(x, xs[1..]);
    }
  }

  lemma {:induction false} CountsOfSort(v: real, xs: seq<real>)
    ensures CountLess(v, Sort(xs)) == CountLess(v, xs) && CountEqual(v, Sort(xs)) == CountEqual(v, xs)
    decreases |xs|
  {
    if xs != [] {
      CountsOfSort(v, xs[1..]);
      CountsOfInsert(v, xs[0], Sort(xs[1..]));
    }
  }

  /** The percentile depends only on which values are there, not on their order. */
  lemma {:induction false} PercentileForgetsOrder(v: real, xs: seq<real>, ys: seq<real>)
    requires multiset(xs) == multiset(ys)
    ensures MidrankPercentile(v, xs) == MidrankPercentile(v, ys)
  {
    hide CountLess, CountEqual, Sort;
    SortForgetsOrder(xs, ys);
    CountsOfSort(v, xs);
    CountsOfSort(v, ys);
    assert |xs| == |multiset(xs)| == |multiset(ys)| == |ys|;
  }

  lemma {:induction false} RanksInOrdered(v: real, xs: seq<real>, i: nat)
    requires Ordered(xs) && i < |xs|
    ensures xs[i] < v <==> i < CountLess(v, xs)
    ensures xs[i] == v <==> CountLess(v, xs) <= i < CountLess(v, xs) + CountEqual(v, xs)
    decreases |xs|
  {
    var rest := xs[1..];
    if i > 0 {
      RanksInOrdered(v, rest, i - 1);
      assert xs[0] <= xs[i] == rest[i - 1];
      if xs[0] > v { NoneAtOrBelow(v, rest); } else if xs[0] == v { NoneBelow(v, rest); }
    } else {
      if xs[0] > v { NoneAtOrBelow(v, rest); } else if xs[0] == v { NoneBelow(v, rest); }
    }
  }

  lemma {:induction false} NoneAtOrBelow(v: real, xs: seq<real>)
    requires forall i :: 0 <= i < |xs| ==> xs[i] > v
    ensures CountLess(v, xs) == 0 && CountEqual(v, xs) == 0
    decreases |xs|
  {
    if xs != [] { NoneAtOrBelow(v, xs[1..]); }
  }

  lemma {:induction false} NoneBelow(v: real, xs: seq<real>)
    requires forall i :: 0 <= i < |xs| ==> xs[i] >= v
    ensures CountLess(v, xs) == 0
    decreases |xs|
  {
    if xs != [] { NoneBelow(v, xs[1..]); }
  }

  /** Ties receive the midpoint of the ranks they occupy: in the sorted population the copies of a member
      stand exactly at the ranks first..last, and twice its midrank is first + last. */
  lemma {:induction false} MidrankIsMidpoint(v: real, xs: seq<real>)
    requires v in xs
    ensures var first, last := CountLess(v, xs), CountLess(v, xs) + CountEqual(v, xs) - 1;
            && 0 <= first <= last < |Sort(xs)| && TwiceMidrank(v, xs) == first + last
            && forall i :: 0 <= i < |Sort(xs)| ==> (Sort(xs)[i] == v <==> first <= i <= last)
  {
    hide CountLess, CountEqual, Sort;
    SortSorts(xs);
    CountsOfSort(v, xs);
    CountsFit(v, xs);
    forall i | 0 <= i < |Sort(xs)|
      ensures Sort(xs)[i] == v <==> CountLess(v, xs) <= i < CountLess(v, xs) + CountEqual(v, xs)
    {
      RanksInOrdered(v, Sort(xs), i);
    }
  }

  // ---------- Interpolated percentile ----------

  /** The point a fraction `t` of the way from `a` to `b`. */
  function Blend(a: real, b: real, t: real): real { a + (b - a) * t }

  function Interpolate(ordered: seq<real>, position: real): real
    requires ordered != [] && 0.0 <= position <= (|ordered| - 1) as real
  {
    var lower := position.Floor;
    var upper := if lower as real == position then lower else lower + 1;
    if lower == upper then ordered[lower] else Blend(ordered[lower], ordered[upper], position - lower as real)
  }

  predicate Probability(p: real) { 0.0 <= p <= 1.0 }

  lemma NonNegative(a: real, b: real)
    requires a >= 0.0 && b >= 0.0
    ensures a * b >= 0.0
  {
  }

  function Position(n: nat, p: real): (r: real)
    requires n > 0 && Probability(p)
    ensures 0.0 <= r <= (n - 1) as real
  {
    NonNegative((n - 1) as real, p);
    NonNegative((n - 1) as real, 1.0 - p);
    (n - 1) as real * p
  }

  lemma {:induction false} PositionRises(n: nat, p: real, q: real)
    requires n > 0 && Probability(p) && Probability(q) && p <= q
    ensures Position(n, p) <= Position(n, q)
  {
    NonNegative((n - 1) as real, q - p);
  }

  /** `percentile`. */
  function Percentile(values: seq<real>, p: real): real
    requires values != [] && Probability(p)
  {
    SortSorts(values);
    Interpolate(Sort(values), Position(|values|, p))
  }

  lemma {:induction false} BlendBetween(a: real, b: real, t: real)
    requires a <= b && 0.0 <= t <= 1.0
    ensures a <= Blend(a, b, t) <= b
  {
    NonNegative(b - a, t);
    NonNegative(b - a, 1.0 - t);
  }

  lemma {:induction false} BlendHalf(a: real, b: real)
    ensures Blend(a, b, 0.5) == (a + b) / 2.0
  {
  }

  lemma {:induction false} BlendRises(a: real, b: real, s: real, t: real)
    requires a <= b && s <= t
    ensures Blend(a, b, s) <= Blend(a, b, t)
  {
    NonNegative(b - a, t - s);
  }

  lemma {:induction false} InterpolateBetween(ordered: seq<real>, position: real)
    requires ordered != [] && Ordered(ordered) && 0.0 <= position <= (|ordered| - 1) as real
    ensures ordered[position.Floor] <= Interpolate(ordered, position)
    ensures position.Floor + 1 < |ordered| ==> Interpolate(ordered, position) <= ordered[position.Floor + 1]
    ensures ordered[0] <= Interpolate(ordered, position) <= ordered[|ordered| - 1]
  {
    hide Blend;
    var lower := position.Floor;
    if lower as real != position { BlendBetween(ordered[lower], ordered[lower + 1], position - lower as real); }
  }

  lemma {:induction false} InterpolateRises(ordered: seq<real>, s: real, t: real)
    requires ordered != [] && Ordered(ordered) && 0.0 <= s <= t <= (|ordered| - 1) as real
    ensures Interpolate(ordered, s) <= Interpolate(ordered, t)
  {
    hide Blend;
    InterpolateBetween(ordered, s);
    InterpolateBetween(ordered, t);
    var lower := s.Floor;
    if lower == t.Floor {
      if lower as real != s && lower as real != t {
        BlendRises(ordered[lower], ordered[lower + 1], s - lower as real, t - lower as real);
      }
    } else {
      assert lower + 1 <= t.Floor < |ordered|;
      assert ordered[lower + 1] <= ordered[t.Floor];
    }
  }

  predicate IsMinimum(m: real, values: seq<real>) { m in values && forall i :: 0 <= i < |values| ==> m <= values[i] }

  predicate IsMaximum(m: real, values: seq<real>) { m in values && forall i :: 0 <= i < |values| ==> values[i] <= m }

  lemma {:induction false} EndsOfSort(values: seq<real>)
    requires values != []
    ensures |Sort(values)| == |values| && IsMinimum(Sort(values)[0], values)
            && IsMaximum(Sort(values)[|values| - 1], values)
  {
    hide Sort;
    SortSorts(values);
    var s := Sort(values);
    assert s[0] in multiset(values) && s[|s| - 1] in multiset(values);
    forall i | 0 <= i < |values| ensures s[0] <= values[i] <= s[|s| - 1] {
      assert values[i] in multiset(s);
      var j :| 0 <= j < |s| && s[j] == values[i];
      assert s[0] <= s[j] <= s[|s| - 1];
    }
  }

  /** The percentile of every non-empty list lies between its minimum and its maximum, which it takes at the
      probabilities 0 and 1. */
  lemma {:induction false} PercentileBetween(values: seq<real>, p: real, low: real, high: real)
    requires values != [] && Probability(p) && IsMinimum(low, values) && IsMaximum(high, values)
    ensures low <= Percentile(values, p) <= high
    ensures Percentile(values, 0.0) == low && Percentile(values, 1.0) == high
  {
    hide Sort;
    SortSorts(values);
    EndsOfSort(values);
    InterpolateBetween(Sort(values), Position(|values|, p));
    assert Position(|values|, 0.0) == 0.0 && Position(|values|, 1.0) == (|values| - 1) as real;
  }

  lemma {:induction false} PercentileRises(values: seq<real>, p: real, q: real)
    requires values != [] && Probability(p) && Probability(q) && p <= q
    ensures Percentile(values, p) <= Percentile(values, q)
  {
    hide Sort, Interpolate;
    SortSorts(values);
    PositionRises(|values|, p, q);
    InterpolateRises(Sort(values), Position(|values|, p), Position(|values|, q));
  }

  lemma {:induction false} InterpolatedForgetsOrder(values: seq<real>, others: seq<real>, p: real)
    requires values != [] && multiset(values) == multiset(others) && Probability(p)
    ensures others != [] && Percentile(values, p) == Percentile(others, p)
  {
    hide Sort, Interpolate;
    assert |values| == |multiset(values)| == |multiset(others)| == |others|;
    SortForgetsOrder(values, others);
  }

  /** The median is the middle value, or the midpoint of the two middle values. */
  lemma {:induction false} MedianIsMiddle(values: seq<real>)
    requires values != []
    ensures |Sort(values)| == |values|
    ensures var s, n := Sort(values), |values|;
            if n % 2 == 1 then Percentile(values, 0.5) == s[n / 2]
            else Percentile(values, 0.5) == (s[n / 2 - 1] + s[n / 2]) / 2.0
  {
    hide Sort;
    SortSorts(values);
    var n := |values|;
    if n % 2 == 1 {
      assert Position(n, 0.5) == ((n - 1) / 2) as real;
    } else {
      assert Position(n, 0.5) == (n / 2 - 1) as real + 0.5;
      assert Position(n, 0.5).Floor == n / 2 - 1;
      BlendHalf(Sort(values)[n / 2 - 1], Sort(values)[n / 2]);
    }
  }

  // ---------- The summary of a distribution ----------

  datatype Summary = Summary(count: nat, min: real, p10: real, p25: real, median: real, mean: real, p75: real,
                             p90: real, p95: real, max: real)

  function Sum(xs: seq<real>): real { if xs == [] then 0.0 else xs[0] + Sum(xs[1..]) }

  function Least(xs: seq<real>): real
    requires xs != []
  {
    if |xs| == 1 then xs[0] else var m := Least(xs[1..]); if xs[0] <= m then xs[0] else m
  }

  function Greatest(xs: seq<real>): real
    requires xs != []
  {
    if |xs| == 1 then xs[0] else var m := Greatest(xs[1..]); if xs[0] >= m then xs[0] else m
  }

  /** `distribution` with the two outer percentiles; an empty list has no summary. */
  function Distribution(values: seq<real>): Option<Summary> {
    if values == [] then None
    else
      Some(Summary(|values|, Least(values), Percentile(values, 0.1), Percentile(values, 0.25), Percentile(values, 0.5),
                   Sum(values) / |values| as real, Percentile(values, 0.75), Percentile(values, 0.9),
                   Percentile(values, 0.95), Greatest(values)))
  }

  lemma {:induction false} LeastIsMinimum(xs: seq<real>)
    requires xs != []
    ensures IsMinimum(Least(xs), xs)
    decreases |xs|
  {
    if |xs| > 1 {
      LeastIsMinimum(xs[1..]);
      forall i | 1 <= i < |xs| ensures Least(xs) <= xs[i] { assert xs[i] == xs[1..][i - 1]; }
    }
  }

  lemma {:induction false} GreatestIsMaximum(xs: seq<real>)
    requires xs != []
    ensures IsMaximum(Greatest(xs), xs)
    decreases |xs|
  {
    if |xs| > 1 {
      GreatestIsMaximum(xs[1..]);
      forall i | 1 <= i < |xs| ensures xs[i] <= Greatest(xs) { assert xs[i] == xs[1..][i - 1]; }
    }
  }

  lemma {:induction false} SumBetween(xs: seq<real>, low: real, high: real)
    requires forall i :: 0 <= i < |xs| ==> low <= xs[i] <= high
    ensures low * |xs| as real <= Sum(xs) <= high * |xs| as real
    decreases |xs|
  {
    if xs != [] {
      SumBetween(xs[1..], low, high);
      assert |xs| as real == 1.0 + |xs[1..]| as real;
      assert low * |xs| as real == low + low * |xs[1..]| as real;
      assert high * |xs| as real == high + high * |xs[1..]| as real;
    }
  }

  lemma {:induction false} MeanBetween(sum: real, n: real, low: real, high: real)
    requires n > 0.0 && low * n <= sum <= high * n
    ensures low <= sum / n <= high
  {
    assert sum / n * n == sum;
    Cancel(sum / n, low, n);
    Cancel(high, sum / n, n);
  }

  /** The summary is in order, and the mean lies between its ends. */
  lemma {:induction false} SummaryInOrder(values: seq<real>)
    requires values != []
    ensures var d := Distribution(values).value;
            && d.min <= d.p10 <= d.p25 <= d.median <= d.p75 <= d.p90 <= d.p95 <= d.max
            && d.min <= d.mean <= d.max
  {
    hide Percentile, Least, Greatest, Sum;
    LeastIsMinimum(values);
    GreatestIsMaximum(values);
    PercentileBetween(values, 0.1, Least(values), Greatest(values));
    PercentileBetween(values, 0.95, Least(values), Greatest(values));
    PercentileRises(values, 0.1, 0.25);
    PercentileRises(values, 0.25, 0.5);
    PercentileRises(values, 0.5, 0.75);
    PercentileRises(values, 0.75, 0.9);
    PercentileRises(values, 0.9, 0.95);
    SumBetween(values, Least(values), Greatest(values));
    MeanBetween(Sum(values), |values| as real, Least(values), Greatest(values));
  }

  // ---------- Bands and groups ----------

  datatype Band = LowerRange | LowerMiddle | MiddleRange | UpperMiddle | UpperRange

  function PriceBand(position: real): Band {
    if position < 20.0 then LowerRange
    else if position < 40.0 then LowerMiddle
    else if position < 60.0 then MiddleRange
    else if position < 80.0 then UpperMiddle else UpperRange
  }

  function BandRank(b: Band): nat {
    match b
    case LowerRange => 0
    case LowerMiddle => 1
    case MiddleRange => 2
    case UpperMiddle => 3
    case UpperRange => 4
  }

  /** A dearer member is never in a lower band, and a unique cheapest and dearest are at the two ends. */
  lemma {:induction false} BandsFollowPrices(v: real, w: real, xs: seq<real>)
    requires v in xs && w in xs && |xs| > 1
    ensures MidrankPercentile(v, xs).Some? && MidrankPercentile(w, xs).Some?
    ensures var a, b := PriceBand(MidrankPercentile(v, xs).value), PriceBand(MidrankPercentile(w, xs).value);
            v <= w ==> BandRank(a) <= BandRank(b)
    ensures Lowest(v, xs) ==> PriceBand(MidrankPercentile(v, xs).value) == LowerRange
    ensures Highest(w, xs) ==> PriceBand(MidrankPercentile(w, xs).value) == UpperRange
  {
    hide MidrankPercentile, Lowest, Highest;
    PercentileInRange(v, xs);
    PercentileInRange(w, xs);
    PercentileEnds(v, xs);
    PercentileEnds(w, xs);
    if v < w { PercentileIncreases(v, w, xs); }
  }

  datatype Item = Item(available: bool, price: real, ids: seq<string>)

  /** The identifiers of an item are listed once each. */
  predicate ListedOnce(item: Item) { forall i, j :: 0 <= i < j < |item.ids| ==> item.ids[i] != item.ids[j] }

  /** The prices of the available items that list an identifier, in the order of the items. */
  function PricesOf(items: seq<Item>, id: string): seq<real> {
    if items == [] then []
    else
      var last := items[|items| - 1];
      PricesOf(items[..|items| - 1], id) + if last.available && id in last.ids then [last.price] else []
  }

  function Population(populations: map<string, seq<real>>, id: string): seq<real> {
    if id in populations then populations[id] else []
  }

  /** `group_populations`. */
  method GroupPopulations(items: seq<Item>) returns (populations: map<string, seq<real>>)
    requires forall i :: 0 <= i < |items| ==> ListedOnce(items[i])
    ensures forall id :: Population(populations, id) == PricesOf(items, id)
  {
    populations := map[];
    var k := 0;
    while k < |items|
      invariant 0 <= k <= |items|
      invariant forall id :: Population(populations, id) == PricesOf(items[..k], id)
    {
      var item := items[k];
      assert items[..k + 1][..k] == items[..k] && items[..k + 1][k] == item;
      if item.available {
        var j := 0;
        while j < |item.ids|
          invariant 0 <= j <= |item.ids|
          invariant forall id ::
                      Population(populations, id) ==
                      PricesOf(items[..k], id) + if id in item.ids[..j] then [item.price] else []
        {
          var id := item.ids[j];
          assert id !in item.ids[..j] by { assert ListedOnce(items[k]); }
          assert item.ids[..j + 1] == item.ids[..j] + [id];
          populations := populations[id := Population(populations, id) + [item.price]];
          j := j + 1;
        }
        assert item.ids[..j] == item.ids;
      }
      k := k + 1;
    }
    assert items[..k] == items;
  }

  datatype Comparison = PriceUnavailable(size: nat) | InsufficientSample(size: nat)
    | Available(size: nat, median: real, percentile: Option<real>)

  /** `comparison` before rounding. */
  function Compare(price: Option<real>, population: seq<real>, minimum: nat): Comparison
    requires minimum > 0
  {
    if price.None? then PriceUnavailable(|population|)
    else if |population| < minimum then InsufficientSample(|population|)
    else Available(|population|, Percentile(population, 0.5), MidrankPercentile(price.value, population))
  }

  lemma {:induction false} PriceIsInItsGroups(items: seq<Item>, k: nat, id: string)
    requires k < |items| && items[k].available && id in items[k].ids
    ensures items[k].price in PricesOf(items, id)
    decreases |items|
  {
    if k < |items| - 1 { PriceIsInItsGroups(items[..|items| - 1], k, id); }
  }

  /** An available item compared within a group it belongs to always has a percentile, exactly when the
      group reaches the minimum sample. */
  lemma {:induction false} OwnGroupHasPercentile(items: seq<Item>, k: nat, id: string, minimum: nat)
    requires k < |items| && items[k].available && id in items[k].ids && minimum > 0
    ensures var c := Compare(Some(items[k].price), PricesOf(items, id), minimum);
            && c.size == |PricesOf(items, id)| && (c.Available? <==> c.size >= minimum)
            && (c.Available? ==> c.percentile.Some? && 0.0 <= c.percentile.value <= 100.0)
  {
    hide MidrankPercentile, Percentile;
    PriceIsInItsGroups(items, k, id);
    PercentileInRange(items[k].price, PricesOf(items, id));
  }
}
