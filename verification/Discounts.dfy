/** Spreading an amount over weights (Spread, internal/promotions/apply.go): nobody gets more than their
    weight, and the parts add up to the last tiyin. Amounts are unbounded integers here; SpreadFitsInt64 says
    up to which sum that is what 64-bit integers do. */
module Discounts {
  import opened Sequences

  function Sum(xs: seq<int>): int { if xs == [] then 0 else Sum(Front(xs)) + Last(xs) }

  function Positive(w: int): int { if w > 0 then w else 0 }

  function SumPositive(ws: seq<int>): (r: int)
    ensures r >= 0
  {
    if ws == [] then 0 else SumPositive(Front(ws)) + Positive(Last(ws))
  }

  function CountPositive(ws: seq<int>): nat {
    if ws == [] then 0 else CountPositive(Front(ws)) + if Last(ws) > 0 then 1 else 0
  }

  function Min(a: int, b: int): int { if a <= b then a else b }

  // ----- Spreading an amount -----

  function Floors(total: int, sum: int, ws: seq<int>): (r: seq<int>)
    requires sum > 0
    ensures |r| == |ws|
  {
    if ws == [] then [] else Floors(total, sum, Front(ws)) + [FloorPart(total, Last(ws), sum)]
  }

  function FloorPart(total: int, w: int, sum: int): int
    requires sum > 0
  {
    if w <= 0 then 0 else total * w / sum
  }

  /** Has room for one more tiyin. */
  predicate Room(out: seq<int>, ws: seq<int>, i: int)
    requires |out| == |ws|
  {
    0 <= i < |ws| && ws[i] > 0 && out[i] < ws[i]
  }

  /** The heaviest of the first k with room, of several the first; -1 if there is none. */
  function Heaviest(out: seq<int>, ws: seq<int>, k: nat): (best: int)
    requires k <= |ws| && |out| == |ws|
    ensures best == -1 || Room(out, ws, best)
    ensures best == -1 ==> forall i :: 0 <= i < k ==> !Room(out, ws, i)
    ensures best < k
    ensures forall i :: 0 <= i < k && Room(out, ws, i) ==> best != -1 && (ws[i] < ws[best] || (ws[i] == ws[best] && best <= i))
  {
    if k == 0 then -1
    else
      var best := Heaviest(out, ws, k - 1);
      if Room(out, ws, k - 1) && (best == -1 || ws[k - 1] > ws[best]) then k - 1 else best
  }

  function GiveRest(out: seq<int>, ws: seq<int>, rest: int): (r: seq<int>)
    requires |out| == |ws|
    ensures |r| == |ws|
    decreases Positive(rest)
  {
    if rest <= 0 then out
    else
      var best := Heaviest(out, ws, |ws|);
      if best == -1 then out else GiveRest(out[best := out[best] + 1], ws, rest - 1)
  }

  function Zeros(n: nat): seq<int> { seq(n, i => 0) }

  function SpreadOf(total: int, ws: seq<int>): (r: seq<int>)
    ensures |r| == |ws|
  {
    var sum := SumPositive(ws);
    if sum <= 0 || total <= 0 then Zeros(|ws|)
    else Parts(Min(total, sum), sum, ws)
  }

  /** Everybody's part rounded down, and then the rest. */
  function Parts(total: int, sum: int, ws: seq<int>): (r: seq<int>)
    requires sum > 0
    ensures |r| == |ws|
  {
    var out := Floors(total, sum, ws);
    GiveRest(out, ws, total - Sum(out))
  }

  method SumWeights(weights: seq<int>) returns (sum: int)
    ensures sum == SumPositive(weights)
  {
    sum := 0;
    for i := 0 to |weights|
      invariant sum == SumPositive(weights[..i])
    {
      PrefixGrows(weights, i);
      if weights[i] > 0 {
        sum := sum + weights[i];
      }
    }
    assert weights[..|weights|] == weights;
  }

  method RoundDown(total: int, sum: int, weights: seq<int>) returns (out: seq<int>, given: int)
    requires sum > 0
    ensures out == Floors(total, sum, weights) && given == Sum(out)
  {
    out, given := [], 0;
    for i := 0 to |weights|
      invariant out == Floors(total, sum, weights[..i])
      invariant given == Sum(out)
    {
      PrefixGrows(weights, i);
      FloorsStep(total, sum, weights[..i + 1]);
      var w := weights[i];
      var part := if w <= 0 then 0 else total * w / sum;
      out := out + [part];
      given := given + part;
    }
    assert weights[..|weights|] == weights;
  }

  method FindHeaviest(out: seq<int>, weights: seq<int>) returns (best: int)
    requires |out| == |weights|
    ensures best == Heaviest(out, weights, |weights|)
  {
    best := -1;
    for i := 0 to |weights|
      invariant best == Heaviest(out, weights, i)
    {
      if weights[i] <= 0 || out[i] >= weights[i] {
        continue;
      }
      if best == -1 || weights[i] > weights[best] {
        best := i;
      }
    }
  }

  method GiveBack(parts: seq<int>, weights: seq<int>, lost: int) returns (out: seq<int>)
    requires |parts| == |weights|
    ensures out == GiveRest(parts, weights, lost)
  {
    out := parts;
    var rest := lost;
    while rest > 0
      invariant |out| == |weights|
      invariant GiveRest(out, weights, rest) == GiveRest(parts, weights, lost)
      decreases rest
    {
      var best := FindHeaviest(out, weights);
      if best == -1 {
        break;
      }
      out := out[best := out[best] + 1];
      rest := rest - 1;
    }
  }

  method SpreadParts(total: int, sum: int, weights: seq<int>) returns (out: seq<int>)
    requires sum > 0
    ensures out == Parts(total, sum, weights)
  {
    var parts, given := RoundDown(total, sum, weights);
    out := GiveBack(parts, weights, total - given);
  }

  method Spread(total: int, weights: seq<int>) returns (out: seq<int>)
    ensures out == SpreadOf(total, weights)
  {
    var sum := SumWeights(weights);
    if sum <= 0 || total <= 0 {
      return Zeros(|weights|);
    }
    out := SpreadParts(if total > sum then sum else total, sum, weights);
  }

  lemma FloorOf(total: int, w: int, sum: int)
    requires 0 < total <= sum && w > 0
    ensures 0 <= total * w / sum <= w
    ensures sum * (total * w / sum) <= total * w <= sum * (total * w / sum) + sum - 1
  {
    var p := total * w;
    assert p == sum * (p / sum) + p % sum;
    Times(total, sum, w);
    assert 0 <= p by { Times(0, total, w); }
    QuotientAtMost(p, w, sum);
  }

  lemma QuotientAtMost(p: int, w: int, sum: int)
    requires sum > 0 && 0 <= p <= sum * w
    ensures 0 <= p / sum <= w
  {
    assert p == sum * (p / sum) + p % sum;
    if p / sum >= w + 1 {
      Times(w + 1, p / sum, sum);
      assert false;
    }
  }

  lemma Times(a: int, b: int, c: int)
    requires a <= b && c >= 0
    ensures a * c <= b * c
  {
    assert (b - a) * c >= 0;
  }

  lemma {:induction false} FloorsWithin(total: int, sum: int, ws: seq<int>)
    requires 0 < total <= sum
    ensures forall i :: 0 <= i < |ws| ==> 0 <= Floors(total, sum, ws)[i] <= Positive(ws[i])
    decreases |ws|
  {
    if ws != [] {
      FloorsWithin(total, sum, Front(ws));
      if Last(ws) > 0 {
        FloorOf(total, Last(ws), sum);
      }
    }
  }

  lemma FloorsStep(total: int, sum: int, ws: seq<int>)
    requires sum > 0 && ws != []
    ensures Sum(Floors(total, sum, ws)) ==
            Sum(Floors(total, sum, Front(ws))) + if Last(ws) <= 0 then 0 else total * Last(ws) / sum
  {
    assert Front(Floors(total, sum, ws)) == Floors(total, sum, Front(ws));
  }

  /** Rounding down loses less than one tiyin per positive weight. */
  lemma {:induction false} FloorsLose(total: int, sum: int, ws: seq<int>)
    requires 0 < total <= sum
    ensures var given := Sum(Floors(total, sum, ws));
            sum * given <= total * SumPositive(ws) <= sum * given + CountPositive(ws) * (sum - 1)
    decreases |ws|
  {
    if ws != [] {
      FloorsLose(total, sum, Front(ws));
      FloorsStep(total, sum, ws);
      var given, w := Sum(Floors(total, sum, Front(ws))), Last(ws);
      if w > 0 {
        FloorOf(total, w, sum);
        AddUp(sum, given, total * w / sum);
        AddUp(total, SumPositive(Front(ws)), w);
        AddUp(sum - 1, CountPositive(Front(ws)), 1);
      }
    }
  }

  lemma AddUp(a: int, b: int, c: int)
    ensures a * (b + c) == a * b + a * c
    ensures (b + c) * a == b * a + c * a
  {
  }

  lemma {:induction false} SumAtMost(out: seq<int>, ws: seq<int>)
    requires |out| == |ws| && forall i :: 0 <= i < |ws| ==> 0 <= out[i] <= Positive(ws[i])
    ensures Sum(out) <= SumPositive(ws)
    ensures Sum(out) < SumPositive(ws) ==> exists i :: Room(out, ws, i)
    decreases |ws|
  {
    if ws != [] {
      var o, w := Front(out), Front(ws);
      SumAtMost(o, w);
      if Sum(o) < SumPositive(w) {
        var i :| Room(o, w, i);
        assert Room(out, ws, i);
      } else if Last(out) < Positive(Last(ws)) {
        assert Room(out, ws, |ws| - 1);
      }
    }
  }

  lemma {:induction false} SumUpdate(xs: seq<int>, i: nat, x: int)
    requires i < |xs|
    ensures Sum(xs[i := x]) == Sum(xs) - xs[i] + x
    decreases |xs|
  {
    if i < |xs| - 1 {
      assert Front(xs[i := x]) == Front(xs)[i := x];
      SumUpdate(Front(xs), i, x);
    } else {
      assert Front(xs[i := x]) == Front(xs);
    }
  }

  ghost predicate Within(out: seq<int>, ws: seq<int>) {
    |out| == |ws| && forall i :: 0 <= i < |ws| ==> 0 <= out[i] <= Positive(ws[i])
  }

  lemma RoomIsFound(out: seq<int>, ws: seq<int>)
    requires Within(out, ws) && Sum(out) < SumPositive(ws)
    ensures Heaviest(out, ws, |ws|) != -1
  {
    SumAtMost(out, ws);
    var i :| Room(out, ws, i);
  }

  lemma {:induction false} GiveOne(out: seq<int>, ws: seq<int>, rest: nat) returns (next: seq<int>)
    requires Within(out, ws) && rest > 0 && Sum(out) < SumPositive(ws)
    ensures Within(next, ws) && Sum(next) == Sum(out) + 1 && GiveRest(out, ws, rest) == GiveRest(next, ws, rest - 1)
  {
    RoomIsFound(out, ws);
    var best := Heaviest(out, ws, |ws|);
    next := out[best := out[best] + 1];
    assert Within(next, ws) && Sum(next) == Sum(out) + 1 by { OneTiyinMore(out, ws, best); }
    assert GiveRest(out, ws, rest) == GiveRest(next, ws, rest - 1) by { FirstGiven(out, ws, rest); }
  }

  lemma OneTiyinMore(out: seq<int>, ws: seq<int>, best: nat)
    requires Within(out, ws) && Room(out, ws, best)
    ensures Within(out[best := out[best] + 1], ws)
    ensures Sum(out[best := out[best] + 1]) == Sum(out) + 1
  {
    SumUpdate(out, best, out[best] + 1);
  }

  /** All of the rest is given as long as it fits, and nobody gets more than their weight. */
  lemma {:induction false} RestIsGiven(out: seq<int>, ws: seq<int>, rest: nat)
    requires Within(out, ws) && Sum(out) + rest <= SumPositive(ws)
    ensures Within(GiveRest(out, ws, rest), ws)
    ensures Sum(GiveRest(out, ws, rest)) == Sum(out) + rest
    decreases rest
  {
    if rest > 0 {
      var next := GiveOne(out, ws, rest);
      RestIsGiven(next, ws, rest - 1);
    }
  }

  /** The lines that a discount can be spread over. */
  function Positives(ws: seq<int>): set<nat> { set i | 0 <= i < |ws| && ws[i] > 0 }

  lemma {:induction false} CountedPositives(ws: seq<int>)
    ensures |Positives(ws)| == CountPositive(ws)
    decreases |ws|
  {
    if ws != [] {
      var before := Positives(Front(ws));
      CountedPositives(Front(ws));
      assert Positives(ws) == before + if Last(ws) > 0 then {|ws| - 1} else {};
    }
  }

  lemma {:induction false} RestFits(total: int, ws: seq<int>)
    requires 0 < total <= SumPositive(ws)
    ensures var rest := total - Sum(Floors(total, SumPositive(ws), ws)); 0 <= rest < |Positives(ws)|
  {
    CountedPositives(ws);
    var sum := SumPositive(ws);
    FloorsLose(total, sum, ws);
    SomePositive(ws);
    RestBounds(total, sum, Sum(Floors(total, sum, ws)), CountPositive(ws));
  }

  lemma RestBounds(total: int, sum: int, given: int, n: int)
    requires sum > 0 && n > 0
    requires sum * given <= total * sum <= sum * given + n * (sum - 1)
    ensures 0 <= total - given < n
  {
    if given >= total + 1 {
      Times(total + 1, given, sum);
      assert false;
    }
    if total >= given + n {
      Times(given + n, total, sum);
      AddUp(sum, given, n);
      AddUp(n, sum, -1);
      assert false;
    }
  }

  lemma {:induction false} SomePositive(ws: seq<int>)
    ensures SumPositive(ws) > 0 ==> CountPositive(ws) > 0
    decreases |ws|
  {
    if ws != [] {
      SomePositive(Front(ws));
    }
  }

  lemma {:induction false} ZerosSum(n: nat)
    ensures Sum(Zeros(n)) == 0
  {
    if n > 0 {
      assert Front(Zeros(n)) == Zeros(n - 1);
      ZerosSum(n - 1);
    }
  }

  /** The parts add up to exactly the amount, or to all that the weights allow, and none exceeds its
      weight. */
  lemma SpreadIsExact(total: int, ws: seq<int>)
    ensures Sum(SpreadOf(total, ws)) == Min(Positive(total), SumPositive(ws))
    ensures Within(SpreadOf(total, ws), ws)
  {
    var sum := SumPositive(ws);
    if sum <= 0 || total <= 0 {
      ZerosSum(|ws|);
    } else {
      SpreadSome(Min(total, sum), ws);
    }
  }

  lemma {:induction false} SpreadSome(total: int, ws: seq<int>)
    requires 0 < total <= SumPositive(ws)
    ensures Sum(SpreadOf(total, ws)) == total && Within(SpreadOf(total, ws), ws)
  {
    var out := SomeFirst(total, ws);
    RestIsGiven(out, ws, total - Sum(out));
  }

  lemma {:induction false} SomeFirst(total: int, ws: seq<int>) returns (out: seq<int>)
    requires 0 < total <= SumPositive(ws)
    ensures Within(out, ws) && Sum(out) <= total && SpreadOf(total, ws) == GiveRest(out, ws, total - Sum(out))
  {
    out := FloorsFirst(total, ws);
  }

  lemma {:induction false} FloorsFirst(total: int, ws: seq<int>) returns (out: seq<int>)
    requires 0 < total <= SumPositive(ws)
    ensures out == Floors(total, SumPositive(ws), ws)
    ensures Within(out, ws) && Sum(out) <= total && SpreadOf(total, ws) == GiveRest(out, ws, total - Sum(out))
  {
    out := Floors(total, SumPositive(ws), ws);
    RestFits(total, ws);
    FloorsWithin(total, SumPositive(ws), ws);
    SpreadSteps(total, ws);
  }

  lemma SpreadSteps(total: int, ws: seq<int>)
    requires 0 < total <= SumPositive(ws)
    ensures var out := Floors(total, SumPositive(ws), ws); SpreadOf(total, ws) == GiveRest(out, ws, total - Sum(out))
  {
  }

  lemma {:induction false} WeightWithinSum(ws: seq<int>, i: nat)
    requires i < |ws|
    ensures ws[i] <= SumPositive(ws)
    decreases |ws|
  {
    if i < |ws| - 1 {
      WeightWithinSum(Front(ws), i);
    }
  }

  /** The largest number whose square is a 64-bit integer. */
  const ROOT: int := 3_037_000_499

  /** No product overflows for any amount and any weights exactly as long as these add up to ROOT at most. */
  lemma SpreadFitsInt64(sum: nat)
    ensures sum <= ROOT <==>
            forall total: int, ws: seq<int>, i: nat :: 0 < total && SumPositive(ws) == sum && i < |ws| ==>
              Min(total, sum) * ws[i] < 0x8000_0000_0000_0000
  {
    if sum <= ROOT {
      forall total: int, ws: seq<int>, i: nat | 0 < total && SumPositive(ws) == sum && i < |ws|
        ensures Min(total, sum) * ws[i] < 0x8000_0000_0000_0000
      {
        WeightWithinSum(ws, i);
        ProductWithin(Min(total, sum), ws[i], ROOT);
      }
    } else {
      var ws := [sum];
      assert Front(ws) == [] && SumPositive(ws) == sum;
      ProductAbove(sum, ROOT + 1);
      assert Min(sum, sum) * ws[0] >= 0x8000_0000_0000_0000;
    }
  }

  lemma ProductWithin(a: int, b: int, c: int)
    requires 0 <= a <= c && b <= c
    ensures a * b <= c * c
  {
    if b >= 0 {
      Times(a, c, b);
      Times(b, c, c);
    } else {
      Times(b, 0, a);
    }
  }

  lemma ProductAbove(a: int, c: int)
    requires 0 <= c <= a
    ensures a * a >= c * c
  {
    Times(c, a, a);
    Times(c, a, c);
  }

  predicate Before(ws: seq<int>, i: nat, j: nat)
    requires i < |ws| && j < |ws|
  {
    ws[i] > ws[j] || (ws[i] == ws[j] && i < j)
  }

  lemma {:induction false} HeavierAreFull(out: seq<int>, ws: seq<int>, rest: int, i: nat, j: nat)
    requires |out| == |ws| && i < |ws| && j < |ws| && Before(ws, i, j)
    requires forall m :: 0 <= m < |ws| ==> 0 <= out[m] <= Positive(ws[m])
    ensures GiveRest(out, ws, rest)[j] > out[j] ==> GiveRest(out, ws, rest)[i] == ws[i]
    decreases Positive(rest)
  {
    if rest > 0 && Heaviest(out, ws, |ws|) != -1 {
      var best := Heaviest(out, ws, |ws|);
      var next := out[best := out[best] + 1];
      HeavierAreFull(next, ws, rest - 1, i, j);
      if best == j {
        assert !Room(out, ws, i);
        FullStaysFull(next, ws, rest - 1, i);
      }
    }
  }

  /** A line gets more than its proportional part, rounded down, only if all heavier lines are full. */
  lemma {:induction false} RestGoesToTheHeaviest(total: int, ws: seq<int>, i: nat, j: nat)
    requires 0 < total <= SumPositive(ws) && i < |ws| && j < |ws| && Before(ws, i, j)
    ensures SpreadOf(total, ws)[j] > Floors(total, SumPositive(ws), ws)[j] ==> SpreadOf(total, ws)[i] == ws[i]
  {
    var out := FloorsFirst(total, ws);
    var parts := GiveRest(out, ws, total - Sum(out));
    HeavierAreFull(out, ws, total - Sum(out), i, j);
    assert parts[j] > out[j] ==> parts[i] == ws[i];
  }

  lemma {:induction false} FullStaysFull(out: seq<int>, ws: seq<int>, rest: int, i: nat)
    requires |out| == |ws| && i < |ws| && out[i] == Positive(ws[i])
    ensures GiveRest(out, ws, rest)[i] == out[i]
    decreases Positive(rest)
  {
    if rest > 0 && Heaviest(out, ws, |ws|) != -1 {
      var best := Heaviest(out, ws, |ws|);
      FullStaysFull(out[best := out[best] + 1], ws, rest - 1, i);
    }
  }

  // ----- Are the lost tiyins shared -----

  function RoomOf(out: seq<int>, ws: seq<int>, i: nat): int
    requires |out| == |ws| && i < |ws|
  {
    Positive(ws[i]) - out[i]
  }

  /** The lines before b, from the heaviest down, that have room for exactly one tiyin. */
  function OnesBefore(out: seq<int>, ws: seq<int>, b: nat): set<int>
    requires |out| == |ws| && b < |ws|
  {
    set i | 0 <= i < |ws| && RoomOf(out, ws, i) == 1 && Before(ws, i, b)
  }

  /** No line gets more than one of the tiyins that rounding lost. */
  ghost predicate Shared(out: seq<int>, ws: seq<int>, rest: int)
    requires |out| == |ws|
  {
    forall i :: 0 <= i < |ws| ==> GiveRest(out, ws, rest)[i] <= out[i] + 1
  }

  /** The rest is used up before a line with room for two has its second turn. */
  ghost predicate UsedUp(out: seq<int>, ws: seq<int>, rest: int)
    requires |out| == |ws|
  {
    forall b :: 0 <= b < |ws| && RoomOf(out, ws, b) >= 2 ==> rest <= 1 + |OnesBefore(out, ws, b)|
  }

  lemma HeaviestIsFirst(out: seq<int>, ws: seq<int>, i: nat)
    requires Within(out, ws) && i < |ws| && RoomOf(out, ws, i) > 0
    ensures var best := Heaviest(out, ws, |ws|); best != -1 && (i == best || Before(ws, best, i))
  {
    assert Room(out, ws, i);
  }

  lemma {:induction false} PartsOnlyGrow(out: seq<int>, ws: seq<int>, rest: int, i: nat)
    requires |out| == |ws| && i < |ws|
    ensures GiveRest(out, ws, rest)[i] >= out[i]
    decreases Positive(rest)
  {
    if rest > 0 && Heaviest(out, ws, |ws|) != -1 {
      var best := Heaviest(out, ws, |ws|);
      PartsOnlyGrow(out[best := out[best] + 1], ws, rest - 1, i);
    }
  }

  lemma FirstGiven(out: seq<int>, ws: seq<int>, rest: int)
    requires |out| == |ws| && rest > 0 && Heaviest(out, ws, |ws|) != -1
    ensures var best := Heaviest(out, ws, |ws|); GiveRest(out, ws, rest) == GiveRest(out[best := out[best] + 1], ws, rest - 1)
  {
  }

  lemma {:induction false} TwoTurns(out: seq<int>, ws: seq<int>, rest: int, best: nat)
    requires Within(out, ws) && best == Heaviest(out, ws, |ws|) && RoomOf(out, ws, best) >= 2 && rest >= 2
    ensures GiveRest(out, ws, rest) == GiveRest(out[best := out[best] + 2], ws, rest - 2)
  {
    var next := out[best := out[best] + 1];
    StaysHeaviest(out, ws, best);
    assert next[best := next[best] + 1] == out[best := out[best] + 2];
    GivenTwice(out, next, ws, rest, best);
  }

  lemma {:induction false} GivenTwice(out: seq<int>, next: seq<int>, ws: seq<int>, rest: int, best: nat)
    requires |out| == |ws| && best < |ws| && rest >= 2 && next == out[best := out[best] + 1]
    requires Heaviest(out, ws, |ws|) == best && Heaviest(next, ws, |ws|) == best
    ensures GiveRest(out, ws, rest) == GiveRest(next[best := next[best] + 1], ws, rest - 2)
  {
    FirstGiven(out, ws, rest);
    FirstGiven(next, ws, rest - 1);
  }

  /** A line with room for two takes two in a row, if there are two. */
  lemma {:induction false} TwoInARow(out: seq<int>, ws: seq<int>, rest: int, best: nat)
    requires Within(out, ws) && best == Heaviest(out, ws, |ws|) && RoomOf(out, ws, best) >= 2 && rest >= 2
    ensures GiveRest(out, ws, rest)[best] >= out[best] + 2
  {
    TwoTurns(out, ws, rest, best);
    PartsOnlyGrow(out[best := out[best] + 2], ws, rest - 2, best);
  }

  lemma StaysHeaviest(out: seq<int>, ws: seq<int>, best: nat)
    requires Within(out, ws) && best == Heaviest(out, ws, |ws|) && RoomOf(out, ws, best) >= 2
    ensures Within(out[best := out[best] + 1], ws) && Heaviest(out[best := out[best] + 1], ws, |ws|) == best
  {
    var next := out[best := out[best] + 1];
    HeaviestIsFirst(next, ws, best);
    var other := Heaviest(next, ws, |ws|);
    if other != best {
      HeaviestIsFirst(out, ws, other);
    }
  }

  /** Filling the first line with room leaves the others one line less to wait for. */
  lemma OneLessBefore(out: seq<int>, ws: seq<int>, best: nat, b: nat)
    requires Within(out, ws) && best == Heaviest(out, ws, |ws|) && RoomOf(out, ws, best) == 1
    requires b < |ws| && RoomOf(out, ws, b) >= 2
    ensures |OnesBefore(out, ws, b)| == |OnesBefore(out[best := out[best] + 1], ws, b)| + 1
  {
    HeaviestIsFirst(out, ws, b);
    assert OnesBefore(out, ws, b) == OnesBefore(out[best := out[best] + 1], ws, b) + {best};
  }

  lemma {:induction false} SharedIffUsedUp(out: seq<int>, ws: seq<int>, rest: int)
    requires Within(out, ws)
    ensures Shared(out, ws, rest) <==> UsedUp(out, ws, rest)
    decreases Positive(rest)
  {
    var best := Heaviest(out, ws, |ws|);
    if rest > 0 && best != -1 {
      if RoomOf(out, ws, best) == 1 {
        FillingOne(out, ws, rest, best);
      } else if rest >= 2 {
        TwoInARow(out, ws, rest, best);
        assert OnesBefore(out, ws, best) == {} by {
          forall i | i in OnesBefore(out, ws, best) ensures false { HeaviestIsFirst(out, ws, i); }
        }
      }
    } else if best == -1 {
      forall b | 0 <= b < |ws| ensures RoomOf(out, ws, b) <= 0 { assert !Room(out, ws, b); }
    }
  }

  lemma {:induction false} SharedAfterFilling(out: seq<int>, ws: seq<int>, rest: int, best: nat)
    requires Within(out, ws) && rest > 0 && best == Heaviest(out, ws, |ws|) && RoomOf(out, ws, best) == 1
    ensures Shared(out, ws, rest) <==> Shared(out[best := out[best] + 1], ws, rest - 1)
  {
    var next := out[best := out[best] + 1];
    FirstGiven(out, ws, rest);
    FullStaysFull(next, ws, rest - 1, best);
    assert forall i :: 0 <= i < |ws| && i != best ==> next[i] == out[i];
  }

  lemma {:induction false} FillingOne(out: seq<int>, ws: seq<int>, rest: int, best: nat)
    requires Within(out, ws) && rest > 0 && best == Heaviest(out, ws, |ws|) && RoomOf(out, ws, best) == 1
    ensures Shared(out, ws, rest) <==> UsedUp(out, ws, rest)
    decreases Positive(rest), 0
  {
    var next := out[best := out[best] + 1];
    SharedIffUsedUp(next, ws, rest - 1);
    SharedAfterFilling(out, ws, rest, best);
    forall b | 0 <= b < |ws| && RoomOf(out, ws, b) >= 2
      ensures |OnesBefore(out, ws, b)| == |OnesBefore(next, ws, b)| + 1
    {
      OneLessBefore(out, ws, best, b);
    }
  }

  ghost predicate OneMoreAtMost(parts: seq<int>, floors: seq<int>) {
    |parts| == |floors| && forall i :: 0 <= i < |floors| ==> parts[i] <= floors[i] + 1
  }

  /** The tiyins that rounding loses go back one each exactly if they are used up before a line with room for
      two has its second turn: for every such line, they are at most one more than the lines before it that
      have room for just one. */
  lemma {:induction false} RestIsSharedExactly(total: int, ws: seq<int>)
    requires 0 < total <= SumPositive(ws)
    ensures var floors := Floors(total, SumPositive(ws), ws);
            OneMoreAtMost(SpreadOf(total, ws), floors) <==> UsedUp(floors, ws, total - Sum(floors))
  {
    var floors := FloorsFirst(total, ws);
    SharedParts(SpreadOf(total, ws), floors, ws, total - Sum(floors));
  }

  lemma {:induction false} SharedParts(parts: seq<int>, out: seq<int>, ws: seq<int>, rest: int)
    requires Within(out, ws) && parts == GiveRest(out, ws, rest)
    ensures OneMoreAtMost(parts, out) <==> UsedUp(out, ws, rest)
  {
    SharedIffUsedUp(out, ws, rest);
  }

  // ----- Lines of equal weight -----

  function Equal(n: nat, w: int): (r: seq<int>)
    ensures |r| == n && forall i :: 0 <= i < n ==> r[i] == w
  {
    seq(n, i => w)
  }

  lemma {:induction false} EqualSums(n: nat, w: int)
    requires w >= 0
    ensures Sum(Equal(n, w)) == n * w && SumPositive(Equal(n, w)) == n * w
  {
    if n > 0 {
      EqualSums(n - 1, w);
      assert Front(Equal(n, w)) == Equal(n - 1, w);
      AddUp(w, n - 1, 1);
    }
  }

  lemma {:induction false} EqualFloors(n: nat, w: int, total: int, sum: int)
    requires w > 0 && sum > 0
    ensures Floors(total, sum, Equal(n, w)) == Equal(n, total * w / sum)
  {
    if n > 0 {
      EqualFloors(n - 1, w, total, sum);
      assert Front(Equal(n, w)) == Equal(n - 1, w);
    }
  }

  /** Of equal lines the first one takes all it has room for: the lost tiyins are shared only if there is just
      one of them, or every line is one tiyin short of full. So of two lost tiyins over three lines of four
      the first line gets both. */
  lemma RestIsNotShared(n: nat, w: int, total: int)
    requires n > 0 && w > 0 && 0 < total <= n * w
    ensures SumPositive(Equal(n, w)) == n * w
    ensures (forall i :: 0 <= i < n ==> SpreadOf(total, Equal(n, w))[i] <= total / n + 1)
            <==> total % n <= 1 || w - total / n <= 1
  {
    EqualParts(n, w, total);
    RestIsSharedExactly(total, Equal(n, w));
    EqualRoom(n, w, total / n, total % n);
  }

  /** Equal lines have equal parts, and the rest is what division leaves. */
  lemma EqualParts(n: nat, w: int, total: int)
    requires n > 0 && w > 0 && 0 < total <= n * w
    ensures SumPositive(Equal(n, w)) == n * w > 0
    ensures Floors(total, n * w, Equal(n, w)) == Equal(n, total / n)
    ensures total - Sum(Equal(n, total / n)) == total % n
  {
    EqualSums(n, w);
    EqualPart(n, w, total);
    EqualFloors(n, w, total, n * w);
    EqualSums(n, total / n);
    DivisionLeaves(total, n);
  }

  lemma DivisionLeaves(total: int, n: nat)
    requires n > 0
    ensures total - n * (total / n) == total % n
  {
  }

  lemma EqualRoom(n: nat, w: int, part: int, rest: nat)
    requires n > 0 && w > 0
    ensures UsedUp(Equal(n, part), Equal(n, w), rest) <==> rest <= 1 || w - part <= 1
  {
    var out, ws := Equal(n, part), Equal(n, w);
    assert RoomOf(out, ws, 0) == w - part;
    if w - part >= 2 {
      forall b | 0 <= b < n ensures OnesBefore(out, ws, b) == {} {
      }
    }
  }

  lemma EqualPart(n: nat, w: int, total: int)
    requires n > 0 && w > 0 && 0 < total <= n * w
    ensures n * w > 0 && total * w / (n * w) == total / n
  {
    var q, r := total / n, total % n;
    assert total == n * q + r;
    AddUp(w, n * q, r);
    assert total * w == (n * w) * q + r * w;
    Times(r + 1, n, w);
    AddUp(w, r, 1);
    QuotientIs(total * w, n * w, q, r * w);
  }

  lemma QuotientIs(p: int, d: int, q: int, r: int)
    requires d > 0 && p == d * q + r && 0 <= r < d
    ensures p / d == q
  {
    var k := p / d;
    assert p == d * k + p % d;
    if k < q {
      Times(k + 1, q, d);
      AddUp(d, k, 1);
      assert false;
    } else if k > q {
      Times(q + 1, k, d);
      AddUp(d, q, 1);
      assert false;
    }
  }
}
