/** The discount of a cart (Apply, internal/promotions/apply.go): every line takes the best of its own
    discount and the shares of the promotions, what a promotion wins is capped, and the amounts add up.
    Amounts are unbounded integers here. What a promotion is about and when it is active is as in module
    Promotions. */
module Cart {
  import opened Sequences
  import opened Discounts
  import Promotions
  import Sorting

  datatype Kind = Percent | FixedAmount | Bogo | Bundle | FreeDelivery | Loyalty | Unknown

  /** A promotion's scope and time are in `base`. */
  datatype Promo = Promo(
    base: Promotions.Promotion,
    kind: Kind,
    unitIsAmount: bool,
    value: int,
    minOrder: int,
    maxDiscount: int,
    minPrevious: int)

  datatype CartLine = CartLine(product: string, category: string, price: int, qty: int)

  function Subtotal(l: CartLine): int { l.price * l.qty }

  function Subtotals(lines: seq<CartLine>): seq<int> {
    seq(|lines|, i requires 0 <= i < |lines| => Subtotal(lines[i]))
  }

  /** Division as Go has it. */
  function Quot(a: int, b: int): int
    requires b > 0
  {
    if a >= 0 then a / b else -(-a / b)
  }

  // ----- One promotion -----

  predicate Eligible(p: Promo, subtotal: int, previous: int, now: int) {
    && Promotions.ComputeStatus(p.base, now) == Promotions.Active
    && p.kind != FreeDelivery
    && !(p.minOrder > 0 && subtotal < p.minOrder)
    && !(p.kind == Loyalty && p.minPrevious > 0 && previous < p.minPrevious)
  }

  predicate Hit(p: Promo, l: CartLine) { Promotions.Covers(p.base, Promotions.Line(l.product, l.category)) }

  function Weights(p: Promo, lines: seq<CartLine>): seq<int> {
    seq(|lines|, i requires 0 <= i < |lines| => if Hit(p, lines[i]) then Subtotal(lines[i]) else 0)
  }

  function DiscountByUnit(p: Promo, subtotal: int): int {
    if p.kind == Percent || (p.kind != FixedAmount && !p.unitIsAmount) then Quot(subtotal * p.value, 100) else p.value
  }

  predicate Complete(p: Promo, lines: seq<CartLine>) {
    && (p.base.appliesToProducts ==>
          forall x :: x in p.base.products ==> exists i :: 0 <= i < |lines| && Hit(p, lines[i]) && lines[i].product == x)
    && (p.base.appliesToCategories ==>
          forall c :: c in p.base.categories ==> exists i :: 0 <= i < |lines| && Hit(p, lines[i]) && lines[i].category == c)
  }

  /** The promotion's share of every line, before any cap. */
  function LineDiscounts(p: Promo, lines: seq<CartLine>): (r: seq<int>)
    ensures |r| == |lines|
  {
    match p.kind
    case Bogo =>
      seq(|lines|, i requires 0 <= i < |lines| => if Hit(p, lines[i]) then Quot(lines[i].qty, 2) * lines[i].price else 0)
    case FixedAmount =>
      seq(|lines|, i requires 0 <= i < |lines| => if Hit(p, lines[i]) then Min(p.value * lines[i].qty, Subtotal(lines[i])) else 0)
    case Bundle =>
      if Complete(p, lines) then SpreadOf(DiscountByUnit(p, Sum(Weights(p, lines))), Weights(p, lines)) else Zeros(|lines|)
    case Percent => SpreadOf(DiscountByUnit(p, Sum(Weights(p, lines))), Weights(p, lines))
    case Loyalty => SpreadOf(DiscountByUnit(p, Sum(Weights(p, lines))), Weights(p, lines))
    case FreeDelivery => Zeros(|lines|)
    case Unknown => Zeros(|lines|)
  }

  /** Prices and quantities are what an order can hold. */
  predicate Ordinary(lines: seq<CartLine>) { forall i :: 0 <= i < |lines| ==> lines[i].price >= 0 && lines[i].qty >= 0 }

  lemma HalfFree(price: int, qty: int)
    requires price >= 0 && qty >= 0
    ensures Quot(qty, 2) * price <= price * qty
  {
    Times(qty / 2, qty, price);
  }

  lemma SubtotalNotNegative(l: CartLine)
    requires l.price >= 0 && l.qty >= 0
    ensures Subtotal(l) >= 0
  {
    Times(0, l.qty, l.price);
  }

  /** No line gets more than it costs, and a line that the promotion is not about gets nothing. */
  lemma ShareWithinSubtotal(p: Promo, lines: seq<CartLine>, i: nat)
    requires Ordinary(lines) && i < |lines|
    ensures LineDiscounts(p, lines)[i] <= Subtotal(lines[i])
    ensures !Hit(p, lines[i]) ==> LineDiscounts(p, lines)[i] == 0
  {
    SubtotalNotNegative(lines[i]);
    match p.kind {
      case Bogo => HalfFree(lines[i].price, lines[i].qty);
      case Bundle => SpreadWithinSubtotal(p, lines, DiscountByUnit(p, Sum(Weights(p, lines))), i);
      case Percent => SpreadWithinSubtotal(p, lines, DiscountByUnit(p, Sum(Weights(p, lines))), i);
      case Loyalty => SpreadWithinSubtotal(p, lines, DiscountByUnit(p, Sum(Weights(p, lines))), i);
      case _ =>
    }
  }

  lemma SpreadWithinSubtotal(p: Promo, lines: seq<CartLine>, total: int, i: nat)
    requires Ordinary(lines) && i < |lines|
    ensures 0 <= SpreadOf(total, Weights(p, lines))[i] <= if Hit(p, lines[i]) then Subtotal(lines[i]) else 0
  {
    SubtotalNotNegative(lines[i]);
    SpreadIsExact(total, Weights(p, lines));
    assert Weights(p, lines)[i] == if Hit(p, lines[i]) then Subtotal(lines[i]) else 0;
  }

  // ----- What a promotion is worth -----

  /** A promotion applies to a cart exactly while it runs, if it is not one for the delivery, the cart is as dear
      as it asks for, and a loyal customer has ordered as often. */
  ghost predicate Applies(p: Promo, subtotal: int, previous: int, now: int) {
    && p.base.active && p.base.startAt <= now && (p.base.indefinite || now <= p.base.endAt)
    && p.kind != FreeDelivery && (p.minOrder <= 0 || p.minOrder <= subtotal)
    && (p.kind == Loyalty ==> p.minPrevious <= 0 || p.minPrevious <= previous)
  }

  lemma EligibleExactly(p: Promo, subtotal: int, previous: int, now: int)
    ensures Eligible(p, subtotal, previous, now) <==> Applies(p, subtotal, previous, now)
  {
  }

  /** What the lines cost that the promotion is about. */
  function Eligibles(p: Promo, lines: seq<CartLine>): int {
    if lines == [] then 0
    else
      var l := lines[|lines| - 1];
      var about := p.base.appliesToOrders || (p.base.appliesToProducts && l.product in p.base.products)
                   || (p.base.appliesToCategories && l.category in p.base.categories);
      Eligibles(p, lines[..|lines| - 1]) + if about then l.qty * l.price else 0
  }

  lemma {:induction false} EligiblesAreWeights(p: Promo, lines: seq<CartLine>)
    requires Ordinary(lines)
    ensures Sum(Weights(p, lines)) == Eligibles(p, lines) == SumPositive(Weights(p, lines)) && Eligibles(p, lines) >= 0
    decreases |lines|
  {
    if lines != [] {
      EligiblesAreWeights(p, Front(lines));
      assert Front(Weights(p, lines)) == Weights(p, Front(lines));
      SubtotalNotNegative(Last(lines));
    }
  }

  /** Every product and every category that the bundle names is in the cart. */
  ghost predicate AllThere(p: Promo, lines: seq<CartLine>) {
    && (p.base.appliesToProducts ==> forall x :: x in p.base.products ==> exists i :: 0 <= i < |lines| && lines[i].product == x)
    && (p.base.appliesToCategories ==> forall c :: c in p.base.categories ==> exists i :: 0 <= i < |lines| && lines[i].category == c)
  }

  lemma CompleteExactly(p: Promo, lines: seq<CartLine>)
    ensures Complete(p, lines) <==> AllThere(p, lines)
  {
    forall x, i | 0 <= i < |lines| && x in p.base.products && p.base.appliesToProducts && lines[i].product == x
      ensures Hit(p, lines[i])
    {
    }
    forall c, i | 0 <= i < |lines| && c in p.base.categories && p.base.appliesToCategories && lines[i].category == c
      ensures Hit(p, lines[i])
    {
    }
  }

  /** The promotion is a share of the whole sum it is about (a complete bundle, loyalty, or a percentage). */
  ghost predicate OfTheSum(p: Promo, lines: seq<CartLine>) {
    p.kind == Percent || p.kind == Loyalty || (p.kind == Bundle && AllThere(p, lines))
  }

  /** Its shares add up to so many hundredths of what they are about, rounded down, or to the amount, but to no
      more than the whole and to nothing if that is negative. */
  lemma SharesAddUp(p: Promo, lines: seq<CartLine>)
    requires Ordinary(lines) && OfTheSum(p, lines)
    ensures var whole := Eligibles(p, lines);
            var worth := if p.kind == Percent || !p.unitIsAmount then (if p.value >= 0 then whole * p.value / 100 else 0) else p.value;
            Sum(LineDiscounts(p, lines)) == if worth < 0 then 0 else if worth > whole then whole else worth
  {
    var weights, whole := Weights(p, lines), Eligibles(p, lines);
    EligiblesAreWeights(p, lines);
    CompleteExactly(p, lines);
    var worth := DiscountByUnit(p, whole);
    assert LineDiscounts(p, lines) == SpreadOf(worth, weights);
    SpreadIsExact(worth, weights);
    ZerosSum(|lines|);
    if p.kind == Percent || !p.unitIsAmount {
      if p.value >= 0 {
        Discounts.Times(0, whole, p.value);
      } else {
        Discounts.Times(p.value, 0, whole);
      }
    }
  }

  /** Of an amount off, each piece of a line that the promotion is about gets it, up to the price; of one free in
      two, every second piece is free; an incomplete bundle and a free delivery take nothing off. */
  lemma SharesByPiece(p: Promo, lines: seq<CartLine>, i: nat)
    requires Ordinary(lines) && i < |lines|
    ensures var d, l := LineDiscounts(p, lines)[i], lines[i];
            && (p.kind == FixedAmount && Hit(p, l) ==> d == (if p.value <= l.price then p.value else l.price) * l.qty)
            && (p.kind == Bogo && Hit(p, l) ==> d == (l.qty - l.qty % 2) / 2 * l.price)
            && (p.kind == FreeDelivery || p.kind == Unknown || (p.kind == Bundle && !AllThere(p, lines)) ==> d == 0)
  {
    CompleteExactly(p, lines);
    var l := lines[i];
    if p.value <= l.price {
      Discounts.Times(p.value, l.price, l.qty);
    } else {
      Discounts.Times(l.price, p.value, l.qty);
    }
  }

  // ----- Every line takes its best -----

  datatype Cand = Cand(promo: Promo, perLine: seq<int>)

  /** The promotion is eligible and gives something on the cart. */
  predicate Gives(p: Promo, lines: seq<CartLine>, previous: int, now: int) {
    Eligible(p, Sum(Subtotals(lines)), previous, now) && Sum(LineDiscounts(p, lines)) > 0
  }

  ghost predicate Shaped(cands: seq<Cand>, n: nat) { forall c :: 0 <= c < |cands| ==> |cands[c].perLine| == n }

  function Cands(promos: seq<Promo>, lines: seq<CartLine>, previous: int, now: int): (r: seq<Cand>)
    ensures Shaped(r, |lines|)
  {
    if promos == [] then []
    else
      var before, p := Cands(Front(promos), lines, previous, now), Last(promos);
      if Gives(p, lines, previous, now)
      then before + [Cand(p, LineDiscounts(p, lines))] else before
  }

  /** The discount of a line and the candidate it is from; -1 if it is the line's own. */
  datatype Pick = Pick(amount: int, winner: int)

  /** The best of the line's own discount and the first k candidates; of equals the first. */
  function Choose(cands: seq<Cand>, k: nat, i: nat, base: int): (r: Pick)
    requires k <= |cands| && forall c :: 0 <= c < |cands| ==> i < |cands[c].perLine|
    ensures r.amount >= base && -1 <= r.winner < k
    ensures forall c :: 0 <= c < k ==> cands[c].perLine[i] <= r.amount
    ensures if r.winner == -1 then r.amount == base else r.amount == cands[r.winner].perLine[i] > base
  {
    if k == 0 then Pick(base, -1)
    else
      var best := Choose(cands, k - 1, i, base);
      if cands[k - 1].perLine[i] > best.amount then Pick(cands[k - 1].perLine[i], k - 1) else best
  }

  function BaseAt(baseline: seq<int>, i: nat): (r: int)
    ensures r >= 0
  {
    if i < |baseline| && baseline[i] > 0 then baseline[i] else 0
  }

  function Winners(cands: seq<Cand>, n: nat, baseline: seq<int>): seq<Pick>
    requires Shaped(cands, n)
  {
    seq(n, i requires 0 <= i < n => Choose(cands, |cands|, i, BaseAt(baseline, i)))
  }

  // ----- Caps -----

  /** What candidate c wins on each line. */
  function Won(picks: seq<Pick>, c: int): seq<int> {
    seq(|picks|, i requires 0 <= i < |picks| => if picks[i].winner == c then picks[i].amount else 0)
  }

  function Scaled(pick: Pick, c: int, part: int, base: int): Pick {
    if pick.winner != c then pick else if base >= part then Pick(base, -1) else Pick(part, c)
  }

  function CapOne(picks: seq<Pick>, c: int, limit: int, baseline: seq<int>): (r: seq<Pick>)
    ensures |r| == |picks|
  {
    if limit <= 0 || Sum(Won(picks, c)) <= limit then picks
    else
      var parts := SpreadOf(limit, Won(picks, c));
      seq(|picks|, i requires 0 <= i < |picks| => Scaled(picks[i], c, parts[i], BaseAt(baseline, i)))
  }

  function CapAll(picks: seq<Pick>, cands: seq<Cand>, k: nat, baseline: seq<int>): (r: seq<Pick>)
    requires k <= |cands|
    ensures |r| == |picks|
  {
    if k == 0 then picks
    else CapOne(CapAll(picks, cands, k - 1, baseline), k - 1, cands[k - 1].promo.maxDiscount, baseline)
  }

  /** A line keeps at least its own discount; more it has from one candidate, and at most its share. */
  predicate Fair(pick: Pick, cands: seq<Cand>, i: nat, base: int)
    requires forall c :: 0 <= c < |cands| ==> i < |cands[c].perLine|
  {
    if pick.winner == -1 then pick.amount == base
    else 0 <= pick.winner < |cands| && base < pick.amount <= cands[pick.winner].perLine[i]
  }

  ghost predicate AllFair(picks: seq<Pick>, cands: seq<Cand>, baseline: seq<int>) {
    && Shaped(cands, |picks|)
    && forall i :: 0 <= i < |picks| ==> Fair(picks[i], cands, i, BaseAt(baseline, i))
  }

  lemma WinnersAreFair(cands: seq<Cand>, n: nat, baseline: seq<int>)
    requires Shaped(cands, n)
    ensures AllFair(Winners(cands, n, baseline), cands, baseline)
  {
  }

  lemma PartsWithinWon(picks: seq<Pick>, c: int, limit: int, cands: seq<Cand>, baseline: seq<int>, i: nat)
    requires AllFair(picks, cands, baseline) && i < |picks| && picks[i].winner == c
    ensures 0 <= SpreadOf(limit, Won(picks, c))[i] <= Positive(picks[i].amount)
  {
    SpreadIsExact(limit, Won(picks, c));
    assert Won(picks, c)[i] == picks[i].amount;
  }

  lemma CapOneKeepsFair(picks: seq<Pick>, c: nat, limit: int, cands: seq<Cand>, baseline: seq<int>)
    requires AllFair(picks, cands, baseline) && c < |cands|
    ensures AllFair(CapOne(picks, c, limit, baseline), cands, baseline)
  {
    var r := CapOne(picks, c, limit, baseline);
    forall i | 0 <= i < |picks| ensures Fair(r[i], cands, i, BaseAt(baseline, i)) {
      if picks[i].winner == c {
        PartsWithinWon(picks, c, limit, cands, baseline, i);
      }
    }
  }

  lemma {:induction false} SumMonotone(a: seq<int>, b: seq<int>)
    requires |a| == |b| && forall i :: 0 <= i < |a| ==> a[i] <= b[i]
    ensures Sum(a) <= Sum(b)
    decreases |a|
  {
    if a != [] {
      SumMonotone(Front(a), Front(b));
    }
  }

  /** The one that is capped wins at most its limit, and the others what they won before. */
  lemma CapOneHolds(picks: seq<Pick>, c: nat, limit: int, cands: seq<Cand>, baseline: seq<int>)
    requires AllFair(picks, cands, baseline) && c < |cands| && limit > 0
    ensures Sum(Won(CapOne(picks, c, limit, baseline), c)) <= limit
  {
    if Sum(Won(picks, c)) > limit {
      var won, parts := Won(CapOne(picks, c, limit, baseline), c), SpreadOf(limit, Won(picks, c));
      SpreadIsExact(limit, Won(picks, c));
      SumMonotone(won, parts);
    }
  }

  /** And exactly its limit, if it was over it and loses no line to the line's own discount. */
  lemma CapIsUsedUp(picks: seq<Pick>, c: nat, limit: int, cands: seq<Cand>, baseline: seq<int>)
    requires AllFair(picks, cands, baseline) && c < |cands| && 0 < limit < Sum(Won(picks, c))
    requires forall i :: 0 <= i < |picks| && picks[i].winner == c ==> CapOne(picks, c, limit, baseline)[i].winner == c
    ensures Sum(Won(CapOne(picks, c, limit, baseline), c)) == limit
  {
    var was := Won(picks, c);
    SpreadIsExact(limit, was);
    AtMostPositive(was);
    assert forall i :: 0 <= i < |picks| && picks[i].winner != c ==> SpreadOf(limit, was)[i] == 0;
    assert Won(CapOne(picks, c, limit, baseline), c) == SpreadOf(limit, was);
  }

  lemma {:induction false} AtMostPositive(ws: seq<int>)
    ensures Sum(ws) <= SumPositive(ws)
    decreases |ws|
  {
    if ws != [] {
      AtMostPositive(Front(ws));
    }
  }

  lemma CapOneSparesOthers(picks: seq<Pick>, c: nat, limit: int, baseline: seq<int>, d: nat)
    requires d != c
    ensures Won(CapOne(picks, c, limit, baseline), d) == Won(picks, d)
  {
  }

  /** None of the first k candidates wins more than its limit. */
  ghost predicate Held(picks: seq<Pick>, cands: seq<Cand>, k: nat)
    requires k <= |cands|
  {
    forall c :: 0 <= c < k && cands[c].promo.maxDiscount > 0 ==> Sum(Won(picks, c)) <= cands[c].promo.maxDiscount
  }

  lemma {:induction false} CapsKeepFair(picks: seq<Pick>, cands: seq<Cand>, k: nat, baseline: seq<int>)
    requires AllFair(picks, cands, baseline) && k <= |cands|
    ensures AllFair(CapAll(picks, cands, k, baseline), cands, baseline)
    decreases k
  {
    if k > 0 {
      CapsKeepFair(picks, cands, k - 1, baseline);
      CapStepKeepsFair(CapAll(picks, cands, k - 1, baseline), picks, cands, k - 1, baseline);
    }
  }

  lemma CapStepKeepsFair(before: seq<Pick>, picks: seq<Pick>, cands: seq<Cand>, k: nat, baseline: seq<int>)
    requires k < |cands| && before == CapAll(picks, cands, k, baseline) && AllFair(before, cands, baseline)
    ensures AllFair(CapAll(picks, cands, k + 1, baseline), cands, baseline)
  {
    CapOneKeepsFair(before, k, cands[k].promo.maxDiscount, cands, baseline);
    assert CapAll(picks, cands, k + 1, baseline) == CapOne(before, k, cands[k].promo.maxDiscount, baseline);
  }

  /** Later caps take nothing from a candidate that was capped before. */
  lemma {:induction false} CapStays(picks: seq<Pick>, cands: seq<Cand>, k: nat, baseline: seq<int>, c: nat)
    requires c < k <= |cands|
    ensures Won(CapAll(picks, cands, k, baseline), c) == Won(CapAll(picks, cands, c + 1, baseline), c)
    decreases k
  {
    if c < k - 1 {
      CapStays(picks, cands, k - 1, baseline, c);
      CapOneSparesOthers(CapAll(picks, cands, k - 1, baseline), k - 1, cands[k - 1].promo.maxDiscount, baseline, c);
    }
  }

  lemma CapHolds(picks: seq<Pick>, cands: seq<Cand>, k: nat, baseline: seq<int>, c: nat)
    requires AllFair(picks, cands, baseline) && c < k <= |cands| && cands[c].promo.maxDiscount > 0
    ensures Sum(Won(CapAll(picks, cands, k, baseline), c)) <= cands[c].promo.maxDiscount
  {
    CapsKeepFair(picks, cands, c, baseline);
    CapOneHolds(CapAll(picks, cands, c, baseline), c, cands[c].promo.maxDiscount, cands, baseline);
    CapStays(picks, cands, k, baseline, c);
  }

  lemma CapsHold(picks: seq<Pick>, cands: seq<Cand>, k: nat, baseline: seq<int>)
    requires AllFair(picks, cands, baseline) && k <= |cands|
    ensures Held(CapAll(picks, cands, k, baseline), cands, k)
  {
    forall c | 0 <= c < k && cands[c].promo.maxDiscount > 0
      ensures Sum(Won(CapAll(picks, cands, k, baseline), c)) <= cands[c].promo.maxDiscount
    {
      CapHolds(picks, cands, k, baseline, c);
    }
  }

  /** A candidate that is not over its limit keeps all it won. */
  lemma {:induction false} UncappedKeepAll(picks: seq<Pick>, cands: seq<Cand>, k: nat, baseline: seq<int>, i: nat)
    requires k <= |cands| && i < |picks| && 0 <= picks[i].winner < |cands|
    requires var c := picks[i].winner; cands[c].promo.maxDiscount <= 0 || Sum(Won(picks, c)) <= cands[c].promo.maxDiscount
    ensures CapAll(picks, cands, k, baseline)[i] == picks[i]
    ensures Won(CapAll(picks, cands, k, baseline), picks[i].winner) == Won(picks, picks[i].winner)
    decreases k
  {
    if k > 0 {
      var before, c := CapAll(picks, cands, k - 1, baseline), picks[i].winner;
      UncappedKeepAll(picks, cands, k - 1, baseline, i);
      assert before[i] == picks[i] && Won(before, c) == Won(picks, c);
      if c != k - 1 {
        CapOneSparesOthers(before, k - 1, cands[k - 1].promo.maxDiscount, baseline, c);
        assert Won(CapAll(picks, cands, k, baseline), c) == Won(before, c);
      } else {
        assert CapAll(picks, cands, k, baseline) == before;
      }
    }
  }

  // ----- Totals -----

  function Amounts(picks: seq<Pick>): seq<int> { seq(|picks|, i requires 0 <= i < |picks| => picks[i].amount) }

  /** What the first k candidates win on each line. */
  function WonBelow(picks: seq<Pick>, k: int): seq<int> {
    seq(|picks|, i requires 0 <= i < |picks| => if 0 <= picks[i].winner < k then picks[i].amount else 0)
  }

  datatype Applied = Applied(promo: Promo, amount: int)

  /** The first k candidates that contribute something. */
  function Contributions(picks: seq<Pick>, cands: seq<Cand>, k: nat): seq<Applied>
    requires k <= |cands|
  {
    if k == 0 then []
    else
      var before, amount := Contributions(picks, cands, k - 1), Sum(Won(picks, k - 1));
      if amount > 0 then before + [Applied(cands[k - 1].promo, amount)] else before
  }

  predicate More(a: Applied, b: Applied) { a.amount > b.amount }

  datatype Total = Total(lines: seq<int>, discount: int, promotion: int, promos: seq<Applied>)

  function TotalOf(picks: seq<Pick>, cands: seq<Cand>): Total {
    Total(Amounts(picks), Sum(Amounts(picks)), Sum(WonBelow(picks, |cands|)),
          Sorting.SortStable(Contributions(picks, cands, |cands|), More))
  }

  function SumApplied(xs: seq<Applied>): int { if xs == [] then 0 else xs[0].amount + SumApplied(xs[1..]) }

  lemma {:induction false} SumAppliedMore(xs: seq<Applied>, x: Applied)
    ensures SumApplied(xs + [x]) == SumApplied(xs) + x.amount
  {
    if xs == [] {
      assert xs + [x] == [x];
    } else {
      assert (xs + [x])[1..] == xs[1..] + [x];
      SumAppliedMore(xs[1..], x);
    }
  }

  lemma {:induction false} SumInsert(x: Applied, xs: seq<Applied>)
    ensures SumApplied(Sorting.Insert(x, xs, More)) == x.amount + SumApplied(xs)
  {
    if xs != [] && More(xs[0], x) {
      SumInsert(x, xs[1..]);
    }
  }

  lemma {:induction false} SumSorted(xs: seq<Applied>)
    ensures SumApplied(Sorting.SortStable(xs, More)) == SumApplied(xs)
  {
    if xs != [] {
      SumSorted(xs[1..]);
      SumInsert(xs[0], Sorting.SortStable(xs[1..], More));
    }
  }

  lemma {:induction false} SumAdd(a: seq<int>, b: seq<int>, c: seq<int>)
    requires |a| == |b| == |c| && forall i :: 0 <= i < |a| ==> c[i] == a[i] + b[i]
    ensures Sum(c) == Sum(a) + Sum(b)
    decreases |a|
  {
    if a != [] {
      SumAdd(Front(a), Front(b), Front(c));
    }
  }

  lemma {:induction false} SumNotNegative(a: seq<int>)
    requires forall i :: 0 <= i < |a| ==> a[i] >= 0
    ensures Sum(a) >= 0
    decreases |a|
  {
    if a != [] {
      SumNotNegative(Front(a));
    }
  }

  lemma {:induction false} SumOfZeros(a: seq<int>)
    requires forall i :: 0 <= i < |a| ==> a[i] == 0
    ensures Sum(a) == 0
    decreases |a|
  {
    if a != [] {
      SumOfZeros(Front(a));
    }
  }

  lemma {:induction false} ContributionsAddUp(picks: seq<Pick>, cands: seq<Cand>, k: nat)
    requires k <= |cands| && forall i :: 0 <= i < |picks| ==> picks[i].amount >= 0
    ensures SumApplied(Contributions(picks, cands, k)) == Sum(WonBelow(picks, k))
    decreases k
  {
    if k == 0 {
      SumOfZeros(WonBelow(picks, 0));
    } else {
      ContributionsAddUp(picks, cands, k - 1);
      SumAdd(WonBelow(picks, k - 1), Won(picks, k - 1), WonBelow(picks, k));
      SumNotNegative(Won(picks, k - 1));
      SumAppliedMore(Contributions(picks, cands, k - 1), Applied(cands[k - 1].promo, Sum(Won(picks, k - 1))));
    }
  }

  lemma {:induction false} ContributionsAreCapped(picks: seq<Pick>, cands: seq<Cand>, k: nat)
    requires k <= |cands|
    requires Held(picks, cands, |cands|)
    ensures forall x :: x in Contributions(picks, cands, k) ==>
              x.amount > 0 && (x.promo.maxDiscount > 0 ==> x.amount <= x.promo.maxDiscount)
    decreases k
  {
    if k > 0 {
      ContributionsAreCapped(picks, cands, k - 1);
    }
  }

  lemma {:induction false} ContributionsAreCands(picks: seq<Pick>, cands: seq<Cand>, k: nat)
    requires k <= |cands|
    ensures forall x :: x in Contributions(picks, cands, k) ==> exists c :: 0 <= c < |cands| && cands[c].promo == x.promo
    decreases k
  {
    if k > 0 {
      ContributionsAreCands(picks, cands, k - 1);
    }
  }

  function Picks(promos: seq<Promo>, lines: seq<CartLine>, baseline: seq<int>, previous: int, now: int): (r: seq<Pick>)
    ensures |r| == |lines|
  {
    var cands := Cands(promos, lines, previous, now);
    CapAll(Winners(cands, |lines|, baseline), cands, |cands|, baseline)
  }

  function ApplyAll(promos: seq<Promo>, lines: seq<CartLine>, baseline: seq<int>, previous: int, now: int): Total {
    TotalOf(Picks(promos, lines, baseline, previous, now), Cands(promos, lines, previous, now))
  }

  lemma PicksAreFair(promos: seq<Promo>, lines: seq<CartLine>, baseline: seq<int>, previous: int, now: int)
    ensures var cands := Cands(promos, lines, previous, now);
            var picks := Picks(promos, lines, baseline, previous, now);
            AllFair(picks, cands, baseline) && Held(picks, cands, |cands|)
  {
    var cands := Cands(promos, lines, previous, now);
    WinnersAreFair(cands, |lines|, baseline);
    CapsKeepFair(Winners(cands, |lines|, baseline), cands, |cands|, baseline);
    CapsHold(Winners(cands, |lines|, baseline), cands, |cands|, baseline);
  }

  /** The discounts of the lines add up to the discount of the cart, the contributions of the promotions to
      the part that is from promotions; each is from a promotion that applies, and no more than its limit; the
      largest is first. */
  lemma TotalsAddUp(promos: seq<Promo>, lines: seq<CartLine>, baseline: seq<int>, previous: int, now: int)
    ensures var t := ApplyAll(promos, lines, baseline, previous, now);
            && |t.lines| == |lines|
            && Sum(t.lines) == t.discount
            && SumApplied(t.promos) == t.promotion <= t.discount
            && (forall x :: x in t.promos ==>
                  && x.promo in promos && Applies(x.promo, Sum(Subtotals(lines)), previous, now)
                  && x.amount > 0 && (x.promo.maxDiscount > 0 ==> x.amount <= x.promo.maxDiscount))
            && (forall i, j :: 0 <= i < j < |t.promos| ==> t.promos[i].amount >= t.promos[j].amount)
  {
    var cands := Cands(promos, lines, previous, now);
    var picks := Picks(promos, lines, baseline, previous, now);
    PicksAreFair(promos, lines, baseline, previous, now);
    ContributionsAddUp(picks, cands, |cands|);
    ContributionsAreCapped(picks, cands, |cands|);
    ContributionsAreCands(picks, cands, |cands|);
    CandsAreThose(promos, lines, previous, now);
    SumMonotone(WonBelow(picks, |cands|), Amounts(picks));
    ContributionsSorted(Contributions(picks, cands, |cands|));
  }

  lemma ContributionsSorted(xs: seq<Applied>)
    ensures var r := Sorting.SortStable(xs, More);
            && SumApplied(r) == SumApplied(xs)
            && (forall x :: x in r <==> x in xs)
            && (forall i, j :: 0 <= i < j < |r| ==> r[i].amount >= r[j].amount)
  {
    SumSorted(xs);
    Sorting.SortIsOrderedPermutation(xs, More);
    Sorting.SameMembers(Sorting.SortStable(xs, More), xs);
  }

  /** A line never gets less than its own discount, nor more than that or its price; and two promotions are
      never stacked on it: what exceeds its own discount is from one of them, and at most its share. */
  lemma LinesAreFair(promos: seq<Promo>, lines: seq<CartLine>, baseline: seq<int>, previous: int, now: int, i: nat)
    requires Ordinary(lines) && i < |lines|
    ensures var d := ApplyAll(promos, lines, baseline, previous, now).lines[i];
            var base := if i < |baseline| && baseline[i] > 0 then baseline[i] else 0;
            && base <= d && (d == base || d <= Subtotal(lines[i]))
            && (d > base ==> exists p :: p in promos && Applies(p, Sum(Subtotals(lines)), previous, now)
                                         && Hit(p, lines[i]) && d <= LineDiscounts(p, lines)[i])
  {
    var cands := Cands(promos, lines, previous, now);
    var pick := Picks(promos, lines, baseline, previous, now)[i];
    PicksAreFair(promos, lines, baseline, previous, now);
    CandsAreThose(promos, lines, previous, now);
    assert Fair(pick, cands, i, BaseAt(baseline, i));
    if pick.winner != -1 {
      var p := cands[pick.winner].promo;
      ShareWithinSubtotal(p, lines, i);
      assert p in promos && Hit(p, lines[i]);
    }
  }

  lemma {:induction false} CandsAreThose(promos: seq<Promo>, lines: seq<CartLine>, previous: int, now: int)
    ensures forall c :: 0 <= c < |Cands(promos, lines, previous, now)| ==>
              var cand := Cands(promos, lines, previous, now)[c];
              && cand.promo in promos && Applies(cand.promo, Sum(Subtotals(lines)), previous, now)
              && cand.perLine == LineDiscounts(cand.promo, lines)
    decreases |promos|
  {
    if promos != [] {
      CandsAreThose(Front(promos), lines, previous, now);
      assert promos == Front(promos) + [Last(promos)];
    }
  }

  lemma {:induction false} EligibleAreCands(promos: seq<Promo>, lines: seq<CartLine>, previous: int, now: int, p: Promo)
      returns (c: nat)
    requires p in promos && Gives(p, lines, previous, now)
    ensures c < |Cands(promos, lines, previous, now)| && Cands(promos, lines, previous, now)[c] == Cand(p, LineDiscounts(p, lines))
    decreases |promos|
  {
    if p == Last(promos) {
      c := |Cands(Front(promos), lines, previous, now)|;
    } else {
      assert promos == Front(promos) + [Last(promos)];
      c := EligibleAreCands(Front(promos), lines, previous, now, p);
    }
  }

  /** Without limits every line gets the very best: at least the share of every promotion that applies and gives
      anything. */
  lemma WithoutLimitsTheBest(promos: seq<Promo>, lines: seq<CartLine>, baseline: seq<int>, previous: int, now: int, i: nat, p: Promo)
    requires i < |lines| && (forall q :: q in promos ==> q.maxDiscount <= 0)
    requires p in promos && Applies(p, Sum(Subtotals(lines)), previous, now) && Sum(LineDiscounts(p, lines)) > 0
    ensures ApplyAll(promos, lines, baseline, previous, now).lines[i] >= LineDiscounts(p, lines)[i]
  {
    var cands := Cands(promos, lines, previous, now);
    var winners := Winners(cands, |lines|, baseline);
    CandsAreThose(promos, lines, previous, now);
    EligibleExactly(p, Sum(Subtotals(lines)), previous, now);
    var c := EligibleAreCands(promos, lines, previous, now, p);
    WinnersAreFair(cands, |lines|, baseline);
    assert Fair(winners[i], cands, i, BaseAt(baseline, i));
    NoLimitsNoChange(winners, cands, |cands|, baseline);
    assert cands[c].perLine[i] <= winners[i].amount;
  }

  lemma {:induction false} NoLimitsNoChange(picks: seq<Pick>, cands: seq<Cand>, k: nat, baseline: seq<int>)
    requires k <= |cands| && forall c :: 0 <= c < |cands| ==> cands[c].promo.maxDiscount <= 0
    ensures CapAll(picks, cands, k, baseline) == picks
    decreases k
  {
    if k > 0 {
      NoLimitsNoChange(picks, cands, k - 1, baseline);
    }
  }

  // ----- The loops -----

  method WeighLines(p: Promo, lines: seq<CartLine>) returns (weights: seq<int>, total: int)
    ensures weights == Weights(p, lines) && total == Sum(weights)
  {
    weights, total := [], 0;
    for i := 0 to |lines|
      invariant |weights| == i && total == Sum(weights)
      invariant forall j :: 0 <= j < i ==> weights[j] == if Hit(p, lines[j]) then Subtotal(lines[j]) else 0
    {
      var w := if Hit(p, lines[i]) then Subtotal(lines[i]) else 0;
      assert Front(weights + [w]) == weights;
      weights := weights + [w];
      total := total + w;
    }
  }

  method HaveAll(p: Promo, lines: seq<CartLine>) returns (complete: bool)
    ensures complete == Complete(p, lines)
  {
    var products: set<string>, categories: set<string> := {}, {};
    for i := 0 to |lines|
      invariant forall x :: x in products <==> exists j :: 0 <= j < i && Hit(p, lines[j]) && lines[j].product == x
      invariant forall x :: x in categories <==> exists j :: 0 <= j < i && Hit(p, lines[j]) && lines[j].category == x
    {
      if Hit(p, lines[i]) {
        products, categories := products + {lines[i].product}, categories + {lines[i].category};
      }
    }
    complete := true;
    if p.base.appliesToProducts {
      complete := forall x :: x in p.base.products ==> x in products;
    }
    if p.base.appliesToCategories {
      complete := complete && forall c :: c in p.base.categories ==> c in categories;
    }
  }

  method ShareOut(p: Promo, lines: seq<CartLine>) returns (perLine: seq<int>)
    ensures perLine == LineDiscounts(p, lines)
  {
    match p.kind {
      case Bogo =>
        perLine := [];
        for i := 0 to |lines|
          invariant |perLine| == i
          invariant forall j :: 0 <= j < i ==> perLine[j] == if Hit(p, lines[j]) then Quot(lines[j].qty, 2) * lines[j].price else 0
        {
          perLine := perLine + [if Hit(p, lines[i]) then Quot(lines[i].qty, 2) * lines[i].price else 0];
        }
      case FixedAmount =>
        perLine := [];
        for i := 0 to |lines|
          invariant |perLine| == i
          invariant forall j :: 0 <= j < i ==>
                      perLine[j] == if Hit(p, lines[j]) then Min(p.value * lines[j].qty, Subtotal(lines[j])) else 0
        {
          var d := 0;
          if Hit(p, lines[i]) {
            d := p.value * lines[i].qty;
            if d > Subtotal(lines[i]) {
              d := Subtotal(lines[i]);
            }
          }
          perLine := perLine + [d];
        }
      case Bundle =>
        var weights, total := WeighLines(p, lines);
        var complete := HaveAll(p, lines);
        if complete {
          perLine := Spread(DiscountByUnit(p, total), weights);
        } else {
          perLine := Zeros(|lines|);
        }
      case Percent =>
        var weights, total := WeighLines(p, lines);
        perLine := Spread(DiscountByUnit(p, total), weights);
      case Loyalty =>
        var weights, total := WeighLines(p, lines);
        perLine := Spread(DiscountByUnit(p, total), weights);
      case _ =>
        perLine := Zeros(|lines|);
    }
  }

  method SumOf(values: seq<int>) returns (total: int)
    ensures total == Sum(values)
  {
    total := 0;
    for i := 0 to |values|
      invariant total == Sum(values[..i])
    {
      PrefixGrows(values, i);
      total := total + values[i];
    }
    assert values[..|values|] == values;
  }

  method CollectCands(promos: seq<Promo>, lines: seq<CartLine>, previous: int, now: int) returns (cands: seq<Cand>)
    ensures cands == Cands(promos, lines, previous, now)
  {
    var subtotal := SumOf(Subtotals(lines));
    cands := [];
    for k := 0 to |promos|
      invariant cands == Cands(promos[..k], lines, previous, now)
    {
      PrefixGrows(promos, k);
      if Eligible(promos[k], subtotal, previous, now) {
        var perLine := ShareOut(promos[k], lines);
        var given := SumOf(perLine);
        if given > 0 {
          cands := cands + [Cand(promos[k], perLine)];
        }
      }
    }
    assert promos[..|promos|] == promos;
  }

  method PickBest(cands: seq<Cand>, n: nat, baseline: seq<int>) returns (picks: seq<Pick>)
    requires Shaped(cands, n)
    ensures picks == Winners(cands, n, baseline)
  {
    picks := [];
    for i := 0 to n
      invariant |picks| == i
      invariant forall j :: 0 <= j < i ==> picks[j] == Choose(cands, |cands|, j, BaseAt(baseline, j))
    {
      var winner, best := -1, BaseAt(baseline, i);
      for c := 0 to |cands|
        invariant Pick(best, winner) == Choose(cands, c, i, BaseAt(baseline, i))
      {
        if cands[c].perLine[i] > best {
          best, winner := cands[c].perLine[i], c;
        }
      }
      picks := picks + [Pick(best, winner)];
    }
  }

  method CapCandidate(before: seq<Pick>, c: nat, limit: int, baseline: seq<int>) returns (picks: seq<Pick>)
    ensures picks == CapOne(before, c, limit, baseline)
  {
    if limit <= 0 {
      return before;
    }
    var weights: seq<int>, granted := [], 0;
    for i := 0 to |before|
      invariant |weights| == i && granted == Sum(weights)
      invariant forall j :: 0 <= j < i ==> weights[j] == if before[j].winner == c then before[j].amount else 0
    {
      var w := if before[i].winner == c then before[i].amount else 0;
      assert Front(weights + [w]) == weights;
      weights := weights + [w];
      granted := granted + w;
    }
    assert weights == Won(before, c);
    if granted <= limit {
      return before;
    }
    var parts := Spread(limit, weights);
    picks := [];
    for i := 0 to |before|
      invariant |picks| == i
      invariant forall j :: 0 <= j < i ==> picks[j] == Scaled(before[j], c, parts[j], BaseAt(baseline, j))
    {
      picks := picks + [Scaled(before[i], c, parts[i], BaseAt(baseline, i))];
    }
  }

  method Apply(promos: seq<Promo>, lines: seq<CartLine>, baseline: seq<int>, previous: int, now: int) returns (t: Total)
    ensures t == ApplyAll(promos, lines, baseline, previous, now)
  {
    var cands := CollectCands(promos, lines, previous, now);
    var picks := PickBest(cands, |lines|, baseline);
    ghost var winners := picks;
    for c := 0 to |cands|
      invariant picks == CapAll(winners, cands, c, baseline)
    {
      picks := CapCandidate(picks, c, cands[c].promo.maxDiscount, baseline);
    }
    assert picks == Picks(promos, lines, baseline, previous, now);
    CandidatesWin(promos, lines, baseline, previous, now);
    var discount, promotion, perPromo := AddUpLines(picks, |cands|);
    var contributions: seq<Applied> := [];
    for c := 0 to |cands|
      invariant contributions == Contributions(picks, cands, c)
    {
      if perPromo[c] > 0 {
        contributions := contributions + [Applied(cands[c].promo, perPromo[c])];
      }
    }
    t := Total(Amounts(picks), discount, promotion, Sorting.SortStable(contributions, More));
  }

  lemma CandidatesWin(promos: seq<Promo>, lines: seq<CartLine>, baseline: seq<int>, previous: int, now: int)
    ensures var picks := Picks(promos, lines, baseline, previous, now);
            forall i :: 0 <= i < |picks| ==> picks[i].winner < |Cands(promos, lines, previous, now)|
  {
    PicksAreFair(promos, lines, baseline, previous, now);
    var picks, cands := Picks(promos, lines, baseline, previous, now), Cands(promos, lines, previous, now);
    forall i | 0 <= i < |picks| ensures picks[i].winner < |cands| {
      assert Fair(picks[i], cands, i, BaseAt(baseline, i));
    }
  }

  lemma OneMoreLine(picks: seq<Pick>, i: nat, c: int, n: nat)
    requires i < |picks|
    ensures Sum(Won(picks[..i + 1], c)) == Sum(Won(picks[..i], c)) + if picks[i].winner == c then picks[i].amount else 0
    ensures Sum(Amounts(picks[..i + 1])) == Sum(Amounts(picks[..i])) + picks[i].amount
    ensures Sum(WonBelow(picks[..i + 1], n)) ==
            Sum(WonBelow(picks[..i], n)) + if 0 <= picks[i].winner < n then picks[i].amount else 0
  {
    assert Front(Won(picks[..i + 1], c)) == Won(picks[..i], c);
    assert Front(Amounts(picks[..i + 1])) == Amounts(picks[..i]);
    assert Front(WonBelow(picks[..i + 1], n)) == WonBelow(picks[..i], n);
  }

  method AddUpLines(picks: seq<Pick>, n: nat) returns (discount: int, promotion: int, perPromo: seq<int>)
    requires forall i :: 0 <= i < |picks| ==> picks[i].winner < n
    ensures discount == Sum(Amounts(picks)) && promotion == Sum(WonBelow(picks, n))
    ensures |perPromo| == n && forall c :: 0 <= c < n ==> perPromo[c] == Sum(Won(picks, c))
  {
    discount, promotion, perPromo := 0, 0, Zeros(n);
    for i := 0 to |picks|
      invariant discount == Sum(Amounts(picks[..i])) && promotion == Sum(WonBelow(picks[..i], n))
      invariant |perPromo| == n && forall c :: 0 <= c < n ==> perPromo[c] == Sum(Won(picks[..i], c))
    {
      forall c | 0 <= c < n
        ensures Sum(Won(picks[..i + 1], c)) == Sum(Won(picks[..i], c)) + if picks[i].winner == c then picks[i].amount else 0
      {
        OneMoreLine(picks, i, c, n);
      }
      OneMoreLine(picks, i, 0, n);
      discount := discount + picks[i].amount;
      var w := picks[i].winner;
      if w >= 0 {
        perPromo := perPromo[w := perPromo[w] + picks[i].amount];
        promotion := promotion + picks[i].amount;
      }
    }
    assert picks[..|picks|] == picks;
  }
}
