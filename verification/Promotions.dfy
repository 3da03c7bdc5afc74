/** Making room for a new promotion (resolvePromotionConflicts, internal/httpapi/routes_promotions.go): of
    the other promotions that are active now, none may claim what the new one claims. */
module Promotions {
  // What a promotion covers is as eligibleIndexes in internal/promotions/apply.go has it, and when it
  // is active as ComputeStatus in internal/promotions/promotion.go.

  import opened Outcomes

  datatype Promotion = Promotion(
    id: string,
    name: string,
    active: bool,
    startAt: int,
    endAt: int,
    indefinite: bool,
    appliesToOrders: bool,
    appliesToProducts: bool,
    appliesToCategories: bool,
    products: seq<string>,
    categories: seq<string>)

  datatype Status = Paused | Scheduled | Expired | Active

  function ComputeStatus(p: Promotion, now: int): Status {
    if !p.active then Paused
    else if now < p.startAt then Scheduled
    else if !p.indefinite && now > p.endAt then Expired
    else Active
  }

  /** It is switched on, has begun, and is not past its end unless it has none. */
  predicate Runs(p: Promotion, now: int) {
    p.active && p.startAt <= now && (p.indefinite || now <= p.endAt)
  }

  lemma StatusExactly(p: Promotion, now: int)
    ensures ComputeStatus(p, now) == Active <==> Runs(p, now)
    ensures ComputeStatus(p, now) == Paused <==> !p.active
    ensures ComputeStatus(p, now) == Scheduled <==> p.active && p.startAt > now
    ensures ComputeStatus(p, now) == Expired <==> p.active && p.startAt <= now && !p.indefinite && p.endAt < now
  {
  }

  /** A line of a cart, as far as promotions look at it. */
  datatype Line = Line(product: string, category: string)

  predicate ByProduct(p: Promotion, product: string) { p.appliesToProducts && product in p.products }

  predicate ByCategory(p: Promotion, category: string) { p.appliesToCategories && category in p.categories }

  predicate Covers(p: Promotion, line: Line) {
    p.appliesToOrders || ByProduct(p, line.product) || ByCategory(p, line.category)
  }

  /** Two promotions claim the same product, the same category, or one of them everything. */
  ghost predicate Conflict(a: Promotion, b: Promotion) {
    || a.appliesToOrders || b.appliesToOrders
    || (exists x :: ByProduct(a, x) && ByProduct(b, x))
    || (exists c :: ByCategory(a, c) && ByCategory(b, c))
  }

  /** The members of the first that are not in the second, in their order. */
  function Keep(targets: seq<string>, taken: seq<string>): seq<string> {
    if targets == [] then []
    else
      var before, x := Keep(targets[..|targets| - 1], taken), targets[|targets| - 1];
      if x in taken then before else before + [x]
  }

  lemma {:induction false} KeepsTheOthers(targets: seq<string>, taken: seq<string>)
    ensures forall x :: x in Keep(targets, taken) <==> x in targets && x !in taken
    ensures Keep(targets, taken) == targets <==> forall x :: x in targets ==> x !in taken
    ensures |Keep(targets, taken)| <= |targets|
  {
    if targets != [] {
      var front, x := targets[..|targets| - 1], targets[|targets| - 1];
      KeepsTheOthers(front, taken);
      assert targets == front + [x];
      if x in taken {
        assert |Keep(targets, taken)| < |targets|;
      }
    }
  }

  // ----- One other promotion -----

  function KeptProducts(incoming: Promotion, other: Promotion): seq<string> {
    if incoming.appliesToProducts && other.appliesToProducts && other.products != [] then Keep(other.products, incoming.products)
    else other.products
  }

  function KeptCategories(incoming: Promotion, other: Promotion): seq<string> {
    if incoming.appliesToCategories && other.appliesToCategories && other.categories != []
    then Keep(other.categories, incoming.categories)
    else other.categories
  }

  predicate Considered(incoming: Promotion, other: Promotion, now: int) {
    incoming.active && other.id != incoming.id && ComputeStatus(other, now) == Active
  }

  /** What becomes of another promotion. */
  function Adapted(incoming: Promotion, other: Promotion): Promotion {
    if incoming.appliesToOrders || other.appliesToOrders then other.(active := false)
    else
      var products, categories := KeptProducts(incoming, other), KeptCategories(incoming, other);
      if products == other.products && categories == other.categories then other
      else other.(products := products, categories := categories,
                  appliesToProducts := other.appliesToProducts && products != [],
                  appliesToCategories := other.appliesToCategories && categories != [])
  }

  lemma ProductsClash(incoming: Promotion, other: Promotion)
    ensures KeptProducts(incoming, other) != other.products <==> exists x :: ByProduct(incoming, x) && ByProduct(other, x)
    ensures forall x :: x in KeptProducts(incoming, other) <==>
                        x in other.products && !(ByProduct(incoming, x) && ByProduct(other, x))
  {
    KeepsTheOthers(other.products, incoming.products);
    if x :| ByProduct(incoming, x) && ByProduct(other, x) {
      assert x in other.products && x in incoming.products;
    }
    if KeptProducts(incoming, other) != other.products {
      var x :| x in other.products && x in incoming.products;
      assert ByProduct(incoming, x) && ByProduct(other, x);
    }
  }

  lemma CategoriesClash(incoming: Promotion, other: Promotion)
    ensures KeptCategories(incoming, other) != other.categories <==> exists c :: ByCategory(incoming, c) && ByCategory(other, c)
    ensures forall c :: c in KeptCategories(incoming, other) <==>
                        c in other.categories && !(ByCategory(incoming, c) && ByCategory(other, c))
  {
    KeepsTheOthers(other.categories, incoming.categories);
    if c :| ByCategory(incoming, c) && ByCategory(other, c) {
      assert c in other.categories && c in incoming.categories;
    }
    if KeptCategories(incoming, other) != other.categories {
      var c :| c in other.categories && c in incoming.categories;
      assert ByCategory(incoming, c) && ByCategory(other, c);
    }
  }

  /** Another promotion changes exactly if it is in conflict, and is not in conflict afterwards unless it
      has stopped. */
  lemma AdaptedMeansNoConflict(incoming: Promotion, other: Promotion)
    requires other.active
    ensures Adapted(incoming, other) != other <==> Conflict(incoming, other)
    ensures Adapted(incoming, other).active ==> !Conflict(incoming, Adapted(incoming, other))
    ensures !Adapted(incoming, other).active <==> incoming.appliesToOrders || other.appliesToOrders
  {
    ProductsClash(incoming, other);
    CategoriesClash(incoming, other);
  }

  /** Of two targeted promotions the older one goes on covering every line that it covers and the new one
      does not. If both cover a line afterwards, one does it by the product and the other by the category;
      and exactly the lines of which both claim the product, or both the category, and which it does not
      claim in the other way, are no longer covered. */
  lemma AdaptedCovers(incoming: Promotion, other: Promotion, line: Line)
    requires !incoming.appliesToOrders && !other.appliesToOrders
    ensures var adapted := Adapted(incoming, other);
            && (Covers(adapted, line) ==> Covers(other, line))
            && (Covers(other, line) && !Covers(incoming, line) ==> Covers(adapted, line))
            && (Covers(adapted, line) <==>
                  || (ByProduct(other, line.product) && !ByProduct(incoming, line.product))
                  || (ByCategory(other, line.category) && !ByCategory(incoming, line.category)))
            && (Covers(adapted, line) && Covers(incoming, line) ==>
                  || (ByProduct(incoming, line.product) && ByCategory(adapted, line.category))
                  || (ByCategory(incoming, line.category) && ByProduct(adapted, line.product)))
  {
    ProductsClash(incoming, other);
    CategoriesClash(incoming, other);
  }

  /** A promotion all of whose targets are taken is reported as stopped, but it is its flags that are
      cleared: it is still active, and covers nothing. */
  lemma TakenOverButActive(incoming: Promotion, other: Promotion)
    requires !incoming.appliesToOrders && !other.appliesToOrders && other.active && Conflict(incoming, other)
    ensures var adapted := Adapted(incoming, other);
            && adapted.active
            && ((forall line :: !Covers(adapted, line)) <==> !adapted.appliesToProducts && !adapted.appliesToCategories)
  {
    AdaptedMeansNoConflict(incoming, other);
    var adapted := Adapted(incoming, other);
    if adapted.appliesToProducts {
      assert Covers(adapted, Line(adapted.products[0], ""));
    }
    if adapted.appliesToCategories {
      assert Covers(adapted, Line("", adapted.categories[0]));
    }
  }

  // ----- All of them -----

  /** The promotions of the restaurant, as a list. */
  ghost predicate Lists(existing: seq<Promotion>, rows: map<string, Promotion>) {
    && (forall i :: 0 <= i < |existing| ==> existing[i].id in rows && rows[existing[i].id] == existing[i])
    && (forall i, j :: 0 <= i < j < |existing| ==> existing[i].id != existing[j].id)
    && (forall id :: id in rows ==> exists i :: 0 <= i < |existing| && existing[i].id == id)
  }

  /** Row by row: adapted if it was considered and its save worked. */
  ghost function Resolved(rows: map<string, Promotion>, incoming: Promotion, now: int, saved: set<string>): map<string, Promotion> {
    map id | id in rows :: if Considered(incoming, rows[id], now) && id in saved then Adapted(incoming, rows[id]) else rows[id]
  }

  class PromotionsRepo {
    var rows: map<string, Promotion>

    /** Whether a save works is not up to the repository's state. */
    method Save(p: Promotion, works: bool) returns (ok: bool)
      modifies this
      ensures ok == works
      ensures rows == if works then old(rows)[p.id := p] else old(rows)
    {
      if works {
        rows := rows[p.id := p];
      }
      ok := works;
    }
  }

  method KeepOthers(targets: seq<string>, taken: seq<string>) returns (kept: seq<string>, changed: bool)
    ensures kept == Keep(targets, taken)
    ensures changed <==> kept != targets
  {
    var newSet := set x | x in taken;
    kept, changed := [], false;
    for i := 0 to |targets|
      invariant kept == Keep(targets[..i], taken)
      invariant changed <==> exists j :: 0 <= j < i && targets[j] in taken
    {
      assert targets[..i + 1][..i] == targets[..i];
      if targets[i] in newSet {
        changed := true;
      } else {
        kept := kept + [targets[i]];
      }
    }
    assert targets[..|targets|] == targets;
    KeepsTheOthers(targets, taken);
  }

  /** The part of the loop for promotions that target products or categories. */
  method Adapt(incoming: Promotion, other: Promotion) returns (adapted: Promotion, changed: bool)
    requires !incoming.appliesToOrders && !other.appliesToOrders
    ensures adapted == Adapted(incoming, other)
    ensures changed <==> adapted != other
  {
    adapted, changed := other, false;
    if incoming.appliesToProducts && other.appliesToProducts && |other.products| > 0 {
      var kept, hit := KeepOthers(other.products, incoming.products);
      adapted := adapted.(products := kept);
      changed := changed || hit;
    }
    if incoming.appliesToCategories && other.appliesToCategories && |other.categories| > 0 {
      var kept, hit := KeepOthers(other.categories, incoming.categories);
      adapted := adapted.(categories := kept);
      changed := changed || hit;
    }
    if changed {
      adapted := adapted.(appliesToProducts := adapted.appliesToProducts && |adapted.products| > 0,
                          appliesToCategories := adapted.appliesToCategories && |adapted.categories| > 0);
    }
  }

  datatype Fate = Untouched | Stopped | Adjusted

  /** What is reported about another promotion. */
  function FateOf(incoming: Promotion, other: Promotion, now: int, works: bool): Fate {
    if !Considered(incoming, other, now) || Adapted(incoming, other) == other || !works then Untouched
    else
      var adapted := Adapted(incoming, other);
      if !adapted.active || (!adapted.appliesToProducts && !adapted.appliesToCategories) then Stopped else Adjusted
  }

  function Names(existing: seq<Promotion>, incoming: Promotion, now: int, saves: string -> bool, fate: Fate): seq<string> {
    if existing == [] then []
    else
      var front, other := existing[..|existing| - 1], existing[|existing| - 1];
      var before := Names(front, incoming, now, saves, fate);
      if FateOf(incoming, other, now, saves(other.id)) == fate then before + [other.name] else before
  }

  function After(incoming: Promotion, other: Promotion, now: int, works: bool): Promotion {
    if Considered(incoming, other, now) && works then Adapted(incoming, other) else other
  }

  /** One turn of the loop. */
  method ResolveOne(repo: PromotionsRepo, other: Promotion, incoming: Promotion, now: int, works: bool) returns (fate: Fate)
    requires incoming.active && other.id in repo.rows && repo.rows[other.id] == other
    modifies repo
    ensures fate == FateOf(incoming, other, now, works)
    ensures repo.rows == old(repo.rows)[other.id := After(incoming, other, now, works)]
  {
    assert repo.rows == repo.rows[other.id := other];
    if other.id == incoming.id || !other.active || ComputeStatus(other, now) != Active {
      return Untouched;
    }
    if incoming.appliesToOrders || other.appliesToOrders {
      var ok := repo.Save(other.(active := false), works);
      return if ok then Stopped else Untouched;
    }
    var adapted, changed := Adapt(incoming, other);
    if !changed {
      return Untouched;
    }
    var ok := repo.Save(adapted, works);
    if !ok {
      return Untouched;
    }
    return if !adapted.appliesToProducts && !adapted.appliesToCategories && !adapted.appliesToOrders then Stopped else Adjusted;
  }

  ghost predicate UpTo(rows: map<string, Promotion>, was: map<string, Promotion>, existing: seq<Promotion>, i: nat,
                       incoming: Promotion, now: int, saves: string -> bool)
    requires i <= |existing|
  {
    && rows.Keys == was.Keys
    && (forall j :: 0 <= j < |existing| ==> existing[j].id in rows)
    && (forall j :: 0 <= j < i ==> rows[existing[j].id] == After(incoming, existing[j], now, saves(existing[j].id)))
    && (forall j :: i <= j < |existing| ==> rows[existing[j].id] == existing[j])
  }

  /** Reading the list may fail and so may each save. */
  method ResolveConflicts(repo: PromotionsRepo, listed: Option<seq<Promotion>>, incoming: Promotion, now: int, saves: string -> bool)
      returns (stopped: seq<string>, adjusted: seq<string>)
    requires listed.Some? ==> Lists(listed.value, repo.rows)
    modifies repo
    ensures listed == None || !incoming.active ==> repo.rows == old(repo.rows) && stopped == [] && adjusted == []
    ensures listed.Some? && incoming.active ==>
              && repo.rows == Resolved(old(repo.rows), incoming, now, set id | id in old(repo.rows) && saves(id))
              && stopped == Names(listed.value, incoming, now, saves, Stopped)
              && adjusted == Names(listed.value, incoming, now, saves, Adjusted)
  {
    stopped, adjusted := [], [];
    if !incoming.active || listed == None {
      return;
    }
    var existing := listed.value;
    for i := 0 to |existing|
      invariant UpTo(repo.rows, old(repo.rows), existing, i, incoming, now, saves)
      invariant stopped == Names(existing[..i], incoming, now, saves, Stopped)
      invariant adjusted == Names(existing[..i], incoming, now, saves, Adjusted)
    {
      var other := existing[i];
      ghost var before := repo.rows;
      var fate := ResolveOne(repo, other, incoming, now, saves(other.id));
      UpToNext(before, repo.rows, old(repo.rows), existing, i, incoming, now, saves);
      OneMoreName(existing, i, incoming, now, saves, Stopped);
      OneMoreName(existing, i, incoming, now, saves, Adjusted);
      if fate == Stopped {
        stopped := stopped + [other.name];
      } else if fate == Adjusted {
        adjusted := adjusted + [other.name];
      }
    }
    assert existing[..|existing|] == existing;
    UpToAll(repo.rows, old(repo.rows), existing, incoming, now, saves);
  }

  lemma UpToNext(rows: map<string, Promotion>, next: map<string, Promotion>, was: map<string, Promotion>,
                 existing: seq<Promotion>, i: nat, incoming: Promotion, now: int, saves: string -> bool)
    requires i < |existing| && Lists(existing, was) && UpTo(rows, was, existing, i, incoming, now, saves)
    requires next == rows[existing[i].id := After(incoming, existing[i], now, saves(existing[i].id))]
    ensures UpTo(next, was, existing, i + 1, incoming, now, saves)
  {
    forall j | 0 <= j < |existing|
      ensures existing[j].id in next
      ensures next[existing[j].id] == if j == i then After(incoming, existing[i], now, saves(existing[i].id)) else rows[existing[j].id]
    {
    }
  }

  lemma OneMoreName(existing: seq<Promotion>, i: nat, incoming: Promotion, now: int, saves: string -> bool, fate: Fate)
    requires i < |existing|
    ensures var before := Names(existing[..i], incoming, now, saves, fate);
            Names(existing[..i + 1], incoming, now, saves, fate) ==
            if FateOf(incoming, existing[i], now, saves(existing[i].id)) == fate then before + [existing[i].name] else before
  {
    assert existing[..i + 1][..i] == existing[..i];
  }

  lemma UpToAll(rows: map<string, Promotion>, was: map<string, Promotion>, existing: seq<Promotion>,
                incoming: Promotion, now: int, saves: string -> bool)
    requires Lists(existing, was) && UpTo(rows, was, existing, |existing|, incoming, now, saves)
    ensures rows == Resolved(was, incoming, now, set id | id in was && saves(id))
  {
    var r := Resolved(was, incoming, now, set id | id in was && saves(id));
    forall id | id in rows ensures rows[id] == r[id] {
      var i :| 0 <= i < |existing| && existing[i].id == id;
    }
  }

  /** Nothing is reported exactly if there was no conflict, and a promotion is reported as stopped exactly
      if there was one and it is paused or covers nothing now. */
  lemma ReportsAreTrue(incoming: Promotion, other: Promotion, now: int)
    requires Considered(incoming, other, now)
    ensures var adapted := Adapted(incoming, other);
            && (FateOf(incoming, other, now, true) == Untouched <==> !Conflict(incoming, other))
            && (FateOf(incoming, other, now, true) == Stopped <==>
                  Conflict(incoming, other) && (!adapted.active || forall line :: !Covers(adapted, line)))
  {
    AdaptedMeansNoConflict(incoming, other);
    if Conflict(incoming, other) && !incoming.appliesToOrders && !other.appliesToOrders {
      TakenOverButActive(incoming, other);
    }
  }

  /** If every save works, no other promotion that is active at that moment is in conflict with the new one;
      the promotions that were not in conflict, or not active, are as they were. */
  lemma NobodyElseClaimsIt(rows: map<string, Promotion>, incoming: Promotion, now: int, id: string)
    requires incoming.active && id in rows && rows[id].id == id && id != incoming.id
    ensures var after := Resolved(rows, incoming, now, rows.Keys);
            && (Runs(after[id], now) ==> !Conflict(incoming, after[id]))
            && (after[id] != rows[id] <==> Runs(rows[id], now) && Conflict(incoming, rows[id]))
  {
    var other := rows[id];
    StatusExactly(other, now);
    if Considered(incoming, other, now) {
      AdaptedMeansNoConflict(incoming, other);
    }
  }
}
