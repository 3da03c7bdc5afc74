/** Ranking the couriers of a dispatch cycle: travel times in groups (internal/geo/distance_matrix.go), the list
    made of them and kept (internal/couriers/dispatch.go), its order (internal/couriers/scoring.go) and the
    preference for open apps (internal/couriers/reach.go). */
module Ranking {
  // Durations are nanoseconds, coordinates and scores are reals. The straight-line estimate and the
  // answers of the map service are parameters.

  import opened Outcomes
  import opened Sequences
  import Sorting

  datatype Mode = Driving | Walking | Bicycling

  datatype Vehicle = Foot | Bike | Other(name: string)

  datatype Courier = Courier(id: string, lat: real, lng: real, vehicle: Vehicle, rating: real, completed: int)

  datatype Result = Result(id: string, duration: int, distance: int, ok: bool)

  datatype Scored = Scored(courier: Courier, eta: int, score: real)

  function VehicleToMode(v: Vehicle): Mode {
    match v
    case Foot => Walking
    case Bike => Bicycling
    case Other(_) => Driving
  }

  // ----- Travel times -----

  datatype Candidate = Candidate(id: string, lat: real, lng: real, mode: Mode)

  datatype Element = Element(ok: bool, duration: int, distance: int)

  /** What the map service answers to one request: nothing of use, or rows that may be empty. */
  datatype Response = Failed | Rows(rows: seq<Option<Element>>)

  type Maps = (Mode, seq<Candidate>) -> Response

  const SECOND: int := 1_000_000_000

  function ResultOf(c: Candidate, row: Option<Element>): Result {
    match row
    case None => Result(c.id, 0, 0, false)
    case Some(el) => Result(c.id, el.duration * SECOND, el.distance, el.ok)
  }

  function FetchGroup(maps: Maps, mode: Mode, group: seq<Candidate>): (r: Option<seq<Result>>)
    ensures r.Some? <==> maps(mode, group).Rows? && |maps(mode, group).rows| == |group|
    ensures r.Some? ==> |r.value| == |group|
    ensures r.Some? ==> forall i :: 0 <= i < |group| ==>
              r.value[i].id == group[i].id && r.value[i] == ResultOf(group[i], maps(mode, group).rows[i])
  {
    match maps(mode, group)
    case Failed => None
    case Rows(rows) =>
      if |rows| != |group| then None
      else Some(seq(|group|, i requires 0 <= i < |group| => ResultOf(group[i], rows[i])))
  }

  /** The modes, by the first candidate that has them. */
  function ModeOrder(cands: seq<Candidate>): seq<Mode> {
    if cands == [] then []
    else
      var before := ModeOrder(Front(cands));
      if Last(cands).mode in before then before else before + [Last(cands).mode]
  }

  function OfMode(cands: seq<Candidate>, mode: Mode): seq<Candidate> {
    if cands == [] then []
    else if Last(cands).mode == mode then OfMode(Front(cands), mode) + [Last(cands)]
    else OfMode(Front(cands), mode)
  }

  /** The groups' results one after the other; nothing if one of them fails. */
  function FetchModes(maps: Maps, cands: seq<Candidate>, modes: seq<Mode>): Option<seq<Result>> {
    if modes == [] then Some([])
    else
      match FetchModes(maps, cands, Front(modes))
      case None => None
      case Some(before) =>
        match FetchGroup(maps, Last(modes), OfMode(cands, Last(modes)))
        case None => None
        case Some(results) => Some(before + results)
  }

  function Fetch(maps: Maps, hasKey: bool, cands: seq<Candidate>): Option<seq<Result>> {
    if !hasKey then None else FetchModes(maps, cands, ModeOrder(cands))
  }

  lemma {:induction false} OneFailureFailsAll(maps: Maps, cands: seq<Candidate>, modes: seq<Mode>, k: nat, i: nat)
    requires i < k <= |modes| && FetchGroup(maps, modes[i], OfMode(cands, modes[i])) == None
    ensures FetchModes(maps, cands, modes[..k]) == None
    decreases k
  {
    PrefixGrows(modes, k - 1);
    if i < k - 1 {
      OneFailureFailsAll(maps, cands, modes, k - 1, i);
    }
  }

  method FetchETAs(maps: Maps, hasKey: bool, cands: seq<Candidate>) returns (r: Option<seq<Result>>)
    ensures r == Fetch(maps, hasKey, cands)
  {
    if !hasKey {
      return None;
    }
    if cands == [] {
      return Some([]);
    }
    var byMode: map<Mode, seq<Candidate>> := map[];
    var modeOrder: seq<Mode> := [];
    for i := 0 to |cands|
      invariant modeOrder == ModeOrder(cands[..i])
      invariant forall m :: m in modeOrder <==> m in byMode
      invariant forall m :: m in byMode ==> byMode[m] == OfMode(cands[..i], m)
      invariant forall m :: m !in byMode ==> OfMode(cands[..i], m) == []
    {
      var c := cands[i];
      PrefixGrows(cands, i);
      if c.mode !in byMode {
        modeOrder := modeOrder + [c.mode];
        byMode := byMode[c.mode := []];
      }
      byMode := byMode[c.mode := byMode[c.mode] + [c]];
    }
    assert cands[..|cands|] == cands;
    var out: seq<Result> := [];
    for k := 0 to |modeOrder|
      invariant FetchModes(maps, cands, modeOrder[..k]) == Some(out)
    {
      PrefixGrows(modeOrder, k);
      var results := FetchGroup(maps, modeOrder[k], byMode[modeOrder[k]]);
      if results == None {
        OneFailureFailsAll(maps, cands, modeOrder, |modeOrder|, k);
        assert modeOrder[..|modeOrder|] == modeOrder;
        return None;
      }
      out := out + results.value;
    }
    assert modeOrder[..|modeOrder|] == modeOrder;
    return Some(out);
  }

  /** The map service has one row for each candidate with that mode. */
  predicate Answers(maps: Maps, cands: seq<Candidate>, mode: Mode) {
    var group := OfMode(cands, mode);
    maps(mode, group).Rows? && |maps(mode, group).rows| == |group|
  }

  /** The result is about the i-th candidate with that mode; it is usable exactly if the i-th row is there and
      says so, and has its time then. */
  predicate AnswerTo(maps: Maps, cands: seq<Candidate>, mode: Mode, i: nat, r: Result) {
    var group := OfMode(cands, mode);
    && Answers(maps, cands, mode) && i < |group| && r.id == group[i].id
    && var row := maps(mode, group).rows[i];
       (r.ok <==> row.Some? && row.value.ok) && (r.ok ==> r.duration == row.value.duration * SECOND)
  }

  /** There are results exactly with a key and an answer for each mode of a candidate, and each is the service's
      answer to one of the candidates. */
  lemma FetchedExactly(maps: Maps, hasKey: bool, cands: seq<Candidate>)
    ensures Fetch(maps, hasKey, cands).Some? <==> hasKey && forall c :: c in cands ==> Answers(maps, cands, c.mode)
    ensures Fetch(maps, hasKey, cands).Some? ==>
              forall r :: r in Fetch(maps, hasKey, cands).value ==> exists mode, i :: AnswerTo(maps, cands, mode, i, r)
  {
    ModesOfCandidates(cands);
    ModesAreAll(cands);
    FetchModesAnswer(maps, cands, ModeOrder(cands));
  }

  lemma {:induction false} ModesOfCandidates(cands: seq<Candidate>)
    ensures forall m :: m in ModeOrder(cands) ==> exists c :: c in cands && c.mode == m
    decreases |cands|
  {
    if cands != [] {
      var before := Front(cands);
      ModesOfCandidates(before);
      assert cands == before + [Last(cands)];
      forall m | m in ModeOrder(cands) ensures exists c :: c in cands && c.mode == m {
        if m in ModeOrder(before) {
          var c :| c in before && c.mode == m;
          assert c in cands;
        } else {
          assert Last(cands) in cands;
        }
      }
    }
  }

  lemma {:induction false} FetchModesAnswer(maps: Maps, cands: seq<Candidate>, modes: seq<Mode>)
    ensures FetchModes(maps, cands, modes).Some? <==> forall m :: m in modes ==> Answers(maps, cands, m)
    ensures FetchModes(maps, cands, modes).Some? ==>
              forall r :: r in FetchModes(maps, cands, modes).value ==> exists mode, i :: AnswerTo(maps, cands, mode, i, r)
    decreases |modes|
  {
    if modes != [] {
      var mode := Last(modes);
      FetchModesAnswer(maps, cands, Front(modes));
      assert modes == Front(modes) + [mode];
      assert FetchGroup(maps, mode, OfMode(cands, mode)).Some? <==> Answers(maps, cands, mode);
      assert forall m :: m in modes <==> m in Front(modes) || m == mode;
      if FetchModes(maps, cands, modes).Some? {
        var results := FetchGroup(maps, mode, OfMode(cands, mode)).value;
        forall r | r in results ensures exists i: nat :: AnswerTo(maps, cands, mode, i, r) {
          var i :| 0 <= i < |results| && results[i] == r;
          assert AnswerTo(maps, cands, mode, i, r);
        }
      }
    }
  }

  function CountResults(results: seq<Result>, id: string): nat {
    if results == [] then 0 else CountResults(Front(results), id) + if Last(results).id == id then 1 else 0
  }

  /** The candidates with that id whose mode is one of those. */
  function CountCandidates(cands: seq<Candidate>, id: string, modes: seq<Mode>): nat {
    if cands == [] then 0
    else CountCandidates(Front(cands), id, modes) + if Last(cands).id == id && Last(cands).mode in modes then 1 else 0
  }

  lemma {:induction false} CountResultsConcat(a: seq<Result>, b: seq<Result>, id: string)
    ensures CountResults(a + b, id) == CountResults(a, id) + CountResults(b, id)
    decreases |b|
  {
    if b == [] {
      assert a + b == a;
    } else {
      assert Front(a + b) == a + Front(b);
      CountResultsConcat(a, Front(b), id);
    }
  }

  lemma {:induction false} GroupCounts(group: seq<Candidate>, results: seq<Result>, id: string, mode: Mode)
    requires |results| == |group| && forall i :: 0 <= i < |group| ==> results[i].id == group[i].id && group[i].mode == mode
    ensures CountResults(results, id) == CountCandidates(group, id, [mode])
    decreases |group|
  {
    if group != [] {
      GroupCounts(Front(group), Front(results), id, mode);
    }
  }

  lemma {:induction false} OfModeCounts(cands: seq<Candidate>, id: string, mode: Mode)
    ensures CountCandidates(OfMode(cands, mode), id, [mode]) == CountCandidates(cands, id, [mode])
    decreases |cands|
  {
    if cands != [] {
      OfModeCounts(Front(cands), id, mode);
      if Last(cands).mode == mode {
        assert Front(OfMode(cands, mode)) == OfMode(Front(cands), mode);
        assert Last(OfMode(cands, mode)) == Last(cands);
      }
    }
  }

  lemma {:induction false} OfModeOnly(cands: seq<Candidate>, mode: Mode)
    ensures forall i :: 0 <= i < |OfMode(cands, mode)| ==> OfMode(cands, mode)[i].mode == mode
    decreases |cands|
  {
    if cands != [] {
      OfModeOnly(Front(cands), mode);
    }
  }

  lemma {:induction false} OneModeMore(cands: seq<Candidate>, id: string, modes: seq<Mode>, mode: Mode)
    requires mode !in modes
    ensures CountCandidates(cands, id, modes + [mode]) == CountCandidates(cands, id, modes) + CountCandidates(cands, id, [mode])
    decreases |cands|
  {
    if cands != [] {
      OneModeMore(Front(cands), id, modes, mode);
    }
  }

  lemma {:induction false} FetchModesCounts(maps: Maps, cands: seq<Candidate>, modes: seq<Mode>, id: string)
    requires forall i, j :: 0 <= i < j < |modes| ==> modes[i] != modes[j]
    requires FetchModes(maps, cands, modes).Some?
    ensures CountResults(FetchModes(maps, cands, modes).value, id) == CountCandidates(cands, id, modes)
    decreases |modes|
  {
    if modes == [] {
      NoModes(cands, id);
    } else {
      var before, mode := Front(modes), Last(modes);
      var group := OfMode(cands, mode);
      var results := FetchGroup(maps, mode, group).value;
      FetchModesCounts(maps, cands, before, id);
      CountResultsConcat(FetchModes(maps, cands, before).value, results, id);
      OfModeCounts(cands, id, mode);
      OfModeOnly(cands, mode);
      GroupCounts(group, results, id, mode);
      OneModeMore(cands, id, before, mode);
      assert before + [mode] == modes;
    }
  }

  lemma {:induction false} NoModes(cands: seq<Candidate>, id: string)
    ensures CountCandidates(cands, id, []) == 0
    decreases |cands|
  {
    if cands != [] {
      NoModes(Front(cands), id);
    }
  }

  lemma {:induction false} ModesAreAll(cands: seq<Candidate>)
    ensures forall i :: 0 <= i < |cands| ==> cands[i].mode in ModeOrder(cands)
    ensures forall i, j :: 0 <= i < j < |ModeOrder(cands)| ==> ModeOrder(cands)[i] != ModeOrder(cands)[j]
    decreases |cands|
  {
    if cands != [] {
      ModesAreAll(Front(cands));
      forall i | 0 <= i < |cands| ensures cands[i].mode in ModeOrder(cands) {
        if i < |cands| - 1 {
          assert Front(cands)[i] == cands[i];
        }
      }
    }
  }

  function CountIds(cands: seq<Candidate>, id: string): nat {
    if cands == [] then 0 else CountIds(Front(cands), id) + if Last(cands).id == id then 1 else 0
  }

  lemma {:induction false} AllModesCount(cands: seq<Candidate>, id: string, modes: seq<Mode>)
    requires forall i :: 0 <= i < |cands| ==> cands[i].mode in modes
    ensures CountCandidates(cands, id, modes) == CountIds(cands, id)
    decreases |cands|
  {
    if cands != [] {
      AllModesCount(Front(cands), id, modes);
    }
  }

  /** If nothing fails, there are as many results for an id as there are candidates with it. */
  lemma FetchConserves(maps: Maps, hasKey: bool, cands: seq<Candidate>, id: string)
    requires Fetch(maps, hasKey, cands).Some?
    ensures CountResults(Fetch(maps, hasKey, cands).value, id) == CountIds(cands, id)
  {
    ModesAreAll(cands);
    FetchModesCounts(maps, cands, ModeOrder(cands), id);
    AllModesCount(cands, id, ModeOrder(cands));
  }

  // ----- The list -----

  predicate HasLocation(c: Courier) { !(c.lat == 0.0 && c.lng == 0.0) }

  function Located(couriers: seq<Courier>): seq<Courier> {
    if couriers == [] then []
    else if HasLocation(Last(couriers)) then Located(Front(couriers)) + [Last(couriers)]
    else Located(Front(couriers))
  }

  ghost predicate DistinctIds(couriers: seq<Courier>) {
    forall i, j :: 0 <= i < j < |couriers| ==> couriers[i].id != couriers[j].id
  }

  /** The courier that a map filled from the list has for an id. */
  function Find(couriers: seq<Courier>, id: string): (r: Option<Courier>)
    ensures r.Some? ==> r.value in couriers && r.value.id == id
    ensures r.None? ==> forall c :: c in couriers ==> c.id != id
  {
    if couriers == [] then None
    else if Last(couriers).id == id then Some(Last(couriers))
    else
      var r := Find(Front(couriers), id);
      assert couriers == Front(couriers) + [Last(couriers)];
      r
  }

  /** One entry for each result that is about a known courier; without a route, by the straight line. */
  function FromResults(couriers: seq<Courier>, results: seq<Result>, straight: Courier -> int): seq<Scored> {
    if results == [] then []
    else
      var before, res := FromResults(couriers, Front(results), straight), Last(results);
      match Find(couriers, res.id)
      case None => before
      case Some(c) => before + [Scored(c, if res.ok then res.duration else straight(c), 0.0)]
  }

  /** Those that no result is about, by the straight line. */
  function Unanswered(couriers: seq<Courier>, results: seq<Result>, straight: Courier -> int): seq<Scored> {
    if couriers == [] then []
    else
      var before, c := Unanswered(Front(couriers), results, straight), Last(couriers);
      if CountResults(results, c.id) > 0 then before else before + [Scored(c, straight(c), 0.0)]
  }

  function ByStraightLine(couriers: seq<Courier>, straight: Courier -> int): seq<Scored> {
    seq(|couriers|, i requires 0 <= i < |couriers| => Scored(couriers[i], straight(couriers[i]), 0.0))
  }

  /** The entries before they are scored. */
  function Listed(couriers: seq<Courier>, answer: Option<seq<Result>>, straight: Courier -> int): seq<Scored> {
    match answer
    case None => ByStraightLine(couriers, straight)
    case Some(results) => FromResults(couriers, results, straight) + Unanswered(couriers, results, straight)
  }

  function Times(list: seq<Scored>, id: string): nat {
    if list == [] then 0 else Times(Front(list), id) + if Last(list).courier.id == id then 1 else 0
  }

  lemma {:induction false} TimesConcat(a: seq<Scored>, b: seq<Scored>, id: string)
    ensures Times(a + b, id) == Times(a, id) + Times(b, id)
    decreases |b|
  {
    if b == [] {
      assert a + b == a;
    } else {
      assert Front(a + b) == a + Front(b);
      TimesConcat(a, Front(b), id);
    }
  }

  lemma TimesOneMore(list: seq<Scored>, x: Scored, id: string)
    ensures Times(list + [x], id) == Times(list, id) + if x.courier.id == id then 1 else 0
  {
    assert Front(list + [x]) == list;
  }

  lemma {:induction false} TimesFromResults(couriers: seq<Courier>, results: seq<Result>, straight: Courier -> int, id: string)
    ensures Times(FromResults(couriers, results, straight), id) ==
            if Find(couriers, id).Some? then CountResults(results, id) else 0
    decreases |results|
  {
    if results != [] {
      var before, res := FromResults(couriers, Front(results), straight), Last(results);
      TimesFromResults(couriers, Front(results), straight, id);
      if Find(couriers, res.id).Some? {
        var c := Find(couriers, res.id).value;
        TimesOneMore(before, Scored(c, if res.ok then res.duration else straight(c), 0.0), id);
      }
    }
  }

  function Holders(couriers: seq<Courier>, id: string): nat {
    if couriers == [] then 0 else Holders(Front(couriers), id) + if Last(couriers).id == id then 1 else 0
  }

  lemma {:induction false} TimesUnanswered(couriers: seq<Courier>, results: seq<Result>, straight: Courier -> int, id: string)
    ensures Times(Unanswered(couriers, results, straight), id) ==
            if CountResults(results, id) > 0 then 0 else Holders(couriers, id)
    decreases |couriers|
  {
    if couriers != [] {
      var before, c := Unanswered(Front(couriers), results, straight), Last(couriers);
      TimesUnanswered(Front(couriers), results, straight, id);
      TimesOneMore(before, Scored(c, straight(c), 0.0), id);
    }
  }

  lemma {:induction false} TimesByStraightLine(couriers: seq<Courier>, straight: Courier -> int, id: string)
    ensures Times(ByStraightLine(couriers, straight), id) == Holders(couriers, id)
    decreases |couriers|
  {
    if couriers != [] {
      TimesByStraightLine(Front(couriers), straight, id);
      assert Front(ByStraightLine(couriers, straight)) == ByStraightLine(Front(couriers), straight);
    }
  }

  lemma {:induction false} HoldersOfDistinct(couriers: seq<Courier>, id: string)
    requires DistinctIds(couriers)
    ensures Holders(couriers, id) == if Find(couriers, id).Some? then 1 else 0
    decreases |couriers|
  {
    if couriers != [] {
      HoldersOfDistinct(Front(couriers), id);
      assert Front(couriers) + [Last(couriers)] == couriers;
      forall c | c in Front(couriers) ensures c.id != Last(couriers).id {
        var i :| 0 <= i < |couriers| - 1 && couriers[i] == c;
      }
    }
  }

  function Max(a: nat, b: nat): nat { if a >= b then a else b }

  /** Nobody is lost and nobody is made up: a courier is listed once, unless several results are about
      them, and then as often. */
  lemma ListConserves(couriers: seq<Courier>, answer: Option<seq<Result>>, straight: Courier -> int, id: string)
    requires DistinctIds(couriers)
    ensures Times(Listed(couriers, answer, straight), id) ==
            if Find(couriers, id).None? then 0
            else match answer case None => 1 case Some(results) => Max(1, CountResults(results, id))
  {
    HoldersOfDistinct(couriers, id);
    match answer {
      case None => TimesByStraightLine(couriers, straight, id);
      case Some(results) =>
        TimesFromResults(couriers, results, straight, id);
        TimesUnanswered(couriers, results, straight, id);
        TimesConcat(FromResults(couriers, results, straight), Unanswered(couriers, results, straight), id);
    }
  }

  /** The time of an entry is that of a usable result about its courier, or the straight-line estimate if a
      result about him is of no use or there is none. */
  ghost predicate RightTime(x: Scored, answer: Option<seq<Result>>, straight: Courier -> int) {
    match answer
    case None => x.eta == straight(x.courier)
    case Some(results) =>
      || (exists j :: 0 <= j < |results| && results[j].id == x.courier.id &&
            x.eta == if results[j].ok then results[j].duration else straight(x.courier))
      || ((forall j :: 0 <= j < |results| ==> results[j].id != x.courier.id) && x.eta == straight(x.courier))
  }

  lemma {:induction false} AnsweredTimes(couriers: seq<Courier>, results: seq<Result>, straight: Courier -> int)
    ensures forall x :: x in FromResults(couriers, results, straight) ==>
              exists j :: 0 <= j < |results| && results[j].id == x.courier.id &&
                x.eta == if results[j].ok then results[j].duration else straight(x.courier)
    decreases |results|
  {
    if results != [] {
      var before := FromResults(couriers, Front(results), straight);
      AnsweredTimes(couriers, Front(results), straight);
      forall x | x in FromResults(couriers, results, straight)
        ensures exists j :: 0 <= j < |results| && results[j].id == x.courier.id &&
                  x.eta == if results[j].ok then results[j].duration else straight(x.courier)
      {
        if x in before {
          var j :| 0 <= j < |results| - 1 && Front(results)[j].id == x.courier.id &&
                   x.eta == if Front(results)[j].ok then Front(results)[j].duration else straight(x.courier);
          assert results[j] == Front(results)[j];
        } else {
          assert Last(results) == results[|results| - 1];
        }
      }
    }
  }

  lemma {:induction false} CountedResults(results: seq<Result>, id: string)
    ensures CountResults(results, id) > 0 <==> exists j :: 0 <= j < |results| && results[j].id == id
    decreases |results|
  {
    if results != [] {
      CountedResults(Front(results), id);
      if CountResults(Front(results), id) > 0 {
        var j :| 0 <= j < |results| - 1 && Front(results)[j].id == id;
        assert results[j].id == id;
      }
      if j :| 0 <= j < |results| && results[j].id == id {
        assert j < |results| - 1 ==> Front(results)[j].id == id;
      }
    }
  }

  lemma {:induction false} UnansweredTimes(couriers: seq<Courier>, results: seq<Result>, straight: Courier -> int)
    ensures forall x :: x in Unanswered(couriers, results, straight) ==>
              CountResults(results, x.courier.id) == 0 && x.eta == straight(x.courier)
    decreases |couriers|
  {
    if couriers != [] {
      UnansweredTimes(Front(couriers), results, straight);
    }
  }

  lemma ListedTimes(couriers: seq<Courier>, answer: Option<seq<Result>>, straight: Courier -> int)
    ensures forall x :: x in Listed(couriers, answer, straight) ==> RightTime(x, answer, straight)
  {
    if answer.Some? {
      var results := answer.value;
      AnsweredTimes(couriers, results, straight);
      UnansweredTimes(couriers, results, straight);
      forall x | x in Listed(couriers, answer, straight) ensures RightTime(x, answer, straight) {
        CountedResults(results, x.courier.id);
        assert x in FromResults(couriers, results, straight) || x in Unanswered(couriers, results, straight);
      }
    }
  }

  // ----- Scores -----

  const MINUTE: int := 60 * SECOND
  const MAX_TIMING: real := 100.0
  const EARLY_PENALTY: real := 20.0
  const LATE_PENALTY: real := 90.0

  /** Conversion of a fraction to an integer goes towards zero. */
  function Part(prep: int, n: nat): int
    requires n > 0
  {
    if prep >= 0 then prep / n else -(-prep / n)
  }

  function IdealMin(prep: int): int { Part(prep, 4) }

  function IdealMax(prep: int): int { Part(prep, 2) }

  function CapReal(x: real, cap: real): real { if x > cap then cap else x }

  function TimingScore(eta: int, idealMin: int, idealMax: int): real {
    if idealMax <= 0 then MAX_TIMING - CapReal(eta as real / MINUTE as real * 5.0, LATE_PENALTY)
    else if eta <= idealMin then
      if idealMin <= 0 then MAX_TIMING
      else MAX_TIMING - (idealMin - eta) as real / idealMin as real * EARLY_PENALTY
    else if eta <= idealMax then MAX_TIMING
    else MAX_TIMING - CapReal((eta - idealMax) as real / idealMax as real * LATE_PENALTY, LATE_PENALTY)
  }

  function RatingBonus(rating: real): real { (rating - 3.0) * 10.0 }

  function ExperienceBonus(completed: int): real { (if completed > 50 then 50 else completed) as real / 50.0 * 10.0 }

  function Score(c: Courier, eta: int, prep: int): real {
    TimingScore(eta, IdealMin(prep), IdealMax(prep)) + RatingBonus(c.rating) + ExperienceBonus(c.completed)
  }

  lemma DivideBy(a: int, b: int, c: int)
    requires a <= b && c > 0
    ensures a as real / c as real <= b as real / c as real
  {
    var x, y, z := a as real, b as real, c as real;
    assert x / z * z == x && y / z * z == y;
    if x / z > y / z {
      assert x / z * z > y / z * z;
    }
  }

  /** Until the ideal window a later arrival is never worse, from it on never better. */
  lemma TimingHasOnePeak(a: int, b: int, prep: int)
    requires a <= b
    ensures var lo, hi := IdealMin(prep), IdealMax(prep);
            && (hi > 0 && b <= hi ==> TimingScore(a, lo, hi) <= TimingScore(b, lo, hi))
            && (hi <= 0 || lo <= a ==> TimingScore(a, lo, hi) >= TimingScore(b, lo, hi))
  {
    var lo, hi := IdealMin(prep), IdealMax(prep);
    if hi <= 0 {
      DivideBy(a, b, MINUTE);
    } else {
      if lo > 0 && b <= lo {
        DivideBy(lo - b, lo - a, lo);
      }
      if lo > 0 && a <= lo {
        DivideBy(0, lo - a, lo);
      }
      if hi <= a {
        DivideBy(a - hi, b - hi, hi);
      }
      if hi <= b {
        DivideBy(0, b - hi, hi);
      }
    }
  }

  /** Full marks are for the window, arriving too early costs at most 20 points, too late at most 90. Without
      a time for cooking there is no window: full marks are for being there at once, and the whole penalty is
      for 18 minutes or more. */
  lemma TimingBounds(eta: int, prep: int)
    requires eta >= 0
    ensures var lo, hi := IdealMin(prep), IdealMax(prep); var score := TimingScore(eta, lo, hi);
            && 10.0 <= score <= 100.0
            && (hi > 0 ==>
                  && 0 <= lo <= hi
                  && (lo <= eta <= hi <==> score == 100.0)
                  && (eta <= lo ==> score >= 80.0)
                  && (eta >= 2 * hi <==> score == 10.0))
            && (hi <= 0 ==> (eta == 0 <==> score == 100.0) && (eta >= 18 * MINUTE <==> score == 10.0))
    ensures IdealMax(prep) > 0 <==> prep >= 2
  {
    var lo, hi := IdealMin(prep), IdealMax(prep);
    if hi <= 0 {
      FractionOfMinute(eta);
    } else if eta < lo {
      FractionBounds(lo - eta, lo);
    } else if eta > hi {
      FractionBounds(eta - hi, hi);
    }
  }

  /** The ends of the two slopes: 80 at once, 100 at the window, 10 at twice its end. */
  lemma TimingEnds(prep: int)
    requires IdealMax(prep) > 0
    ensures var lo, hi := IdealMin(prep), IdealMax(prep);
            && (lo > 0 ==> TimingScore(0, lo, hi) == 80.0) && TimingScore(lo, lo, hi) == 100.0
            && TimingScore(hi, lo, hi) == 100.0 && TimingScore(2 * hi, lo, hi) == 10.0
  {
    TimingBounds(IdealMin(prep), prep);
    TimingBounds(IdealMax(prep), prep);
    TimingBounds(2 * IdealMax(prep), prep);
    if IdealMin(prep) > 0 {
      EarlyIs(0, prep);
    }
  }

  /** Before the window the marks rise on a straight line. */
  lemma EarlyIs(eta: int, prep: int)
    requires 0 <= eta <= IdealMin(prep) && IdealMin(prep) > 0
    ensures TimingScore(eta, IdealMin(prep), IdealMax(prep)) == EARLY_PENALTY / IdealMin(prep) as real * eta as real + (MAX_TIMING - EARLY_PENALTY)
  {
    var lo := IdealMin(prep) as real;
    assert (lo - eta as real) / lo == 1.0 - eta as real / lo;
  }

  /** Behind the window they fall on another. */
  lemma LateIs(eta: int, prep: int)
    requires 0 < IdealMax(prep) <= eta <= 2 * IdealMax(prep)
    ensures TimingScore(eta, IdealMin(prep), IdealMax(prep)) ==
            -(LATE_PENALTY / IdealMax(prep) as real) * eta as real + (MAX_TIMING + LATE_PENALTY)
  {
    var hi := IdealMax(prep) as real;
    FractionBounds(eta - IdealMax(prep), IdealMax(prep));
    assert (eta as real - hi) / hi == eta as real / hi - 1.0;
  }

  /** Beside the timing, a star is worth ten points, from three stars on above it; and an order in ten is worth
      two, up to ten points for fifty. */
  lemma ScoreAddsUp(c: Courier, d: Courier, eta: int, prep: int)
    ensures Score(c, eta, prep) - Score(d, eta, prep) ==
            (c.rating - d.rating) * 10.0 + (Min50(c.completed) - Min50(d.completed)) as real / 5.0
    ensures c.rating == 3.0 && c.completed == 0 ==> Score(c, eta, prep) == TimingScore(eta, IdealMin(prep), IdealMax(prep))
  {
  }

  function Min50(n: int): int { if n < 50 then n else 50 }

  /** The window is from a quarter to half of the time for cooking. */
  lemma WindowIs(prep: int)
    requires prep >= 0
    ensures 4 * IdealMin(prep) <= prep < 4 * (IdealMin(prep) + 1)
    ensures 2 * IdealMax(prep) <= prep < 2 * (IdealMax(prep) + 1)
  {
  }

  lemma FractionOfMinute(eta: int)
    requires eta >= 0
    ensures var x := eta as real / MINUTE as real * 5.0;
            0.0 <= x && (x == 0.0 <==> eta == 0) && (x >= 90.0 <==> eta >= 18 * MINUTE)
  {
    var m := MINUTE as real;
    var q := eta as real / m;
    assert q * m == eta as real;
  }

  lemma FractionBounds(a: int, c: int)
    requires c > 0
    ensures a > 0 ==> a as real / c as real > 0.0
    ensures a >= c <==> a as real / c as real >= 1.0
    ensures a <= c <==> a as real / c as real <= 1.0
  {
    var x, z := a as real, c as real;
    var q := x / z;
    assert q * z == x;
  }

  predicate Better(a: Scored, b: Scored) { a.score > b.score }

  function WithScores(list: seq<Scored>, prep: int): seq<Scored> {
    seq(|list|, i requires 0 <= i < |list| => list[i].(score := Score(list[i].courier, list[i].eta, prep)))
  }

  function ScoreCandidates(list: seq<Scored>, prep: int): seq<Scored> {
    Sorting.SortStable(WithScores(list, prep), Better)
  }

  lemma {:induction false} TimesWithScores(list: seq<Scored>, prep: int, id: string)
    ensures Times(WithScores(list, prep), id) == Times(list, id)
    decreases |list|
  {
    if list != [] {
      TimesWithScores(Front(list), prep, id);
      assert Front(WithScores(list, prep)) == WithScores(Front(list), prep);
    }
  }

  lemma {:induction false} TimesCons(x: Scored, list: seq<Scored>, id: string)
    ensures Times([x] + list, id) == Times(list, id) + if x.courier.id == id then 1 else 0
  {
    TimesConcat([x], list, id);
    assert Front([x]) == [];
  }

  lemma {:induction false} TimesInsert(x: Scored, list: seq<Scored>, less: (Scored, Scored) -> bool, id: string)
    ensures Times(Sorting.Insert(x, list, less), id) == Times([x] + list, id)
    decreases |list|
  {
    if list != [] && less(list[0], x) {
      TimesInsert(x, list[1..], less, id);
      TimesCons(list[0], Sorting.Insert(x, list[1..], less), id);
      TimesCons(x, list, id);
      TimesCons(x, list[1..], id);
      TimesCons(list[0], list[1..], id);
      assert [list[0]] + list[1..] == list;
    }
  }

  lemma {:induction false} TimesSort(list: seq<Scored>, less: (Scored, Scored) -> bool, id: string)
    ensures Times(Sorting.SortStable(list, less), id) == Times(list, id)
    decreases |list|
  {
    if list != [] {
      var rest := Sorting.SortStable(list[1..], less);
      TimesSort(list[1..], less, id);
      TimesInsert(list[0], rest, less, id);
      TimesCons(list[0], rest, id);
      TimesCons(list[0], list[1..], id);
      assert [list[0]] + list[1..] == list;
    }
  }

  /** Every entry has the score of its courier and time, and a better score is never later. */
  lemma ScoredInOrder(list: seq<Scored>, prep: int)
    ensures var r := ScoreCandidates(list, prep);
            && multiset(r) == multiset(WithScores(list, prep))
            && (forall i, j :: 0 <= i < j < |r| ==> r[i].score >= r[j].score)
            && (forall i :: 0 <= i < |r| ==> r[i].score == Score(r[i].courier, r[i].eta, prep))
  {
    var scored := WithScores(list, prep);
    var r := ScoreCandidates(list, prep);
    Sorting.SortIsOrderedPermutation(scored, Better);
    Sorting.SameMembers(r, scored);
    forall i | 0 <= i < |r| ensures r[i].score == Score(r[i].courier, r[i].eta, prep) {
      assert r[i] in scored;
    }
  }

  function RankCandidates(couriers: seq<Courier>, answer: Option<seq<Result>>, straight: Courier -> int, prep: int): seq<Scored> {
    ScoreCandidates(Listed(Located(couriers), answer, straight), prep)
  }

  lemma {:induction false} LocatedAreThose(couriers: seq<Courier>)
    ensures forall c :: c in Located(couriers) <==> c in couriers && (c.lat != 0.0 || c.lng != 0.0)
    ensures DistinctIds(couriers) ==> DistinctIds(Located(couriers))
    decreases |couriers|
  {
    if couriers != [] {
      LocatedAreThose(Front(couriers));
      assert couriers == Front(couriers) + [Last(couriers)];
      forall i | 0 <= i < |Located(Front(couriers))| && DistinctIds(couriers)
        ensures Located(Front(couriers))[i].id != Last(couriers).id
      {
        assert Located(Front(couriers))[i] in Front(couriers);
      }
    }
  }

  /** Whoever is ranked has a known location, the right time, and the score of it. */
  lemma RankedTimes(couriers: seq<Courier>, answer: Option<seq<Result>>, straight: Courier -> int, prep: int)
    ensures forall x :: x in RankCandidates(couriers, answer, straight, prep) ==>
              && x.courier in couriers && (x.courier.lat != 0.0 || x.courier.lng != 0.0)
              && RightTime(x, answer, straight) && x.score == Score(x.courier, x.eta, prep)
  {
    var located := Located(couriers);
    var listed := Listed(located, answer, straight);
    var r := RankCandidates(couriers, answer, straight, prep);
    LocatedAreThose(couriers);
    ListedTimes(located, answer, straight);
    ListedAreKnown(located, answer, straight);
    ScoredInOrder(listed, prep);
    Sorting.SameMembers(r, WithScores(listed, prep));
    forall x | x in r
      ensures x.courier in couriers && (x.courier.lat != 0.0 || x.courier.lng != 0.0)
      ensures RightTime(x, answer, straight) && x.score == Score(x.courier, x.eta, prep)
    {
      var i :| 0 <= i < |listed| && WithScores(listed, prep)[i] == x;
      assert listed[i] in listed && RightTime(listed[i], answer, straight);
    }
  }

  lemma ListedAreKnown(couriers: seq<Courier>, answer: Option<seq<Result>>, straight: Courier -> int)
    ensures forall x :: x in Listed(couriers, answer, straight) ==> x.courier in couriers
  {
    if answer.Some? {
      ResultsAreKnown(couriers, answer.value, straight);
      UnansweredAreKnown(couriers, answer.value, straight);
    }
  }

  lemma {:induction false} ResultsAreKnown(couriers: seq<Courier>, results: seq<Result>, straight: Courier -> int)
    ensures forall x :: x in FromResults(couriers, results, straight) ==> x.courier in couriers
    decreases |results|
  {
    if results != [] {
      ResultsAreKnown(couriers, Front(results), straight);
    }
  }

  lemma {:induction false} UnansweredAreKnown(couriers: seq<Courier>, results: seq<Result>, straight: Courier -> int)
    ensures forall x :: x in Unanswered(couriers, results, straight) ==> x.courier in couriers
    decreases |couriers|
  {
    if couriers != [] {
      UnansweredAreKnown(Front(couriers), results, straight);
      FrontAndLast(couriers);
    }
  }

  /** The rank lists exactly the couriers whose location is known, each once, whatever the map service
      said, as long as it said at most one thing about each. */
  lemma RankConserves(couriers: seq<Courier>, answer: Option<seq<Result>>, straight: Courier -> int, prep: int, id: string)
    requires DistinctIds(couriers)
    ensures Times(RankCandidates(couriers, answer, straight, prep), id) ==
            if Find(Located(couriers), id).None? then 0
            else match answer case None => 1 case Some(results) => Max(1, CountResults(results, id))
  {
    var located := Located(couriers);
    var listed := Listed(located, answer, straight);
    LocatedAreThose(couriers);
    ListConserves(located, answer, straight, id);
    TimesWithScores(listed, prep, id);
    TimesSort(WithScores(listed, prep), Better, id);
  }

  lemma FindStep(couriers: seq<Courier>, i: nat, id: string)
    requires i < |couriers|
    ensures Find(couriers[..i + 1], id) == if couriers[i].id == id then Some(couriers[i]) else Find(couriers[..i], id)
  {
    PrefixGrows(couriers, i);
  }

  lemma CountStep(results: seq<Result>, i: nat, id: string)
    requires i < |results|
    ensures CountResults(results[..i + 1], id) == CountResults(results[..i], id) + if results[i].id == id then 1 else 0
  {
    PrefixGrows(results, i);
  }

  method KnownCouriers(couriers: seq<Courier>) returns (located: seq<Courier>, byId: map<string, Courier>)
    ensures located == Located(couriers)
    ensures forall id :: (id in byId <==> Find(located, id).Some?) && (id in byId ==> Find(located, id) == Some(byId[id]))
  {
    located := [];
    for i := 0 to |couriers|
      invariant located == Located(couriers[..i])
    {
      PrefixGrows(couriers, i);
      if !(couriers[i].lat == 0.0 && couriers[i].lng == 0.0) {
        located := located + [couriers[i]];
      }
    }
    assert couriers[..|couriers|] == couriers;
    byId := map[];
    for i := 0 to |located|
      invariant forall id :: id in byId <==> Find(located[..i], id).Some?
      invariant forall id :: id in byId ==> Find(located[..i], id) == Some(byId[id])
    {
      forall id ensures Find(located[..i + 1], id) == if located[i].id == id then Some(located[i]) else Find(located[..i], id) {
        FindStep(located, i, id);
      }
      byId := byId[located[i].id := located[i]];
    }
    assert located[..|located|] == located;
  }

  method ListAnswered(located: seq<Courier>, byId: map<string, Courier>, results: seq<Result>, straight: Courier -> int)
      returns (scored: seq<Scored>, withETA: set<string>)
    requires forall id :: (id in byId <==> Find(located, id).Some?) && (id in byId ==> Find(located, id) == Some(byId[id]))
    ensures scored == FromResults(located, results, straight)
    ensures forall id :: id in withETA <==> id in byId && CountResults(results, id) > 0
  {
    scored, withETA := [], {};
    for i := 0 to |results|
      invariant scored == FromResults(located, results[..i], straight)
      invariant forall id :: id in withETA <==> id in byId && CountResults(results[..i], id) > 0
    {
      var res := results[i];
      PrefixGrows(results, i);
      forall id ensures CountResults(results[..i + 1], id) == CountResults(results[..i], id) + if res.id == id then 1 else 0 {
        CountStep(results, i, id);
      }
      if res.id in byId {
        var c := byId[res.id];
        withETA := withETA + {res.id};
        scored := scored + [Scored(c, if res.ok then res.duration else straight(c), 0.0)];
      }
    }
    assert results[..|results|] == results;
  }

  method ListUnanswered(located: seq<Courier>, results: seq<Result>, withETA: set<string>, straight: Courier -> int)
      returns (scored: seq<Scored>)
    requires forall c :: c in located ==> (c.id in withETA <==> CountResults(results, c.id) > 0)
    ensures scored == Unanswered(located, results, straight)
  {
    scored := [];
    for i := 0 to |located|
      invariant scored == Unanswered(located[..i], results, straight)
    {
      PrefixGrows(located, i);
      assert located[i] in located;
      if located[i].id !in withETA {
        scored := scored + [Scored(located[i], straight(located[i]), 0.0)];
      }
    }
    assert located[..|located|] == located;
  }

  method ScoreAndSort(list: seq<Scored>, prep: int) returns (out: seq<Scored>)
    ensures out == ScoreCandidates(list, prep)
  {
    var idealMin, idealMax := IdealMin(prep), IdealMax(prep);
    out := list;
    for i := 0 to |list|
      invariant |out| == |list|
      invariant forall j :: 0 <= j < i ==> out[j] == list[j].(score := Score(list[j].courier, list[j].eta, prep))
      invariant forall j :: i <= j < |list| ==> out[j] == list[j]
    {
      var c := out[i].courier;
      out := out[i := out[i].(score := TimingScore(out[i].eta, idealMin, idealMax) + RatingBonus(c.rating) + ExperienceBonus(c.completed))];
    }
    assert out == WithScores(list, prep);
    out := Sorting.SortStable(out, Better);
  }

  /** The service's results are a parameter: an error, or anything at all. */
  method Rank(couriers: seq<Courier>, answer: Option<seq<Result>>, straight: Courier -> int, prep: int) returns (ranked: seq<Scored>)
    ensures ranked == RankCandidates(couriers, answer, straight, prep)
  {
    var located, byId := KnownCouriers(couriers);
    if located == [] {
      NobodyToRank(answer, straight, prep);
      return [];
    }
    match answer {
      case None =>
        ranked := ScoreAndSort(ByStraightLine(located, straight), prep);
      case Some(results) =>
        var scored, withETA := ListAnswered(located, byId, results, straight);
        var rest := ListUnanswered(located, results, withETA, straight);
        ranked := ScoreAndSort(scored + rest, prep);
    }
  }

  lemma {:induction false} NobodyFound(results: seq<Result>, straight: Courier -> int)
    ensures FromResults([], results, straight) == []
  {
    if results != [] {
      NobodyFound(Front(results), straight);
    }
  }

  lemma NobodyToRank(answer: Option<seq<Result>>, straight: Courier -> int, prep: int)
    ensures ScoreCandidates(Listed([], answer, straight), prep) == []
  {
    if answer.Some? {
      NobodyFound(answer.value, straight);
    }
    assert Listed([], answer, straight) == [];
  }

  // ----- Asking about exactly the located couriers -----

  function Origins(couriers: seq<Courier>): seq<Candidate> {
    if couriers == [] then []
    else
      var c := Last(couriers);
      Origins(Front(couriers)) + [Candidate(c.id, c.lat, c.lng, VehicleToMode(c.vehicle))]
  }

  lemma {:induction false} OriginsCount(couriers: seq<Courier>, id: string)
    ensures CountIds(Origins(couriers), id) == Holders(couriers, id)
    decreases |couriers|
  {
    if couriers != [] {
      OriginsCount(Front(couriers), id);
      assert Front(Origins(couriers)) == Origins(Front(couriers));
    }
  }

  /** With the results of FetchETAs, or without, everybody whose location is known is ranked exactly once. */
  lemma EverybodyIsRankedOnce(maps: Maps, hasKey: bool, couriers: seq<Courier>, straight: Courier -> int, prep: int, id: string)
    requires DistinctIds(couriers)
    ensures var answer := Fetch(maps, hasKey, Origins(Located(couriers)));
            Times(RankCandidates(couriers, answer, straight, prep), id) == if Find(Located(couriers), id).Some? then 1 else 0
  {
    var located := Located(couriers);
    var origins := Origins(located);
    LocatedAreThose(couriers);
    RankConserves(couriers, Fetch(maps, hasKey, origins), straight, prep, id);
    HoldersOfDistinct(located, id);
    if Fetch(maps, hasKey, origins).Some? {
      FetchConserves(maps, hasKey, origins, id);
      OriginsCount(located, id);
    }
  }

  // ----- The rank that is kept between cycles -----

  /** A coordinate as the key shows it: rounded to four decimals, a minus sign even before zero. */
  datatype Shown = Shown(negative: bool, tenThousandths: int)

  function Show(v: real): Shown {
    if v < 0.0 then Shown(true, (-v * 10000.0 + 0.5).Floor) else Shown(false, (v * 10000.0 + 0.5).Floor)
  }

  /** That is the nearest number of tenthousandths. */
  lemma ShownIsNearest(v: real)
    ensures var n := Show(v).tenThousandths as real;
            -0.5 <= v * 10000.0 - (if Show(v).negative then -n else n) <= 0.5 && (Show(v).negative <==> v < 0.0)
  {
  }

  datatype KeyPart = KeyPart(id: string, lat: Shown, lng: Shown)

  function PartOf(c: Courier): KeyPart { KeyPart(c.id, Show(c.lat), Show(c.lng)) }

  /** The parts are sorted and joined into one string; as a value that is their multiset. */
  function CandidateKey(couriers: seq<Courier>): multiset<KeyPart> {
    if couriers == [] then multiset{} else CandidateKey(Front(couriers)) + multiset{PartOf(Last(couriers))}
  }

  datatype RankCache = RankCache(key: multiset<KeyPart>, rank: seq<Scored>)

  const NO_RANK := RankCache(multiset{}, [])

  /** What one cycle finds: the pool, and what the map service would answer. */
  datatype Pool = Pool(couriers: seq<Courier>, maps: Maps, hasKey: bool)

  /** The rank that a cycle makes anew. */
  function MadeBy(pool: Pool, straight: Courier -> int, prep: int): RankCache {
    var answer := Fetch(pool.maps, pool.hasKey, Origins(Located(pool.couriers)));
    RankCache(CandidateKey(pool.couriers), RankCandidates(pool.couriers, answer, straight, prep))
  }

  function Cycle(cache: RankCache, pool: Pool, straight: Courier -> int, prep: int): RankCache {
    if CandidateKey(pool.couriers) == cache.key then cache else MadeBy(pool, straight, prep)
  }

  function Cycles(pools: seq<Pool>, straight: Courier -> int, prep: int): RankCache {
    if pools == [] then NO_RANK else Cycle(Cycles(Front(pools), straight, prep), Last(pools), straight, prep)
  }

  const ZERO := Shown(false, 0)

  predicate ShownAtZero(c: Courier) { Show(c.lat) == ZERO && Show(c.lng) == ZERO }

  /** The key tells an unknown location from a known one. */
  predicate Telling(c: Courier) { HasLocation(c) ==> !ShownAtZero(c) }

  ghost predicate Sound(couriers: seq<Courier>) {
    DistinctIds(couriers) && forall c :: c in couriers ==> Telling(c)
  }

  /** The rank lists exactly the located couriers of a pool with the cache's key. */
  ghost predicate Fits(cache: RankCache, couriers: seq<Courier>, id: string) {
    && CandidateKey(couriers) == cache.key
    && Times(cache.rank, id) == if Find(Located(couriers), id).Some? then 1 else 0
  }

  lemma {:induction false} KeyHasParts(couriers: seq<Courier>)
    ensures forall p :: p in CandidateKey(couriers) <==> exists c :: c in couriers && PartOf(c) == p
    decreases |couriers|
  {
    if couriers != [] {
      KeyHasParts(Front(couriers));
      assert couriers == Front(couriers) + [Last(couriers)];
    }
  }

  lemma KeyTellsLocated(couriers: seq<Courier>, id: string)
    requires forall c :: c in couriers ==> Telling(c)
    ensures Find(Located(couriers), id).Some? <==>
            exists p :: p in CandidateKey(couriers) && p.id == id && !(p.lat == ZERO && p.lng == ZERO)
  {
    KeyHasParts(couriers);
    LocatedAreThose(couriers);
    if Find(Located(couriers), id).Some? {
      assert PartOf(Find(Located(couriers), id).value) in CandidateKey(couriers);
    }
    if p :| p in CandidateKey(couriers) && p.id == id && !(p.lat == ZERO && p.lng == ZERO) {
      var c :| c in couriers && PartOf(c) == p;
      assert c in Located(couriers);
    }
  }

  /** After any number of cycles the rank lists exactly the couriers of the last pool whose location is
      known, each once, whether it was made anew or kept. */
  lemma {:induction false} KeptRankIsCurrent(pools: seq<Pool>, straight: Courier -> int, prep: int, id: string)
    requires pools != [] && forall i :: 0 <= i < |pools| ==> Sound(pools[i].couriers)
    ensures Fits(Cycles(pools, straight, prep), Last(pools).couriers, id)
    decreases |pools|
  {
    var before := Cycles(Front(pools), straight, prep);
    var pool := Last(pools);
    if CandidateKey(pool.couriers) == before.key {
      KeyTellsLocated(pool.couriers, id);
      if |pools| == 1 {
        assert Times([], id) == 0;
      } else {
        KeptRankIsCurrent(Front(pools), straight, prep, id);
        KeyTellsLocated(Last(Front(pools)).couriers, id);
      }
    } else {
      EverybodyIsRankedOnce(pool.maps, pool.hasKey, pool.couriers, straight, prep, id);
    }
  }

  /** Kept for any pool with the same key, the rank is current. */
  ghost predicate SafeToKeep(made: RankCache) {
    forall next: seq<Courier>, id: string :: DistinctIds(next) && CandidateKey(next) == made.key ==> Fits(made, next, id)
  }

  lemma {:induction false} KeyOfUpdate(couriers: seq<Courier>, i: nat, c: Courier)
    requires i < |couriers| && PartOf(c) == PartOf(couriers[i])
    ensures CandidateKey(couriers[i := c]) == CandidateKey(couriers)
    decreases |couriers|
  {
    if i < |couriers| - 1 {
      assert Front(couriers[i := c]) == Front(couriers)[i := c];
      KeyOfUpdate(Front(couriers), i, c);
    } else {
      assert Front(couriers[i := c]) == Front(couriers);
    }
  }

  lemma OnlyHolder(couriers: seq<Courier>, i: nat)
    requires i < |couriers| && DistinctIds(couriers)
    ensures Find(Located(couriers), couriers[i].id).Some? <==> HasLocation(couriers[i])
  {
    LocatedAreThose(couriers);
    if HasLocation(couriers[i]) {
      assert couriers[i] in Located(couriers);
    }
  }

  /** The key's blind spot: the same pool, with a courier moved between nowhere and next to it. */
  lemma BlindSpot(couriers: seq<Courier>, i: nat) returns (next: seq<Courier>)
    requires i < |couriers| && DistinctIds(couriers) && ShownAtZero(couriers[i])
    ensures DistinctIds(next) && CandidateKey(next) == CandidateKey(couriers)
    ensures Find(Located(next), couriers[i].id).Some? != Find(Located(couriers), couriers[i].id).Some?
  {
    var c := couriers[i];
    var moved := c.(lat := if HasLocation(c) then 0.0 else 0.00001, lng := 0.0);
    assert Show(0.00001) == ZERO && Show(0.0) == ZERO;
    next := couriers[i := moved];
    KeyOfUpdate(couriers, i, moved);
    OnlyHolder(couriers, i);
    OnlyHolder(next, i);
  }

  lemma KeptWhileTelling(pool: Pool, straight: Courier -> int, prep: int, next: seq<Courier>, id: string)
    requires DistinctIds(pool.couriers) && (forall c :: c in pool.couriers ==> !ShownAtZero(c))
    requires CandidateKey(next) == CandidateKey(pool.couriers)
    ensures Fits(MadeBy(pool, straight, prep), next, id)
  {
    EverybodyIsRankedOnce(pool.maps, pool.hasKey, pool.couriers, straight, prep, id);
    KeyTellsLocated(pool.couriers, id);
    KeyHasParts(pool.couriers);
    KeyHasParts(next);
    forall c | c in next ensures Telling(c) {
      assert PartOf(c) in CandidateKey(next);
    }
    KeyTellsLocated(next, id);
  }

  /** A rank may be kept as long as the key stays the same exactly if no courier of its pool is shown at
      the unknown location. */
  lemma KeepingIsSafeExactly(pool: Pool, straight: Courier -> int, prep: int)
    requires DistinctIds(pool.couriers)
    ensures SafeToKeep(MadeBy(pool, straight, prep)) <==> forall c :: c in pool.couriers ==> !ShownAtZero(c)
  {
    var made := MadeBy(pool, straight, prep);
    if c :| c in pool.couriers && ShownAtZero(c) {
      var i :| 0 <= i < |pool.couriers| && pool.couriers[i] == c;
      var next := BlindSpot(pool.couriers, i);
      EverybodyIsRankedOnce(pool.maps, pool.hasKey, pool.couriers, straight, prep, c.id);
      assert !Fits(made, next, c.id);
    } else {
      forall next: seq<Courier>, id: string | DistinctIds(next) && CandidateKey(next) == made.key ensures Fits(made, next, id) {
        KeptWhileTelling(pool, straight, prep, next, id);
      }
    }
  }

  /** A courier who was at the unknown location and is first seen next to it looks the same to the key. */
  lemma KeyIsBlindAtZero(c: Courier, maps: Maps, straight: Courier -> int, prep: int)
    requires c.lat == 0.0 && c.lng == 0.0
    ensures var seen := c.(lat := 0.00001);
            && HasLocation(seen)
            && Cycles([Pool([c], maps, true), Pool([seen], maps, true)], straight, prep).rank == []
  {
    var seen := c.(lat := 0.00001);
    var first, second := Pool([c], maps, true), Pool([seen], maps, true);
    var kept := RankCache(multiset{PartOf(c)}, []);
    LocatedNowhere(c, maps, straight, prep);
    KeyOfOne(seen);
    assert Show(0.00001) == ZERO && PartOf(c) == PartOf(seen);
    TwoCycles(first, second, straight, prep);
    assert Cycle(kept, second, straight, prep) == kept;
  }

  lemma TwoCycles(first: Pool, second: Pool, straight: Courier -> int, prep: int)
    ensures Cycles([first, second], straight, prep) == Cycle(Cycle(NO_RANK, first, straight, prep), second, straight, prep)
  {
    assert Front([first, second]) == [first] && Front([first]) == [];
    assert Cycles([first], straight, prep) == Cycle(Cycles([], straight, prep), first, straight, prep);
  }

  lemma KeyOfOne(c: Courier)
    ensures CandidateKey([c]) == multiset{PartOf(c)}
  {
    assert Front([c]) == [];
  }

  lemma LocatedNowhere(c: Courier, maps: Maps, straight: Courier -> int, prep: int)
    requires c.lat == 0.0 && c.lng == 0.0
    ensures Cycle(NO_RANK, Pool([c], maps, true), straight, prep) == RankCache(multiset{PartOf(c)}, [])
  {
    KeyOfOne(c);
    assert Front([c]) == [];
    assert Located([c]) == [];
    assert PartOf(c) in CandidateKey([c]);
    NobodyToRank(Fetch(maps, true, Origins([])), straight, prep);
  }

  // ----- Open apps first -----

  type Reach = string -> bool

  function IsOpen(online: Reach): Scored -> bool { (c: Scored) => online(c.courier.id) }

  function IsClosed(online: Reach): Scored -> bool { (c: Scored) => !online(c.courier.id) }

  function OpenFirst(online: Reach): (Scored, Scored) -> bool {
    (a: Scored, b: Scored) => online(a.courier.id) && !online(b.courier.id)
  }

  function PreferOnline(ranked: seq<Scored>, reach: Option<Reach>): seq<Scored> {
    if reach == None || |ranked| < 2 then ranked else Sorting.SortStable(ranked, OpenFirst(reach.value))
  }

  /** Those with an open app, then the others, in both parts as they were ranked. */
  lemma PreferOnlineIsStablePartition(ranked: seq<Scored>, online: Reach)
    ensures PreferOnline(ranked, Some(online)) ==
            Sorting.Filter(ranked, IsOpen(online)) + Sorting.Filter(ranked, IsClosed(online))
  {
    if |ranked| >= 2 {
      SortedIsPartition(ranked, online);
    } else if |ranked| == 1 {
      assert ranked[1..] == [];
      assert Sorting.Filter(ranked[1..], IsOpen(online)) == [] && Sorting.Filter(ranked[1..], IsClosed(online)) == [];
    }
  }

  lemma SortedIsPartition(ranked: seq<Scored>, online: Reach)
    ensures Sorting.SortStable(ranked, OpenFirst(online)) ==
            Sorting.Filter(ranked, IsOpen(online)) + Sorting.Filter(ranked, IsClosed(online))
  {
    Sorting.SortIsStable(ranked, OpenFirst(online), IsOpen(online));
    Sorting.SortIsStable(ranked, OpenFirst(online), IsClosed(online));
    Sorting.SortIsOrderedPermutation(ranked, OpenFirst(online));
    TwoParts(Sorting.SortStable(ranked, OpenFirst(online)), online);
  }

  lemma {:induction false} TwoParts(r: seq<Scored>, online: Reach)
    requires forall i, j :: 0 <= i < j < |r| ==> !(online(r[j].courier.id) && !online(r[i].courier.id))
    ensures r == Sorting.Filter(r, IsOpen(online)) + Sorting.Filter(r, IsClosed(online))
  {
    if r != [] {
      TwoParts(r[1..], online);
      if !online(r[0].courier.id) {
        NoneOpen(r[1..], online);
      }
    }
  }

  lemma {:induction false} NoneOpen(r: seq<Scored>, online: Reach)
    requires forall i :: 0 <= i < |r| ==> !online(r[i].courier.id)
    ensures Sorting.Filter(r, IsOpen(online)) == []
  {
    if r != [] {
      NoneOpen(r[1..], online);
    }
  }

  // ----- Who is a candidate -----

  /** Whom the app or a push can reach. */
  function CanReach(reach: (Reach, Reach)): Courier -> bool { (c: Courier) => reach.0(c.id) || reach.1(c.id) }

  /** Who is not among the first ones, has no open app, and can be woken up. */
  function CanWake(near: seq<Courier>, reach: (Reach, Reach)): Courier -> bool {
    (c: Courier) => !HasId(near, c.id) && !reach.0(c.id) && reach.1(c.id)
  }

  predicate HasId(couriers: seq<Courier>, id: string) { exists i :: 0 <= i < |couriers| && couriers[i].id == id }

  lemma {:induction false} FilterOfDistinct(couriers: seq<Courier>, p: Courier -> bool)
    requires DistinctIds(couriers)
    ensures DistinctIds(Sorting.Filter(couriers, p))
  {
    if couriers != [] {
      var rest := couriers[1..];
      FilterOfDistinct(rest, p);
      Sorting.FilterMembers(rest, p);
      forall j | 0 <= j < |Sorting.Filter(rest, p)| ensures Sorting.Filter(rest, p)[j].id != couriers[0].id {
        assert Sorting.Filter(rest, p)[j] in rest;
      }
    }
  }

  /** Nobody is on both lists. */
  lemma TwoListsAreDistinct(near: seq<Courier>, more: seq<Courier>, reach: (Reach, Reach))
    requires DistinctIds(near) && DistinctIds(more)
    ensures DistinctIds(Sorting.Filter(near, CanReach(reach)) + Sorting.Filter(more, CanWake(near, reach)))
  {
    var a, b := Sorting.Filter(near, CanReach(reach)), Sorting.Filter(more, CanWake(near, reach));
    FilterOfDistinct(near, CanReach(reach));
    FilterOfDistinct(more, CanWake(near, reach));
    Sorting.FilterMembers(near, CanReach(reach));
    Sorting.FilterMembers(more, CanWake(near, reach));
    forall i, j | 0 <= i < |a| && 0 <= j < |b| ensures a[i].id != b[j].id {
      assert a[i] in near && b[j] in more && CanWake(near, reach)(b[j]);
      assert HasId(near, a[i].id) by {
        var k :| 0 <= k < |near| && near[k] == a[i];
        assert near[k].id == a[i].id;
      }
      assert !HasId(near, b[j].id);
    }
  }

  lemma OneMoreId(couriers: seq<Courier>, i: nat)
    requires i < |couriers|
    ensures forall id :: HasId(couriers[..i + 1], id) <==> HasId(couriers[..i], id) || id == couriers[i].id
  {
    assert couriers[..i + 1][i] == couriers[i];
    forall id | HasId(couriers[..i], id) ensures HasId(couriers[..i + 1], id) {
      var j :| 0 <= j < i && couriers[j].id == id;
      assert couriers[..i + 1][j].id == id;
    }
    forall id | HasId(couriers[..i + 1], id) && id != couriers[i].id ensures HasId(couriers[..i], id) {
      var j :| 0 <= j < i + 1 && couriers[j].id == id;
      assert couriers[..i][j].id == id;
    }
  }

  lemma FilterGrows(couriers: seq<Courier>, i: nat, p: Courier -> bool)
    requires i < |couriers|
    ensures Sorting.Filter(couriers[..i + 1], p) == Sorting.Filter(couriers[..i], p) + if p(couriers[i]) then [couriers[i]] else []
  {
    assert couriers[..i + 1] == couriers[..i] + [couriers[i]];
    Sorting.FilterConcat(couriers[..i], [couriers[i]], p);
  }

  /** Everybody near who can be reached, in the order of the first list, and then those of the second list,
      whose location is old, who can be woken up, in its order; nobody twice. */
  method Candidates(near: seq<Courier>, old_: Option<seq<Courier>>, reach: Option<(Reach, Reach)>) returns (out: seq<Courier>)
    requires DistinctIds(near) && (old_.Some? ==> DistinctIds(old_.value))
    ensures DistinctIds(out)
    ensures reach == None ==> out == near
    ensures reach.Some? ==>
              out == Sorting.Filter(near, CanReach(reach.value)) +
                     (if old_.Some? then Sorting.Filter(old_.value, CanWake(near, reach.value)) else [])
    ensures reach.Some? ==>
              var online, canPush := reach.value.0, reach.value.1;
              forall c :: c in out <==>
                (c in near && (online(c.id) || canPush(c.id)))
                || (old_.Some? && c in old_.value && canPush(c.id) && !online(c.id) && forall d :: d in near ==> d.id != c.id)
  {
    if reach == None {
      return near;
    }
    var online, canPush := reach.value.0, reach.value.1;
    out := [];
    var seen: set<string> := {};
    for i := 0 to |near|
      invariant out == Sorting.Filter(near[..i], CanReach(reach.value))
      invariant forall id :: id in seen <==> HasId(near[..i], id)
    {
      FilterGrows(near, i, CanReach(reach.value));
      OneMoreId(near, i);
      seen := seen + {near[i].id};
      if online(near[i].id) || canPush(near[i].id) {
        out := out + [near[i]];
      }
    }
    assert near[..|near|] == near;
    Sorting.FilterMembers(near, CanReach(reach.value));
    if old_ == None {
      FilterOfDistinct(near, CanReach(reach.value));
      return;
    }
    ghost var first := out;
    var more := old_.value;
    for i := 0 to |more|
      invariant out == first + Sorting.Filter(more[..i], CanWake(near, reach.value))
    {
      FilterGrows(more, i, CanWake(near, reach.value));
      var c := more[i];
      if c.id !in seen && !online(c.id) && canPush(c.id) {
        out := out + [c];
      }
    }
    assert more[..|more|] == more;
    TwoListsAreDistinct(near, more, reach.value);
    Sorting.FilterMembers(more, CanWake(near, reach.value));
    assert forall id :: HasId(near, id) <==> exists d :: d in near && d.id == id;
  }
}
