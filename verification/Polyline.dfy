/** The polyline decoder (decodePolyline and decodeValue, internal/httpapi/geoext.go) against an encoder
    written from Google's "Encoded Polyline Algorithm Format". */
module Polyline {
  // A point is its pair of coordinates in units of 1e-5 degrees; dividing by 1e5 is not modelled. The
  // decoder's `result`, `lat` and `lng` are 64-bit signed integers, so what they accumulate is reduced
  // to that range. Each five-bit chunk lands on bits that are still clear, so or-ing it in is adding
  // it.

  import opened Outcomes

  newtype byte = x: int | 0 <= x < 256

  datatype Point = Point(lat: int, lng: int)

  const TWO_63: int := 0x8000_0000_0000_0000
  const TWO_64: int := 0x1_0000_0000_0000_0000
  const TWO_62: int := 0x4000_0000_0000_0000

  /** The 64-bit signed integer with the same low bits. */
  function Wrap(x: int): (r: int)
    ensures -TWO_63 <= r < TWO_63
  {
    (x + TWO_63) % TWO_64 - TWO_63
  }

  lemma WrapSmall(x: int)
    requires -TWO_63 <= x < TWO_63
    ensures Wrap(x) == x
  {
  }

  /** Reducing early or late makes no difference. */
  lemma WrapOfSum(x: int, y: int)
    ensures Wrap(Wrap(x) + y) == Wrap(x + y)
  {
    var q := (x + TWO_63) / TWO_64;
    assert Wrap(x) == x - q * TWO_64;
    WrapShift(x + y, -q);
  }

  lemma WrapShift(x: int, k: int)
    ensures Wrap(x + k * TWO_64) == Wrap(x)
  {
    ModShift(x + TWO_63, k, TWO_64);
  }

  lemma ModShift(x: int, k: int, n: int)
    requires n > 0
    ensures (x + k * n) % n == x % n
  {
    var q, r := x / n, x % n;
    assert x + k * n == (q + k) * n + r;
    ModUnique(x + k * n, q + k, r, n);
  }

  lemma ModUnique(x: int, q: int, r: int, n: int)
    requires n > 0 && 0 <= r < n && x == q * n + r
    ensures x % n == r
  {
    var d := x / n - q;
    assert d * n == r - x % n;
    if d != 0 {
      BigMultiple(d, n);
    }
  }

  lemma BigMultiple(d: int, n: int)
    requires n > 0 && d != 0
    ensures d * n >= n || d * n <= -n
  {
    if d >= 1 {
      assert d * n >= n;
    } else {
      assert -d * n >= n;
    }
  }

  function Pow32(n: nat): (r: int)
    ensures r >= 1
  {
    if n == 0 then 1 else 32 * Pow32(n - 1)
  }

  // ----- The format -----

  /** Five bits at a time, the low ones first; every chunk but the last says that more follow. */
  function EncodeUnsigned(z: nat): seq<byte> {
    if z < 32 then [(z + 63) as byte] else [(z % 32 + 32 + 63) as byte] + EncodeUnsigned(z / 32)
  }

  /** Shifted left by one and inverted if negative. */
  function ZigZag(d: int): nat {
    if d < 0 then -2 * d - 1 else 2 * d
  }

  function UnZigZag(z: int): int {
    if z % 2 != 0 then -(z / 2) - 1 else z / 2
  }

  function EncodeValue(d: int): seq<byte> { EncodeUnsigned(ZigZag(d)) }

  function EncodePoint(from: Point, to: Point): seq<byte> {
    EncodeValue(to.lat - from.lat) + EncodeValue(to.lng - from.lng)
  }

  function EncodeFrom(from: Point, points: seq<Point>): seq<byte>
    decreases |points|
  {
    if points == [] then [] else EncodePoint(from, points[0]) + EncodeFrom(points[0], points[1..])
  }

  const ORIGIN := Point(0, 0)

  function Encode(points: seq<Point>): seq<byte> { EncodeFrom(ORIGIN, points) }

  // ----- What the decoder computes -----

  /** The sum of the chunks up to and including the first that says it is the last, and how many bytes
      that took; nothing if the bytes end before. */
  function ReadChunks(s: seq<byte>): (r: Option<(int, nat)>)
    ensures r.Some? ==> 0 < r.value.1 <= |s|
  {
    if s == [] then None
    else
      var b := s[0] as int - 63;
      if b < 0x20 then Some((b % 32, 1))
      else
        match ReadChunks(s[1..])
        case None => None
        case Some((v, n)) => Some((b % 32 + 32 * v, n + 1))
  }

  function ReadValue(s: seq<byte>): (r: Option<(int, nat)>)
    ensures r.Some? ==> 0 < r.value.1 <= |s|
  {
    match ReadChunks(s)
    case None => None
    case Some((z, n)) => Some((UnZigZag(Wrap(z)), n))
  }

  /** The next point and the bytes it takes; nothing unless both coordinates are complete. */
  function ReadPoint(from: Point, s: seq<byte>): (r: Option<(Point, nat)>)
    ensures r.Some? ==> 0 < r.value.1 <= |s|
  {
    match ReadValue(s)
    case None => None
    case Some((dlat, n)) =>
      match ReadValue(s[n..])
      case None => None
      case Some((dlng, k)) => Some((Point(Wrap(from.lat + dlat), Wrap(from.lng + dlng)), n + k))
  }

  function ReadPoints(from: Point, s: seq<byte>): seq<Point>
    decreases |s|
  {
    match ReadPoint(from, s)
    case None => []
    case Some((p, n)) => [p] + ReadPoints(p, s[n..])
  }

  // ----- The decoder -----

  /** `sum` has been read in k chunks before `index`; what remains completes the value, or does not. */
  ghost predicate HaveRead(encoded: seq<byte>, start: nat, k: nat, sum: int)
    requires start + k <= |encoded|
  {
    match ReadChunks(encoded[start + k..])
    case None => ReadChunks(encoded[start..]) == None
    case Some((v, n)) => ReadChunks(encoded[start..]) == Some((sum + Pow32(k) * v, k + n))
  }

  lemma FirstChunk(s: seq<byte>)
    requires s != []
    ensures var b := s[0] as int - 63;
            ReadChunks(s) ==
            if b < 0x20 then Some((b % 32, 1))
            else match ReadChunks(s[1..]) case None => None case Some((v, n)) => Some((b % 32 + 32 * v, n + 1))
  {
  }

  lemma ReadOneChunk(encoded: seq<byte>, start: nat, k: nat, sum: int)
    requires start + k < |encoded| && HaveRead(encoded, start, k, sum)
    ensures var b := encoded[start + k] as int - 63;
            var sum' := sum + b % 32 * Pow32(k);
            if b < 0x20 then ReadChunks(encoded[start..]) == Some((sum', k + 1)) else HaveRead(encoded, start, k + 1, sum')
  {
    var b := encoded[start + k] as int - 63;
    var s, t := encoded[start + k..], encoded[start + k + 1..];
    assert s[0] == encoded[start + k] && s[1..] == t;
    FirstChunk(s);
    if b < 0x20 {
      assert Pow32(k) * (b % 32) == b % 32 * Pow32(k);
    } else if ReadChunks(t).Some? {
      var v := ReadChunks(t).value.0;
      Distribute(Pow32(k), b % 32, v);
      assert Pow32(k + 1) == 32 * Pow32(k);
    }
  }

  lemma Distribute(p: int, c: int, v: int)
    ensures p * (c + 32 * v) == c * p + 32 * p * v
  {
    assert p * (c + 32 * v) == p * c + p * (32 * v);
    assert p * (32 * v) == 32 * p * v;
  }

  method DecodeValue(encoded: seq<byte>, start: nat) returns (value: int, next: nat, ok: bool)
    requires start <= |encoded|
    ensures ok ==> start < next <= |encoded| && ReadValue(encoded[start..]) == Some((value, next - start))
    ensures !ok ==> ReadValue(encoded[start..]) == None && value == 0 && next == |encoded|
  {
    var index, k, result := start, 0, 0;
    ghost var sum := 0;
    while true
      invariant start <= index <= |encoded| && index == start + k
      invariant result == Wrap(sum)
      invariant HaveRead(encoded, start, k, sum)
      decreases |encoded| - index
    {
      if index >= |encoded| {
        return 0, index, false;
      }
      var b := encoded[index] as int - 63;
      ReadOneChunk(encoded, start, k, sum);
      WrapOfSum(sum, b % 32 * Pow32(k));
      index := index + 1;
      result := Wrap(result + b % 32 * Pow32(k));
      sum := sum + b % 32 * Pow32(k);
      k := k + 1;
      if b < 0x20 {
        break;
      }
    }
    if result % 2 != 0 {
      return -(result / 2) - 1, index, true;
    }
    return result / 2, index, true;
  }

  /** What is read so far, and what remains after the byte at `index`, make up the whole line. */
  ghost predicate Decoded(encoded: seq<byte>, index: nat, points: seq<Point>, here: Point)
    requires index <= |encoded|
  {
    points + ReadPoints(here, encoded[index..]) == ReadPoints(ORIGIN, encoded)
  }

  lemma NothingDecoded(encoded: seq<byte>)
    ensures Decoded(encoded, 0, [], ORIGIN)
  {
    assert encoded[0..] == encoded;
    assert [] + ReadPoints(ORIGIN, encoded) == ReadPoints(ORIGIN, encoded);
  }

  lemma DecodedOneMore(encoded: seq<byte>, index: nat, points: seq<Point>, here: Point, p: Point, after: nat)
    requires index < after <= |encoded| && Decoded(encoded, index, points, here)
    requires ReadPoint(here, encoded[index..]) == Some((p, after - index))
    ensures Decoded(encoded, after, points + [p], p)
  {
    var rest := ReadPoints(p, encoded[after..]);
    assert ReadPoints(here, encoded[index..]) == [p] + rest by {
      assert encoded[index..][after - index..] == encoded[after..];
    }
    assert points + ([p] + rest) == points + [p] + rest;
  }

  lemma DecodedAll(encoded: seq<byte>, index: nat, points: seq<Point>, here: Point)
    requires index <= |encoded| && Decoded(encoded, index, points, here)
    requires ReadPoint(here, encoded[index..]) == None
    ensures points == ReadPoints(ORIGIN, encoded)
  {
    assert points + [] == points;
  }

  lemma TwoValues(here: Point, encoded: seq<byte>, index: nat, dlat: int, next: nat, dlng: int, after: nat)
    requires index < next < after <= |encoded|
    requires ReadValue(encoded[index..]) == Some((dlat, next - index))
    requires ReadValue(encoded[next..]) == Some((dlng, after - next))
    ensures ReadPoint(here, encoded[index..]) == Some((Point(Wrap(here.lat + dlat), Wrap(here.lng + dlng)), after - index))
  {
    assert encoded[index..][next - index..] == encoded[next..];
  }

  lemma HalfAPoint(here: Point, encoded: seq<byte>, index: nat, dlat: int, next: nat)
    requires index < next <= |encoded|
    requires ReadValue(encoded[index..]) == Some((dlat, next - index)) && ReadValue(encoded[next..]) == None
    ensures ReadPoint(here, encoded[index..]) == None
  {
    assert encoded[index..][next - index..] == encoded[next..];
  }

  /** Total on any bytes, and never reads past their end. */
  method DecodePolyline(encoded: seq<byte>) returns (points: seq<Point>)
    ensures points == ReadPoints(ORIGIN, encoded)
  {
    points := [];
    var index, lat, lng := 0, 0, 0;
    NothingDecoded(encoded);
    while index < |encoded|
      invariant 0 <= index <= |encoded|
      invariant Decoded(encoded, index, points, Point(lat, lng))
      decreases |encoded| - index
    {
      ghost var here := Point(lat, lng);
      var dlat, next, ok := DecodeValue(encoded, index);
      if !ok {
        DecodedAll(encoded, index, points, here);
        return;
      }
      lat := Wrap(lat + dlat);
      var dlng, after, ok2 := DecodeValue(encoded, next);
      if !ok2 {
        HalfAPoint(here, encoded, index, dlat, next);
        DecodedAll(encoded, index, points, here);
        return;
      }
      lng := Wrap(lng + dlng);
      TwoValues(here, encoded, index, dlat, next, dlng, after);
      DecodedOneMore(encoded, index, points, here, Point(lat, lng), after);
      index := after;
      points := points + [Point(lat, lng)];
    }
    DecodedAll(encoded, index, points, Point(lat, lng));
  }

  // ----- Round trips -----

  lemma {:induction false} ChunksRoundTrip(z: nat, rest: seq<byte>)
    ensures ReadChunks(EncodeUnsigned(z) + rest) == Some((z, |EncodeUnsigned(z)|))
  {
    var s := EncodeUnsigned(z) + rest;
    if z >= 32 {
      ChunksRoundTrip(z / 32, rest);
      assert s[0] as int == z % 32 + 95;
      assert s[1..] == EncodeUnsigned(z / 32) + rest;
    } else {
      assert s[0] as int == z + 63;
    }
  }

  /** A cut encoding is recognized as cut. */
  lemma {:induction false} CutChunks(z: nat, k: nat)
    requires k < |EncodeUnsigned(z)|
    ensures ReadChunks(EncodeUnsigned(z)[..k]) == None
  {
    var s := EncodeUnsigned(z)[..k];
    if k > 0 {
      assert z >= 32;
      CutChunks(z / 32, k - 1);
      assert s[0] as int == z % 32 + 95;
      assert s[1..] == EncodeUnsigned(z / 32)[..k - 1];
    }
  }

  predicate IsInt64(x: int) { -TWO_63 <= x < TWO_63 }

  /** Around the circle of 64-bit integers the step takes 63 bits: the sign takes one of the 64, and the
      decoder shifts arithmetically. */
  predicate ShortStep(d: int) { -TWO_62 <= Wrap(d) < TWO_62 }

  lemma WrapIsCongruent(x: int) returns (k: int)
    ensures Wrap(x) == x - k * TWO_64
  {
    k := (x + TWO_63) / TWO_64;
  }

  /** Doubling goes around the circle of 64-bit integers once, for the far half of it. */
  lemma WrapDouble(w: int)
    requires -TWO_63 <= w < TWO_63
    ensures Wrap(2 * w) == 2 * w + if w < -TWO_62 then TWO_64 else if w >= TWO_62 then -TWO_64 else 0
    ensures Wrap(-2 * w - 1) == -2 * w - 1 + if w < -TWO_62 then -TWO_64 else if w >= TWO_62 then TWO_64 else 0
  {
    var up := if w < -TWO_62 then 1 else if w >= TWO_62 then -1 else 0;
    WrapShift(2 * w, up);
    WrapShift(-2 * w - 1, -up);
    WrapSmall(2 * w + up * TWO_64);
    WrapSmall(-2 * w - 1 - up * TWO_64);
  }

  lemma UnZigZagHalves(w: int, up: int)
    requires -1 <= up <= 1
    ensures UnZigZag(2 * w + up * TWO_64) == w + up * TWO_63
    ensures UnZigZag(-2 * w - 1 - up * TWO_64) == w + up * TWO_63
  {
    assert 2 * w + up * TWO_64 == 2 * (w + up * TWO_63);
  }

  /** What the decoder makes of a step: the step itself around the circle, or half a circle away from it. */
  lemma StepOrHalfCircle(d: int)
    ensures UnZigZag(Wrap(ZigZag(d))) ==
            Wrap(d) + if Wrap(d) < -TWO_62 then TWO_63 else if Wrap(d) >= TWO_62 then -TWO_63 else 0
  {
    var k := WrapIsCongruent(d);
    var w := Wrap(d);
    var up := if w < -TWO_62 then 1 else if w >= TWO_62 then -1 else 0;
    WrapDouble(w);
    UnZigZagHalves(w, up);
    if d >= 0 {
      assert ZigZag(d) == 2 * w + 2 * k * TWO_64;
      WrapShift(2 * w, 2 * k);
    } else {
      assert ZigZag(d) == -2 * w - 1 + -2 * k * TWO_64;
      WrapShift(-2 * w - 1, -2 * k);
    }
  }

  lemma ValueRoundTrip(d: int, rest: seq<byte>)
    ensures ReadValue(EncodeValue(d) + rest) == Some((UnZigZag(Wrap(ZigZag(d))), |EncodeValue(d)|))
  {
    ChunksRoundTrip(ZigZag(d), rest);
  }

  /** A coordinate arrives exactly if it is a 64-bit integer and the step to it is short. */
  lemma CoordinateRoundTrip(from: int, to: int)
    ensures Wrap(from + UnZigZag(Wrap(ZigZag(to - from)))) == to <==> IsInt64(to) && ShortStep(to - from)
  {
    var d := to - from;
    var r := UnZigZag(Wrap(ZigZag(d)));
    StepOrHalfCircle(d);
    var k := WrapIsCongruent(d);
    WrapShift(to, -k);
    assert from + Wrap(d) == to + -k * TWO_64;
    if ShortStep(d) {
      if IsInt64(to) {
        WrapSmall(to);
      }
    } else {
      WrapOfSum(from + Wrap(d), r - Wrap(d));
      assert Wrap(from + r) == Wrap(Wrap(to) + (r - Wrap(d)));
    }
  }

  /** Every point has 64-bit coordinates and is a short step from the one before. */
  predicate Encodable(from: Point, points: seq<Point>)
    decreases |points|
  {
    points == [] || (Fits(from, points[0]) && Encodable(points[0], points[1..]))
  }

  predicate Fits(from: Point, to: Point) {
    IsInt64(to.lat) && IsInt64(to.lng) && ShortStep(to.lat - from.lat) && ShortStep(to.lng - from.lng)
  }

  lemma ReadBack(from: Point, to: Point, rest: seq<byte>)
    ensures var lat, lng := UnZigZag(Wrap(ZigZag(to.lat - from.lat))), UnZigZag(Wrap(ZigZag(to.lng - from.lng)));
            ReadPoint(from, EncodePoint(from, to) + rest) ==
            Some((Point(Wrap(from.lat + lat), Wrap(from.lng + lng)), |EncodePoint(from, to)|))
  {
    var a, b := EncodeValue(to.lat - from.lat), EncodeValue(to.lng - from.lng);
    var s := EncodePoint(from, to) + rest;
    assert s == a + (b + rest);
    ValueRoundTrip(to.lat - from.lat, b + rest);
    assert s[|a|..] == b + rest;
    ValueRoundTrip(to.lng - from.lng, rest);
  }

  /** One point comes back exactly if it fits, and always takes its own bytes. */
  lemma PointRoundTrip(from: Point, to: Point, rest: seq<byte>)
    ensures ReadPoint(from, EncodePoint(from, to) + rest).Some?
    ensures ReadPoint(from, EncodePoint(from, to) + rest).value.1 == |EncodePoint(from, to)|
    ensures ReadPoint(from, EncodePoint(from, to) + rest).value.0 == to <==> Fits(from, to)
  {
    ReadBack(from, to, rest);
    CoordinateRoundTrip(from.lat, to.lat);
    CoordinateRoundTrip(from.lng, to.lng);
  }

  /** Lines over the globe are far from these bounds. */
  lemma GlobeFits(from: Point, to: Point)
    requires -TWO_62 / 2 <= from.lat < TWO_62 / 2 && -TWO_62 / 2 <= from.lng < TWO_62 / 2
    requires -TWO_62 / 2 <= to.lat < TWO_62 / 2 && -TWO_62 / 2 <= to.lng < TWO_62 / 2
    ensures Fits(from, to)
  {
    WrapSmall(to.lat - from.lat);
    WrapSmall(to.lng - from.lng);
  }

  /** Too short for the next point. */
  lemma CutPoint(from: Point, to: Point, k: nat)
    requires k < |EncodePoint(from, to)|
    ensures ReadPoint(from, EncodePoint(from, to)[..k]) == None
  {
    var a, b := EncodeValue(to.lat - from.lat), EncodeValue(to.lng - from.lng);
    var s := EncodePoint(from, to)[..k];
    if k < |a| {
      assert s == a[..k];
      CutChunks(ZigZag(to.lat - from.lat), k);
    } else {
      assert s == a + b[..k - |a|];
      ValueRoundTrip(to.lat - from.lat, b[..k - |a|]);
      assert s[|a|..] == b[..k - |a|];
      CutChunks(ZigZag(to.lng - from.lng), k - |a|);
    }
  }

  /** How many points are complete in the first k bytes of a line's encoding. */
  function CompletePoints(from: Point, points: seq<Point>, k: nat): (n: nat)
    ensures n <= |points|
    decreases |points|
  {
    if points == [] || k < |EncodePoint(from, points[0])| then 0
    else 1 + CompletePoints(points[0], points[1..], k - |EncodePoint(from, points[0])|)
  }

  /** CompletePoints counts: the first n encodings fit into k bytes and the first n + 1 do not. */
  lemma {:induction false} CompleteMeansFits(from: Point, points: seq<Point>, k: nat)
    ensures var n := CompletePoints(from, points, k);
            && |EncodeFrom(from, points[..n])| <= k
            && (n < |points| ==> k < |EncodeFrom(from, points[..n + 1])|)
    decreases |points|
  {
    if points != [] {
      var here := |EncodePoint(from, points[0])|;
      if k >= here {
        CompleteMeansFits(points[0], points[1..], k - here);
        var n := CompletePoints(points[0], points[1..], k - here);
        assert CompletePoints(from, points, k) == n + 1;
        EncodingOfPrefix(from, points, n);
        if n + 1 < |points| {
          EncodingOfPrefix(from, points, n + 1);
        }
      } else {
        EncodingOfPrefix(from, points, 0);
      }
    }
  }

  lemma EncodingOfPrefix(from: Point, points: seq<Point>, n: nat)
    requires n < |points|
    ensures |EncodeFrom(from, points[..n + 1])| == |EncodePoint(from, points[0])| + |EncodeFrom(points[0], points[1..][..n])|
  {
    assert points[..n + 1][1..] == points[1..][..n];
  }

  lemma {:induction false} CutLine(from: Point, points: seq<Point>, k: nat)
    requires Encodable(from, points) && k <= |EncodeFrom(from, points)|
    ensures ReadPoints(from, EncodeFrom(from, points)[..k]) == points[..CompletePoints(from, points, k)]
    decreases |points|
  {
    if points == [] {
      assert EncodeFrom(from, points)[..k] == [];
    } else {
      var head, tail := EncodePoint(from, points[0]), EncodeFrom(points[0], points[1..]);
      var s := EncodeFrom(from, points)[..k];
      if k < |head| {
        assert s == head[..k];
        CutPoint(from, points[0], k);
      } else {
        var j := k - |head|;
        assert s == head + tail[..j] && s[|head|..] == tail[..j];
        PointRoundTrip(from, points[0], tail[..j]);
        CutLine(points[0], points[1..], j);
        var n := CompletePoints(points[0], points[1..], j);
        assert [points[0]] + points[1..][..n] == points[..n + 1];
      }
    }
  }

  /** However an encoded line is cut, the decoder returns exactly the points that are complete. */
  lemma TruncationKeepsCompletePoints(points: seq<Point>, k: nat)
    requires Encodable(ORIGIN, points) && k <= |Encode(points)|
    ensures ReadPoints(ORIGIN, Encode(points)[..k]) == points[..CompletePoints(ORIGIN, points, k)]
  {
    CutLine(ORIGIN, points, k);
  }

  lemma ReadsOn(from: Point, to: Point, tail: seq<byte>)
    ensures var s := EncodePoint(from, to) + tail;
            && ReadPoint(from, s).Some?
            && ReadPoints(from, s) == [ReadPoint(from, s).value.0] + ReadPoints(ReadPoint(from, s).value.0, tail)
  {
    var s := EncodePoint(from, to) + tail;
    PointRoundTrip(from, to, tail);
    assert s[|EncodePoint(from, to)|..] == tail;
  }

  lemma {:induction false} LineRoundTrip(from: Point, points: seq<Point>)
    ensures ReadPoints(from, EncodeFrom(from, points)) == points <==> Encodable(from, points)
    decreases |points|
  {
    if points != [] {
      var to := points[0];
      var tail := EncodeFrom(to, points[1..]);
      var s := EncodePoint(from, to) + tail;
      PointRoundTrip(from, to, tail);
      var p := ReadPoint(from, s).value.0;
      ReadsOn(from, to, tail);
      var read := ReadPoints(from, s);
      assert read[0] == p && read[1..] == ReadPoints(p, tail);
      LineRoundTrip(to, points[1..]);
      assert points == [to] + points[1..];
    }
  }

  /** Decoding inverts encoding exactly when every coordinate is a 64-bit integer and every step, around the
      circle of these, takes at most 63 bits. */
  lemma PolylineRoundTrip(points: seq<Point>)
    ensures ReadPoints(ORIGIN, Encode(points)) == points <==> Encodable(ORIGIN, points)
  {
    LineRoundTrip(ORIGIN, points);
  }
}
