/** Zend_View_Helper_Duration: the split of a duration in seconds into years, weeks, days, hours,
    minutes and seconds, down to a chosen unit, with the rest of that unit rounded into it. The
    duration is given as its value in seconds (Zend_Measure_Time's conversion is not part of this
    model), and the rendering through a printf-style format is left out. */
module Duration {
  import opened Wrappers
  import opened Php

  /** The unit sizes in seconds, largest first, and the Zend_Measure_Time names they are chosen by.
      A year is 52 weeks. */
  const Sizes: seq<int> := [31449600, 604800, 86400, 3600, 60, 1]
  const UnitNames: seq<string> := ["YEAR", "WEEK", "DAY", "HOUR", "MINUTE", "SECOND"]

  const DefaultFormat: string := "%D"

  // ---------------------------------------------------------------------------------------------
  // setResolution

  /** `array_search($resolution, $resolutions)` from unit k on: the size of the first unit whose
      name the value loosely equals, or 1 when there is none. */
  function SearchFrom(resolution: Value, k: nat): (size: int)
    requires k <= |Sizes|
    ensures size in Sizes
    decreases |Sizes| - k
  {
    if k == |Sizes| then 1
    else if LooselyEqualsString(resolution, UnitNames[k]) then Sizes[k]
    else SearchFrom(resolution, k + 1)
  }

  /** The size setResolution stores. */
  function SizeFor(resolution: Value): (size: int)
    ensures size in Sizes
  {
    SearchFrom(resolution, 0)
  }

  lemma NoNameIsNumeric(i: nat)
    requires i < |UnitNames|
    ensures !IsNumeric(Str(UnitNames[i]))
  {
    var u := UnitNames[i];
    assert forall k :: 0 <= k < |u| ==> !IsDigit(u[k]);
  }

  lemma NamesDistinct(i: nat, k: nat)
    requires i < |UnitNames| && k < |UnitNames| && i != k
    ensures UnitNames[i] != UnitNames[k]
  {
    assert UnitNames[i][0] != UnitNames[k][0] || UnitNames[i][1] != UnitNames[k][1];
  }

  /** Each unit name selects its own size. */
  lemma {:induction false} SizeForNames(i: nat)
    requires i < |UnitNames|
    ensures SizeFor(Str(UnitNames[i])) == Sizes[i]
  {
    forall k | 0 <= k < i
      ensures !LooselyEqualsString(Str(UnitNames[i]), UnitNames[k])
    {
      NoNameIsNumeric(i);
      NamesDistinct(i, k);
    }
    SearchSkips(Str(UnitNames[i]), 0, i);
    assert LooselyEqualsString(Str(UnitNames[i]), UnitNames[i]);
  }

  lemma {:induction false} SearchSkips(resolution: Value, k: nat, i: nat)
    requires k <= i < |Sizes|
    requires forall j :: k <= j < i ==> !LooselyEqualsString(resolution, UnitNames[j])
    ensures SearchFrom(resolution, k) == SearchFrom(resolution, i)
    decreases i - k
  {
    if k < i {
      SearchSkips(resolution, k + 1, i);
    }
  }

  /** A string that is no unit name falls back to seconds. */
  lemma SizeForOthers(s: string)
    requires s !in UnitNames
    ensures SizeFor(Str(s)) == 1
  {
    forall k | 0 <= k < |UnitNames|
      ensures !LooselyEqualsString(Str(s), UnitNames[k])
    {
      NoNameIsNumeric(k);
    }
    SearchSkips(Str(s), 0, |Sizes| - 1);
  }

  /** The loose comparison lets the integer 0 and `true` select years: "YEAR" is not a number, so it
      compares as 0 with an integer, and it is a non-empty string, so it compares as true with a
      boolean. */
  lemma LooseValuesSelectYears()
    ensures SizeFor(Int(0)) == Sizes[0] && SizeFor(Bool(true)) == Sizes[0]
  {
    NoNameIsNumeric(0);
    assert LooselyEqualsString(Int(0), UnitNames[0]);
    assert LooselyEqualsString(Bool(true), UnitNames[0]);
  }

  // ---------------------------------------------------------------------------------------------
  // chunk

  /** The whole amounts of each unit from unit k down to the stopping unit, and what is left below
      the stopping unit. */
  datatype Split = Split(parts: seq<int>, rest: int)

  /** `floor($n / $d)` and what it leaves, `$n - $d * floor($n / $d)`, for a positive divisor. */
  function DivFloor(n: int, d: int): (qr: (int, int))
    requires 0 < d
    ensures qr.0 * d + qr.1 == n && 0 <= qr.1 < d
  {
    (n / d, n % d)
  }

  /** The loop of chunk from unit k on, with `remainder` seconds left: each unit takes the floor
      of the remainder by its size, and the loop stops at the chosen size or at seconds. Its guard
      compares an undefined variable, null, with the remainder, and null is never greater, so it
      always holds. */
  function SplitFrom(remainder: int, k: nat, size: int): (s: Split)
    requires k < |Sizes|
    ensures 1 <= |s.parts| <= |Sizes| - k
    decreases |Sizes| - k
  {
    var qr := DivFloor(remainder, Sizes[k]);
    if Sizes[k] == size || Sizes[k] == 1 then Split([qr.0], qr.1)
    else
      var tail := SplitFrom(qr.1, k + 1, size);
      Split([qr.0] + tail.parts, tail.rest)
  }

  /** `round($x, $precision)` for x >= 0: to the nearest multiple of 10^-precision, halves upwards. */
  function Round(x: real, precision: int): real
    requires 0.0 <= x
  {
    if precision >= 0 then (x * Pow10(precision) as real + 0.5).Floor as real / Pow10(precision) as real
    else (x / Pow10(-precision) as real + 0.5).Floor as real * Pow10(-precision) as real
  }

  /** `$remainder / $size` as a number of the unit. */
  function Fraction(rest: int, size: int): (x: real)
    requires 0 <= rest && 0 < size
    ensures 0.0 <= x && (rest < size ==> x < 1.0) && x * size as real == rest as real
  {
    rest as real / size as real
  }

  /** The chunks: the whole amount of each unit down to the stopping unit, which also gains the rest
      rounded as a fraction of it; the smaller units stay 0. */
  function ChunksOf(seconds: int, size: int, precision: int): (chunks: seq<real>)
    ensures |chunks| == |Sizes|
  {
    var s := SplitFrom(seconds, 0, size);
    var last := |s.parts| - 1;
    SplitRestBounds(seconds, 0, size);
    seq(|Sizes|, i requires 0 <= i < |Sizes| =>
      if i < last then s.parts[i] as real
      else if i == last then s.parts[i] as real + Round(Fraction(s.rest, Sizes[i]), precision)
      else 0.0)
  }

  /** `Σ parts[j] · Sizes[k + j]` */
  function Weighted(parts: seq<int>, k: nat): int
    requires k + |parts| <= |Sizes|
  {
    if parts == [] then 0 else parts[0] * Sizes[k] + Weighted(parts[1..], k + 1)
  }

  /** How many of each unit make the next larger one: a year is 52 weeks, a week 7 days, a day 24
      hours, an hour 60 minutes and a minute 60 seconds. */
  const Ratios: seq<int> := [52, 7, 24, 60, 60]

  lemma RatiosLink(k: nat)
    requires k + 1 < |Sizes|
    ensures Sizes[k] == Ratios[k] * Sizes[k + 1]
  {
  }

  /** Each unit after the first holds fewer than make one of the unit before it. */
  predicate WithinUnits(parts: seq<int>, k: nat)
    requires k + |parts| <= |Sizes|
  {
    forall j :: 1 <= j < |parts| ==> 0 <= parts[j] < Ratios[k + j - 1]
  }

  lemma {:induction false} SplitRestBounds(remainder: int, k: nat, size: int)
    requires k < |Sizes|
    ensures 0 <= SplitFrom(remainder, k, size).rest < Sizes[k + |SplitFrom(remainder, k, size).parts| - 1]
    decreases |Sizes| - k
  {
    var qr := DivFloor(remainder, Sizes[k]);
    if !(Sizes[k] == size || Sizes[k] == 1) {
      SplitRestBounds(qr.1, k + 1, size);
    }
  }

  /** A quotient of what is left below R units of d is below R. */
  lemma QuotientBelow(n: int, d: int, ratio: int)
    requires 0 < d && 0 <= n < ratio * d
    ensures 0 <= DivFloor(n, d).0 < ratio
  {
  }

  lemma SplitUnfolds(remainder: int, k: nat, size: int)
    requires k < |Sizes|
    ensures var qr := DivFloor(remainder, Sizes[k]);
      SplitFrom(remainder, k, size) == if Sizes[k] == size || Sizes[k] == 1 then Split([qr.0], qr.1)
        else Split([qr.0] + SplitFrom(qr.1, k + 1, size).parts, SplitFrom(qr.1, k + 1, size).rest)
  {
  }

  /** The split of `seconds` so far: the whole amounts down to unit k - 1, and the split of what
      is left from unit k on. */
  ghost predicate SplitSoFar(seconds: int, size: int, whole: seq<int>, remainder: int, k: nat)
    requires k < |Sizes|
  {
    SplitFrom(seconds, 0, size) == Split(whole + SplitFrom(remainder, k, size).parts, SplitFrom(remainder, k, size).rest)
  }

  /** One step of the split: at the stopping unit it is complete, before it it goes on. */
  lemma SplitAdvances(seconds: int, size: int, whole: seq<int>, remainder: int, k: nat)
    requires k < |Sizes| && SplitSoFar(seconds, size, whole, remainder, k)
    ensures var qr := DivFloor(remainder, Sizes[k]);
      if Sizes[k] == size || Sizes[k] == 1 then SplitFrom(seconds, 0, size) == Split(whole + [qr.0], qr.1)
      else k + 1 < |Sizes| && SplitSoFar(seconds, size, whole + [qr.0], qr.1, k + 1)
  {
    var qr := DivFloor(remainder, Sizes[k]);
    SplitUnfolds(remainder, k, size);
    if !(Sizes[k] == size || Sizes[k] == 1) {
      assert whole + ([qr.0] + SplitFrom(qr.1, k + 1, size).parts) == (whole + [qr.0]) + SplitFrom(qr.1, k + 1, size).parts;
    }
  }

  /** The chunks add back up to the duration: the whole amounts weighted by their sizes, plus what
      is left below the stopping unit; and each unit below the first is within its range. */
  lemma {:induction false} SplitIsExact(remainder: int, k: nat, size: int)
    requires k < |Sizes|
    ensures Weighted(SplitFrom(remainder, k, size).parts, k) + SplitFrom(remainder, k, size).rest == remainder
    ensures WithinUnits(SplitFrom(remainder, k, size).parts, k)
    decreases |Sizes| - k
  {
    var qr := DivFloor(remainder, Sizes[k]);
    var s := SplitFrom(remainder, k, size);
    if Sizes[k] == size || Sizes[k] == 1 {
      assert s.parts == [qr.0] && s.parts[1..] == [];
    } else {
      var tail := SplitFrom(qr.1, k + 1, size);
      SplitIsExact(qr.1, k + 1, size);
      assert s.parts == [qr.0] + tail.parts && s.parts[1..] == tail.parts;
      RatiosLink(k);
      QuotientBelow(qr.1, Sizes[k + 1], Ratios[k]);
      assert tail.parts[0] == DivFloor(qr.1, Sizes[k + 1]).0;
      forall j | 1 <= j < |s.parts|
        ensures 0 <= s.parts[j] < Ratios[k + j - 1]
      {
        assert s.parts[j] == tail.parts[j - 1];
      }
    }
  }

  /** The stopping unit is the chosen one, or seconds when the size chosen is no unit. */
  lemma {:induction false} SplitStops(remainder: int, k: nat, i: nat)
    requires k <= i < |Sizes|
    ensures |SplitFrom(remainder, k, Sizes[i]).parts| == i - k + 1
    decreases |Sizes| - k
  {
    if k < i {
      assert Sizes[k] != Sizes[i] && Sizes[k] != 1;
      SplitStops(DivFloor(remainder, Sizes[k]).1, k + 1, i);
    }
  }

  /** A coarser unit cuts the split short and changes nothing before it: its whole amounts are those
      of the split down to seconds. */
  lemma {:induction false} CoarserIsPrefix(remainder: int, k: nat, i: nat)
    requires k <= i < |Sizes|
    ensures |SplitFrom(remainder, k, 1).parts| == |Sizes| - k
    ensures SplitFrom(remainder, k, Sizes[i]).parts == SplitFrom(remainder, k, 1).parts[..i - k + 1]
    decreases |Sizes| - k
  {
    SplitStops(remainder, k, i);
    SplitStops(remainder, k, |Sizes| - 1);
    var qr := DivFloor(remainder, Sizes[k]);
    if k < i {
      assert Sizes[k] != Sizes[i] && Sizes[k] != 1;
      CoarserIsPrefix(qr.1, k + 1, i);
      var fine := SplitFrom(qr.1, k + 1, 1).parts;
      assert ([qr.0] + fine)[..i - k + 1] == [qr.0] + fine[..i - k];
    } else {
      assert Sizes[k] == Sizes[i];
    }
  }

  /** At seconds resolution, the chunks are an exact mixed-radix split of the duration: six whole
      amounts that add back up to it, every unit below years within its range. */
  lemma SecondsResolutionIsExact(seconds: int, precision: int)
    ensures |SplitFrom(seconds, 0, 1).parts| == |Sizes|
    ensures SplitFrom(seconds, 0, 1).rest == 0
    ensures Weighted(SplitFrom(seconds, 0, 1).parts, 0) == seconds
    ensures WithinUnits(SplitFrom(seconds, 0, 1).parts, 0)
    ensures forall i :: 0 <= i < |Sizes| ==> ChunksOf(seconds, 1, precision)[i] == SplitFrom(seconds, 0, 1).parts[i] as real
  {
    SplitStops(seconds, 0, |Sizes| - 1);
    SplitIsExact(seconds, 0, 1);
    SplitRestBounds(seconds, 0, 1);
    RoundZero(precision);
  }

  lemma RoundZero(precision: int)
    ensures Round(0.0, precision) == 0.0
  {
  }

  /** At a coarser unit, precision 0 adds 1 to it exactly when at least half of it is left over, and
      0 otherwise; the smaller units stay 0. */
  lemma CoarserRoundsHalfUp(seconds: int, i: nat)
    requires i < |Sizes|
    ensures |SplitFrom(seconds, 0, Sizes[i]).parts| == i + 1
    ensures var s := SplitFrom(seconds, 0, Sizes[i]);
      ChunksOf(seconds, Sizes[i], 0)[i] == s.parts[i] as real + (if 2 * s.rest >= Sizes[i] then 1.0 else 0.0)
    ensures forall j :: i < j < |Sizes| ==> ChunksOf(seconds, Sizes[i], 0)[j] == 0.0
  {
    SplitStops(seconds, 0, i);
    SplitRestBounds(seconds, 0, Sizes[i]);
    var s := SplitFrom(seconds, 0, Sizes[i]);
    RoundFraction(s.rest, Sizes[i]);
  }

  lemma RoundWhole(x: real)
    requires 0.0 <= x
    ensures Round(x, 0) == (x + 0.5).Floor as real
  {
    assert Pow10(0) == 1;
  }
  lemma MulMonotone(x: real, y: real, r: real)
    requires 0.0 < r && x < y
    ensures x * r < y * r
  {
  }

  lemma HalfOrMore(rest: int, size: int)
    requires 0 <= rest < size
    ensures Fraction(rest, size) >= 0.5 <==> 2 * rest >= size
  {
    var x := Fraction(rest, size);
    var r := size as real;
    var a := rest as real;
    assert x * r == a;
    if x < 0.5 {
      MulMonotone(x, 0.5, r);
      assert a < 0.5 * r;
      assert 2.0 * a < r;
    } else if 0.5 < x {
      MulMonotone(0.5, x, r);
      assert 2.0 * a > r;
    } else {
      assert 2.0 * a == r;
    }
  }

  lemma RoundFraction(rest: int, size: int)
    requires 0 <= rest < size
    ensures Round(Fraction(rest, size), 0) == if 2 * rest >= size then 1.0 else 0.0
  {
    var x := Fraction(rest, size);
    RoundWhole(x);
    HalfOrMore(rest, size);
  }

  /** The chunks while the loop runs: the whole amounts found so far, then zeros. */
  ghost predicate ChunksSoFar(chunks: seq<real>, whole: seq<int>)
  {
    |chunks| == |Sizes| && |whole| < |Sizes| &&
    (forall i :: 0 <= i < |whole| ==> chunks[i] == whole[i] as real) &&
    (forall i :: |whole| <= i < |Sizes| ==> chunks[i] == 0.0)
  }

  lemma ChunksExtend(chunks: seq<real>, whole: seq<int>, value: int)
    requires ChunksSoFar(chunks, whole) && |whole| + 1 < |Sizes|
    ensures ChunksSoFar(chunks[|whole| := value as real], whole + [value])
  {
  }

  /** The chunks the loop has built when it stops are the chunks of the split. */
  lemma ChunksComplete(seconds: int, size: int, precision: int, whole: seq<int>, value: int, rest: int, chunks: seq<real>, d: seq<real>)
    requires SplitFrom(seconds, 0, size) == Split(whole + [value], rest)
    requires ChunksSoFar(chunks, whole) && 0 <= rest
    requires d == chunks[|whole| := value as real + Round(Fraction(rest, Sizes[|whole|]), precision)]
    ensures d == ChunksOf(seconds, size, precision)
  {
    var c := ChunksOf(seconds, size, precision);
    var parts := whole + [value];
    forall i | 0 <= i < |Sizes|
      ensures d[i] == c[i]
    {
      if i < |whole| {
        assert parts[i] == whole[i];
      }
    }
  }

  /** The loop of `chunk` over the duration in whole seconds: each unit, largest first, takes its
      whole amount of what is left, down to the chosen size or seconds, where the rest is rounded. */
  method SplitSeconds(seconds: int, size: int, precision: int) returns (chunks: seq<real>)
    ensures chunks == ChunksOf(seconds, size, precision)
  {
    var remainder := seconds;
    ghost var whole: seq<int> := [];
    chunks := [0.0, 0.0, 0.0, 0.0, 0.0, 0.0];
    var k := 0;
    while true
      invariant k == |whole| && ChunksSoFar(chunks, whole)
      invariant SplitSoFar(seconds, size, whole, remainder, k)
      decreases |Sizes| - k
    {
      var s := Sizes[k];
      ghost var before := remainder;
      var qr := DivFloor(remainder, s);
      var value := qr.0;
      remainder := qr.1;
      SplitAdvances(seconds, size, whole, before, k);
      if s == size || s == 1 {
        ghost var prior := chunks;
        chunks := chunks[k := value as real];
        chunks := chunks[k := chunks[k] + Round(Fraction(remainder, s), precision)];
        ChunksComplete(seconds, size, precision, whole, value, remainder, prior, chunks);
        break;
      }
      ChunksExtend(chunks, whole, value);
      chunks := chunks[k := value as real];
      whole := whole + [value];
      k := k + 1;
    }
  }

  // ---------------------------------------------------------------------------------------------
  // The helper

  class DurationHelper {
    /** The duration in seconds; none until `duration` is called. */
    var duration: Option<real>
    var format: string
    var size: int
    var precision: int

    constructor ()
      ensures duration.None? && format == DefaultFormat && size == 1 && precision == 0
    {
      duration := None;
      format := DefaultFormat;
      size := 1;
      precision := 0;
    }

    /** `duration`: keeps the duration and returns a copy of the helper. */
    method Duration(seconds: real) returns (c: DurationHelper)
      modifies this
      ensures duration == Some(seconds) && format == old(format) && size == old(size) && precision == old(precision)
      ensures fresh(c) && c.duration == duration && c.format == format && c.size == size && c.precision == precision
    {
      duration := Some(seconds);
      c := new DurationHelper();
      c.duration := duration;
      c.format := format;
      c.size := size;
      c.precision := precision;
    }

    method SetFormat(f: string)
      modifies this
      ensures format == f && duration == old(duration) && size == old(size) && precision == old(precision)
    {
      format := f;
    }

    /** setResolution: the size of the named unit, or seconds. */
    method SetResolution(resolution: Value)
      modifies this
      ensures size == SizeFor(resolution) && size in Sizes
      ensures duration == old(duration) && format == old(format) && precision == old(precision)
    {
      size := SizeFor(resolution);
    }

    method SetPrecision(p: int)
      modifies this
      ensures precision == p && duration == old(duration) && format == old(format) && size == old(size)
    {
      precision := p;
    }

    /** chunk: the integer part of the duration split into units down to the chosen one. */
    method Chunk() returns (chunks: seq<real>)
      requires duration.Some?
      ensures chunks == ChunksOf(Truncate(duration.value), size, precision)
    {
      chunks := SplitSeconds(Truncate(duration.value), size, precision);
    }
  }
}
