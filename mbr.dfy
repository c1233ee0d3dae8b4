/** GIS_MBR: a minimum bounding rectangle that grows by points and by other rectangles. The four
    bounds are stored as given: null for a rectangle without dimensions, numbers otherwise. The
    getters are the fields themselves. */
module Mbr {
  import opened Wrappers
  import opened Php
  import opened Errors

  /** What a bound can hold: null, or a numeric value as the caller gave it. */
  predicate IsBound(v: Value)
  {
    v.Null? || IsNumeric(v)
  }

  /** What this model takes as a coordinate: null or a scalar. */
  predicate IsCoordinate(v: Value)
  {
    v.Null? || IsScalar(v)
  }

  /** The four bounds of a rectangle. */
  datatype Rect = Rect(minx: Value, miny: Value, maxx: Value, maxy: Value)

  /** Every bound is a coordinate, as addPoint can leave it. */
  predicate Comparable(r: Rect)
  {
    IsCoordinate(r.minx) && IsCoordinate(r.miny) && IsCoordinate(r.maxx) && IsCoordinate(r.maxy)
  }

  predicate WellFormed(r: Rect)
  {
    IsBound(r.minx) && IsBound(r.miny) && IsBound(r.maxx) && IsBound(r.maxy)
  }

  /** The rectangle `new GIS_MBR()` makes. */
  const NoDimensions: Rect := Rect(Null, Null, Null, Null)

  /** A rectangle with four numeric bounds, each minimum at most its maximum. */
  predicate Proper(r: Rect)
  {
    IsNumeric(r.minx) && IsNumeric(r.miny) && IsNumeric(r.maxx) && IsNumeric(r.maxy) &&
    NumericValue(r.minx) <= NumericValue(r.maxx) && NumericValue(r.miny) <= NumericValue(r.maxy)
  }

  /** The point (x, y) lies in `r`, edges included. */
  predicate Contains(r: Rect, x: Value, y: Value)
    requires Proper(r) && IsNumeric(x) && IsNumeric(y)
  {
    NumericValue(r.minx) <= NumericValue(x) <= NumericValue(r.maxx) &&
    NumericValue(r.miny) <= NumericValue(y) <= NumericValue(r.maxy)
  }

  /** `s` holds every point of `r`. */
  predicate Encloses(s: Rect, r: Rect)
    requires Proper(s) && Proper(r)
  {
    NumericValue(s.minx) <= NumericValue(r.minx) && NumericValue(r.maxx) <= NumericValue(s.maxx) &&
    NumericValue(s.miny) <= NumericValue(r.miny) && NumericValue(r.maxy) <= NumericValue(s.maxy)
  }

  function Min(a: real, b: real): real
  {
    if a <= b then a else b
  }

  function Max(a: real, b: real): real
  {
    if a <= b then b else a
  }

  /** The arguments `new GIS_MBR(...)` accepts: none, or four numeric values, checked in order. */
  function Construction(args: seq<Value>): Result<Rect, Error>
  {
    if |args| == 4 then
      if !IsNumeric(args[0]) then Err(InvalidArgument("Minimum X must be numeric"))
      else if !IsNumeric(args[1]) then Err(InvalidArgument("Minimum Y must be numeric"))
      else if !IsNumeric(args[2]) then Err(InvalidArgument("Maximum X must be numeric"))
      else if !IsNumeric(args[3]) then Err(InvalidArgument("Maximum Y must be numeric"))
      else Ok(Rect(args[0], args[1], args[2], args[3]))
    else if |args| != 0 then
      Err(InvalidArgument("Instantiate with no arguments for a dimensionless MBR, or with exactly 4 dimensions"))
    else Ok(NoDimensions)
  }

  /** One axis of addPoint: a coordinate below the minimum replaces it, otherwise one above the
      maximum replaces that, comparing as PHP's `<` does. */
  function Stretch(lo: Value, hi: Value, v: Value): (b: (Value, Value))
    requires IsCoordinate(lo) && IsCoordinate(hi) && IsCoordinate(v)
    ensures (b.0 == lo || b.0 == v) && (b.1 == hi || b.1 == v)
  {
    if LooselyLess(v, lo) then (v, hi) else if LooselyLess(hi, v) then (lo, v) else (lo, hi)
  }

  /** What `addPoint($x, $y)` leaves: a rectangle without dimensions becomes the point; otherwise
      each coordinate moves the bound it falls beyond. Any null or scalar is taken, as PHP takes
      it; the bounds stay null-or-numeric when the point is. */
  function AddedPoint(r: Rect, x: Value, y: Value): (s: Rect)
    requires Comparable(r) && IsCoordinate(x) && IsCoordinate(y)
    ensures Comparable(s)
    ensures WellFormed(r) && IsBound(x) && IsBound(y) ==> WellFormed(s)
    ensures (s.minx == r.minx || s.minx == x) && (s.maxx == r.maxx || s.maxx == x)
    ensures (s.miny == r.miny || s.miny == y) && (s.maxy == r.maxy || s.maxy == y)
  {
    if r.minx.Null? then Rect(x, y, x, y)
    else
      var xs := Stretch(r.minx, r.maxx, x);
      var ys := Stretch(r.miny, r.maxy, y);
      Rect(xs.0, ys.0, xs.1, ys.1)
  }

  /** What `addMBR($o)` leaves, as written: the other rectangle's minimum corner, then its maximum
      corner, added as points, whether or not it has dimensions. */
  function AddedRect(r: Rect, o: Rect): (s: Rect)
    requires Comparable(r) && Comparable(o)
    ensures Comparable(s)
    ensures WellFormed(r) && WellFormed(o) ==> WellFormed(s)
  {
    AddedPoint(AddedPoint(r, o.minx, o.miny), o.maxx, o.maxy)
  }

  /** The union `addMBR` is documented to compute: a rectangle without dimensions adds nothing. */
  function Union(r: Rect, o: Rect): (s: Rect)
    requires Comparable(r) && Comparable(o)
    ensures Comparable(s)
    ensures WellFormed(r) && WellFormed(o) ==> WellFormed(s)
    ensures o == NoDimensions ==> s == r
  {
    if o.minx.Null? && o.miny.Null? && o.maxx.Null? && o.maxy.Null? then r else AddedRect(r, o)
  }

  /** One axis of addPoint's branches: the coordinate replaces the minimum when below it, or else
      the maximum when above it. */
  method StretchAxis(lo: Value, hi: Value, v: Value) returns (l: Value, h: Value)
    requires IsCoordinate(lo) && IsCoordinate(hi) && IsCoordinate(v)
    ensures (l, h) == Stretch(lo, hi, v)
  {
    l, h := lo, hi;
    if LooselyLess(v, lo) {
      l := v;
    } else if LooselyLess(hi, v) {
      h := v;
    }
  }

  /** The branches of addPoint on the four bounds: a rectangle without dimensions takes the point
      as both corners; otherwise x moves the minimum or else the maximum, and then y does. */
  method AddToBounds(r: Rect, x: Value, y: Value) returns (s: Rect)
    requires Comparable(r) && IsCoordinate(x) && IsCoordinate(y)
    ensures s == AddedPoint(r, x, y)
  {
    if r.minx == Null {
      s := Rect(x, y, x, y);
    } else {
      var lx, hx := StretchAxis(r.minx, r.maxx, x);
      var ly, hy := StretchAxis(r.miny, r.maxy, y);
      s := Rect(lx, ly, hx, hy);
    }
  }

  class MBR {
    var minx: Value
    var miny: Value
    var maxx: Value
    var maxy: Value

    function Bounds(): Rect
      reads this
    {
      Rect(minx, miny, maxx, maxy)
    }

    ghost predicate Valid()
      reads this
    {
      Comparable(Bounds())
    }

    /** `new GIS_MBR()` */
    constructor ()
      ensures Valid() && WellFormed(Bounds()) && Bounds() == NoDimensions
    {
      minx, miny, maxx, maxy := Null, Null, Null, Null;
    }

    /** `new GIS_MBR($minx, $miny, $maxx, $maxy)` once the arguments are checked: stored as given,
        with no check that a minimum is at most its maximum. */
    constructor WithBounds(minx: Value, miny: Value, maxx: Value, maxy: Value)
      requires IsNumeric(minx) && IsNumeric(miny) && IsNumeric(maxx) && IsNumeric(maxy)
      ensures Valid() && WellFormed(Bounds()) && Bounds() == Rect(minx, miny, maxx, maxy)
    {
      this.minx, this.miny, this.maxx, this.maxy := minx, miny, maxx, maxy;
    }

    /** addPoint: any pair of scalars or nulls is taken; the bounds stay null-or-numeric when the
        point's coordinates are. */
    method AddPoint(x: Value, y: Value)
      requires Valid() && IsCoordinate(x) && IsCoordinate(y)
      modifies this
      ensures Valid() && Bounds() == AddedPoint(old(Bounds()), x, y)
      ensures old(WellFormed(Bounds())) && IsBound(x) && IsBound(y) ==> WellFormed(Bounds())
    {
      var s := AddToBounds(Bounds(), x, y);
      minx, miny, maxx, maxy := s.minx, s.miny, s.maxx, s.maxy;
    }

    /** addMBR, as written: the second corner is read from `other` after the first was added, which
        matters only when `other` is this rectangle. */
    method AddMBR(other: MBR)
      requires Valid() && other.Valid()
      modifies this
      ensures Valid()
      ensures old(WellFormed(Bounds())) && old(WellFormed(other.Bounds())) ==> WellFormed(Bounds())
      ensures other != this ==> Bounds() == AddedRect(old(Bounds()), old(other.Bounds()))
      ensures other == this ==>
        var mid := AddedPoint(old(Bounds()), old(minx), old(miny));
        Bounds() == AddedPoint(mid, mid.maxx, mid.maxy)
    {
      AddPoint(other.minx, other.miny);
      AddPoint(other.maxx, other.maxy);
    }

    /** addMBR as documented: a rectangle without dimensions is skipped, and both corners are read
        before either is added. */
    method AddBoundedMBR(other: MBR)
      requires Valid() && other.Valid()
      modifies this
      ensures Valid() && Bounds() == Union(old(Bounds()), old(other.Bounds()))
      ensures old(WellFormed(Bounds())) && old(WellFormed(other.Bounds())) ==> WellFormed(Bounds())
    {
      var o := other.Bounds();
      if !(o.minx == Null && o.miny == Null && o.maxx == Null && o.maxy == Null) {
        AddPoint(o.minx, o.miny);
        AddPoint(o.maxx, o.maxy);
      }
    }
  }

  /** `new GIS_MBR(...)`: the argument count and each bound's type are checked before anything is
      stored. */
  method NewMBR(args: seq<Value>) returns (r: Result<MBR, Error>)
    ensures r.Err? <==> Construction(args).Err?
    ensures r.Err? ==> r.error == Construction(args).error
    ensures r.Ok? ==> fresh(r.value) && r.value.Valid() && WellFormed(r.value.Bounds()) && r.value.Bounds() == Construction(args).value
  {
    if |args| == 4 {
      if !IsNumeric(args[0]) {
        return Err(InvalidArgument("Minimum X must be numeric"));
      }
      if !IsNumeric(args[1]) {
        return Err(InvalidArgument("Minimum Y must be numeric"));
      }
      if !IsNumeric(args[2]) {
        return Err(InvalidArgument("Maximum X must be numeric"));
      }
      if !IsNumeric(args[3]) {
        return Err(InvalidArgument("Maximum Y must be numeric"));
      }
      var m := new MBR.WithBounds(args[0], args[1], args[2], args[3]);
      r := Ok(m);
    } else if |args| != 0 {
      r := Err(InvalidArgument("Instantiate with no arguments for a dimensionless MBR, or with exactly 4 dimensions"));
    } else {
      var m := new MBR();
      r := Ok(m);
    }
  }

  // ---------------------------------------------------------------------------------------------
  // Properties of construction

  /** Construction succeeds exactly for no arguments or four numeric ones; four arguments are kept
      as given, even when a minimum exceeds its maximum. */
  lemma ConstructionAccepts(args: seq<Value>)
    ensures Construction(args).Ok? <==> |args| == 0 || (|args| == 4 && forall i :: 0 <= i < 4 ==> IsNumeric(args[i]))
    ensures |args| == 0 ==> Construction(args) == Ok(NoDimensions)
    ensures Construction(args).Ok? && |args| == 4 ==> Construction(args).value == Rect(args[0], args[1], args[2], args[3])
  {
    if |args| == 4 {
      var all := IsNumeric(args[0]) && IsNumeric(args[1]) && IsNumeric(args[2]) && IsNumeric(args[3]);
      assert all <==> forall i :: 0 <= i < 4 ==> IsNumeric(args[i]) by {
        if !all {
          var i :| 0 <= i < 4 && !IsNumeric(args[i]);
        }
      }
    }
  }

  /** The bounds are not put in order: (5, 5) to (1, 1) is accepted and is not a proper rectangle. */
  lemma ConstructionKeepsUnordered()
    ensures Construction([Int(5), Int(5), Int(1), Int(1)]) == Ok(Rect(Int(5), Int(5), Int(1), Int(1)))
    ensures !Proper(Rect(Int(5), Int(5), Int(1), Int(1)))
  {
  }

  // ---------------------------------------------------------------------------------------------
  // Properties of addPoint

  /** Adding a point to a rectangle without dimensions gives the rectangle of that point alone. */
  lemma AddPointToDimensionless(x: Value, y: Value)
    requires IsNumeric(x) && IsNumeric(y)
    ensures AddedPoint(NoDimensions, x, y) == Rect(x, y, x, y)
    ensures Proper(AddedPoint(NoDimensions, x, y)) && Contains(AddedPoint(NoDimensions, x, y), x, y)
  {
  }

  /** Adding a point to a proper rectangle gives the smallest rectangle that holds both: each bound
      becomes the minimum or maximum of the old bound and the coordinate. */
  lemma AddPointIsSmallestCover(r: Rect, x: Value, y: Value)
    requires Proper(r) && IsNumeric(x) && IsNumeric(y)
    ensures var s := AddedPoint(r, x, y);
      Proper(s) &&
      NumericValue(s.minx) == Min(NumericValue(r.minx), NumericValue(x)) &&
      NumericValue(s.maxx) == Max(NumericValue(r.maxx), NumericValue(x)) &&
      NumericValue(s.miny) == Min(NumericValue(r.miny), NumericValue(y)) &&
      NumericValue(s.maxy) == Max(NumericValue(r.maxy), NumericValue(y))
    ensures Proper(AddedPoint(r, x, y)) && Contains(AddedPoint(r, x, y), x, y) && Encloses(AddedPoint(r, x, y), r)
  {
    StretchNumeric(r.minx, r.maxx, x);
    StretchNumeric(r.miny, r.maxy, y);
  }

  /** On one axis of numbers in order, stretching takes the minimum and the maximum. */
  lemma StretchNumeric(lo: Value, hi: Value, v: Value)
    requires IsNumeric(lo) && IsNumeric(hi) && IsNumeric(v) && NumericValue(lo) <= NumericValue(hi)
    ensures var b := Stretch(lo, hi, v);
      IsNumeric(b.0) && IsNumeric(b.1) &&
      NumericValue(b.0) == Min(NumericValue(lo), NumericValue(v)) &&
      NumericValue(b.1) == Max(NumericValue(hi), NumericValue(v))
  {
    NumericLess(v, lo);
    NumericLess(hi, v);
  }

  /** A coordinate that is not numeric still moves a bound, by PHP's loose `<`: against numbers
      "abc" counts as 0 and becomes the new minimum, while against numeric strings it is compared
      byte by byte and becomes the new maximum. */
  lemma NonNumericPointFollowsBoundType()
    ensures AddedPoint(Rect(Int(1), Int(1), Int(2), Int(2)), Str("abc"), Int(1)) == Rect(Str("abc"), Int(1), Int(2), Int(2))
    ensures AddedPoint(Rect(Str("1"), Int(1), Str("2"), Int(2)), Str("abc"), Int(1)) == Rect(Str("1"), Int(1), Str("abc"), Int(2))
  {
    assert LeadingNumber("abc").None?;
    assert !IsNumeric(Str("abc"));
  }

  /** A point already inside leaves all four bounds as they were. */
  lemma AddPointInside(r: Rect, x: Value, y: Value)
    requires Proper(r) && IsNumeric(x) && IsNumeric(y) && Contains(r, x, y)
    ensures AddedPoint(r, x, y) == r
  {
    NumericLess(x, r.minx);
    NumericLess(r.maxx, x);
    NumericLess(y, r.miny);
    NumericLess(r.maxy, y);
  }

  // ---------------------------------------------------------------------------------------------
  // Properties of addMBR

  /** The union of two proper rectangles is the smallest rectangle holding both. */
  lemma UnionIsSmallestCover(r: Rect, o: Rect)
    requires Proper(r) && Proper(o)
    ensures var s := Union(r, o);
      Proper(s) && Encloses(s, r) && Encloses(s, o) &&
      NumericValue(s.minx) == Min(NumericValue(r.minx), NumericValue(o.minx)) &&
      NumericValue(s.maxx) == Max(NumericValue(r.maxx), NumericValue(o.maxx)) &&
      NumericValue(s.miny) == Min(NumericValue(r.miny), NumericValue(o.miny)) &&
      NumericValue(s.maxy) == Max(NumericValue(r.maxy), NumericValue(o.maxy))
  {
    AddPointIsSmallestCover(r, o.minx, o.miny);
    AddPointIsSmallestCover(AddedPoint(r, o.minx, o.miny), o.maxx, o.maxy);
  }

  /** Adding a proper rectangle to one without dimensions gives a rectangle with the same bounds. */
  lemma UnionIntoDimensionless(o: Rect)
    requires Proper(o)
    ensures var s := Union(NoDimensions, o);
      Proper(s) && Encloses(s, o) && Encloses(o, s)
  {
    AddPointIsSmallestCover(Rect(o.minx, o.miny, o.minx, o.miny), o.maxx, o.maxy);
  }

  /** As written, adding a rectangle without dimensions to one whose minimum X is not zero erases
      every bound: `null < $minx` compares truth values and holds, so the first corner sets the
      minima to null, and the second corner then finds a rectangle without dimensions. */
  lemma AddMBRErasesBounds(r: Rect)
    requires WellFormed(r) && Truthy(r.minx)
    ensures AddedRect(r, NoDimensions) == NoDimensions
  {
    var mid := AddedPoint(r, Null, Null);
    assert mid.minx == Null;
  }

  /** A concrete instance: the rectangle from (1, 1) to (2, 2) loses its dimensions as written, and
      keeps them under the documented union. */
  lemma AddMBRErasesExample()
    ensures var r := Rect(Int(1), Int(1), Int(2), Int(2));
      AddedRect(r, NoDimensions) == NoDimensions && Union(r, NoDimensions) == r
  {
    AddMBRErasesBounds(Rect(Int(1), Int(1), Int(2), Int(2)));
  }
}
