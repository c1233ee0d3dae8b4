/** The PHP values the core receives and stores, and the PHP built-ins whose behaviour decides its
    branches: the type tests (is_string, is_numeric, is_scalar), the casts ((bool), (float), (int)),
    loose comparison against a string (as in_array uses it), trim, and ordered arrays.
    The semantics are those of PHP 5, the version the repository is written for. */
module Php {
  import opened Wrappers

  /** An array key. */
  datatype Key = IntKey(i: int) | StrKey(s: string)

  /** A PHP value. Arrays keep their insertion order; objects are only told apart by class name. */
  datatype Value =
    | Null
    | Bool(b: bool)
    | Int(i: int)
    | Float(r: real)
    | Str(s: string)
    | Arr(entries: seq<(Key, Value)>)
    | Obj(cls: string)

  // ---------------------------------------------------------------------------------------------
  // Ordered arrays: a sequence of (key, value) pairs, the order in which PHP iterates them.

  /** `$a[$k]`: the value stored under `k`, or None when the key is missing. */
  function Lookup<K(==), V>(es: seq<(K, V)>, k: K): (r: Option<V>)
    ensures r.Some? ==> (k, r.value) in es
    ensures r.None? ==> forall i :: 0 <= i < |es| ==> es[i].0 != k
  {
    if es == [] then None
    else if es[0].0 == k then Some(es[0].1)
    else
      var r := Lookup(es[1..], k);
      assert r.None? ==> forall i :: 1 <= i < |es| ==> es[i].0 != k by {
        if r.None? {
          forall i | 1 <= i < |es| ensures es[i].0 != k {
            assert es[i] == es[1..][i - 1];
          }
        }
      }
      r
  }

  /** `$a[$k] = $v`: an existing key keeps its place and takes the new value, a new key is appended. */
  function Assign<K(==,!new), V>(es: seq<(K, V)>, k: K, v: V): (r: seq<(K, V)>)
    ensures Lookup(r, k) == Some(v)
    ensures forall k' :: k' != k ==> Lookup(r, k') == Lookup(es, k')
    ensures Lookup(es, k).None? ==> r == es + [(k, v)]
    ensures Lookup(es, k).Some? ==> |r| == |es| && forall i :: 0 <= i < |es| ==> r[i].0 == es[i].0
  {
    if es == [] then [(k, v)]
    else if es[0].0 == k then
      var r := [(k, v)] + es[1..];
      assert forall k' :: k' != k ==> Lookup(r, k') == Lookup(es, k') by {
        forall k' | k' != k ensures Lookup(r, k') == Lookup(es, k') {
          assert r[1..] == es[1..];
        }
      }
      r
    else
      var rest := Assign(es[1..], k, v);
      var r := [es[0]] + rest;
      assert Lookup(es, k) == Lookup(es[1..], k);
      assert forall k' :: Lookup(r, k') == if es[0].0 == k' then Some(es[0].1) else Lookup(rest, k') by {
        forall k' ensures Lookup(r, k') == if es[0].0 == k' then Some(es[0].1) else Lookup(rest, k') {
          LookupCons(es[0], rest, k');
        }
      }
      assert Lookup(es, k).None? ==> r == es + [(k, v)] by {
        if Lookup(es, k).None? {
          assert es == [es[0]] + es[1..];
        }
      }
      r
  }

  /** Looking up in an array with one entry in front: that entry, if its key matches, or the rest. */
  lemma LookupCons<K, V>(e: (K, V), rest: seq<(K, V)>, k: K)
    ensures Lookup([e] + rest, k) == if e.0 == k then Some(e.1) else Lookup(rest, k)
  {
    assert ([e] + rest)[1..] == rest;
  }

  /** `unset($a[$k])`: every entry under `k` goes, the others keep their order. */
  function Unset<K(==,!new), V>(es: seq<(K, V)>, k: K): (r: seq<(K, V)>)
    ensures Lookup(r, k) == None
    ensures forall k' :: k' != k ==> Lookup(r, k') == Lookup(es, k')
  {
    if es == [] then []
    else
      var rest := Unset(es[1..], k);
      if es[0].0 == k then rest
      else
        var r := [es[0]] + rest;
        assert r[1..] == rest;
        r
  }

  // ---------------------------------------------------------------------------------------------
  // Type tests and casts

  /** is_scalar */
  predicate IsScalar(v: Value)
  {
    v.Bool? || v.Int? || v.Float? || v.Str?
  }

  /** `is_string($v) && 0 < strlen($v)` */
  predicate IsNonEmptyString(v: Value)
  {
    v.Str? && |v.s| > 0
  }

  /** `is_scalar($v) && 0 < strlen($v)`: strlen reads the string form, which is empty only for ""
      and false. */
  predicate IsNonEmptyScalar(v: Value)
  {
    IsScalar(v) && v != Str("") && v != Bool(false)
  }

  /** `$s[$key]` read on a string in PHP 5 with a key that is not numeric: the key counts as offset
      0, so the read gives the first character, or "" when the string is empty. */
  function FirstCharacter(s: string): (r: string)
    ensures |r| == if s == "" then 0 else 1
    ensures r <= s
  {
    if s == "" then "" else s[..1]
  }

  /** The value `(bool)$v` takes; `true == $v` and `! empty($v)` are the same test. */
  predicate Truthy(v: Value)
  {
    match v
    case Null => false
    case Bool(b) => b
    case Int(i) => i != 0
    case Float(r) => r != 0.0
    case Str(s) => s != "" && s != "0"
    case Arr(es) => es != []
    case Obj(_) => true
  }

  predicate IsDigit(c: char)
  {
    '0' <= c <= '9'
  }

  /** The white space is_numeric and the string-to-number conversion skip at the start of a string. */
  predicate IsLeadingSpace(c: char)
  {
    c == ' ' || c == '\t' || c == '\n' || c == '\r' || c == '\U{000B}' || c == '\U{000C}'
  }

  /** The end of the run of leading spaces starting at `i`. */
  function SpaceRun(s: string, i: nat): (j: nat)
    requires i <= |s|
    ensures i <= j <= |s|
    ensures forall k :: i <= k < j ==> IsLeadingSpace(s[k])
    ensures j < |s| ==> !IsLeadingSpace(s[j])
    decreases |s| - i
  {
    if i < |s| && IsLeadingSpace(s[i]) then SpaceRun(s, i + 1) else i
  }

  /** The end of the run of decimal digits starting at `i`. */
  function DigitRun(s: string, i: nat): (j: nat)
    requires i <= |s|
    ensures i <= j <= |s|
    ensures forall k :: i <= k < j ==> IsDigit(s[k])
    ensures j < |s| ==> !IsDigit(s[j])
    decreases |s| - i
  {
    if i < |s| && IsDigit(s[i]) then DigitRun(s, i + 1) else i
  }

  /** The number a run of decimal digits denotes. */
  function DigitsValue(d: string): (n: nat)
    requires forall k :: 0 <= k < |d| ==> IsDigit(d[k])
    ensures n < Pow10(|d|)
  {
    if d == [] then 0
    else
      var last := d[|d| - 1];
      assert IsDigit(last);
      var high := DigitsValue(d[..|d| - 1]);
      assert high * 10 <= (Pow10(|d| - 1) - 1) * 10;
      high * 10 + (last as int - '0' as int)
  }

  function Pow10(n: nat): (p: nat)
    ensures p >= 1
  {
    if n == 0 then 1 else 10 * Pow10(n - 1)
  }

  /** A decimal number at the start of a string: where it ends and what it denotes. */
  datatype NumberPrefix = NumberPrefix(end: nat, value: real)

  /** The longest `[spaces][sign]digits[.digits]` prefix of `s` that holds at least one digit. */
  function LeadingNumber(s: string): (r: Option<NumberPrefix>)
    ensures r.Some? ==> r.value.end <= |s|
    ensures r.Some? ==> exists k :: 0 <= k < r.value.end && IsDigit(s[k])
    ensures (forall k :: 0 <= k < |s| ==> !IsDigit(s[k])) ==> r.None?
  {
    var i0 := SpaceRun(s, 0);
    var negative := i0 < |s| && s[i0] == '-';
    var i1 := if i0 < |s| && (s[i0] == '+' || s[i0] == '-') then i0 + 1 else i0;
    var i2 := DigitRun(s, i1);
    var hasDot := i2 < |s| && s[i2] == '.';
    var i3 := if hasDot then DigitRun(s, i2 + 1) else i2;
    if i2 == i1 && (!hasDot || i3 == i2 + 1) then None
    else
      var whole := DigitsValue(s[i1..i2]);
      var fraction := if hasDot then DigitsValue(s[i2 + 1..i3]) as real / Pow10(i3 - i2 - 1) as real else 0.0;
      var magnitude := whole as real + fraction;
      assert i2 > i1 ==> IsDigit(s[i1]);
      assert i2 == i1 ==> IsDigit(s[i2 + 1]);
      Some(NumberPrefix(i3, if negative then -magnitude else magnitude))
  }

  /** is_numeric: an integer, a float, or a string that is a decimal number and nothing else.
      (Exponent notation is outside the model.) */
  predicate IsNumeric(v: Value)
  {
    match v
    case Int(_) => true
    case Float(_) => true
    case Str(s) => LeadingNumber(s).Some? && LeadingNumber(s).value.end == |s|
    case _ => false
  }

  /** The number a numeric value denotes. */
  function NumericValue(v: Value): real
    requires IsNumeric(v)
  {
    match v
    case Int(i) => i as real
    case Float(r) => r
    case Str(s) => LeadingNumber(s).value.value
  }

  /** `(float)$v` */
  function FloatCast(v: Value): (r: real)
    ensures IsNumeric(v) ==> r == NumericValue(v)
  {
    match v
    case Null => 0.0
    case Bool(b) => if b then 1.0 else 0.0
    case Int(i) => i as real
    case Float(r) => r
    case Str(s) => if LeadingNumber(s).Some? then LeadingNumber(s).value.value else 0.0
    case Arr(es) => if es == [] then 0.0 else 1.0
    case Obj(_) => 1.0
  }

  /** The conversion of a number to an integer: the fractional part is dropped (rounding toward zero). */
  function Truncate(r: real): (n: int)
    ensures 0.0 <= r ==> 0 <= n && n as real <= r < n as real + 1.0
    ensures r < 0.0 ==> n <= 0 && n as real - 1.0 < r <= n as real
  {
    if r >= 0.0 then r.Floor else -((-r).Floor)
  }

  /** `(int)$v` for a numeric value. */
  function IntCast(v: Value): int
    requires IsNumeric(v)
  {
    Truncate(NumericValue(v))
  }

  /** `(int)$s` for a string: the leading number, fractional part dropped, or 0 when the string does
      not start with one. */
  function StringToInt(s: string): (n: int)
    ensures LeadingNumber(s).None? ==> n == 0
    ensures IsNumeric(Str(s)) ==> n == IntCast(Str(s))
  {
    match LeadingNumber(s)
    case Some(prefix) => Truncate(prefix.value)
    case None => 0
  }

  /** `$v == $s` in PHP 5, for a string `$s`: two numeric strings compare as numbers, a number
      compares with the string converted to a number, null compares with "" and a boolean with the
      string's truth value. */
  predicate LooselyEqualsString(v: Value, s: string)
  {
    match v
    case Null => s == ""
    case Bool(b) => b == Truthy(Str(s))
    case Int(i) => i as real == FloatCast(Str(s))
    case Float(r) => r == FloatCast(Str(s))
    case Str(t) => t == s || (IsNumeric(Str(t)) && IsNumeric(Str(s)) && NumericValue(Str(t)) == NumericValue(Str(s)))
    case _ => false
  }

  /** `in_array($v, $list)` with PHP's default (loose) comparison. */
  predicate InList(v: Value, list: seq<string>)
  {
    exists i :: 0 <= i < |list| && LooselyEqualsString(v, list[i])
  }

  /** strcmp's order: byte by byte, and a proper prefix comes first. */
  predicate LexLess(s: string, t: string)
  {
    if s == [] then t != []
    else if t == [] then false
    else if s[0] != t[0] then s[0] < t[0]
    else LexLess(s[1..], t[1..])
  }

  /** `$a < $b` in PHP 5 for null and scalar operands. Nothing is below null. Null below a string
      compares "" with it; null below anything else, and any comparison with a boolean, compares
      truth values (false before true). Two strings compare as numbers when both are numeric and
      byte by byte otherwise; a number and a string compare as numbers, the string giving its
      leading number (0 when it has none). */
  predicate LooselyLess(a: Value, b: Value)
    requires a.Null? || IsScalar(a)
    requires b.Null? || IsScalar(b)
  {
    if b.Null? then false
    else if a.Null? then (if b.Str? then b.s != "" else Truthy(b))
    else if a.Bool? || b.Bool? then !Truthy(a) && Truthy(b)
    else if a.Str? && b.Str? then
      if IsNumeric(a) && IsNumeric(b) then NumericValue(a) < NumericValue(b) else LexLess(a.s, b.s)
    else FloatCast(a) < FloatCast(b)
  }

  /** Between numeric values (numbers and numeric strings alike) the loose `<` is the numeric one. */
  lemma NumericLess(a: Value, b: Value)
    requires IsNumeric(a) && IsNumeric(b)
    ensures LooselyLess(a, b) <==> NumericValue(a) < NumericValue(b)
  {
  }

  // ---------------------------------------------------------------------------------------------
  // trim

  /** The characters trim removes: space, tab, new line, carriage return, NUL and vertical tab. */
  predicate IsTrimmed(c: char)
  {
    c == ' ' || c == '\t' || c == '\n' || c == '\r' || c == '\0' || c == '\U{000B}'
  }

  /** The first index at or after `i` that holds no trim character (or |s|). */
  function SkipTrimmed(s: string, i: nat): (j: nat)
    requires i <= |s|
    ensures i <= j <= |s|
    ensures forall k :: i <= k < j ==> IsTrimmed(s[k])
    ensures j < |s| ==> !IsTrimmed(s[j])
    decreases |s| - i
  {
    if i < |s| && IsTrimmed(s[i]) then SkipTrimmed(s, i + 1) else i
  }

  /** The last index at or before `j`, and no lower than `lo`, that ends a run of trim characters
      reaching up to `j`. */
  function BackTrimmed(s: string, lo: nat, j: nat): (e: nat)
    requires lo <= j <= |s|
    ensures lo <= e <= j
    ensures forall k :: e <= k < j ==> IsTrimmed(s[k])
    ensures e > lo ==> !IsTrimmed(s[e - 1])
  {
    if j > lo && IsTrimmed(s[j - 1]) then BackTrimmed(s, lo, j - 1) else j
  }

  /** Where the text trim keeps begins. */
  function TrimOffset(s: string): nat
    ensures TrimOffset(s) <= |s|
  {
    SkipTrimmed(s, 0)
  }

  /** Where the text trim keeps ends. */
  function TrimLimit(s: string): nat
    ensures TrimOffset(s) <= TrimLimit(s) <= |s|
  {
    BackTrimmed(s, TrimOffset(s), |s|)
  }

  /** trim: `s` without its leading and trailing trim characters. */
  function Trim(s: string): (r: string)
    ensures r == s[TrimOffset(s)..TrimLimit(s)]
    ensures forall k :: 0 <= k < TrimOffset(s) ==> IsTrimmed(s[k])
    ensures forall k :: TrimLimit(s) <= k < |s| ==> IsTrimmed(s[k])
    ensures TrimOffset(s) < TrimLimit(s) ==> !IsTrimmed(s[TrimOffset(s)]) && !IsTrimmed(s[TrimLimit(s) - 1])
  {
    s[TrimOffset(s)..TrimLimit(s)]
  }

  /** trim leaves nothing exactly when every character is a trim character. */
  lemma TrimBlank(s: string)
    ensures Trim(s) == [] <==> forall k :: 0 <= k < |s| ==> IsTrimmed(s[k])
  {
    if Trim(s) == [] {
      forall k | 0 <= k < |s|
        ensures IsTrimmed(s[k])
      {
        assert k < TrimOffset(s) || TrimLimit(s) <= k;
      }
    } else {
      assert !IsTrimmed(s[TrimOffset(s)]);
    }
  }

  /** The test `is_string($v) && 0 < strlen($v = trim($v))` that the OpenLayers setters apply:
      the trimmed string, or None when `v` is not a string or is blank. */
  function TrimmedNonEmpty(v: Value): (r: Option<string>)
    ensures r.Some? <==> v.Str? && exists k :: 0 <= k < |v.s| && !IsTrimmed(v.s[k])
    ensures r.Some? ==> r.value == Trim(v.s) && r.value != []
  {
    if v.Str? then
      TrimBlank(v.s);
      if Trim(v.s) != [] then Some(Trim(v.s)) else None
    else None
  }
}
