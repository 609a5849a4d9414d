/** Shared vocabulary of the keychain designer model: optional values, plane points,
    the arithmetic helpers JavaScript's Math offers, JavaScript truthiness of nullable
    strings, decimal rendering of numbers, slider ranges and lookup in constant tables. */
module Common {

  datatype Option<T> = None | Some(value: T)

  /** A point or offset in the plane (pixels, percentages or model units). */
  datatype Point = Point(x: real, y: real)

  /** An element's bounding rectangle in client pixels, as `getBoundingClientRect` reports it. */
  datatype Rect = Rect(left: real, top: real, width: real, height: real)

  predicate Positive(r: Rect) {
    r.width > 0.0 && r.height > 0.0
  }

  function Min(a: real, b: real): (r: real)
    ensures r <= a && r <= b && (r == a || r == b)
  {
    if a <= b then a else b
  }

  function Max(a: real, b: real): (r: real)
    ensures r >= a && r >= b && (r == a || r == b)
  {
    if a >= b then a else b
  }

  function Abs(a: real): (r: real)
    ensures r >= 0.0 && (r == a || r == -a)
  {
    if a < 0.0 then -a else a
  }

  /** `String.prototype.startsWith`. */
  predicate StartsWith(s: string, prefix: string) {
    prefix <= s
  }

  lemma StartsWithOneChar(s: string, c: char)
    ensures StartsWith(s, [c]) <==> |s| > 0 && s[0] == c
  {
  }

  lemma StartsWithConcat(prefix: string, rest: string)
    ensures StartsWith(prefix + rest, prefix)
  {
    assert (prefix + rest)[..|prefix|] == prefix;
  }

  /** JavaScript truthiness of a `string | null`: both `null` and `""` are falsy. */
  predicate Truthy(s: Option<string>) {
    s.Some? && s.value != ""
  }

  /** JavaScript `a || b` on two `string | null` values. */
  function Or(a: Option<string>, b: Option<string>): (r: Option<string>)
    ensures Truthy(a) ==> r == a
    ensures !Truthy(a) ==> r == b
    ensures Truthy(r) <==> Truthy(a) || Truthy(b)
  {
    if Truthy(a) then a else b
  }

  // ---------------------------------------------------------------------------
  // Decimal rendering of integers, as a template literal `${n}` prints them.

  predicate IsDigit(c: char) {
    '0' <= c <= '9'
  }

  predicate AllDigits(s: string) {
    forall i :: 0 <= i < |s| ==> IsDigit(s[i])
  }

  function DigitChar(d: nat): (c: char)
    requires d < 10
    ensures IsDigit(c)
  {
    (48 + d) as char
  }

  function DigitValue(c: char): (d: nat)
    requires IsDigit(c)
    ensures d < 10 && DigitChar(d) == c
  {
    (c as int - 48) as nat
  }

  function NatToString(n: nat): (s: string)
    ensures |s| >= 1 && AllDigits(s)
    decreases n
  {
    if n < 10 then [DigitChar(n)] else NatToString(n / 10) + [DigitChar(n % 10)]
  }

  function IntToString(i: int): (s: string)
    ensures |s| >= 1
  {
    if i < 0 then "-" + NatToString(-i) else NatToString(i)
  }

  /** The number a string of decimal digits denotes (most significant digit first). */
  function DigitsValue(s: string): nat
    requires AllDigits(s)
  {
    if s == [] then 0 else DigitsValue(s[..|s| - 1]) * 10 + DigitValue(s[|s| - 1])
  }

  /** Reading back what NatToString wrote gives the number again. */
  lemma {:induction false} NatToStringRoundTrip(n: nat)
    ensures DigitsValue(NatToString(n)) == n
    decreases n
  {
    var s := NatToString(n);
    if n < 10 {
      assert s[..|s| - 1] == [];
    } else {
      NatToStringRoundTrip(n / 10);
      assert s[..|s| - 1] == NatToString(n / 10);
    }
  }

  /** Parses an optional minus sign followed by at least one decimal digit. */
  function ParseInt(s: string): (r: Option<int>)
    ensures r.Some? ==> |s| >= 1
  {
    if |s| >= 2 && s[0] == '-' && AllDigits(s[1..]) then Some(-(DigitsValue(s[1..]) as int))
    else if |s| >= 1 && AllDigits(s) then Some(DigitsValue(s))
    else None
  }

  lemma IntToStringRoundTrip(i: int)
    ensures ParseInt(IntToString(i)) == Some(i)
  {
    if i < 0 {
      var digits := NatToString(-i);
      NatToStringRoundTrip(-i);
      assert IntToString(i) == "-" + digits;
      assert ("-" + digits)[0] == '-' && ("-" + digits)[1..] == digits;
    } else {
      var digits := NatToString(i);
      NatToStringRoundTrip(i);
      assert IntToString(i) == digits;
      assert IsDigit(digits[0]);
    }
  }

  /** The characters a rendered integer is made of. */
  predicate IsNumberChar(c: char) {
    IsDigit(c) || c == '-'
  }

  lemma IntToStringChars(i: int)
    ensures forall k :: 0 <= k < |IntToString(i)| ==> IsNumberChar(IntToString(i)[k])
  {
  }

  /** Splits off the longest prefix made of number characters. */
  function TakeNumber(s: string): (r: (string, string))
    ensures r.0 + r.1 == s
    ensures forall k :: 0 <= k < |r.0| ==> IsNumberChar(r.0[k])
    ensures r.1 == [] || !IsNumberChar(r.1[0])
  {
    if s == [] || !IsNumberChar(s[0]) then ([], s)
    else
      var rest := TakeNumber(s[1..]);
      ([s[0]] + rest.0, rest.1)
  }

  /** TakeNumber stops exactly where a run of number characters ends. */
  lemma {:induction false} TakeNumberOfConcat(num: string, t: string)
    requires forall k :: 0 <= k < |num| ==> IsNumberChar(num[k])
    requires t == [] || !IsNumberChar(t[0])
    ensures TakeNumber(num + t) == (num, t)
    decreases |num|
  {
    if num == [] {
      assert num + t == t;
    } else {
      assert (num + t)[1..] == num[1..] + t;
      TakeNumberOfConcat(num[1..], t);
      assert [num[0]] + num[1..] == num;
    }
  }

  // ---------------------------------------------------------------------------
  // Sliders: a value range walked in equal steps from its minimum.

  datatype Slider = Slider(min: real, max: real, step: real)

  /** The k-th value a slider can take, counting from its minimum. */
  function GridPoint(s: Slider, k: nat): real {
    s.min + k as real * s.step
  }

  /** The values a slider can emit: within its range and a whole number of steps from its minimum. */
  ghost predicate OnGrid(s: Slider, v: real) {
    s.min <= v <= s.max && exists k: nat :: GridPoint(s, k) == v
  }

  /** On a slider whose minimum and step are whole numbers, every grid point is a whole number. */
  lemma IntegerGridPoint(s: Slider, lo: int, step: int, k: nat)
    requires s.min == lo as real && s.step == step as real
    ensures GridPoint(s, k) == (lo + k * step) as real
  {
  }

  // ---------------------------------------------------------------------------
  // Constant tables keyed by an id.

  predicate Distinct<K(==)>(keys: seq<K>) {
    forall i, j :: 0 <= i < j < |keys| ==> keys[i] != keys[j]
  }

  /** How many entries of a table carry the given key. */
  function Count<K(==)>(keys: seq<K>, k: K): (n: nat)
    ensures n <= |keys|
    ensures n == 0 <==> k !in keys
  {
    if keys == [] then 0 else (if keys[0] == k then 1 else 0) + Count(keys[1..], k)
  }

  /** In a table whose keys are distinct, a key present in it matches exactly one entry. */
  lemma {:induction false} CountDistinct<K>(keys: seq<K>, k: K)
    requires Distinct(keys)
    requires k in keys
    ensures Count(keys, k) == 1
  {
    if keys[0] == k {
      assert forall j :: 0 <= j < |keys[1..]| ==> keys[1..][j] == keys[j + 1];
      assert k !in keys[1..];
    } else {
      assert Distinct(keys[1..]) by {
        forall i, j | 0 <= i < j < |keys[1..]| ensures keys[1..][i] != keys[1..][j] {
          assert keys[1..][i] == keys[i + 1] && keys[1..][j] == keys[j + 1];
        }
      }
      CountDistinct(keys[1..], k);
    }
  }
}
