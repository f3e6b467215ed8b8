/**
  General facts about sequences (`NoDup`, `IndexOf`, `IsSubsequence`), and the
  JavaScript built-ins the application logic leans on, modelled on strings as
  sequences of characters: `toLowerCase` (ASCII letters only), `includes`,
  `parseInt` with no radix argument, the decimal rendering of a non-negative
  integer in a template literal, and `Array.from(new Set(xs))`.
*/
module Js {

  // ---------------------------------------------------------------------------
  // Sequences
  // ---------------------------------------------------------------------------

  /** No element occurs twice. */
  ghost predicate NoDup<T>(xs: seq<T>) {
    forall i, j :: 0 <= i < j < |xs| ==> xs[i] != xs[j]
  }

  /** Position of the first occurrence of `x` in `xs`. */
  function IndexOf<T(==)>(xs: seq<T>, x: T): (k: nat)
    requires x in xs
    ensures k < |xs| && xs[k] == x && x !in xs[..k]
  {
    if xs[0] == x then 0 else 1 + IndexOf(xs[1..], x)
  }

  /** `a` is `b` with some elements left out and the rest in their order. */
  ghost predicate IsSubsequence<T>(a: seq<T>, b: seq<T>)
    decreases |b|
  {
    if b == [] then a == []
    else (a != [] && a[0] == b[0] && IsSubsequence(a[1..], b[1..])) || IsSubsequence(a, b[1..])
  }

  lemma {:induction false} IndexOfInPrefix<T>(xs: seq<T>, n: nat, x: T)
    requires n <= |xs| && x in xs[..n]
    ensures IndexOf(xs, x) == IndexOf(xs[..n], x)
  {
    if xs[0] != x {
      assert xs[1..][..n - 1] == xs[..n][1..];
      IndexOfInPrefix(xs[1..], n - 1, x);
    }
  }

  /**
    `Array.from(new Set(xs))`: a `Set` remembers insertion order, so the result
    holds every element of `xs` once, in order of first appearance.
  */
  function UniqueInOrder<T(==)>(xs: seq<T>): (r: seq<T>)
    ensures |r| <= |xs|
    decreases |xs|
  {
    if xs == [] then []
    else
      var r0 := UniqueInOrder(xs[..|xs| - 1]);
      if xs[|xs| - 1] in r0 then r0 else r0 + [xs[|xs| - 1]]
  }

  /**
    The result has no duplicates, holds exactly the elements of `xs`, and
    lists them in the order of their first occurrence.
  */
  lemma UniqueInOrderSpec<T>(xs: seq<T>)
    ensures NoDup(UniqueInOrder(xs))
    ensures forall i :: 0 <= i < |UniqueInOrder(xs)| ==> UniqueInOrder(xs)[i] in xs
    ensures forall i :: 0 <= i < |xs| ==> xs[i] in UniqueInOrder(xs)
    ensures forall i, j :: 0 <= i < j < |UniqueInOrder(xs)| ==>
              IndexOf(xs, UniqueInOrder(xs)[i]) < IndexOf(xs, UniqueInOrder(xs)[j])
  {
    UniqueInOrderElements(xs);
    UniqueInOrderOrder(xs);
  }

  lemma {:induction false} UniqueInOrderElements<T>(xs: seq<T>)
    ensures NoDup(UniqueInOrder(xs))
    ensures forall y :: y in UniqueInOrder(xs) <==> y in xs
    ensures forall i :: 0 <= i < |UniqueInOrder(xs)| ==> UniqueInOrder(xs)[i] in xs
    decreases |xs|
  {
    if xs != [] {
      var init := xs[..|xs| - 1];
      UniqueInOrderElements(init);
      assert xs == init + [xs[|xs| - 1]];
    }
  }

  lemma {:induction false} UniqueInOrderOrder<T>(xs: seq<T>)
    ensures forall i, j :: 0 <= i < j < |UniqueInOrder(xs)| ==>
              UniqueInOrder(xs)[i] in xs && UniqueInOrder(xs)[j] in xs &&
              IndexOf(xs, UniqueInOrder(xs)[i]) < IndexOf(xs, UniqueInOrder(xs)[j])
    decreases |xs|
  {
    if xs != [] {
      var init := xs[..|xs| - 1];
      var x := xs[|xs| - 1];
      var r0 := UniqueInOrder(init);
      UniqueInOrderElements(init);
      UniqueInOrderOrder(init);
      assert xs == init + [x];
      forall i | 0 <= i < |r0| ensures r0[i] in init && IndexOf(xs, r0[i]) == IndexOf(init, r0[i]) {
        IndexOfInPrefix(xs, |xs| - 1, r0[i]);
      }
      forall i | 0 <= i < |r0| ensures r0[i] in xs && IndexOf(xs, r0[i]) < |xs| - 1 {
        assert IndexOf(init, r0[i]) < |init|;
      }
      var u := UniqueInOrder(xs);
      if x !in r0 {
        assert x !in init;
        assert IndexOf(xs, x) == |xs| - 1;
        assert u == r0 + [x];
      } else {
        assert u == r0;
      }
      forall i, j | 0 <= i < j < |u|
        ensures u[i] in xs && u[j] in xs && IndexOf(xs, u[i]) < IndexOf(xs, u[j])
      {
        if j < |r0| {
          assert u[i] == r0[i] && u[j] == r0[j];
        } else {
          assert u[i] == r0[i] && u[j] == x;
        }
      }
    } else {
      assert UniqueInOrder(xs) == [];
    }
  }

  /** Adding one element to a `Set` built from `xs`. */
  lemma UniqueInOrderAppend<T>(xs: seq<T>, x: T)
    ensures UniqueInOrder(xs + [x])
         == if x in UniqueInOrder(xs) then UniqueInOrder(xs) else UniqueInOrder(xs) + [x]
  {
    assert (xs + [x])[..|xs|] == xs;
  }

  // ---------------------------------------------------------------------------
  // toLowerCase and includes
  // ---------------------------------------------------------------------------

  predicate IsAsciiUpper(c: char) {
    'A' <= c <= 'Z'
  }

  /** Lower-cases an ASCII capital and leaves every other character alone. */
  function LowerChar(c: char): (d: char)
    ensures IsAsciiUpper(c) ==> d as int == c as int + 32
    ensures !IsAsciiUpper(c) ==> d == c
    ensures !IsAsciiUpper(d)
  {
    if IsAsciiUpper(c) then (c as int + 32) as char else c
  }

  /** `s.toLowerCase()` on ASCII letters. */
  function ToLower(s: string): (r: string)
    ensures |r| == |s|
    ensures forall i :: 0 <= i < |s| ==> r[i] == LowerChar(s[i])
  {
    seq(|s|, i requires 0 <= i < |s| => LowerChar(s[i]))
  }

  lemma ToLowerIdempotent(s: string)
    ensures ToLower(ToLower(s)) == ToLower(s)
  {
  }

  /** `t` occurs in `s` starting at position `i`. */
  ghost predicate OccursAt(s: string, t: string, i: nat) {
    i + |t| <= |s| && s[i..i + |t|] == t
  }

  /** `s.includes(t)`. */
  function Includes(s: string, t: string): (r: bool)
    ensures r ==> |t| <= |s|
    decreases |s|
  {
    t <= s || (s != [] && Includes(s[1..], t))
  }

  lemma {:induction false} OccursThenIncludes(s: string, t: string, i: nat)
    requires OccursAt(s, t, i)
    ensures Includes(s, t)
    decreases i
  {
    if i > 0 {
      assert s[1..][i - 1..i - 1 + |t|] == s[i..i + |t|];
      OccursThenIncludes(s[1..], t, i - 1);
    }
  }

  lemma {:induction false} IncludesThenOccurs(s: string, t: string) returns (i: nat)
    requires Includes(s, t)
    ensures OccursAt(s, t, i)
    decreases |s|
  {
    if t <= s {
      i := 0;
    } else {
      var j := IncludesThenOccurs(s[1..], t);
      i := j + 1;
      assert s[1..][j..j + |t|] == s[i..i + |t|];
    }
  }

  /** `includes` holds exactly when the needle occurs at some position. */
  lemma IncludesIffOccurs(s: string, t: string)
    ensures Includes(s, t) <==> exists i: nat :: OccursAt(s, t, i)
  {
    if Includes(s, t) {
      var i := IncludesThenOccurs(s, t);
    }
    forall i: nat | OccursAt(s, t, i) ensures Includes(s, t) {
      OccursThenIncludes(s, t, i);
    }
  }

  lemma IncludesEmpty(s: string)
    ensures Includes(s, "")
  {
  }

  // ---------------------------------------------------------------------------
  // Digits, parseInt and decimal rendering
  // ---------------------------------------------------------------------------

  /** The value of a base-36 digit, or -1 for any other character. */
  function DigitValue(c: char): (v: int)
    ensures -1 <= v < 36
    ensures '0' <= c <= '9' ==> v == c as int - '0' as int
  {
    if '0' <= c <= '9' then c as int - '0' as int
    else if 'a' <= c <= 'z' then c as int - 'a' as int + 10
    else if 'A' <= c <= 'Z' then c as int - 'A' as int + 10
    else -1
  }

  predicate IsDigit(c: char, radix: nat) {
    0 <= DigitValue(c) < radix
  }

  /** The longest prefix of `s` made of digits of the radix. */
  function DigitPrefix(s: string, radix: nat): (z: string)
    ensures z <= s
    ensures forall i :: 0 <= i < |z| ==> IsDigit(z[i], radix)
    ensures |z| < |s| ==> !IsDigit(s[|z|], radix)
    decreases |s|
  {
    if s == [] || !IsDigit(s[0], radix) then [] else [s[0]] + DigitPrefix(s[1..], radix)
  }

  /** The number a digit string denotes, most significant digit first. */
  function DigitsValue(ds: string, radix: nat): int
    decreases |ds|
  {
    if ds == [] then 0 else DigitsValue(ds[..|ds| - 1], radix) * radix + DigitValue(ds[|ds| - 1])
  }

  /** What `parseInt` yields: an integer or NaN. */
  datatype Number = NaN | Int(value: int)

  /**
    The characters `parseInt` skips at the front: the white space and line
    terminators of ECMAScript (tab, vertical tab, form feed, space, no-break
    space, the byte order mark, the space separators, LF, CR, LS and PS).
  */
  predicate IsJsSpace(c: char) {
    || c == '\t' || c == '\n' || c == '\U{B}' || c == '\U{C}' || c == '\r' || c == ' '
    || c == '\U{A0}' || c == '\U{1680}' || ('\U{2000}' <= c <= '\U{200A}')
    || c == '\U{2028}' || c == '\U{2029}' || c == '\U{202F}' || c == '\U{205F}'
    || c == '\U{3000}' || c == '\U{FEFF}'
  }

  function TrimStart(s: string): (t: string)
    ensures t == [] || !IsJsSpace(t[0])
    ensures |t| <= |s| && t == s[|s| - |t|..]
    decreases |s|
  {
    if s != [] && IsJsSpace(s[0]) then TrimStart(s[1..]) else s
  }

  /** Sign of the number after the leading white space, and what follows the sign. */
  function SplitSign(t: string): (r: (int, string))
    ensures r.0 == 1 || r.0 == -1
  {
    if t != [] && t[0] == '-' then (-1, t[1..])
    else if t != [] && t[0] == '+' then (1, t[1..])
    else (1, t)
  }

  /**
    `parseInt(s)` with no radix: skip white space, read an optional sign, read
    base 16 after a `0x` or `0X` prefix and base 10 otherwise, and take the
    longest run of digits; no digit at all gives NaN.
  */
  function ParseInt(s: string): (r: Number)
    ensures s == [] ==> r == NaN
    ensures (var t := TrimStart(s); t == [] || (!IsDigit(t[0], 10) && t[0] != '+' && t[0] != '-')) ==> r == NaN
  {
    var (sign, u) := SplitSign(TrimStart(s));
    if |u| >= 2 && u[0] == '0' && (u[1] == 'x' || u[1] == 'X') then
      var ds := DigitPrefix(u[2..], 16);
      if ds == [] then NaN else Int(sign * DigitsValue(ds, 16))
    else
      var ds := DigitPrefix(u, 10);
      if ds == [] then NaN else Int(sign * DigitsValue(ds, 10))
  }

  function DigitChar(d: nat): (c: char)
    requires d < 10
    ensures DigitValue(c) == d
  {
    ('0' as int + d) as char
  }

  /** The decimal form of a non-negative integer, as a template literal prints it. */
  function Decimal(n: nat): (s: string)
    ensures |s| > 0
    ensures forall i :: 0 <= i < |s| ==> IsDigit(s[i], 10)
    ensures s[0] == '0' ==> n == 0
    decreases n
  {
    if n < 10 then [DigitChar(n)] else Decimal(n / 10) + [DigitChar(n % 10)]
  }

  lemma {:induction false} DecimalValue(n: nat)
    ensures DigitsValue(Decimal(n), 10) == n
    decreases n
  {
    if n >= 10 {
      var s := Decimal(n / 10);
      assert (s + [DigitChar(n % 10)])[..|s|] == s;
      DecimalValue(n / 10);
    }
  }

  lemma {:induction false} DigitPrefixOfDigits(ds: string, rest: string, radix: nat)
    requires forall i :: 0 <= i < |ds| ==> IsDigit(ds[i], radix)
    requires rest == [] || !IsDigit(rest[0], radix)
    ensures DigitPrefix(ds + rest, radix) == ds
    decreases |ds|
  {
    if ds != [] {
      assert (ds + rest)[1..] == ds[1..] + rest;
      DigitPrefixOfDigits(ds[1..], rest, radix);
    }
  }

  /** `parseInt` reads back the decimal form of every natural number. */
  lemma ParseIntDecimal(n: nat)
    ensures ParseInt(Decimal(n)) == Int(n)
  {
    ParseIntDecimalPrefix(n, "");
    assert Decimal(n) + "" == Decimal(n);
  }

  /**
    `parseInt` reads back a decimal number followed by anything that does not
    extend it: `parseInt("2abc")` is 2. After a lone `0`, an `x` would start
    a hexadecimal literal instead.
  */
  lemma ParseIntDecimalPrefix(n: nat, rest: string)
    requires rest == [] || !IsDigit(rest[0], 10)
    requires n == 0 ==> rest == [] || (rest[0] != 'x' && rest[0] != 'X')
    ensures ParseInt(Decimal(n) + rest) == Int(n)
  {
    var d := Decimal(n);
    var s := d + rest;
    assert s[0] == d[0] && IsDigit(s[0], 10);
    StartsWithDigit(s);
    assert !(|s| >= 2 && s[0] == '0' && (s[1] == 'x' || s[1] == 'X')) by {
      if |s| >= 2 && s[0] == '0' {
        assert n == 0 && |d| == 1 && s[1] == rest[0];
      }
    }
    DigitPrefixOfDigits(d, rest, 10);
    DecimalValue(n);
    DecimalDigits(s, d);
  }

  /** A string that starts with a digit has no white space or sign to skip. */
  lemma StartsWithDigit(s: string)
    requires s != [] && IsDigit(s[0], 10)
    ensures SplitSign(TrimStart(s)) == (1, s)
  {
    assert !IsJsSpace(s[0]);
  }

  /** Without a hexadecimal prefix, a string read from its first digit parses in base 10. */
  lemma DecimalDigits(s: string, d: string)
    requires SplitSign(TrimStart(s)) == (1, s)
    requires !(|s| >= 2 && s[0] == '0' && (s[1] == 'x' || s[1] == 'X'))
    requires DigitPrefix(s, 10) == d && d != []
    ensures ParseInt(s) == Int(DigitsValue(d, 10))
  {
  }
}
