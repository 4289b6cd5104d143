/** The JavaScript built-ins the core relies on, restricted to what it uses:
    `String.prototype.split('/')`, `Array.prototype.join('/')`, the global
    `parseInt` with no radix, and the decimal rendering of a non-negative
    integer in a template literal. */
module JsString {
  import opened Common

  // ---------------------------------------------------------------------
  // split('/') and join('/')
  // ---------------------------------------------------------------------

  /** `s.split('/')`: the pieces between the separators, in order. An empty
      string yields one empty piece, and every separator starts a new piece. */
  function Split(s: string): (parts: seq<string>)
    ensures |parts| >= 1
    ensures forall i :: 0 <= i < |parts| ==> '/' !in parts[i]
    decreases |s|
  {
    if |s| == 0 then [""]
    else
      var rest := Split(s[1..]);
      if s[0] == '/' then [""] + rest
      else [[s[0]] + rest[0]] + rest[1..]
  }

  /** `parts.join('/')`. */
  function Join(parts: seq<string>): string
  {
    if |parts| == 0 then ""
    else if |parts| == 1 then parts[0]
    else parts[0] + "/" + Join(parts[1..])
  }

  /** Joining a sequence whose first piece is extended at the front extends
      the joined string at the front. */
  lemma {:induction false} JoinPrepend(c: char, parts: seq<string>)
    requires |parts| >= 1
    ensures Join([[c] + parts[0]] + parts[1..]) == [c] + Join(parts)
  {
    var ps := [[c] + parts[0]] + parts[1..];
    assert ps[1..] == parts[1..];
  }

  /** Splitting and joining again gives back the original string. */
  lemma {:induction false} JoinSplit(s: string)
    ensures Join(Split(s)) == s
    decreases |s|
  {
    if |s| > 0 {
      var rest := Split(s[1..]);
      JoinSplit(s[1..]);
      if s[0] == '/' {
        assert ([""] + rest)[1..] == rest;
      } else {
        JoinPrepend(s[0], rest);
      }
    }
  }

  /** A string without a separator splits into itself alone. */
  lemma {:induction false} SplitNoSeparator(s: string)
    requires '/' !in s
    ensures Split(s) == [s]
    decreases |s|
  {
    if |s| > 0 {
      assert s[0] != '/' && '/' !in s[1..];
      SplitNoSeparator(s[1..]);
      assert [s[0]] + s[1..] == s;
    }
  }

  /** One step of `split`: a leading separator starts a new piece, any other
      character extends the first piece. */
  lemma SplitCons(c: char, t: string)
    ensures Split([c] + t) == if c == '/' then [""] + Split(t)
                              else [[c] + Split(t)[0]] + Split(t)[1..]
  {
    var s := [c] + t;
    assert s[0] == c && s[1..] == t;
  }

  lemma ConsAssoc(h: string, left: seq<string>, right: seq<string>)
    ensures [h] + (left + right) == ([h] + left) + right
  {
  }

  lemma ReplaceHead(h: string, left: seq<string>, right: seq<string>)
    requires |left| >= 1
    ensures [h] + (left + right)[1..] == ([h] + left[1..]) + right
  {
    assert (left + right)[1..] == left[1..] + right;
  }

  /** Putting one character in front of both sides of a split around a
      separator keeps the split around that separator. */
  lemma SplitAroundStep(c: char, rest: string, b: string)
    requires Split(rest + "/" + b) == Split(rest) + Split(b)
    ensures Split([c] + rest + "/" + b) == Split([c] + rest) + Split(b)
  {
    var x := rest + "/" + b;
    assert [c] + rest + "/" + b == [c] + x;
    SplitCons(c, rest);
    SplitCons(c, x);
    var left, right := Split(rest), Split(b);
    if c == '/' {
      ConsAssoc("", left, right);
    } else {
      assert Split(x)[0] == left[0];
      ReplaceHead([c] + left[0], left, right);
    }
  }

  /** A separator between two strings concatenates their pieces. */
  lemma {:induction false} SplitAround(a: string, b: string)
    ensures Split(a + "/" + b) == Split(a) + Split(b)
    decreases |a|
  {
    if |a| == 0 {
      assert a + "/" + b == ['/'] + b;
      SplitCons('/', b);
    } else {
      var c, rest := a[0], a[1..];
      assert a == [c] + rest;
      SplitAround(rest, b);
      SplitAroundStep(c, rest, b);
    }
  }

  /** Joining pieces free of separators and splitting again gives back the
      pieces. */
  lemma {:induction false} SplitJoin(parts: seq<string>)
    requires |parts| >= 1
    requires forall i :: 0 <= i < |parts| ==> '/' !in parts[i]
    ensures Split(Join(parts)) == parts
    decreases |parts|
  {
    if |parts| == 1 {
      SplitNoSeparator(parts[0]);
    } else {
      SplitJoin(parts[1..]);
      SplitNoSeparator(parts[0]);
      SplitAround(parts[0], Join(parts[1..]));
      assert [parts[0]] + parts[1..] == parts;
    }
  }

  // ---------------------------------------------------------------------
  // Decimal rendering of a non-negative integer (`${n}`)
  // ---------------------------------------------------------------------

  function DigitChar(d: nat): char
    requires d < 10
  {
    ('0' as int + d) as char
  }

  /** The decimal digits of `n`, most significant first, without leading
      zeros. */
  function DecimalString(n: nat): (s: string)
    ensures |s| >= 1
    ensures forall i :: 0 <= i < |s| ==> '0' <= s[i] <= '9'
    ensures |s| > 1 ==> s[0] != '0'
    decreases n
  {
    if n < 10 then [DigitChar(n)]
    else DecimalString(n / 10) + [DigitChar(n % 10)]
  }

  // ---------------------------------------------------------------------
  // parseInt(s) with no radix argument
  // ---------------------------------------------------------------------

  /** The white space and line terminators that `parseInt` skips at the
      start of its argument. */
  predicate IsWhiteSpace(c: char)
  {
    || c in {'\t', '\n', '\U{B}', '\U{C}', '\r', ' ', '\U{A0}', '\U{1680}'}
    || c in {'\U{2028}', '\U{2029}', '\U{202F}', '\U{205F}', '\U{3000}', '\U{FEFF}'}
    || ('\U{2000}' <= c <= '\U{200A}')
  }

  function TrimStart(s: string): (t: string)
    ensures |t| > 0 ==> !IsWhiteSpace(t[0])
    decreases |s|
  {
    if |s| > 0 && IsWhiteSpace(s[0]) then TrimStart(s[1..]) else s
  }

  /** The value of `c` as a digit in radixes up to 36; 36 for a character
      that is a digit in none of them. */
  function DigitValue(c: char): (v: nat)
    ensures v <= 36
  {
    if '0' <= c <= '9' then (c - '0') as nat
    else if 'a' <= c <= 'z' then (c - 'a') as nat + 10
    else if 'A' <= c <= 'Z' then (c - 'A') as nat + 10
    else 36
  }

  /** The longest prefix of `s` made of digits of the given radix. */
  function DigitPrefix(s: string, radix: nat): (z: string)
    ensures |z| <= |s| && z == s[..|z|]
    ensures forall i :: 0 <= i < |z| ==> DigitValue(z[i]) < radix
    ensures |z| < |s| ==> DigitValue(s[|z|]) >= radix
    decreases |s|
  {
    if |s| == 0 || DigitValue(s[0]) >= radix then ""
    else [s[0]] + DigitPrefix(s[1..], radix)
  }

  /** The number that the digit string `ds` denotes in the given radix. */
  function DigitsValue(ds: string, radix: nat): nat
    decreases |ds|
  {
    if |ds| == 0 then 0
    else DigitsValue(ds[..|ds| - 1], radix) * radix + DigitValue(ds[|ds| - 1])
  }

  /** `parseInt(s)`: skip leading white space, read an optional sign, then a
      `0x`/`0X` prefix selecting radix 16 (radix 10 otherwise), then the
      longest run of digits. `None` stands for `NaN` (no digits at all).
      `-0` is represented by `0`; both are falsy. */
  function ParseInt(s: string): (r: Option<int>)
  {
    var t := TrimStart(s);
    var negative := |t| > 0 && t[0] == '-';
    var u := if |t| > 0 && (t[0] == '-' || t[0] == '+') then t[1..] else t;
    var hex := |u| >= 2 && u[0] == '0' && (u[1] == 'x' || u[1] == 'X');
    var radix := if hex then 16 else 10;
    var body := if hex then u[2..] else u;
    var z := DigitPrefix(body, radix);
    if z == "" then None
    else
      var m: int := DigitsValue(z, radix);
      Some(if negative then -m else m)
  }

  lemma {:induction false} DigitPrefixOfDigits(s: string, radix: nat)
    requires forall i :: 0 <= i < |s| ==> DigitValue(s[i]) < radix
    ensures DigitPrefix(s, radix) == s
    decreases |s|
  {
    if |s| > 0 {
      DigitPrefixOfDigits(s[1..], radix);
    }
  }

  lemma {:induction false} DecimalValue(n: nat)
    ensures DigitsValue(DecimalString(n), 10) == n
    decreases n
  {
    var s := DecimalString(n);
    if n >= 10 {
      var q, r := n / 10, n % 10;
      DecimalValue(q);
      assert s == DecimalString(q) + [DigitChar(r)];
      assert s[..|s| - 1] == DecimalString(q);
      assert DigitValue(s[|s| - 1]) == r;
      assert n == q * 10 + r;
    } else {
      assert DigitValue(s[0]) == n;
    }
  }

  /** Reading back the decimal rendering of `n` gives `n`. */
  lemma ParseDecimal(n: nat)
    ensures ParseInt(DecimalString(n)) == Some(n)
  {
    var s := DecimalString(n);
    assert !IsWhiteSpace(s[0]) && s[0] != '-' && s[0] != '+';
    assert TrimStart(s) == s;
    assert |s| < 2 || (s[1] != 'x' && s[1] != 'X');
    DigitPrefixOfDigits(s, 10);
    assert DigitPrefix(s, 10) == s;
    DecimalValue(n);
  }

  /** Distinct numbers render as distinct strings. */
  lemma DecimalInjective(a: nat, b: nat)
    requires DecimalString(a) == DecimalString(b)
    ensures a == b
  {
    DecimalValue(a);
    DecimalValue(b);
  }
}
