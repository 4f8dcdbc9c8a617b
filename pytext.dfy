/** The Python text built-ins that the modelled code relies on: str.strip,
    str.rstrip, str.split with a one-character separator, str.replace of one
    character, str() of a non-negative integer, int() and float() of a text,
    and the ordering of texts. */
module PyText {
  import opened Wrappers

  /** The characters for which Python's str.isspace() holds. */
  predicate IsSpace(c: char) {
    c == ' ' || ('\t' <= c <= '\r') || ('\U{1C}' <= c <= '\U{1F}')
    || c == '\U{85}' || c == '\U{A0}' || c == '\U{1680}'
    || ('\U{2000}' <= c <= '\U{200A}') || c == '\U{2028}' || c == '\U{2029}'
    || c == '\U{202F}' || c == '\U{205F}' || c == '\U{3000}'
  }

  /** Number of whitespace characters at the start of s. */
  function LeadingSpaces(s: string): (n: nat)
    ensures n <= |s|
    ensures forall k :: 0 <= k < n ==> IsSpace(s[k])
    ensures n == |s| || !IsSpace(s[n])
  {
    if s == [] || !IsSpace(s[0]) then 0 else 1 + LeadingSpaces(s[1..])
  }

  /** Number of whitespace characters at the end of s. */
  function TrailingSpaces(s: string): (n: nat)
    ensures n <= |s|
    ensures forall k :: |s| - n <= k < |s| ==> IsSpace(s[k])
    ensures n == |s| || !IsSpace(s[|s| - 1 - n])
  {
    if s == [] || !IsSpace(s[|s| - 1]) then 0 else 1 + TrailingSpaces(s[..|s| - 1])
  }

  /** str.strip() without argument: whitespace removed at both ends. */
  function Strip(s: string): (r: string)
    ensures LeadingSpaces(s) + |r| <= |s|
    ensures r == s[LeadingSpaces(s)..LeadingSpaces(s) + |r|]
    ensures r == [] || (!IsSpace(r[0]) && !IsSpace(r[|r| - 1]))
    ensures r == [] <==> forall k :: 0 <= k < |s| ==> IsSpace(s[k])
    ensures forall k :: 0 <= k < LeadingSpaces(s) ==> IsSpace(s[k])
    ensures forall k :: LeadingSpaces(s) + |r| <= k < |s| ==> IsSpace(s[k])
  {
    var t := s[LeadingSpaces(s)..];
    var r := t[..|t| - TrailingSpaces(t)];
    assert forall k :: LeadingSpaces(s) + |r| <= k < |s| ==> s[k] == t[k - LeadingSpaces(s)];
    r
  }

  /** str.rstrip(c) for one character c: every trailing c is removed. */
  function RStripChar(s: string, c: char): (r: string)
    ensures |r| <= |s| && r == s[..|r|]
    ensures r == [] || r[|r| - 1] != c
    ensures forall k :: |r| <= k < |s| ==> s[k] == c
  {
    if s != [] && s[|s| - 1] == c then RStripChar(s[..|s| - 1], c) else s
  }

  /** str.startswith for one character. */
  predicate StartsWith(s: string, c: char) {
    |s| > 0 && s[0] == c
  }

  /** str.split(sep) for a one-character separator: the pieces between the
      separators, empty pieces included. */
  function Split(s: string, sep: char): (r: seq<string>)
    ensures |r| >= 1
    ensures forall i :: 0 <= i < |r| ==> sep !in r[i]
  {
    if s == [] then [[]]
    else
      var rest := Split(s[1..], sep);
      if s[0] == sep then [[]] + rest else [[s[0]] + rest[0]] + rest[1..]
  }

  /** sep.join(parts) for a one-character separator. */
  function Join(parts: seq<string>, sep: char): string {
    if |parts| == 0 then []
    else if |parts| == 1 then parts[0]
    else parts[0] + [sep] + Join(parts[1..], sep)
  }

  /** Joining the pieces of a split gives back the text. */
  lemma {:induction false} JoinSplit(s: string, sep: char)
    ensures Join(Split(s, sep), sep) == s
  {
    if s != [] {
      var rest := Split(s[1..], sep);
      JoinSplit(s[1..], sep);
      if s[0] == sep {
        assert Split(s, sep) == [[]] + rest;
        assert ([[]] + rest)[1..] == rest;
      } else {
        var r := Split(s, sep);
        assert r == [[s[0]] + rest[0]] + rest[1..];
        if |rest| == 1 {
          assert r == [[s[0]] + rest[0]];
        } else {
          assert r[1..] == rest[1..];
          assert Join(rest, sep) == rest[0] + [sep] + Join(rest[1..], sep);
        }
      }
    }
  }

  lemma {:induction false} SplitWithout(a: string, sep: char)
    requires sep !in a
    ensures Split(a, sep) == [a]
  {
    if a != [] {
      SplitWithout(a[1..], sep);
      assert [a[0]] + a[1..] == a;
    }
  }

  lemma {:induction false} SplitAt(a: string, t: string, sep: char)
    requires sep !in a
    ensures Split(a + [sep] + t, sep) == [a] + Split(t, sep)
  {
    if a == [] {
      assert a + [sep] + t == [sep] + t;
      assert ([sep] + t)[1..] == t;
    } else {
      SplitAt(a[1..], t, sep);
      assert (a + [sep] + t)[1..] == a[1..] + [sep] + t;
      assert [a[0]] + a[1..] == a;
    }
  }

  /** Splitting a join of separator-free pieces gives back the pieces. */
  lemma {:induction false} SplitJoin(parts: seq<string>, sep: char)
    requires |parts| >= 1
    requires forall i :: 0 <= i < |parts| ==> sep !in parts[i]
    ensures Split(Join(parts, sep), sep) == parts
  {
    if |parts| == 1 {
      SplitWithout(parts[0], sep);
    } else {
      SplitJoin(parts[1..], sep);
      SplitAt(parts[0], Join(parts[1..], sep), sep);
      assert [parts[0]] + parts[1..] == parts;
    }
  }

  /** str.replace(from, to) for one-character texts. */
  function Replace(s: string, from: char, to: char): (r: string)
    ensures |r| == |s|
    ensures forall i :: 0 <= i < |s| ==> r[i] == (if s[i] == from then to else s[i])
  {
    seq(|s|, i requires 0 <= i < |s| => if s[i] == from then to else s[i])
  }

  /** Decimal digits. */
  predicate IsDigit(c: char) { '0' <= c <= '9' }

  function DigitValue(c: char): nat
    requires IsDigit(c)
  {
    c as int - '0' as int
  }

  function DigitChar(d: nat): (c: char)
    requires d < 10
    ensures IsDigit(c) && DigitValue(c) == d
  {
    ('0' as int + d) as char
  }

  predicate AllDigits(s: string) {
    forall i :: 0 <= i < |s| ==> IsDigit(s[i])
  }

  /** The number written by a text of decimal digits (0 for the empty text). */
  function DigitsValue(s: string): nat
    requires AllDigits(s)
  {
    if s == [] then 0 else 10 * DigitsValue(s[..|s| - 1]) + DigitValue(s[|s| - 1])
  }

  function Pow10(k: nat): (p: nat)
    ensures p >= 1
  {
    if k == 0 then 1 else 10 * Pow10(k - 1)
  }

  /** str(n) for a non-negative integer: its shortest decimal text. */
  function NatText(n: nat): (r: string)
    ensures |r| >= 1 && AllDigits(r)
    ensures DigitsValue(r) == n
    ensures r[0] != '0' || n == 0
  {
    if n < 10 then [DigitChar(n)]
    else
      var r := NatText(n / 10) + [DigitChar(n % 10)];
      assert r[..|r| - 1] == NatText(n / 10);
      r
  }

  /** A number below 10^w has at most w digits. */
  lemma {:induction false} NatTextLength(n: nat, w: nat)
    requires 1 <= w && n < Pow10(w)
    ensures |NatText(n)| <= w
  {
    if n >= 10 {
      assert Pow10(1) == 10;
      assert n / 10 < Pow10(w - 1);
      NatTextLength(n / 10, w - 1);
    }
  }

  /** k zero characters. */
  function Zeros(k: nat): (r: string)
    ensures |r| == k && AllDigits(r)
  {
    if k == 0 then [] else Zeros(k - 1) + ['0']
  }

  lemma {:induction false} ZerosValue(k: nat)
    ensures DigitsValue(Zeros(k)) == 0
  {
    if k > 0 {
      assert Zeros(k)[..k - 1] == Zeros(k - 1);
      ZerosValue(k - 1);
    }
  }

  /** Leading zeros do not change the number a digit text writes. */
  lemma {:induction false} LeadingZerosValue(k: nat, t: string)
    requires AllDigits(t)
    ensures AllDigits(Zeros(k) + t)
    ensures DigitsValue(Zeros(k) + t) == DigitsValue(t)
  {
    var u := Zeros(k) + t;
    assert AllDigits(u) by {
      forall i | 0 <= i < |u| ensures IsDigit(u[i]) {
        if i < k { assert u[i] == Zeros(k)[i]; } else { assert u[i] == t[i - k]; }
      }
    }
    if t == [] {
      assert u == Zeros(k);
      ZerosValue(k);
    } else {
      var t' := t[..|t| - 1];
      assert u[..|u| - 1] == Zeros(k) + t';
      LeadingZerosValue(k, t');
    }
  }

  /** The zero-padded decimal text of n in at least `width` characters
      (as the %0<width>d and ISO date formats write it). */
  function Padded(n: nat, width: nat): (r: string)
    ensures AllDigits(r) && DigitsValue(r) == n
    ensures |r| >= width
  {
    var t := NatText(n);
    var k := if |t| < width then width - |t| else 0;
    LeadingZerosValue(k, t);
    Zeros(k) + t
  }

  /** A number below 10^width is padded to exactly `width` characters. */
  lemma PaddedWidth(n: nat, width: nat)
    requires 1 <= width && n < Pow10(width)
    ensures |Padded(n, width)| == width
  {
    NatTextLength(n, width);
  }

  /** A text of w digits writes a number below 10^w. */
  lemma {:induction false} DigitsBound(t: string)
    requires AllDigits(t)
    ensures DigitsValue(t) < Pow10(|t|)
  {
    if t != [] {
      DigitsBound(t[..|t| - 1]);
    }
  }

  /** Two digit texts of the same length that write the same number are the
      same text. */
  lemma {:induction false} DigitsInjective(a: string, b: string)
    requires AllDigits(a) && AllDigits(b) && |a| == |b|
    requires DigitsValue(a) == DigitsValue(b)
    ensures a == b
  {
    if a != [] {
      var a', b' := a[..|a| - 1], b[..|b| - 1];
      assert DigitValue(a[|a| - 1]) == DigitsValue(a) % 10;
      assert DigitValue(b[|b| - 1]) == DigitsValue(b) % 10;
      assert DigitsValue(a') == DigitsValue(a) / 10;
      assert DigitsValue(b') == DigitsValue(b) / 10;
      DigitsInjective(a', b');
      assert a == a' + [a[|a| - 1]] && b == b' + [b[|b| - 1]];
    }
  }

  /** Padding the number a digit text writes to the text's own length gives
      that text back. */
  lemma PaddedDigits(t: string)
    requires 1 <= |t| && AllDigits(t)
    ensures Padded(DigitsValue(t), |t|) == t
  {
    DigitsBound(t);
    PaddedWidth(DigitsValue(t), |t|);
    DigitsInjective(Padded(DigitsValue(t), |t|), t);
  }

  /** A non-empty text of decimal digits, read as a number. */
  function ParseDigits(s: string): (r: Option<nat>)
    ensures r.Some? <==> s != [] && AllDigits(s)
  {
    if s != [] && AllDigits(s) then Some(DigitsValue(s)) else None
  }

  /** int(text) for texts of ASCII digits with an optional sign and
      surrounding whitespace. */
  function ParseInt(s: string): (r: Result<int, Failure>)
    ensures r.Err? ==> r.error == ValueError
  {
    var t := Strip(s);
    if |t| >= 1 && (t[0] == '+' || t[0] == '-') then
      match ParseDigits(t[1..])
      case None => Err(ValueError)
      case Some(d) => Ok(if t[0] == '-' then -(d as int) else d as int)
    else
      match ParseDigits(t)
      case None => Err(ValueError)
      case Some(d) => Ok(d)
  }

  /** int() reads back what str() writes. */
  lemma ParseIntNatText(n: nat)
    ensures ParseInt(NatText(n)) == Ok(n)
  {
    var t := NatText(n);
    assert LeadingSpaces(t) == 0 && TrailingSpaces(t) == 0;
    assert Strip(t) == t;
  }

  /** The index of the first character of s that is in `cs`, or |s|. */
  function IndexOfAny(s: string, cs: set<char>): (i: nat)
    ensures i <= |s|
    ensures forall k :: 0 <= k < i ==> s[k] !in cs
    ensures i < |s| ==> s[i] in cs
  {
    if s == [] || s[0] in cs then 0 else 1 + IndexOfAny(s[1..], cs)
  }

  function Pow10Real(x: int): real {
    if x >= 0 then Pow10(x) as real else 1.0 / (Pow10(-x) as real)
  }

  /** digits, digits '.' digits, digits '.', or '.' digits. */
  function ParseMantissa(s: string): Option<real> {
    var d := IndexOfAny(s, {'.'});
    if d == |s| then
      match ParseDigits(s)
      case None => None
      case Some(v) => Some(v as real)
    else
      var ip := s[..d];
      var fp := s[d + 1..];
      if AllDigits(ip) && AllDigits(fp) && (ip != [] || fp != []) then
        Some(DigitsValue(ip) as real + DigitsValue(fp) as real / (Pow10(|fp|) as real))
      else None
  }

  /** An exponent: an optional sign followed by digits. */
  function ParseExponent(s: string): Option<int> {
    if |s| >= 1 && (s[0] == '+' || s[0] == '-') then
      match ParseDigits(s[1..])
      case None => None
      case Some(d) => Some(if s[0] == '-' then -(d as int) else d as int)
    else
      match ParseDigits(s)
      case None => None
      case Some(d) => Some(d)
  }

  function ParseUnsignedDecimal(s: string): Option<real> {
    var e := IndexOfAny(s, {'e', 'E'});
    match ParseMantissa(s[..e])
    case None => None
    case Some(m) =>
      if e == |s| then Some(m)
      else
        match ParseExponent(s[e + 1..])
        case None => None
        case Some(x) => Some(m * Pow10Real(x))
  }

  /** float(text) for decimal notation: surrounding whitespace, an optional
      sign, digits with an optional fraction and an optional exponent. */
  function ParseFloat(s: string): (r: Result<real, Failure>)
    ensures r.Err? ==> r.error == ValueError
  {
    var t := Strip(s);
    var neg := |t| >= 1 && t[0] == '-';
    var body := if |t| >= 1 && (t[0] == '+' || t[0] == '-') then t[1..] else t;
    match ParseUnsignedDecimal(body)
    case None => Err(ValueError)
    case Some(v) => Ok(if neg then -v else v)
  }

  /** Python's ordering of texts: character by character, and a proper
      prefix before the longer text. */
  predicate StrLt(a: string, b: string) {
    if a == [] then b != []
    else b != [] && (a[0] < b[0] || (a[0] == b[0] && StrLt(a[1..], b[1..])))
  }

  predicate StrLe(a: string, b: string) {
    a == b || StrLt(a, b)
  }

  lemma {:induction false} StrLtIrreflexive(a: string)
    ensures !StrLt(a, a)
  {
    if a != [] { StrLtIrreflexive(a[1..]); }
  }

  lemma {:induction false} StrLtTransitive(a: string, b: string, c: string)
    requires StrLt(a, b) && StrLt(b, c)
    ensures StrLt(a, c)
  {
    if a != [] && a[0] == b[0] && b[0] == c[0] {
      StrLtTransitive(a[1..], b[1..], c[1..]);
    }
  }

  lemma {:induction false} StrLtTrichotomy(a: string, b: string)
    ensures a == b || StrLt(a, b) || StrLt(b, a)
  {
    if a != [] && b != [] && a[0] == b[0] {
      StrLtTrichotomy(a[1..], b[1..]);
      if a[1..] == b[1..] {
        assert a == [a[0]] + a[1..] && b == [b[0]] + b[1..];
      }
    }
  }

  lemma StrLtAsymmetric(a: string, b: string)
    requires StrLt(a, b)
    ensures !StrLt(b, a)
  {
    if StrLt(b, a) {
      StrLtTransitive(a, b, a);
      StrLtIrreflexive(a);
    }
  }
}
