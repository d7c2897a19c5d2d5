/**
 * The JavaScript string and number built-ins the deck engine relies on:
 * `parseFloat`, `toLowerCase`, `includes`, the two regular expressions of the
 * problem rubric, `split` on one character and `filter(Boolean)`.
 */
module Text {
  import opened Wrappers

  predicate IsDigit(c: char) {
    '0' <= c <= '9'
  }

  predicate AllDigits(s: string) {
    forall i :: 0 <= i < |s| ==> IsDigit(s[i])
  }

  function DigitValue(c: char): (v: nat)
    requires IsDigit(c)
    ensures v < 10
  {
    (c as int) - ('0' as int)
  }

  function DigitChar(v: nat): (c: char)
    requires v < 10
    ensures IsDigit(c) && DigitValue(c) == v
  {
    ('0' as int + v) as char
  }

  /** Length of the run of decimal digits at the start of `s`. */
  function DigitRun(s: string): (n: nat)
    ensures n <= |s|
    ensures AllDigits(s[..n])
    ensures n < |s| ==> !IsDigit(s[n])
  {
    if s != [] && IsDigit(s[0]) then
      var n := 1 + DigitRun(s[1..]);
      assert s[..n] == [s[0]] + s[1..][..n - 1];
      n
    else 0
  }

  /** Value of a string of decimal digits, most significant digit first. */
  function DigitsValue(ds: string): nat
    requires AllDigits(ds)
  {
    if ds == [] then 0 else 10 * DigitsValue(ds[..|ds| - 1]) + DigitValue(ds[|ds| - 1])
  }

  /** The white space `parseFloat` skips before a number (the common ASCII subset). */
  predicate IsSpace(c: char) {
    c == ' ' || c == '\t' || c == '\n' || c == '\r' || c == '\U{B}' || c == '\U{C}'
  }

  function SkipSpace(s: string): (t: string)
    ensures |t| <= |s| && t == s[|s| - |t|..]
    ensures t != [] ==> !IsSpace(t[0])
  {
    if s != [] && IsSpace(s[0]) then SkipSpace(s[1..]) else s
  }

  /** The value of the digits after a decimal point: `0.d1d2...` is `(d1 + 0.d2...) / 10`. */
  function Fraction(ds: string): (f: real)
    requires AllDigits(ds)
    ensures 0.0 <= f < 1.0
    ensures ds == [] ==> f == 0.0
  {
    if ds == [] then 0.0 else (DigitValue(ds[0]) as real + Fraction(ds[1..])) / 10.0
  }

  /** The longest prefix `digits[.digits]` of `s`; `None` when there is no digit on either side of the point. */
  function UnsignedPrefix(s: string): (r: Option<real>)
    ensures (forall i :: 0 <= i < |s| ==> !IsDigit(s[i])) ==> r.None?
    ensures r.Some? ==> r.value >= 0.0
  {
    var n := DigitRun(s);
    var frac := FractionDigits(s[n..]);
    assert frac != [] ==> IsDigit(s[n + 1]);
    Assemble(s[..n], frac)
  }

  /** The digits right after a leading decimal point; none when `rest` does not start with a point. */
  function FractionDigits(rest: string): (f: string)
    ensures AllDigits(f)
  {
    if rest != [] && rest[0] == '.' then rest[1..][..DigitRun(rest[1..])] else []
  }

  /** The number with integer digits `ds` and fraction digits `fs`; `None` when both are empty. */
  function Assemble(ds: string, fs: string): (r: Option<real>)
    requires AllDigits(ds) && AllDigits(fs)
    ensures r.None? <==> ds == [] && fs == []
    ensures r.Some? ==> r.value >= 0.0
  {
    if ds == [] && fs == [] then None
    else Some(DigitsValue(ds) as real + Fraction(fs))
  }

  /**
   * `parseFloat(s)`: an optional sign and the longest decimal prefix after
   * leading white space; `None` stands for `NaN`.
   */
  function ParseNum(s: string): (r: Option<real>)
    ensures (forall i :: 0 <= i < |s| ==> !IsDigit(s[i])) ==> r.None?
  {
    Signed(SkipSpace(s))
  }

  function Negate(o: Option<real>): Option<real> {
    match o
    case Some(v) => Some(-v)
    case None => None
  }

  /** An optional sign, then the unsigned prefix. */
  function Signed(t: string): (r: Option<real>)
    ensures (forall i :: 0 <= i < |t| ==> !IsDigit(t[i])) ==> r.None?
  {
    if t != [] && t[0] == '-' then Negate(UnsignedPrefix(t[1..]))
    else if t != [] && t[0] == '+' then UnsignedPrefix(t[1..])
    else UnsignedPrefix(t)
  }

  /** After the white space, text that does not start with a sign is read as an unsigned number. */
  lemma ParseNumUnsigned(s: string)
    requires s == [] || !(IsSpace(s[0]) || s[0] == '+' || s[0] == '-')
    ensures ParseNum(s) == UnsignedPrefix(s)
  {
    assert SkipSpace(s) == s;
  }

  /** The unsigned prefix is made of the leading digits and the fraction digits after them. */
  lemma UnsignedOf(s: string, n: nat)
    requires n == DigitRun(s)
    ensures UnsignedPrefix(s) == Assemble(s[..n], FractionDigits(s[n..]))
  {
  }

  /** Without a leading decimal point there are no fraction digits. */
  lemma NoFraction(rest: string)
    requires rest == [] || rest[0] != '.'
    ensures FractionDigits(rest) == []
  {
  }

  /** With a digit on either side of the point the number is the integer part plus the fraction. */
  lemma AssembleSome(ds: string, fs: string)
    requires AllDigits(ds) && AllDigits(fs) && (ds != [] || fs != [])
    ensures Assemble(ds, fs) == Some(DigitsValue(ds) as real + Fraction(fs))
  {
  }

  /** Digits without a fraction are their own value. */
  lemma AssembleWhole(ds: string)
    requires AllDigits(ds) && ds != []
    ensures Assemble(ds, []) == Some(DigitsValue(ds) as real)
  {
  }

  /** Leading digits not followed by a decimal point are the whole number. */
  lemma ParseNumDigitsThen(s: string, n: nat)
    requires n == DigitRun(s) && n > 0
    requires n == |s| || s[n] != '.'
    ensures ParseNum(s) == Some(DigitsValue(s[..n]) as real)
  {
    ParseNumUnsigned(s);
    UnsignedOf(s, n);
    NoFraction(s[n..]);
    AssembleWhole(s[..n]);
  }

  /** Digits, then text that cannot continue the number: the digits are read and the rest is ignored ("100k" reads 100). */
  lemma ParseNumPrefix(ds: string, tail: string)
    requires ds != [] && AllDigits(ds)
    requires tail == [] || !(IsDigit(tail[0]) || tail[0] == '.')
    ensures ParseNum(ds + tail) == Some(DigitsValue(ds) as real)
  {
    var s := ds + tail;
    DigitRunOfDigits(ds, tail);
    assert s[..|ds|] == ds;
    ParseNumDigitsThen(s, |ds|);
  }

  /** After a decimal point the fraction is the run of digits that follows it. */
  lemma FractionAfterPoint(rest: string)
    requires rest != [] && rest[0] == '.'
    ensures FractionDigits(rest) == rest[1..][..DigitRun(rest[1..])]
  {
  }

  /** Leading digits `ds`, a decimal point and the digits `fs` after it make up the number. */
  lemma ParseNumPointThen(s: string, ds: string, fs: string)
    requires AllDigits(ds) && AllDigits(fs)
    requires DigitRun(s) == |ds| && |ds| < |s| && s[..|ds|] == ds && s[|ds|] == '.'
    requires DigitRun(s[|ds| + 1..]) == |fs| && s[|ds| + 1..][..|fs|] == fs
    ensures ParseNum(s) == Assemble(ds, fs)
  {
    var n := |ds|;
    ParseNumUnsigned(s);
    UnsignedOf(s, n);
    FractionAfterPoint(s[n..]);
    assert s[n..][1..] == s[n + 1..];
  }

  /** Where the digits and the point of `ds.fs` followed by `tail` are. */
  lemma PointSplit(ds: string, fs: string, tail: string)
    requires AllDigits(ds) && AllDigits(fs)
    requires tail == [] || !IsDigit(tail[0])
    ensures var s := ds + ['.'] + fs + tail; var n := |ds|;
      DigitRun(s) == n && n < |s| && s[..n] == ds && s[n] == '.'
      && DigitRun(s[n + 1..]) == |fs| && s[n + 1..][..|fs|] == fs
  {
    var s := ds + ['.'] + fs + tail;
    var n := |ds|;
    assert s == ds + (['.'] + fs + tail);
    DigitRunOfDigits(ds, ['.'] + fs + tail);
    assert s[n + 1..] == fs + tail;
    DigitRunOfDigits(fs, tail);
    assert (fs + tail)[..|fs|] == fs;
  }

  /** Digits, a decimal point and more digits are read as a fraction, and the rest is ignored ("12.5%" reads 12.5). */
  lemma ParseNumFraction(ds: string, fs: string, tail: string)
    requires AllDigits(ds) && AllDigits(fs) && (ds != [] || fs != [])
    requires tail == [] || !IsDigit(tail[0])
    ensures ParseNum(ds + ['.'] + fs + tail) == Some(DigitsValue(ds) as real + Fraction(fs))
  {
    PointSplit(ds, fs, tail);
    ParseNumPointThen(ds + ['.'] + fs + tail, ds, fs);
    AssembleSome(ds, fs);
  }

  /** White space before the number is skipped. */
  lemma ParseNumSkipsSpace(c: char, s: string)
    requires IsSpace(c)
    ensures ParseNum([c] + s) == ParseNum(s)
  {
    assert ([c] + s)[1..] == s;
  }

  /** A sign followed by something other than white space or another sign. */
  predicate SignThen(p: string, sign: char) {
    p != [] && p[0] == sign && (|p| == 1 || !(IsSpace(p[1]) || p[1] == '+' || p[1] == '-'))
  }

  lemma SignedMinusThen(p: string)
    requires SignThen(p, '-')
    ensures ParseNum(p) == Signed(p) == Negate(UnsignedPrefix(p[1..]))
  {
    assert SkipSpace(p) == p;
  }

  lemma ParseNumPlusThen(p: string)
    requires SignThen(p, '+')
    ensures ParseNum(p) == ParseNum(p[1..])
  {
    assert SkipSpace(p) == p;
    ParseNumUnsigned(p[1..]);
  }

  /** After the white space, a `-` negates what the rest reads as. */
  lemma ParseNumMinus(t: string)
    requires t == [] || !(IsSpace(t[0]) || t[0] == '+' || t[0] == '-')
    ensures ParseNum(['-'] + t) == Negate(ParseNum(t))
  {
    var m := ['-'] + t;
    assert m[1..] == t;
    SignedMinusThen(m);
    ParseNumUnsigned(t);
  }

  /** After the white space, a `+` changes nothing. */
  lemma ParseNumPlus(t: string)
    requires t == [] || !(IsSpace(t[0]) || t[0] == '+' || t[0] == '-')
    ensures ParseNum(['+'] + t) == ParseNum(t)
  {
    var p := ['+'] + t;
    assert p[1..] == t;
    ParseNumPlusThen(p);
  }

  /** Text whose first character cannot start a number is `NaN` whatever follows ("$500"). */
  lemma ParseNumNotANumber(s: string)
    requires s != [] && !(IsSpace(s[0]) || IsDigit(s[0]) || s[0] == '.' || s[0] == '+' || s[0] == '-')
    ensures ParseNum(s) == None
  {
    ParseNumUnsigned(s);
    assert DigitRun(s) == 0;
  }

  /** `parseFloat(s) || d`: `NaN` and zero are falsy and give way to `d`; every other value, negative ones included, is kept. */
  function OrDefault(p: Option<real>, d: real): (r: real)
    ensures p.Some? && p.value != 0.0 ==> r == p.value
    ensures (p.None? || p.value == 0.0) ==> r == d
    ensures d != 0.0 ==> r != 0.0
  {
    match p
    case Some(v) => if v != 0.0 then v else d
    case None => d
  }

  /** The decimal rendering of a natural number, without leading zeros. */
  function Decimal(n: nat): (s: string)
    ensures s != [] && AllDigits(s)
  {
    if n < 10 then [DigitChar(n)] else Decimal(n / 10) + [DigitChar(n % 10)]
  }

  lemma {:induction false} DecimalValue(n: nat)
    ensures DigitsValue(Decimal(n)) == n
  {
    var s := Decimal(n);
    if n >= 10 {
      DecimalValue(n / 10);
      assert s[..|s| - 1] == Decimal(n / 10);
    }
  }

  lemma {:induction false} DigitRunOfDigits(s: string, tail: string)
    requires AllDigits(s)
    requires tail == [] || !IsDigit(tail[0])
    ensures DigitRun(s + tail) == |s|
  {
    if s != [] {
      assert (s + tail)[1..] == s[1..] + tail;
      DigitRunOfDigits(s[1..], tail);
    }
  }

  /** A non-empty string of digits is read whole. */
  lemma {:induction false} UnsignedDigits(s: string)
    requires s != [] && AllDigits(s)
    ensures UnsignedPrefix(s) == Some(DigitsValue(s) as real)
  {
    DigitRunOfDigits(s, []);
    assert s + [] == s;
    assert s[..|s|] == s && s[|s|..] == [];
  }

  /** A string of digits parses to its value. */
  lemma {:induction false} ParseDigits(s: string)
    requires s != [] && AllDigits(s)
    ensures ParseNum(s) == Some(DigitsValue(s) as real)
  {
    assert !IsSpace(s[0]);
    assert SkipSpace(s) == s;
    UnsignedDigits(s);
  }

  /** A minus sign before a string of digits negates its value. */
  lemma {:induction false} ParseNegativeDigits(s: string)
    requires s != [] && AllDigits(s)
    ensures ParseNum("-" + s) == Some(-(DigitsValue(s) as real))
  {
    var t := "-" + s;
    assert t[0] == '-' && !IsSpace(t[0]);
    assert SkipSpace(t) == t;
    assert t[1..] == s;
    UnsignedDigits(s);
    assert UnsignedPrefix(t[1..]) == Some(DigitsValue(s) as real);
    assert ParseNum(t) == (match UnsignedPrefix(t[1..]) case Some(v) => Some(-v) case None => None);
  }

  /** `parseFloat` reads back the decimal rendering of every natural number. */
  lemma {:induction false} ParseDecimal(n: nat)
    ensures ParseNum(Decimal(n)) == Some(n as real)
  {
    var s := Decimal(n);
    DecimalValue(n);
    ParseDigits(s);
  }

  function LowerChar(c: char): char {
    if 'A' <= c <= 'Z' then (c as int - 'A' as int + 'a' as int) as char else c
  }

  /** `toLowerCase()` on ASCII letters. */
  function Lower(s: string): (r: string)
    ensures |r| == |s|
    ensures forall i :: 0 <= i < |s| ==> r[i] == LowerChar(s[i])
  {
    seq(|s|, i requires 0 <= i < |s| => LowerChar(s[i]))
  }

  predicate OccursAt(s: string, t: string, i: int) {
    0 <= i && i + |t| <= |s| && s[i..i + |t|] == t
  }

  /** `s.includes(t)`. */
  predicate Contains(s: string, t: string) {
    exists i :: 0 <= i <= |s| - |t| && OccursAt(s, t, i)
  }

  /** A text that `toLowerCase` leaves alone is found in the lowered text wherever it occurs in the original. */
  lemma ContainsLowered(s: string, t: string, i: int)
    requires OccursAt(s, t, i)
    requires Lower(t) == t
    ensures Contains(Lower(s), t)
  {
    var ls := Lower(s);
    forall k | 0 <= k < |t| ensures ls[i + k] == t[k] {
      assert s[i + k] == t[k];
      assert LowerChar(t[k]) == Lower(t)[k];
    }
    assert ls[i..i + |t|] == t;
    assert OccursAt(ls, t, i);
  }

  predicate PercentAt(s: string, i: int) {
    0 <= i < |s| - 1 && IsDigit(s[i]) && s[i + 1] == '%'
  }

  /**
   * `/\d+%/.test(s)`, scanning from the left: the regular expression matches
   * exactly when some digit is directly followed by a percent sign.
   */
  function HasPercent(s: string): (b: bool)
    ensures b <==> exists i :: PercentAt(s, i)
  {
    if |s| < 2 then false
    else if IsDigit(s[0]) && s[1] == '%' then
      assert PercentAt(s, 0);
      true
    else
      var rest := HasPercent(s[1..]);
      assert forall i :: PercentAt(s, i) <==> i > 0 && PercentAt(s[1..], i - 1);
      assert rest ==> exists i :: PercentAt(s[1..], i) && PercentAt(s, i + 1);
      rest
  }

  predicate DollarAt(s: string, i: int) {
    0 <= i < |s| - 1 && s[i] == '$' && (IsDigit(s[i + 1]) || s[i + 1] == ',')
  }

  /**
   * `/\$[\d,]+/.test(s)`, scanning from the left: the regular expression
   * matches exactly when some dollar sign is directly followed by a digit or a comma.
   */
  function HasDollarAmount(s: string): (b: bool)
    ensures b <==> exists i :: DollarAt(s, i)
  {
    if |s| < 2 then false
    else if s[0] == '$' && (IsDigit(s[1]) || s[1] == ',') then
      assert DollarAt(s, 0);
      true
    else
      var rest := HasDollarAmount(s[1..]);
      assert forall i :: DollarAt(s, i) <==> i > 0 && DollarAt(s[1..], i - 1);
      assert rest ==> exists i :: DollarAt(s[1..], i) && DollarAt(s, i + 1);
      rest
  }

  /** `s.split(sep)` for a one-character separator: always at least one piece, and no piece holds the separator. */
  function Split(s: string, sep: char): (r: seq<string>)
    ensures |r| >= 1
    ensures forall k :: 0 <= k < |r| ==> sep !in r[k]
  {
    if s == [] then [""]
    else
      var rest := Split(s[1..], sep);
      if s[0] == sep then [""] + rest
      else [[s[0]] + rest[0]] + rest[1..]
  }

  /** `pieces.join(sep)`. */
  function Join(pieces: seq<string>, sep: char): string
    requires |pieces| >= 1
  {
    if |pieces| == 1 then pieces[0] else pieces[0] + [sep] + Join(pieces[1..], sep)
  }

  /** Splitting loses nothing: joining the pieces gives back the text. */
  lemma {:induction false} JoinSplit(s: string, sep: char)
    ensures Join(Split(s, sep), sep) == s
  {
    if s != [] {
      var rest := Split(s[1..], sep);
      JoinSplit(s[1..], sep);
      if s[0] == sep {
        assert Split(s, sep)[1..] == rest;
      } else {
        var r := Split(s, sep);
        if |rest| > 1 {
          assert r[1..] == rest[1..];
        }
      }
    }
  }

  /** A text without the separator followed by the separator starts a new piece. */
  lemma {:induction false} SplitAfter(a: string, sep: char, b: string)
    requires sep !in a
    ensures Split(a + [sep] + b, sep) == [a] + Split(b, sep)
  {
    if a != [] {
      assert (a + [sep] + b)[1..] == a[1..] + [sep] + b;
      SplitAfter(a[1..], sep, b);
      assert [a[0]] + a[1..] == a;
    } else {
      assert a + [sep] + b == [sep] + b;
    }
  }

  lemma {:induction false} SplitWithout(a: string, sep: char)
    requires sep !in a
    ensures Split(a, sep) == [a]
  {
    if a != [] {
      SplitWithout(a[1..], sep);
      assert [a[0]] + a[1..] == a;
    }
  }

  /** `pieces.filter(Boolean)`: the non-empty pieces, in order. */
  function NonEmpty(pieces: seq<string>): (r: seq<string>)
    ensures |r| <= |pieces|
    ensures forall k :: 0 <= k < |r| ==> r[k] != "" && r[k] in pieces
    ensures forall k :: 0 <= k < |pieces| && pieces[k] != "" ==> pieces[k] in r
  {
    if pieces == [] then []
    else if pieces[0] == "" then NonEmpty(pieces[1..])
    else [pieces[0]] + NonEmpty(pieces[1..])
  }

  /** Filtering pieces that are all non-empty keeps them all. */
  lemma {:induction false} NonEmptyAll(pieces: seq<string>)
    requires forall k :: 0 <= k < |pieces| ==> pieces[k] != ""
    ensures NonEmpty(pieces) == pieces
  {
    if pieces != [] {
      NonEmptyAll(pieces[1..]);
      assert [pieces[0]] + pieces[1..] == pieces;
    }
  }

  /** One piece is kept exactly when it is non-empty. */
  lemma NonEmptyOne(p: string)
    ensures NonEmpty([p]) == if p == "" then [] else [p]
  {
    assert [p][1..] == [];
  }

  /** Filtering distributes over concatenation, so the kept pieces stay in their order. */
  lemma {:induction false} NonEmptyConcat(a: seq<string>, b: seq<string>)
    ensures NonEmpty(a + b) == NonEmpty(a) + NonEmpty(b)
  {
    if a == [] {
      assert a + b == b;
    } else {
      assert (a + b)[0] == a[0];
      assert (a + b)[1..] == a[1..] + b;
      NonEmptyConcat(a[1..], b);
    }
  }
}
