/**
 * The few Python built-ins the tracking core relies on, over `string` (= seq<char>):
 * the exceptions it can raise, `str.isspace`, `str.upper`/`str.lower` (ASCII letters),
 * `str.strip`, `str.split(sep)`, `str.replace` of one character, `int(str)` and `str(int)`.
 */
module Python {
  import opened Wrappers

  /** The exceptions the modelled code raises (or lets escape from a library call). */
  datatype Exception =
    | ValueError        // int() of a non-number, time() out of range, unpacking the wrong count
    | AttributeError    // an attribute looked up on None
    | FieldDoesNotExist(field: string)  // a model field looked up by a name it does not have
    | Raised(message: string)  // `raise Exception(message)`

  // ---------------------------------------------------------------------------
  // Characters

  /** `c.isspace()`: the characters `str.strip()` and `int()` remove. */
  predicate IsSpace(c: char) {
    || c == ' '
    || ('\t' <= c <= '\r')
    || ('\U{1C}' <= c <= '\U{1F}')
    || c == '\U{85}' || c == '\U{A0}' || c == '\U{1680}'
    || ('\U{2000}' <= c <= '\U{200A}')
    || c == '\U{2028}' || c == '\U{2029}' || c == '\U{202F}' || c == '\U{205F}' || c == '\U{3000}'
  }

  predicate AllSpace(s: string) {
    forall i :: 0 <= i < |s| ==> IsSpace(s[i])
  }

  function UpperChar(c: char): char {
    if 'a' <= c <= 'z' then (c as int - 32) as char else c
  }

  function LowerChar(c: char): char {
    if 'A' <= c <= 'Z' then (c as int + 32) as char else c
  }

  /** `s.upper()` on ASCII letters. */
  function Upper(s: string): (r: string)
    ensures |r| == |s|
  {
    seq(|s|, i requires 0 <= i < |s| => UpperChar(s[i]))
  }

  /** `s.lower()` on ASCII letters. */
  function Lower(s: string): (r: string)
    ensures |r| == |s|
  {
    seq(|s|, i requires 0 <= i < |s| => LowerChar(s[i]))
  }

  /** `s.replace(from, to)` for single characters. */
  function Replace(s: string, from: char, to: char): (r: string)
    ensures |r| == |s|
  {
    seq(|s|, i requires 0 <= i < |s| => if s[i] == from then to else s[i])
  }

  // ---------------------------------------------------------------------------
  // strip()

  function LStrip(s: string): (r: string)
    ensures |r| <= |s|
    ensures r == s[|s| - |r|..]
  {
    if |s| > 0 && IsSpace(s[0]) then LStrip(s[1..]) else s
  }

  function RStrip(s: string): (r: string)
    ensures |r| <= |s|
    ensures r == s[..|r|]
  {
    if |s| > 0 && IsSpace(s[|s| - 1]) then RStrip(s[..|s| - 1]) else s
  }

  /** `s.strip()` */
  function Strip(s: string): (r: string)
    ensures |r| <= |s|
  {
    RStrip(LStrip(s))
  }

  lemma {:induction false} LStripSkipsSpace(w: string, x: string)
    requires AllSpace(w)
    ensures LStrip(w + x) == LStrip(x)
    decreases |w|
  {
    if |w| > 0 {
      assert (w + x)[1..] == w[1..] + x;
      LStripSkipsSpace(w[1..], x);
    } else {
      assert w + x == x;
    }
  }

  lemma {:induction false} RStripSkipsSpace(x: string, w: string)
    requires AllSpace(w)
    ensures RStrip(x + w) == RStrip(x)
    decreases |w|
  {
    if |w| > 0 {
      assert (x + w)[..|x + w| - 1] == x + w[..|w| - 1];
      RStripSkipsSpace(x, w[..|w| - 1]);
    } else {
      assert x + w == x;
    }
  }

  /** Once a non-space character is reached, what follows is kept as it is. */
  lemma {:induction false} LStripAppend(x: string, w: string)
    requires !AllSpace(x)
    ensures LStrip(x + w) == LStrip(x) + w
    decreases |x|
  {
    assert |x| > 0;
    if IsSpace(x[0]) {
      assert (x + w)[1..] == x[1..] + w;
      LStripAppend(x[1..], w);
    }
  }

  /** Surrounding whitespace never changes what `strip()` returns. */
  lemma StripIgnoresPadding(w1: string, s: string, w2: string)
    requires AllSpace(w1) && AllSpace(w2)
    ensures Strip(w1 + s + w2) == Strip(s)
  {
    assert w1 + s + w2 == w1 + (s + w2);
    LStripSkipsSpace(w1, s + w2);
    if AllSpace(s) {
      assert AllSpace(s + w2);
      LStripSkipsSpace(s + w2, []);
      LStripSkipsSpace(s, []);
      assert s + w2 + [] == s + w2;
      assert s + [] == s;
    } else {
      LStripAppend(s, w2);
      RStripSkipsSpace(LStrip(s), w2);
    }
  }

  /** `s.strip() == ""` exactly when every character of `s` is whitespace. */
  lemma {:induction false} StripEmptyIff(s: string)
    ensures Strip(s) == [] <==> AllSpace(s)
  {
    if AllSpace(s) {
      LStripSkipsSpace(s, []);
      assert s + [] == s;
    } else {
      LStripKeepsNonSpace(s);
      RStripNonEmpty(LStrip(s));
    }
  }

  lemma {:induction false} LStripKeepsNonSpace(s: string)
    requires !AllSpace(s)
    ensures !AllSpace(LStrip(s))
    decreases |s|
  {
    if IsSpace(s[0]) {
      assert !AllSpace(s[1..]) by {
        var k :| 0 <= k < |s| && !IsSpace(s[k]);
        assert s[1..][k - 1] == s[k];
      }
      LStripKeepsNonSpace(s[1..]);
    }
  }

  lemma {:induction false} RStripNonEmpty(s: string)
    requires !AllSpace(s)
    ensures RStrip(s) != []
    decreases |s|
  {
    if IsSpace(s[|s| - 1]) {
      assert !AllSpace(s[..|s| - 1]) by {
        var k :| 0 <= k < |s| && !IsSpace(s[k]);
        assert s[..|s| - 1][k] == s[k];
      }
      RStripNonEmpty(s[..|s| - 1]);
    }
  }

  /** A string that neither starts nor ends with whitespace is its own `strip()`. */
  lemma StripFixed(s: string)
    requires s == [] || (!IsSpace(s[0]) && !IsSpace(s[|s| - 1]))
    ensures Strip(s) == s
  {
  }

  // ---------------------------------------------------------------------------
  // split(sep)

  /** `s.split(sep)`: the pieces between occurrences of `sep`, always at least one. */
  function Split(s: string, sep: char): (parts: seq<string>)
    ensures |parts| >= 1
    ensures sep !in s ==> parts == [s]
    ensures sep in s ==> |parts| >= 2
    decreases |s|
  {
    if |s| == 0 then [""]
    else if s[0] == sep then [""] + Split(s[1..], sep)
    else
      var rest := Split(s[1..], sep);
      assert [s[0]] + s[1..] == s;
      [[s[0]] + rest[0]] + rest[1..]
  }

  /** Splitting `a + sep + b` cuts after `a` when `a` has no separator. */
  lemma {:induction false} SplitAfter(a: string, sep: char, b: string)
    requires sep !in a
    ensures Split(a + [sep] + b, sep) == [a] + Split(b, sep)
    decreases |a|
  {
    var s := a + [sep] + b;
    if |a| == 0 {
      assert s[1..] == b;
    } else {
      assert s[1..] == a[1..] + [sep] + b;
      SplitAfter(a[1..], sep, b);
      assert [a[0]] + a[1..] == a;
    }
  }

  lemma SplitPair(a: string, sep: char, b: string)
    requires sep !in a && sep !in b
    ensures Split(a + [sep] + b, sep) == [a, b]
  {
    SplitAfter(a, sep, b);
  }

  // ---------------------------------------------------------------------------
  // int(s) and str(n)

  predicate IsDigit(c: char) {
    '0' <= c <= '9'
  }

  predicate AllDigits(s: string) {
    forall i :: 0 <= i < |s| ==> IsDigit(s[i])
  }

  function DigitValue(c: char): nat
    requires IsDigit(c)
  {
    c as int - '0' as int
  }

  function DigitChar(d: nat): (c: char)
    requires d < 10
    ensures IsDigit(c) && DigitValue(c) == d
  {
    ('0' as int + d) as char
  }

  function DigitsValue(s: string): nat
    requires AllDigits(s)
    decreases |s|
  {
    if |s| == 0 then 0 else DigitsValue(s[..|s| - 1]) * 10 + DigitValue(s[|s| - 1])
  }

  function ParseDigits(s: string): Option<nat> {
    if |s| > 0 && AllDigits(s) then Some(DigitsValue(s)) else None
  }

  /** `int(s)` on a string: surrounding whitespace, an optional sign, then ASCII digits. */
  function ParseInt(s: string): Option<int> {
    var t := Strip(s);
    if |t| > 0 && (t[0] == '-' || t[0] == '+') then
      match ParseDigits(t[1..])
      case None => None
      case Some(n) => var v: int := n; Some(if t[0] == '-' then -v else v)
    else
      ParseDigits(t)
  }

  function NatToString(n: nat): (r: string)
    ensures |r| > 0 && AllDigits(r)
  {
    if n < 10 then [DigitChar(n)] else NatToString(n / 10) + [DigitChar(n % 10)]
  }

  /** `str(n)` for an int. */
  function IntToString(n: int): (r: string)
    ensures |r| > 0
  {
    if n < 0 then "-" + NatToString(-n) else NatToString(n)
  }

  /** `"%02d" % n` for a non-negative number below 100. */
  function Pad2(n: nat): (r: string)
    requires n < 100
    ensures |r| == 2 && AllDigits(r)
  {
    [DigitChar(n / 10), DigitChar(n % 10)]
  }

  lemma {:induction false} DigitsOfNatToString(n: nat)
    ensures DigitsValue(NatToString(n)) == n
  {
    if n >= 10 {
      var s := NatToString(n);
      assert s[..|s| - 1] == NatToString(n / 10);
      DigitsOfNatToString(n / 10);
    }
  }

  /** `int(str(n)) == n` */
  lemma ParseIntOfIntToString(n: int)
    ensures ParseInt(IntToString(n)) == Some(n)
  {
    var s := IntToString(n);
    var d := NatToString(if n < 0 then -n else n);
    DigitsOfNatToString(if n < 0 then -n else n);
    StripFixed(s);
    if n < 0 {
      assert s[1..] == d;
    }
  }

  /** `int("%02d" % n) == n` */
  lemma ParseIntOfPad2(n: nat)
    requires n < 100
    ensures ParseInt(Pad2(n)) == Some(n)
  {
    var s := Pad2(n);
    StripFixed(s);
    assert s[..1] == [s[0]] && [s[0]][..0] == [];
    assert DigitsValue(s[..1]) == DigitValue(s[0]);
  }
}
