/**
 * Text utilities used by the receipt renderers and the quantity input:
 * Java `int` values, `Integer.toString`, `Integer.parseInt`, the padding of
 * `String.format` widths, `String.trim`, ASCII lower-casing and line splitting.
 */
module Text {
  import opened Wrappers

  /** Java's 32-bit `int`. */
  type Int32 = x: int | -0x8000_0000 <= x < 0x8000_0000

  predicate IsDigit(c: char) {
    '0' <= c <= '9'
  }

  predicate AllDigits(s: string) {
    forall i :: 0 <= i < |s| ==> IsDigit(s[i])
  }

  function DigitChar(d: nat): (c: char)
    requires d < 10
    ensures IsDigit(c)
  {
    ('0' as int + d) as char
  }

  function DigitValue(c: char): (d: nat)
    requires IsDigit(c)
    ensures d < 10
  {
    (c as int - '0' as int) as nat
  }

  /** Decimal digits of `n`, most significant first, no leading zeros. */
  function NatToString(n: nat): (s: string)
    ensures |s| >= 1 && AllDigits(s)
    ensures |s| > 1 ==> s[0] != '0'
    decreases n
  {
    if n < 10 then [DigitChar(n)] else NatToString(n / 10) + [DigitChar(n % 10)]
  }

  /** `Integer.toString` (and `String.valueOf(int)`, `"%d"`): optional '-', then digits. */
  function IntToString(n: int): string {
    if n < 0 then "-" + NatToString(-n) else NatToString(n)
  }

  /** The number a digit string denotes, read most significant first. */
  function DigitsValue(s: string): nat
    requires AllDigits(s)
  {
    if s == [] then 0 else DigitsValue(s[..|s| - 1]) * 10 + DigitValue(s[|s| - 1])
  }

  /**
   * `Integer.parseInt(s)`: an optional sign followed by at least one digit,
   * whose value fits in an `int`; `None` stands for `NumberFormatException`.
   * Only ASCII digits are accepted.
   */
  function ParseInt(s: string): Option<Int32> {
    if s == [] then None
    else
      var negative := s[0] == '-';
      var digits := if s[0] == '-' || s[0] == '+' then s[1..] else s;
      if digits == [] || !AllDigits(digits) then None
      else
        var v: int := if negative then -(DigitsValue(digits) as int) else DigitsValue(digits);
        if -0x8000_0000 <= v < 0x8000_0000 then Some(v) else None
  }

  lemma {:induction false} DigitsValueOfNatToString(n: nat)
    ensures DigitsValue(NatToString(n)) == n
    decreases n
  {
    if n >= 10 {
      var s := NatToString(n);
      assert s[..|s| - 1] == NatToString(n / 10);
      DigitsValueOfNatToString(n / 10);
    }
  }

  /** Parsing what `Integer.toString` prints gives the number back. */
  lemma ParseIntToString(n: Int32)
    ensures ParseInt(IntToString(n)) == Some(n)
  {
    var m: nat := if n < 0 then -(n as int) else n as int;
    var t := NatToString(m);
    DigitsValueOfNatToString(m);
    assert IsDigit(t[0]);
    if n < 0 {
      var s := "-" + t;
      assert s == IntToString(n);
      assert s[1..] == t;
    } else {
      assert t == IntToString(n);
    }
  }

  /** A sign with no digits, and a non-digit character, are both rejected. */
  lemma ParseIntRejects(s: string)
    ensures ParseInt("") == None && ParseInt("-") == None && ParseInt("+") == None
    ensures (exists i :: 0 <= i < |s| && !IsDigit(s[i]) && s[i] != '-' && s[i] != '+') ==> ParseInt(s) == None
  {
    if exists i :: 0 <= i < |s| && !IsDigit(s[i]) && s[i] != '-' && s[i] != '+' {
      var i :| 0 <= i < |s| && !IsDigit(s[i]) && s[i] != '-' && s[i] != '+';
      if s[0] == '-' || s[0] == '+' {
        assert s[1..][i - 1] == s[i];
      }
    }
  }

  /** `"%-<w>s"`: left-justified in a field of `w`, never truncated. */
  function PadRight(s: string, w: nat): (r: string)
    ensures |r| == if |s| < w then w else |s|
    ensures r[..|s|] == s
    ensures forall i :: |s| <= i < |r| ==> r[i] == ' '
  {
    if |s| < w then s + Spaces(w - |s|) else s
  }

  /** `"%<w>d"`: right-justified in a field of `w`, never truncated. */
  function PadLeft(s: string, w: nat): (r: string)
    ensures |r| == if |s| < w then w else |s|
    ensures r[|r| - |s|..] == s
    ensures forall i :: 0 <= i < |r| - |s| ==> r[i] == ' '
  {
    if |s| < w then Spaces(w - |s|) + s else s
  }

  /** `n` copies of `c`. */
  function Repeat(c: char, n: nat): (r: string)
    ensures |r| == n && forall i :: 0 <= i < n ==> r[i] == c
  {
    seq(n, _ => c)
  }

  function Spaces(n: nat): (r: string)
    ensures |r| == n && forall i :: 0 <= i < n ==> r[i] == ' '
  {
    Repeat(' ', n)
  }

  /** `String.trim` drops leading characters up to U+0020. */
  function TrimStart(s: string): (r: string)
    ensures |r| <= |s| && r == s[|s| - |r|..]
    ensures forall i :: 0 <= i < |s| - |r| ==> s[i] <= ' '
    ensures r != [] ==> r[0] > ' '
  {
    if s != [] && s[0] <= ' ' then TrimStart(s[1..]) else s
  }

  /** `String.trim` drops trailing characters up to U+0020. */
  function TrimEnd(s: string): (r: string)
    ensures |r| <= |s| && r == s[..|r|]
    ensures forall i :: |r| <= i < |s| ==> s[i] <= ' '
    ensures r != [] ==> r[|r| - 1] > ' '
  {
    if s != [] && s[|s| - 1] <= ' ' then TrimEnd(s[..|s| - 1]) else s
  }

  function Trim(s: string): string {
    TrimEnd(TrimStart(s))
  }

  /** `s.trim().isEmpty()` holds exactly when every character is at most U+0020. */
  lemma TrimEmpty(s: string)
    ensures Trim(s) == [] <==> forall i :: 0 <= i < |s| ==> s[i] <= ' '
  {
    var t := TrimStart(s);
    if Trim(s) == [] {
      assert t == [] by {
        if t != [] {
          assert false;
        }
      }
    } else {
      var r := Trim(s);
      assert r[0] == t[0] == s[|s| - |t|];
    }
  }

  function LowerChar(c: char): char {
    if 'A' <= c <= 'Z' then (c as int + 32) as char else c
  }

  /** `String.toLowerCase` restricted to ASCII letters. */
  function ToLower(s: string): (r: string)
    ensures |r| == |s| && forall i :: 0 <= i < |s| ==> r[i] == LowerChar(s[i])
  {
    seq(|s|, i requires 0 <= i < |s| => LowerChar(s[i]))
  }

  lemma ToLowerIdempotent(s: string)
    ensures ToLower(ToLower(s)) == ToLower(s)
  {
  }

  /** The text a `StringBuilder` holds after appending each line and a '\n'. */
  function Unlines(ls: seq<string>): string {
    if ls == [] then "" else ls[0] + "\n" + Unlines(ls[1..])
  }

  lemma {:induction false} UnlinesSnoc(ls: seq<string>, l: string)
    ensures Unlines(ls + [l]) == Unlines(ls) + l + "\n"
  {
    if ls != [] {
      assert (ls + [l])[1..] == ls[1..] + [l];
      UnlinesSnoc(ls[1..], l);
    }
  }

  /** One rendered line per element, in order (the shape of a `for` loop that appends a line per element). */
  function MapLines<T>(xs: seq<T>, render: T -> string): seq<string> {
    if xs == [] then [] else MapLines(xs[..|xs| - 1], render) + [render(xs[|xs| - 1])]
  }

  lemma {:induction false} MapLinesAt<T>(xs: seq<T>, render: T -> string)
    ensures |MapLines(xs, render)| == |xs|
    ensures forall i :: 0 <= i < |xs| ==> MapLines(xs, render)[i] == render(xs[i])
  {
    if xs != [] {
      var init := xs[..|xs| - 1];
      MapLinesAt(init, render);
      assert forall i :: 0 <= i < |init| ==> init[i] == xs[i];
    }
  }

  /** Lines framed by a fixed header and footer: where each part sits. */
  lemma Framed<T>(header: seq<string>, xs: seq<T>, render: T -> string, footer: seq<string>)
    ensures var ls := header + MapLines(xs, render) + footer;
      && |ls| == |header| + |xs| + |footer|
      && ls[..|header|] == header
      && (forall i :: 0 <= i < |xs| ==> ls[|header| + i] == render(xs[i]))
      && ls[|header| + |xs|..] == footer
  {
    MapLinesAt(xs, render);
    var body := MapLines(xs, render);
    var ls := header + body + footer;
    assert forall i :: 0 <= i < |xs| ==> ls[|header| + i] == body[i];
    assert ls[|header| + |xs|..] == footer;
  }

  /** Appending the line of element `i` extends the text built from the first `i` elements. */
  lemma UnlinesMapStep<T>(header: seq<string>, xs: seq<T>, i: nat, render: T -> string)
    requires i < |xs|
    ensures Unlines(header + MapLines(xs[..i + 1], render))
            == Unlines(header + MapLines(xs[..i], render)) + render(xs[i]) + "\n"
  {
    var done := MapLines(xs[..i], render);
    assert MapLines(xs[..i + 1], render) == done + [render(xs[i])] by {
      assert xs[..i + 1][..i] == xs[..i];
    }
    assert header + (done + [render(xs[i])]) == (header + done) + [render(xs[i])];
    UnlinesSnoc(header + done, render(xs[i]));
  }

  /** Index of the first '\n' in `s`, or `|s|` when there is none. */
  function NewlineIndex(s: string): (i: nat)
    ensures i <= |s| && (i < |s| ==> s[i] == '\n')
    ensures forall j :: 0 <= j < i ==> s[j] != '\n'
  {
    if s == [] || s[0] == '\n' then 0 else 1 + NewlineIndex(s[1..])
  }

  /** Splits text into the lines that each end with '\n' (and a trailing remainder). */
  function Lines(s: string): seq<string>
    decreases |s|
  {
    if s == [] then []
    else
      var i := NewlineIndex(s);
      if i == |s| then [s] else [s[..i]] + Lines(s[i + 1..])
  }

  predicate NoNewline(l: string) {
    '\n' !in l
  }

  /** Splitting the built text at '\n' gives back the lines that were appended. */
  lemma {:induction false} LinesUnlines(ls: seq<string>)
    requires forall k :: 0 <= k < |ls| ==> NoNewline(ls[k])
    ensures Lines(Unlines(ls)) == ls
  {
    if ls != [] {
      var s := Unlines(ls);
      var l := ls[0];
      assert s == l + ("\n" + Unlines(ls[1..]));
      assert s[|l|] == '\n';
      assert NoNewline(l);
      assert forall j :: 0 <= j < |l| ==> s[j] == l[j];
      NewlineIndexAt(s, |l|);
      assert s[..|l|] == l;
      assert s[|l| + 1..] == Unlines(ls[1..]);
      LinesUnlines(ls[1..]);
    }
  }

  lemma NewlineIndexAt(s: string, k: nat)
    requires k < |s| && s[k] == '\n'
    requires forall j :: 0 <= j < k ==> s[j] != '\n'
    ensures NewlineIndex(s) == k
  {
  }
}
