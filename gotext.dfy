/** Models of the Go standard-library string routines the note engine relies on:
    `unicode.IsSpace`, `strings.TrimSpace`, `strings.Fields`, `strings.ReplaceAll` with
    one-character arguments, `strconv.ParseInt(s, 10, 64)`, the `%d` verb of `fmt`, and the
    line splitting of `bufio.ScanLines`. Strings are sequences of code points. */
module GoText {

  datatype Option<T> = None | Some(value: T)

  /** `unicode.IsSpace`: the Unicode White_Space characters. */
  predicate IsSpace(c: char) {
    var v := c as int;
    (9 <= v <= 13) || v == 0x20 || v == 0x85 || v == 0xA0 || v == 0x1680 ||
    (0x2000 <= v <= 0x200A) || v == 0x2028 || v == 0x2029 || v == 0x202F ||
    v == 0x205F || v == 0x3000
  }

  predicate NoSpace(s: string) {
    forall i :: 0 <= i < |s| ==> !IsSpace(s[i])
  }

  /** `strings.TrimLeftFunc(s, unicode.IsSpace)`; `TrimLeftSpaces` says what it drops and
      what it keeps. */
  function TrimLeft(s: string): (r: string)
    ensures |r| <= |s|
  {
    if s != [] && IsSpace(s[0]) then TrimLeft(s[1..]) else s
  }

  /** `TrimLeft` drops a prefix of white space and keeps a suffix that starts visibly. */
  lemma {:induction false} TrimLeftSpaces(s: string)
    ensures var r := TrimLeft(s); r == s[|s| - |r|..] && (r == [] || !IsSpace(r[0]))
    ensures forall i :: 0 <= i < |s| - |TrimLeft(s)| ==> IsSpace(s[i])
  {
    if s != [] && IsSpace(s[0]) {
      TrimLeftSpaces(s[1..]);
      assert forall i :: 1 <= i < |s| ==> s[i] == s[1..][i - 1];
    }
  }

  /** `TrimLeft` keeps text that starts with a visible character. */
  lemma TrimLeftVisible(s: string)
    requires s == [] || !IsSpace(s[0])
    ensures TrimLeft(s) == s
  {
  }

  /** `strings.TrimRightFunc(s, unicode.IsSpace)`; `TrimRightSpaces` says what it drops and
      what it keeps. */
  function TrimRight(s: string): (r: string)
    ensures |r| <= |s|
  {
    if s != [] && IsSpace(s[|s| - 1]) then TrimRight(s[..|s| - 1]) else s
  }

  /** `TrimRight` drops a suffix of white space and keeps a prefix that ends visibly. */
  lemma {:induction false} TrimRightSpaces(s: string)
    ensures var r := TrimRight(s); r == s[..|r|] && (r == [] || !IsSpace(r[|r| - 1]))
    ensures forall i :: |TrimRight(s)| <= i < |s| ==> IsSpace(s[i])
  {
    if s != [] && IsSpace(s[|s| - 1]) {
      TrimRightSpaces(s[..|s| - 1]);
      assert forall i :: 0 <= i < |s| - 1 ==> s[i] == s[..|s| - 1][i];
    }
  }

  /** `strings.TrimSpace`: `TrimSpaceEnds` says it leaves no surrounding white space. */
  function TrimSpace(s: string): (r: string)
    ensures |r| <= |s|
  {
    TrimRight(TrimLeft(s))
  }

  /** `strings.TrimSpace` leaves an infix of its input with no surrounding white space. */
  lemma TrimSpaceEnds(s: string)
    ensures var r := TrimSpace(s); r == [] || (!IsSpace(r[0]) && !IsSpace(r[|r| - 1]))
  {
    TrimLeftSpaces(s);
    TrimRightSpaces(TrimLeft(s));
    var l := TrimLeft(s);
    var r := TrimRight(l);
    if r != [] {
      assert r[0] == l[0];
    }
  }

  /** Text with no surrounding white space is its own trimming. */
  lemma TrimSpaceVisible(x: string)
    requires x == [] || (!IsSpace(x[0]) && !IsSpace(x[|x| - 1]))
    ensures TrimSpace(x) == x
  {
    TrimLeftVisible(x);
  }

  /** Leading spaces in front of text with no surrounding white space are removed by `TrimLeft`. */
  lemma {:induction false} TrimLeftIndented(pad: string, x: string)
    requires forall i :: 0 <= i < |pad| ==> pad[i] == ' '
    requires x == [] || !IsSpace(x[0])
    ensures TrimLeft(pad + x) == x
  {
    if pad == [] {
      assert pad + x == x;
    } else {
      assert (pad + x)[0] == ' ';
      assert (pad + x)[1..] == pad[1..] + x;
      TrimLeftIndented(pad[1..], x);
    }
  }

  /** Trimming removes an indentation made of spaces in front of a line that has no
      surrounding white space of its own. */
  lemma TrimIndented(pad: string, x: string)
    requires forall i :: 0 <= i < |pad| ==> pad[i] == ' '
    requires x != [] && !IsSpace(x[0]) && !IsSpace(x[|x| - 1])
    ensures TrimSpace(pad + x) == x
  {
    TrimLeftIndented(pad, x);
  }

  /** Number of leading non-space characters. */
  function WordLength(t: string): (k: nat)
    ensures k <= |t|
  {
    if t == [] || IsSpace(t[0]) then 0 else 1 + WordLength(t[1..])
  }

  /** The characters `WordLength` counts are visible. */
  lemma {:induction false} WordLengthVisible(t: string)
    ensures NoSpace(t[..WordLength(t)])
  {
    if t != [] && !IsSpace(t[0]) {
      WordLengthVisible(t[1..]);
      var k := WordLength(t);
      assert forall i :: 1 <= i < k ==> t[..k][i] == t[1..][..k - 1][i - 1];
    }
  }

  /** `strings.Fields`: the maximal runs of non-space characters, in order. */
  function Fields(s: string): (r: seq<string>)
    decreases |s|
  {
    var t := TrimLeft(s);
    if t == [] then []
    else
      var k := WordLength(t);
      [t[..k]] + Fields(t[k..])
  }

  /** Every field is a non-empty word. */
  lemma {:induction false} FieldsAreWords(s: string)
    ensures forall i :: 0 <= i < |Fields(s)| ==> Fields(s)[i] != [] && NoSpace(Fields(s)[i])
    decreases |s|
  {
    var t := TrimLeft(s);
    if t != [] {
      var k := WordLength(t);
      var w, r := t[..k], Fields(t[k..]);
      TrimLeftSpaces(s);
      WordLengthVisible(t);
      FieldsAreWords(t[k..]);
      assert Fields(s) == [w] + r;
      forall i | 0 <= i < |Fields(s)|
        ensures Fields(s)[i] != [] && NoSpace(Fields(s)[i])
      {
        if i > 0 {
          assert Fields(s)[i] == r[i - 1];
        }
      }
    }
  }

  /** The words joined by single spaces. */
  function Unwords(ws: seq<string>): string {
    if |ws| == 0 then "" else if |ws| == 1 then ws[0] else ws[0] + " " + Unwords(ws[1..])
  }

  /** `WordLength` of a word followed by white space or nothing is the word's length. */
  lemma {:induction false} WordLengthOf(w: string, rest: string)
    requires NoSpace(w)
    requires rest == [] || IsSpace(rest[0])
    ensures WordLength(w + rest) == |w|
  {
    if w == [] {
      assert w + rest == rest;
    } else {
      assert (w + rest)[0] == w[0];
      assert (w + rest)[1..] == w[1..] + rest;
      assert NoSpace(w[1..]) by {
        assert forall i :: 0 <= i < |w| - 1 ==> w[1..][i] == w[i + 1];
      }
      WordLengthOf(w[1..], rest);
    }
  }

  /** A single word is its own only field. */
  lemma FieldsOfWord(w: string)
    requires w != [] && NoSpace(w)
    ensures Fields(w) == [w]
  {
    TrimLeftVisible(w);
    WordLengthOf(w, "");
    assert w + "" == w;
    assert w[..|w|] == w && w[|w|..] == [];
  }

  /** `strings.Fields` recovers words that were joined by single spaces. */
  lemma {:induction false} FieldsOfUnwords(ws: seq<string>)
    requires forall i :: 0 <= i < |ws| ==> ws[i] != [] && NoSpace(ws[i])
    ensures Fields(Unwords(ws)) == ws
  {
    if |ws| == 1 {
      FieldsOfWord(ws[0]);
      assert [ws[0]] == ws;
    } else if |ws| > 1 {
      var rest := ws[1..];
      FieldsOfUnwords(rest);
      FieldsOfWordThen(ws[0], Unwords(rest));
    }
  }

  /** A word and a space in front of some text become the first field. */
  lemma FieldsOfWordThen(w: string, rest: string)
    requires w != [] && NoSpace(w)
    ensures Fields(w + " " + rest) == [w] + Fields(rest)
  {
    var s := w + " " + rest;
    assert s == w + (" " + rest);
    assert s[0] == w[0];
    TrimLeftVisible(s);
    WordLengthOf(w, " " + rest);
    assert s[..|w|] == w;
    assert s[|w|..] == " " + rest;
    assert TrimLeft(" " + rest) == TrimLeft(rest) by {
      assert (" " + rest)[0] == ' ';
      assert (" " + rest)[1..] == rest;
    }
  }

  /** `strings.ReplaceAll(s, string(from), string(to))` */
  function Replace(s: string, from: char, to: char): (r: string)
    ensures |r| == |s|
    ensures forall i :: 0 <= i < |s| ==> r[i] == (if s[i] == from then to else s[i])
  {
    seq(|s|, i requires 0 <= i < |s| => if s[i] == from then to else s[i])
  }

  /** Turning spaces into dashes and back is the identity on dash-free text. */
  lemma DashRoundTrip(t: string)
    requires forall i :: 0 <= i < |t| ==> t[i] != '-'
    ensures Replace(Replace(t, ' ', '-'), '-', ' ') == t
  {
  }

  // ---- decimal numbers: fmt's %d and strconv.ParseInt(s, 10, 64) ----

  const MinInt64: int := -0x8000_0000_0000_0000
  const MaxInt64: int := 0x7FFF_FFFF_FFFF_FFFF

  predicate IsDigit(c: char) {
    '0' <= c <= '9'
  }

  function DigitChar(d: nat): (c: char)
    requires d < 10
    ensures IsDigit(c) && (c as int) - ('0' as int) == d
  {
    (('0' as int) + d) as char
  }

  /** Decimal digits of `n`, most significant first, with no leading zero. */
  function Digits(n: nat): (r: string)
    ensures r != [] && forall i :: 0 <= i < |r| ==> IsDigit(r[i])
  {
    if n < 10 then [DigitChar(n)] else Digits(n / 10) + [DigitChar(n % 10)]
  }

  function DigitValue(c: char): nat
    requires IsDigit(c)
  {
    (c as int) - ('0' as int)
  }

  /** The value of a string of decimal digits. */
  function DigitsValue(s: string): nat
    requires forall i :: 0 <= i < |s| ==> IsDigit(s[i])
  {
    if s == [] then 0
    else DigitsValue(s[..|s| - 1]) * 10 + DigitValue(s[|s| - 1])
  }

  /** `fmt.Sprintf("%d", i)` */
  function IntToString(i: int): string {
    if i < 0 then "-" + Digits(-i) else Digits(i)
  }

  /** `strconv.ParseInt(s, 10, 64)`: an optional sign, at least one digit, nothing else, and a
      value that fits 64 bits; `None` is the error result. */
  function ParseInt(s: string): (r: Option<int>)
    ensures r.Some? ==> MinInt64 <= r.value <= MaxInt64
  {
    if s == [] then None
    else
      var body := if s[0] == '+' || s[0] == '-' then s[1..] else s;
      if body == [] || exists i :: 0 <= i < |body| && !IsDigit(body[i]) then None
      else
        var v: int := DigitsValue(body);
        var x := if s[0] == '-' then -v else v;
        if MinInt64 <= x <= MaxInt64 then Some(x) else None
  }

  lemma {:induction false} DigitsValueOfDigits(n: nat)
    ensures DigitsValue(Digits(n)) == n
  {
    if n >= 10 {
      var d := Digits(n);
      assert d[..|d| - 1] == Digits(n / 10);
      DigitsValueOfDigits(n / 10);
    }
  }

  /** `strconv.ParseInt` reads back what `%d` writes, for every 64-bit value. */
  lemma ParseIntOfIntToString(i: int)
    requires MinInt64 <= i <= MaxInt64
    ensures ParseInt(IntToString(i)) == Some(i)
  {
    var s := IntToString(i);
    if i < 0 {
      assert s[1..] == Digits(-i);
      DigitsValueOfDigits(-i);
    } else {
      DigitsValueOfDigits(i);
    }
  }

  lemma IntToStringWord(i: int)
    ensures IntToString(i) != [] && NoSpace(IntToString(i))
  {
  }

  // ---- bufio.ScanLines ----

  /** Drops one trailing carriage return, as `bufio.ScanLines` does. */
  function DropCR(s: string): string {
    if s != [] && s[|s| - 1] == '\r' then s[..|s| - 1] else s
  }

  function NewlineIndex(s: string): (k: nat)
    ensures k <= |s|
    ensures k < |s| ==> s[k] == '\n'
    ensures forall i :: 0 <= i < k ==> s[i] != '\n'
  {
    if s == [] || s[0] == '\n' then 0 else 1 + NewlineIndex(s[1..])
  }

  /** The lines `bufio.Scanner` with `ScanLines` yields: text is cut at each newline, one
      carriage return before it is dropped, and a last line without a newline is kept when it
      is not empty. */
  function SplitLines(s: string): seq<string>
    decreases |s|
  {
    if s == [] then []
    else
      var k := NewlineIndex(s);
      if k == |s| then [DropCR(s)] else [DropCR(s[..k])] + SplitLines(s[k + 1..])
  }

  /** Each line followed by a newline. */
  function JoinLines(ls: seq<string>): string {
    if ls == [] then "" else ls[0] + "\n" + JoinLines(ls[1..])
  }

  lemma JoinLinesAppend(a: seq<string>, b: seq<string>)
    ensures JoinLines(a + b) == JoinLines(a) + JoinLines(b)
  {
    if a != [] {
      assert (a + b)[0] == a[0] && (a + b)[1..] == a[1..] + b;
      JoinLinesAppend(a[1..], b);
      assert JoinLines(a + b) == a[0] + "\n" + (JoinLines(a[1..]) + JoinLines(b));
    } else {
      assert a + b == b;
    }
  }

  predicate PlainLine(l: string) {
    (forall i :: 0 <= i < |l| ==> l[i] != '\n') && (l == [] || l[|l| - 1] != '\r')
  }

  /** Splitting a text made of complete lines gives the lines back. */
  lemma {:induction false} SplitJoinLines(ls: seq<string>)
    requires forall i :: 0 <= i < |ls| ==> PlainLine(ls[i])
    ensures SplitLines(JoinLines(ls)) == ls
  {
    if ls != [] {
      var rest := JoinLines(ls[1..]);
      assert JoinLines(ls) == ls[0] + "\n" + rest;
      SplitFirst(ls[0], rest);
      SplitJoinLines(ls[1..]);
    }
  }

  /** A complete first line is cut off at its newline. */
  lemma SplitFirst(l: string, rest: string)
    requires PlainLine(l)
    ensures SplitLines(l + "\n" + rest) == [l] + SplitLines(rest)
  {
    var s := l + "\n" + rest;
    assert forall i :: 0 <= i < |l| ==> s[i] == l[i];
    assert s[|l|] == '\n';
    var k := NewlineIndex(s);
    assert k == |l|;
    assert s[..k] == l;
    assert s[k + 1..] == rest;
  }
}
