/**
 * The Python string operations the core relies on, over `string` (a sequence of
 * code points): `str.isspace`, `str.split()` with and without a separator,
 * `sep.join`, `str.strip`, slicing, `str(n)` and `int(s)` for decimal digits.
 */
module Text {
  import opened Common

  /** `c.isspace()`: the characters Python's argument-less `split()` and `strip()` remove. */
  predicate IsSpace(c: char) {
    || c == ' ' || c == '\t' || c == '\n' || c == '\r'
    || c == '\U{000B}' || c == '\U{000C}'
    || ('\U{001C}' <= c <= '\U{001F}')
    || c == '\U{0085}' || c == '\U{00A0}' || c == '\U{1680}'
    || ('\U{2000}' <= c <= '\U{200A}')
    || c == '\U{2028}' || c == '\U{2029}' || c == '\U{202F}' || c == '\U{205F}' || c == '\U{3000}'
  }

  predicate NoSpace(s: string) {
    forall i :: 0 <= i < |s| ==> !IsSpace(s[i])
  }

  predicate IsDigit(c: char) {
    '0' <= c <= '9'
  }

  predicate AllDigits(s: string) {
    forall i :: 0 <= i < |s| ==> IsDigit(s[i])
  }

  // ---------------------------------------------------------------------------
  // Slicing

  /** `s[:n]` for `n >= 0`. */
  function Take(s: string, n: nat): (r: string)
    ensures |r| == if n < |s| then n else |s|
    ensures r == s[..|r|]
  {
    if n < |s| then s[..n] else s
  }

  /** `s[n:]` for `n >= 0`. */
  function Drop(s: string, n: nat): (r: string)
    ensures |r| == if n < |s| then |s| - n else 0
    ensures Take(s, n) + r == s
  {
    if n < |s| then s[n..] else ""
  }

  // ---------------------------------------------------------------------------
  // `s.split()`, `sep.join(parts)` and `' '.join(s.split())`

  /** The run of non-whitespace characters at the start of `s`. */
  function LeadingWord(s: string): (w: string)
    ensures |w| <= |s| && w == s[..|w|]
    ensures NoSpace(w)
    ensures |w| == |s| || IsSpace(s[|w|])
  {
    if s == [] || IsSpace(s[0]) then [] else [s[0]] + LeadingWord(s[1..])
  }

  /** `s.split()`: the maximal runs of non-whitespace characters of `s`, in order. */
  function Words(s: string): (ws: seq<string>)
    ensures forall i :: 0 <= i < |ws| ==> ws[i] != [] && NoSpace(ws[i])
    decreases |s|
  {
    if s == [] then []
    else if IsSpace(s[0]) then Words(s[1..])
    else
      var w := LeadingWord(s);
      [w] + Words(s[|w|..])
  }

  function TotalLength(parts: seq<string>): nat {
    if parts == [] then 0 else |parts[0]| + TotalLength(parts[1..])
  }

  /** `sep.join(parts)`: the parts in order, one separator between neighbours. */
  function Join(sep: string, parts: seq<string>): (r: string)
    ensures parts == [] ==> r == ""
    ensures parts != [] ==> |r| == TotalLength(parts) + |sep| * (|parts| - 1)
  {
    if |parts| == 0 then ""
    else if |parts| == 1 then parts[0]
    else parts[0] + sep + Join(sep, parts[1..])
  }

  /** `' '.join(s.split())`: every run of whitespace becomes one space, ends trimmed. */
  function Collapse(s: string): string {
    Join(" ", Words(s))
  }

  /**
   * The shape `Collapse` promises: the only whitespace left is a single ' '
   * strictly inside the text with a non-whitespace character on each side, so
   * there is no leading or trailing whitespace, no newline and no double space.
   */
  predicate Collapsed(r: string) {
    forall i :: 0 <= i < |r| && IsSpace(r[i]) ==>
      r[i] == ' ' && 0 < i < |r| - 1 && !IsSpace(r[i - 1]) && !IsSpace(r[i + 1])
  }

  predicate AllWords(ws: seq<string>) {
    forall i :: 0 <= i < |ws| ==> ws[i] != [] && NoSpace(ws[i])
  }

  lemma {:induction false} JoinWordsCollapsed(ws: seq<string>)
    requires AllWords(ws)
    ensures Collapsed(Join(" ", ws))
    ensures ws != [] ==> Join(" ", ws) != []
  {
    if |ws| > 1 {
      var w, rest := ws[0], ws[1..];
      JoinWordsCollapsed(rest);
      var j := Join(" ", rest);
      var r := Join(" ", ws);
      assert r == w + " " + j;
      forall i | 0 <= i < |w| ensures !IsSpace(r[i]) {
        assert r[i] == w[i];
      }
      forall i | |w| <= i < |r| && IsSpace(r[i])
        ensures r[i] == ' ' && 0 < i < |r| - 1 && !IsSpace(r[i - 1]) && !IsSpace(r[i + 1])
      {
        if i == |w| {
          assert r[i - 1] == w[|w| - 1];
          assert r[i + 1] == j[0];
        } else {
          var k := i - |w| - 1;
          assert r[i] == j[k];
          assert 0 < k < |j| - 1;
          assert r[i - 1] == j[k - 1] && r[i + 1] == j[k + 1];
        }
      }
    }
  }

  /** Whatever the input, the collapsed text has the collapsed shape. */
  lemma CollapseIsCollapsed(s: string)
    ensures Collapsed(Collapse(s))
  {
    JoinWordsCollapsed(Words(s));
  }

  lemma {:induction false} LeadingWordOfWord(w: string, t: string)
    requires NoSpace(w)
    requires t == [] || IsSpace(t[0])
    ensures LeadingWord(w + t) == w
  {
    if w != [] {
      assert (w + t)[1..] == w[1..] + t;
      LeadingWordOfWord(w[1..], t);
    } else {
      assert w + t == t;
    }
  }

  /** `s.split()` undoes `' '.join(ws)` when every element is a non-empty word. */
  lemma {:induction false} WordsOfJoin(ws: seq<string>)
    requires AllWords(ws)
    ensures Words(Join(" ", ws)) == ws
  {
    if ws == [] {
    } else if |ws| == 1 {
      var w := ws[0];
      LeadingWordOfWord(w, "");
      assert w + "" == w;
      assert w[|w|..] == [];
    } else {
      var w, rest := ws[0], ws[1..];
      var j := Join(" ", rest);
      var s := w + (" " + j);
      assert Join(" ", ws) == s;
      LeadingWordOfWord(w, " " + j);
      assert s[|w|..] == " " + j;
      assert (" " + j)[1..] == j;
      WordsOfJoin(rest);
    }
  }

  /** Collapsing keeps exactly the words of the input, in order. */
  lemma CollapseKeepsWords(s: string)
    ensures Words(Collapse(s)) == Words(s)
  {
    WordsOfJoin(Words(s));
  }

  /** Collapsing twice is collapsing once. */
  lemma CollapseIdempotent(s: string)
    ensures Collapse(Collapse(s)) == Collapse(s)
  {
    CollapseKeepsWords(s);
  }

  // ---------------------------------------------------------------------------
  // `s.strip()`

  /** `s.lstrip()`: drops leading whitespace and nothing else. */
  function StripLeft(s: string): (r: string)
    ensures |r| <= |s| && r == s[|s| - |r|..]
    ensures forall i :: 0 <= i < |s| - |r| ==> IsSpace(s[i])
    ensures r == [] || !IsSpace(r[0])
  {
    if s != [] && IsSpace(s[0]) then StripLeft(s[1..]) else s
  }

  /** `s.rstrip()`: drops trailing whitespace and nothing else. */
  function StripRight(s: string): (r: string)
    ensures |r| <= |s| && r == s[..|r|]
    ensures forall i :: |r| <= i < |s| ==> IsSpace(s[i])
    ensures r == [] || !IsSpace(r[|r| - 1])
  {
    if s != [] && IsSpace(s[|s| - 1]) then StripRight(s[..|s| - 1]) else s
  }

  /** `s.strip()`. */
  function Strip(s: string): (r: string)
    ensures |r| <= |s|
    ensures r == [] || (!IsSpace(r[0]) && !IsSpace(r[|r| - 1]))
  {
    StripRight(StripLeft(s))
  }

  /**
   * What `s.strip()` keeps: the slice of `s` starting `|s| - |s.lstrip()|`
   * characters in, with only whitespace before and after it; it is empty
   * exactly when `s` is all whitespace.
   */
  lemma StripParts(s: string)
    ensures |s| - |StripLeft(s)| + |Strip(s)| <= |s|
    ensures forall k :: 0 <= k < |Strip(s)| ==> Strip(s)[k] == s[|s| - |StripLeft(s)| + k]
    ensures forall k :: 0 <= k < |s| - |StripLeft(s)| ==> IsSpace(s[k])
    ensures forall k :: |s| - |StripLeft(s)| + |Strip(s)| <= k < |s| ==> IsSpace(s[k])
    ensures Strip(s) == [] <==> forall k :: 0 <= k < |s| ==> IsSpace(s[k])
  {
    var l := StripLeft(s);
    var r := StripRight(l);
    assert Strip(s) == r;
    StripBetween(s, l, r);
  }

  /** The two halves of `strip` together: what is left is a slice with only whitespace around it. */
  lemma StripBetween(s: string, l: string, r: string)
    requires |l| <= |s| && l == s[|s| - |l|..]
    requires forall k :: 0 <= k < |s| - |l| ==> IsSpace(s[k])
    requires l == [] || !IsSpace(l[0])
    requires |r| <= |l| && r == l[..|r|]
    requires forall k :: |r| <= k < |l| ==> IsSpace(l[k])
    ensures var i := |s| - |l|;
      && i + |r| <= |s|
      && (forall k :: 0 <= k < |r| ==> r[k] == s[i + k])
      && (forall k :: i + |r| <= k < |s| ==> IsSpace(s[k]))
      && (r == [] <==> forall k :: 0 <= k < |s| ==> IsSpace(s[k]))
  {
    var i := |s| - |l|;
    assert forall k :: 0 <= k < |r| ==> r[k] == l[k] == s[i + k];
    forall k | i + |r| <= k < |s|
      ensures IsSpace(s[k])
    {
      assert s[k] == l[k - i];
    }
    if r != [] {
      assert r[0] == l[0] == s[i];
    } else {
      assert forall k :: 0 <= k < |s| ==> IsSpace(s[k]);
    }
  }

  // ---------------------------------------------------------------------------
  // `s.split(c)` for a one-character separator

  /** `s.split(c)`: the pieces between occurrences of `c`; never empty. */
  function SplitOn(s: string, c: char): (parts: seq<string>)
    ensures |parts| >= 1
  {
    if s == [] then [""]
    else
      var rest := SplitOn(s[1..], c);
      if s[0] == c then [""] + rest
      else [[s[0]] + rest[0]] + rest[1..]
  }

  /** No piece of `s.split(c)` contains `c`. */
  lemma {:induction false} SplitPiecesLackSeparator(s: string, c: char)
    ensures forall i :: 0 <= i < |SplitOn(s, c)| ==> c !in SplitOn(s, c)[i]
  {
    if s != [] {
      SplitPiecesLackSeparator(s[1..], c);
    }
  }

  /** Joining with a new empty first piece puts one separator in front. */
  lemma JoinEmptyHead(sep: string, parts: seq<string>)
    requires parts != []
    ensures Join(sep, [""] + parts) == sep + Join(sep, parts)
  {
    assert ([""] + parts)[1..] == parts;
  }

  /** Joining after growing the first piece by one character grows the result the same way. */
  lemma JoinGrowHead(sep: string, x: char, parts: seq<string>)
    requires parts != []
    ensures Join(sep, [[x] + parts[0]] + parts[1..]) == [x] + Join(sep, parts)
  {
    var grown := [[x] + parts[0]] + parts[1..];
    assert grown[1..] == parts[1..];
    if |parts| > 1 {
      assert Join(sep, grown) == [x] + parts[0] + sep + Join(sep, parts[1..]);
    }
  }

  /** `c.join(s.split(c)) == s`: splitting loses nothing. */
  lemma {:induction false} JoinSplit(s: string, c: char)
    ensures Join([c], SplitOn(s, c)) == s
  {
    if s != [] {
      var rest := SplitOn(s[1..], c);
      JoinSplit(s[1..], c);
      if s[0] == c {
        JoinEmptyHead([c], rest);
      } else {
        JoinGrowHead([c], s[0], rest);
      }
      assert s == [s[0]] + s[1..];
    }
  }

  /** A text without the separator is one piece. */
  lemma {:induction false} SplitWithout(s: string, c: char)
    requires c !in s
    ensures SplitOn(s, c) == [s]
  {
    if s != [] {
      assert c !in s[1..];
      SplitWithout(s[1..], c);
      assert [s[0]] + s[1..] == s;
    }
  }

  /** The pieces of `a + b` from the pieces `A` of `a` and `B` of `b`: the last of `A` joins the first of `B`. */
  function Seam(A: seq<string>, B: seq<string>): seq<string>
    requires |A| >= 1 && |B| >= 1
  {
    A[..|A| - 1] + [A[|A| - 1] + B[0]] + B[1..]
  }

  /** One step of `SplitOn`: the pieces of `[x] + t` from those of `t`. */
  lemma SplitCons(x: char, t: string, c: char)
    ensures SplitOn([x] + t, c) ==
      if x == c then [""] + SplitOn(t, c) else [[x] + SplitOn(t, c)[0]] + SplitOn(t, c)[1..]
  {
    assert ([x] + t)[1..] == t;
  }

  lemma SeamSep(A': seq<string>, B: seq<string>)
    requires |A'| >= 1 && |B| >= 1
    ensures Seam([""] + A', B) == [""] + Seam(A', B)
  {
    var A := [""] + A';
    assert A[..|A| - 1] == [""] + A'[..|A'| - 1];
  }

  lemma SeamOther(x: char, A': seq<string>, B: seq<string>)
    requires |A'| >= 1 && |B| >= 1
    ensures var R := Seam(A', B);
      Seam([[x] + A'[0]] + A'[1..], B) == [[x] + R[0]] + R[1..]
  {
    var A := [[x] + A'[0]] + A'[1..];
    var R := Seam(A', B);
    if |A'| == 1 {
      assert R == [A'[0] + B[0]] + B[1..];
      assert [x] + (A'[0] + B[0]) == ([x] + A'[0]) + B[0];
    } else {
      assert R[0] == A'[0];
      assert R[1..] == A'[1..|A'| - 1] + [A'[|A'| - 1] + B[0]] + B[1..];
      assert A[..|A| - 1] == [[x] + A'[0]] + A'[1..|A'| - 1];
    }
  }

  /** How splitting distributes over concatenation: the pieces on either side of the seam join. */
  lemma {:induction false} SplitConcat(a: string, b: string, c: char)
    ensures SplitOn(a + b, c) == Seam(SplitOn(a, c), SplitOn(b, c))
  {
    if a == [] {
      var B := SplitOn(b, c);
      assert a + b == b;
      assert SplitOn(a, c) == [""];
      assert "" + B[0] == B[0];
      assert [B[0]] + B[1..] == B;
    } else {
      var x, t := a[0], a[1..];
      assert a == [x] + t;
      assert a + b == [x] + (t + b);
      SplitConcat(t, b, c);
      SplitCons(x, t, c);
      SplitCons(x, t + b, c);
      if x == c {
        SeamSep(SplitOn(t, c), SplitOn(b, c));
      } else {
        SeamOther(x, SplitOn(t, c), SplitOn(b, c));
      }
    }
  }

  /** Splitting `a + [c] + b` where `a` holds no separator: `a` is the first piece. */
  lemma SplitAfterFirst(a: string, b: string, c: char)
    requires c !in a
    ensures SplitOn(a + [c] + b, c) == [a] + SplitOn(b, c)
  {
    SplitWithout(a, c);
    SplitConcat(a, [c] + b, c);
    assert a + [c] + b == a + ([c] + b);
    assert ([c] + b)[1..] == b;
    assert SplitOn([c] + b, c) == [""] + SplitOn(b, c);
    assert SplitOn(a, c)[..0] == [] && a + "" == a;
  }

  // ---------------------------------------------------------------------------
  // `s.replace(x, y)` for one-character `x` and `y`

  /** `s.replace(x, y)` for single characters: the same text with each `x` turned into `y`. */
  function ReplaceChar(s: string, x: char, y: char): (r: string)
    ensures |r| == |s|
    ensures forall i :: 0 <= i < |s| ==> r[i] == (if s[i] == x then y else s[i])
  {
    if s == [] then [] else [if s[0] == x then y else s[0]] + ReplaceChar(s[1..], x, y)
  }

  // ---------------------------------------------------------------------------
  // `str(n)` and `int(s)` in decimal

  function DigitChar(d: nat): (c: char)
    requires d < 10
    ensures IsDigit(c)
  {
    (48 + d) as char
  }

  function DigitValue(c: char): nat
    requires IsDigit(c)
  {
    c as nat - 48
  }

  /** `str(n)` for `n >= 0`: the decimal digits of `n`, without leading zeros. */
  function NatToString(n: nat): (s: string)
    ensures s != [] && AllDigits(s)
    ensures n > 0 ==> s[0] != '0'
  {
    if n < 10 then [DigitChar(n)] else NatToString(n / 10) + [DigitChar(n % 10)]
  }

  /** `str(n)` for any integer. */
  function IntToString(n: int): string {
    if n < 0 then "-" + NatToString(-n) else NatToString(n)
  }

  function DigitsValue(s: string): nat
    requires AllDigits(s)
  {
    if s == [] then 0 else 10 * DigitsValue(s[..|s| - 1]) + DigitValue(s[|s| - 1])
  }

  /** `int(s)` for a string of decimal digits; any other string raises `ValueError`, here `None`. */
  function ParseDecimal(s: string): (r: Option<nat>)
    ensures r.Some? <==> s != [] && AllDigits(s)
  {
    if s != [] && AllDigits(s) then Some(DigitsValue(s)) else None
  }

  /** A leading zero does not change the value of a digit string. */
  lemma {:induction false} DigitsValueLeadingZero(s: string)
    requires AllDigits(s)
    ensures AllDigits("0" + s) && DigitsValue("0" + s) == DigitsValue(s)
    decreases |s|
  {
    var t := "0" + s;
    if s != [] {
      assert t[..|t| - 1] == "0" + s[..|s| - 1];
      assert t[|t| - 1] == s[|s| - 1];
      DigitsValueLeadingZero(s[..|s| - 1]);
    } else {
      assert t[..0] == [];
    }
  }

  /** `int("0" + s) == int(s)` for a non-empty `s`, both raising together. */
  lemma ParseDecimalLeadingZero(s: string)
    requires s != []
    ensures ParseDecimal("0" + s) == ParseDecimal(s)
  {
    if AllDigits(s) {
      DigitsValueLeadingZero(s);
    } else {
      var i :| 0 <= i < |s| && !IsDigit(s[i]);
      assert ("0" + s)[i + 1] == s[i];
    }
  }

  /** `int(str(n)) == n`. */
  lemma {:induction false} ParseNatToString(n: nat)
    ensures ParseDecimal(NatToString(n)) == Some(n)
  {
    var s := NatToString(n);
    if n >= 10 {
      ParseNatToString(n / 10);
      assert s[..|s| - 1] == NatToString(n / 10);
      assert DigitValue(s[|s| - 1]) == n % 10;
      assert DigitsValue(s) == 10 * DigitsValue(s[..|s| - 1]) + DigitValue(s[|s| - 1]);
    } else {
      assert s == [DigitChar(n)];
      assert s[..0] == [];
      assert DigitValue(s[0]) == n;
    }
  }
}
