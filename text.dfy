/** The string operations of the Java standard library and of Apache commons-lang that the
    modelled code relies on: decimal rendering and parsing, `split`, `trim`, `contains`
    and blank tests. Strings are sequences of characters; Java's UTF-16 encoding is not modelled. */
module Text {
  import opened Common

  predicate IsDigit(c: char) { '0' <= c <= '9' }

  predicate AllDigits(s: string) { forall i :: 0 <= i < |s| ==> IsDigit(s[i]) }

  function DigitChar(d: nat): (c: char)
    requires d < 10
    ensures IsDigit(c) && c as int - '0' as int == d
  {
    ['0', '1', '2', '3', '4', '5', '6', '7', '8', '9'][d]
  }

  /** Value of a string of decimal digits, most significant first. */
  function DigitsValue(s: string): nat
    requires AllDigits(s)
  {
    if s == [] then 0
    else DigitsValue(s[..|s| - 1]) * 10 + (s[|s| - 1] as int - '0' as int)
  }

  /** Canonical decimal text of a natural number (`Integer.toString` for non-negative values). */
  function NatToString(n: nat): (s: string)
    ensures |s| > 0 && AllDigits(s)
  {
    if n < 10 then [DigitChar(n)] else NatToString(n / 10) + [DigitChar(n % 10)]
  }

  /** A non-empty run of decimal digits; anything else is rejected. */
  function ParseNat(s: string): (r: Option<nat>)
    ensures r.Some? <==> |s| > 0 && AllDigits(s)
  {
    if |s| > 0 && AllDigits(s) then Some(DigitsValue(s)) else None
  }

  lemma {:induction false} NatToStringValue(n: nat)
    ensures DigitsValue(NatToString(n)) == n
  {
    if n >= 10 {
      var s := NatToString(n);
      assert s[..|s| - 1] == NatToString(n / 10);
      NatToStringValue(n / 10);
    }
  }

  /** Rendering a number and reading it back gives the number. */
  lemma ParseNatRoundTrip(n: nat)
    ensures ParseNat(NatToString(n)) == Some(n)
  {
    NatToStringValue(n);
  }

  /** Decimal rendering is injective: distinct numbers have distinct texts. */
  lemma NatToStringInjective(m: nat, n: nat)
    requires NatToString(m) == NatToString(n)
    ensures m == n
  {
    ParseNatRoundTrip(m);
    ParseNatRoundTrip(n);
  }

  const IntMin: int := -0x8000_0000
  const IntMax: int := 0x7fff_ffff

  /** `Integer.toString` on a Java `int`. */
  function IntToString(i: int): (s: string)
    ensures |s| > 0
  {
    if i < 0 then "-" + NatToString(-i) else NatToString(i)
  }

  /** `Integer.parseInt`: an optional `+` or `-`, then at least one decimal digit, and a
      value inside the 32-bit range; `None` is the `NumberFormatException`. */
  function ParseInt(s: string): (r: Option<int>)
    ensures r.Some? ==> IntMin <= r.value <= IntMax
  {
    if |s| > 0 && (s[0] == '-' || s[0] == '+') then
      match ParseNat(s[1..])
      case None => None
      case Some(n) =>
        var v: int := if s[0] == '-' then -(n as int) else n as int;
        if IntMin <= v <= IntMax then Some(v) else None
    else
      match ParseNat(s)
      case None => None
      case Some(n) => if n <= IntMax then Some(n) else None
  }

  /** Every Java `int` survives `Integer.toString` followed by `Integer.parseInt`. */
  lemma ParseIntRoundTrip(i: int)
    requires IntMin <= i <= IntMax
    ensures ParseInt(IntToString(i)) == Some(i)
  {
    var s := IntToString(i);
    if i < 0 {
      var digits := NatToString(-i);
      assert s == "-" + digits;
      assert s[1..] == digits;
      ParseNatRoundTrip(-i);
    } else {
      var digits := NatToString(i);
      assert s == digits;
      assert IsDigit(digits[0]);
      ParseNatRoundTrip(i);
    }
  }

  /** The text `ParseInt` accepts is rewritten by `IntToString` to a canonical form that
      parses to the same number. */
  lemma CanonicalReparses(s: string)
    requires ParseInt(s).Some?
    ensures ParseInt(IntToString(ParseInt(s).value)) == ParseInt(s)
  {
    ParseIntRoundTrip(ParseInt(s).value);
  }

  /** `sub` occurs in `s` starting at offset `i`. */
  predicate OccursAt(s: string, sub: string, i: int)
  {
    0 <= i && i + |sub| <= |s| && s[i..i + |sub|] == sub
  }

  /** `StringUtils.contains(s, sub)`: `sub` occurs in `s` at some offset. */
  predicate Contains(s: string, sub: string)
  {
    exists i :: 0 <= i <= |s| && OccursAt(s, sub, i)
  }

  /** Index of the first occurrence of `c` in `s`, if any. */
  function IndexOf(s: string, c: char): (r: Option<nat>)
    ensures r.Some? ==> r.value < |s| && s[r.value] == c && c !in s[..r.value]
    ensures r.Some? ==> forall i :: 0 <= i < r.value ==> s[i] != c
    ensures r.None? ==> c !in s
  {
    if s == [] then None
    else if s[0] == c then Some(0)
    else
      match IndexOf(s[1..], c)
      case None => None
      case Some(k) => assert s[..k + 1] == [s[0]] + s[1..][..k]; Some(k + 1)
  }

  /** The first occurrence of `c` is at `j` when `s[j]` is `c` and no earlier character is. */
  lemma IndexOfAt(s: string, c: char, j: nat)
    requires j < |s| && s[j] == c && c !in s[..j]
    ensures IndexOf(s, c) == Some(j)
  {
    assert forall i :: 0 <= i < j ==> s[..j][i] == s[i];
  }

  /** All pieces of `s` between occurrences of `sep`, empty pieces included. */
  function SplitAll(s: string, sep: char): (r: seq<string>)
    ensures |r| > 0
    ensures forall i :: 0 <= i < |r| ==> sep !in r[i]
    decreases |s|
  {
    match IndexOf(s, sep)
    case None => [s]
    case Some(k) => [s[..k]] + SplitAll(s[k + 1..], sep)
  }

  /** Joining the pieces with the separator gives back the text. */
  function Join(pieces: seq<string>, sep: char): string
  {
    if |pieces| <= 1 then (if pieces == [] then "" else pieces[0])
    else pieces[0] + [sep] + Join(pieces[1..], sep)
  }

  lemma {:induction false} SplitJoin(s: string, sep: char)
    ensures Join(SplitAll(s, sep), sep) == s
    decreases |s|
  {
    match IndexOf(s, sep)
    case None =>
    case Some(k) =>
      SplitJoin(s[k + 1..], sep);
      assert s == s[..k] + [sep] + s[k + 1..];
  }

  /** Splitting the join of pieces free of the separator gives the pieces back. */
  lemma {:induction false} JoinSplit(pieces: seq<string>, sep: char)
    requires |pieces| > 0 && forall i :: 0 <= i < |pieces| ==> sep !in pieces[i]
    ensures SplitAll(Join(pieces, sep), sep) == pieces
  {
    if |pieces| > 1 {
      var s := Join(pieces, sep);
      var p := pieces[0];
      assert s == p + [sep] + Join(pieces[1..], sep);
      assert s[..|p|] == p;
      IndexOfAt(s, sep, |p|);
      assert s[|p| + 1..] == Join(pieces[1..], sep);
      JoinSplit(pieces[1..], sep);
    }
  }

  /** Drops the empty strings at the end of a sequence of pieces. */
  function DropTrailingEmpty(pieces: seq<string>): (r: seq<string>)
    ensures |r| <= |pieces| && r == pieces[..|r|]
    ensures r != [] ==> r[|r| - 1] != ""
    ensures forall i :: |r| <= i < |pieces| ==> pieces[i] == ""
  {
    if pieces == [] then []
    else if pieces[|pieces| - 1] == "" then DropTrailingEmpty(pieces[..|pieces| - 1])
    else pieces
  }

  /** Joining only empty pieces gives nothing but separators. */
  lemma {:induction false} JoinEmpties(pieces: seq<string>, sep: char)
    requires forall i :: 0 <= i < |pieces| ==> pieces[i] == ""
    ensures forall k :: 0 <= k < |Join(pieces, sep)| ==> Join(pieces, sep)[k] == sep
  {
    if |pieces| > 1 {
      JoinEmpties(pieces[1..], sep);
      assert Join(pieces, sep) == [sep] + Join(pieces[1..], sep);
    }
  }

  /** When every piece from `m` on is empty, the join of the first `m` pieces is a prefix
      of the join of all of them, and only separators follow it. */
  lemma {:induction false} JoinEmptyTail(pieces: seq<string>, m: nat, sep: char)
    requires m <= |pieces|
    requires forall i :: m <= i < |pieces| ==> pieces[i] == ""
    ensures |Join(pieces[..m], sep)| <= |Join(pieces, sep)|
    ensures Join(pieces, sep)[..|Join(pieces[..m], sep)|] == Join(pieces[..m], sep)
    ensures forall k :: |Join(pieces[..m], sep)| <= k < |Join(pieces, sep)| ==> Join(pieces, sep)[k] == sep
    decreases m
  {
    if m == 0 {
      JoinEmpties(pieces, sep);
    } else if m == |pieces| {
      assert pieces[..m] == pieces;
    } else {
      var rest := pieces[1..];
      JoinEmptyTail(rest, m - 1, sep);
      assert Join(pieces, sep) == pieces[0] + [sep] + Join(rest, sep);
      if m == 1 {
        assert pieces[..m] == [pieces[0]];
      } else {
        assert pieces[..m][1..] == rest[..m - 1];
        assert Join(pieces[..m], sep) == pieces[0] + [sep] + Join(rest[..m - 1], sep);
      }
    }
  }

  /** `String.split` with a one-character regular expression and no limit: a text without
      the separator gives itself; otherwise the pieces between separators with the trailing
      empty pieces removed, so that the text is their join followed only by separators. */
  function JavaSplit(s: string, sep: char): (r: seq<string>)
    ensures sep !in s ==> r == [s]
    ensures forall i :: 0 <= i < |r| ==> sep !in r[i]
    ensures sep in s && r != [] ==> r[|r| - 1] != ""
    ensures |Join(r, sep)| <= |s| && s[..|Join(r, sep)|] == Join(r, sep)
    ensures forall k :: |Join(r, sep)| <= k < |s| ==> s[k] == sep
  {
    if sep !in s then [s]
    else
      var pieces := SplitAll(s, sep);
      var r := DropTrailingEmpty(pieces);
      SplitJoin(s, sep);
      JoinEmptyTail(pieces, |r|, sep);
      r
  }

  /** `String.split(sep, 2)`: the text before the first separator and the rest, or the
      whole text alone when it has no separator. */
  function SplitFirst(s: string, sep: char): (r: seq<string>)
    ensures sep !in s <==> r == [s]
    ensures |r| == 2 ==> sep !in r[0] && s == r[0] + [sep] + r[1]
    ensures 1 <= |r| <= 2
  {
    match IndexOf(s, sep)
    case None => [s]
    case Some(k) => assert s == s[..k] + [sep] + s[k + 1..]; [s[..k], s[k + 1..]]
  }

  /** `Character.isWhitespace`, restricted to the ASCII range. */
  predicate IsWhitespace(c: char)
  {
    c == ' ' || c == '\t' || c == '\n' || c == '\r' || c == '\U{000B}' || c == '\U{000C}'
    || ('\U{001C}' <= c <= '\U{001F}')
  }

  /** `StringUtils.isBlank`: null, empty or only whitespace. */
  predicate IsBlank(s: Option<string>)
  {
    s.None? || forall i :: 0 <= i < |s.value| ==> IsWhitespace(s.value[i])
  }

  /** `String.trim`: drops every leading and trailing character at or below U+0020. */
  function Trim(s: string): (r: string)
    ensures |r| <= |s|
    ensures r != [] ==> r[0] > ' ' && r[|r| - 1] > ' '
  {
    if s != [] && s[0] <= ' ' then Trim(s[1..])
    else if s != [] && s[|s| - 1] <= ' ' then Trim(s[..|s| - 1])
    else s
  }

  /** Every character of `s` outside `s[i..j]` is at or below U+0020. */
  predicate BlankOutside(s: string, i: nat, j: nat)
    requires i <= j <= |s|
  {
    (forall k :: 0 <= k < i ==> s[k] <= ' ') && (forall k :: j <= k < |s| ==> s[k] <= ' ')
  }

  lemma BlankOutsideFront(s: string, i: nat, j: nat)
    requires s != [] && s[0] <= ' ' && i <= j <= |s| - 1 && BlankOutside(s[1..], i, j)
    ensures BlankOutside(s, i + 1, j + 1)
  {
    forall k | 0 < k < |s| ensures s[k] == s[1..][k - 1] { }
  }

  lemma BlankOutsideBack(s: string, i: nat, j: nat)
    requires s != [] && s[|s| - 1] <= ' ' && i <= j <= |s| - 1 && BlankOutside(s[..|s| - 1], i, j)
    ensures BlankOutside(s, i, j)
  {
    forall k | 0 <= k < |s| - 1 ensures s[k] == s[..|s| - 1][k] { }
  }

  /** `Trim(s)` is a contiguous part of `s` with only blanks outside it. */
  predicate TrimIsInfix(s: string)
  {
    exists i: nat, j: nat :: i <= j <= |s| && Trim(s) == s[i..j] && BlankOutside(s, i, j)
  }

  lemma TrimInfixFront(s: string)
    requires s != [] && s[0] <= ' ' && TrimIsInfix(s[1..])
    ensures TrimIsInfix(s)
  {
    var t := s[1..];
    assert Trim(s) == Trim(t);
    var i: nat, j: nat :| i <= j <= |t| && Trim(t) == t[i..j] && BlankOutside(t, i, j);
    assert t[i..j] == s[i + 1..j + 1];
    BlankOutsideFront(s, i, j);
  }

  lemma TrimInfixBack(s: string)
    requires s != [] && s[0] > ' ' && s[|s| - 1] <= ' ' && TrimIsInfix(s[..|s| - 1])
    ensures TrimIsInfix(s)
  {
    var t := s[..|s| - 1];
    assert Trim(s) == Trim(t);
    var i: nat, j: nat :| i <= j <= |t| && Trim(t) == t[i..j] && BlankOutside(t, i, j);
    assert t[i..j] == s[i..j];
    BlankOutsideBack(s, i, j);
  }

  /** `String.trim` keeps a contiguous part of the text and drops only characters at or
      below U+0020 on either side of it. */
  lemma {:induction false} TrimKeepsInfix(s: string)
    ensures TrimIsInfix(s)
    decreases |s|
  {
    if s != [] && s[0] <= ' ' {
      TrimKeepsInfix(s[1..]);
      TrimInfixFront(s);
    } else if s != [] && s[|s| - 1] <= ' ' {
      TrimKeepsInfix(s[..|s| - 1]);
      TrimInfixBack(s);
    } else {
      assert Trim(s) == s[0..|s|];
      assert BlankOutside(s, 0, |s|);
    }
  }
}
