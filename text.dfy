/** The parts of Go's `strings`, `strconv` and `fmt` packages the client relies on:
    white-space trimming, trimming a trailing character, joining and splitting,
    byte-wise string order and the decimal rendering of integers. */
module Text {

  /** Go's unicode.IsSpace: the Latin-1 spaces plus the Unicode White_Space code points. */
  predicate IsSpace(c: char)
  {
    || c == '\t' || c == '\n' || c == '\U{000B}' || c == '\U{000C}' || c == '\r' || c == ' '
    || c == '\U{0085}' || c == '\U{00A0}' || c == '\U{1680}'
    || ('\U{2000}' <= c <= '\U{200A}')
    || c == '\U{2028}' || c == '\U{2029}' || c == '\U{202F}' || c == '\U{205F}' || c == '\U{3000}'
  }

  /** Drops leading white space. */
  function TrimLeftSpace(s: string): (r: string)
    ensures |r| <= |s| && r == s[|s| - |r|..]
    ensures r == [] || !IsSpace(r[0])
    ensures forall i :: 0 <= i < |s| - |r| ==> IsSpace(s[i])
  {
    if s != [] && IsSpace(s[0]) then TrimLeftSpace(s[1..]) else s
  }

  /** Drops trailing white space. */
  function TrimRightSpace(s: string): (r: string)
    ensures |r| <= |s| && r == s[..|r|]
    ensures r == [] || !IsSpace(r[|r| - 1])
    ensures forall i :: |r| <= i < |s| ==> IsSpace(s[i])
  {
    if s != [] && IsSpace(s[|s| - 1]) then TrimRightSpace(s[..|s| - 1]) else s
  }

  /** strings.TrimSpace: the longest infix of `s` that neither starts nor ends with white space,
      obtained by removing only white space on both sides. */
  function TrimSpace(s: string): (r: string)
    ensures exists i, j :: 0 <= i <= j <= |s| && r == s[i..j]
                           && (forall k :: 0 <= k < i ==> IsSpace(s[k]))
                           && (forall k :: j <= k < |s| ==> IsSpace(s[k]))
    ensures r == [] || (!IsSpace(r[0]) && !IsSpace(r[|r| - 1]))
  {
    var l := TrimLeftSpace(s);
    var r := TrimRightSpace(l);
    var i := |s| - |l|;
    assert r == s[i..i + |r|];
    r
  }

  /** strings.TrimRight with a one-character cutset: removes every trailing `c`. */
  function TrimRight(s: string, c: char): (r: string)
    ensures |r| <= |s| && r == s[..|r|]
    ensures r == [] || r[|r| - 1] != c
    ensures forall i :: |r| <= i < |s| ==> s[i] == c
  {
    if s != [] && s[|s| - 1] == c then TrimRight(s[..|s| - 1], c) else s
  }

  /** Trailing cut characters make no difference to TrimRight. */
  lemma {:induction false} TrimRightAppendCut(s: string, c: char)
    ensures TrimRight(s + [c], c) == TrimRight(s, c)
  {
    assert (s + [c])[..|s + [c]| - 1] == s;
  }

  /** TrimRight stops at the first character from the right that is not `c`. */
  lemma {:induction false} TrimRightKeepsPrefix(a: string, b: string, c: char)
    requires a != [] && a[|a| - 1] != c
    ensures TrimRight(a + b, c) == a + TrimRight(b, c)
    decreases |b|
  {
    if b == [] {
      assert a + b == a;
    } else if b[|b| - 1] == c {
      assert (a + b)[..|a + b| - 1] == a + b[..|b| - 1];
      TrimRightKeepsPrefix(a, b[..|b| - 1], c);
    }
  }

  /** strings.Join. */
  function Join(parts: seq<string>, sep: string): string
    decreases |parts|
  {
    if |parts| == 0 then ""
    else if |parts| == 1 then parts[0]
    else Join(parts[..|parts| - 1], sep) + sep + parts[|parts| - 1]
  }

  /** Every part followed by `term`: what a loop of `s += part + term` builds. */
  function Terminated(parts: seq<string>, term: string): string
    decreases |parts|
  {
    if parts == [] then "" else Terminated(parts[..|parts| - 1], term) + parts[|parts| - 1] + term
  }

  lemma TerminatedStep(parts: seq<string>, p: string, term: string)
    ensures Terminated(parts + [p], term) == Terminated(parts, term) + p + term
  {
    assert (parts + [p])[..|parts|] == parts;
  }

  /** A terminated list is the joined list followed by one terminator. */
  lemma {:induction false} TerminatedIsJoinedPlusTerm(parts: seq<string>, term: string)
    requires parts != []
    ensures Terminated(parts, term) == Join(parts, term) + term
    decreases |parts|
  {
    if |parts| > 1 {
      TerminatedIsJoinedPlusTerm(parts[..|parts| - 1], term);
    } else {
      assert parts[..0] == [];
    }
  }

  /** strings.Split around a single separator character: the pieces between separators,
      one more than there are separators (so "" splits into [""]). */
  function Split(s: string, c: char): (r: seq<string>)
    ensures |r| >= 1
    ensures forall i :: 0 <= i < |r| ==> c !in r[i]
    decreases |s|
  {
    if s == [] then [""]
    else
      var init := Split(s[..|s| - 1], c);
      var last := s[|s| - 1];
      if last == c then init + [""]
      else init[..|init| - 1] + [init[|init| - 1] + [last]]
  }

  /** Joining the pieces of a split with the separator gives back the original text. */
  lemma {:induction false} JoinSplit(s: string, c: char)
    ensures Join(Split(s, c), [c]) == s
    decreases |s|
  {
    if s != [] {
      var p := s[..|s| - 1];
      var init := Split(p, c);
      JoinSplit(p, c);
      var last := s[|s| - 1];
      assert s == p + [last];
      if last == c {
        var r := init + [""];
        assert r[..|r| - 1] == init;
      } else {
        var r := init[..|init| - 1] + [init[|init| - 1] + [last]];
        assert r[..|r| - 1] == init[..|init| - 1];
        if |init| == 1 {
          assert Join(init, [c]) == init[0];
        } else {
          assert Join(init, [c]) == Join(init[..|init| - 1], [c]) + [c] + init[|init| - 1];
        }
      }
    }
  }

  /** Go's `<` on strings: lexicographic order on the characters (the byte order of UTF-8
      agrees with code-point order). */
  predicate Less(a: string, b: string)
    decreases |a|
  {
    if a == [] then b != []
    else if b == [] then false
    else if a[0] != b[0] then a[0] < b[0]
    else Less(a[1..], b[1..])
  }

  lemma {:induction false} LessIrreflexive(a: string)
    ensures !Less(a, a)
    decreases |a|
  {
    if a != [] { LessIrreflexive(a[1..]); }
  }

  lemma {:induction false} LessTransitive(a: string, b: string, c: string)
    requires Less(a, b) && Less(b, c)
    ensures Less(a, c)
    decreases |a|
  {
    if a != [] && b != [] && c != [] && a[0] == b[0] && b[0] == c[0] {
      LessTransitive(a[1..], b[1..], c[1..]);
    }
  }

  /** Any two strings are equal or ordered one way or the other. */
  lemma {:induction false} LessTrichotomy(a: string, b: string)
    ensures a == b || Less(a, b) || Less(b, a)
    decreases |a|
  {
    if a != [] && b != [] && a[0] == b[0] {
      LessTrichotomy(a[1..], b[1..]);
      if a[1..] == b[1..] {
        assert a == [a[0]] + a[1..] && b == [b[0]] + b[1..];
      }
    }
  }

  /** strings.Compare: -1, 0 or +1 as `a` sorts before, equal to or after `b`. */
  function Compare(a: string, b: string): (r: int)
    ensures r == -1 <==> Less(a, b)
    ensures r == 0 <==> a == b
    ensures r == 1 <==> Less(b, a)
  {
    LessTrichotomy(a, b);
    LessIrreflexive(a);
    if a == b then 0
    else if Less(a, b) then
      LessAsymmetric(a, b);
      -1
    else 1
  }

  lemma LessAsymmetric(a: string, b: string)
    requires Less(a, b)
    ensures !Less(b, a)
  {
    if Less(b, a) {
      LessTransitive(a, b, a);
      LessIrreflexive(a);
    }
  }

  /** The decimal digit for 0..9. */
  function Digit(d: nat): (c: char)
    requires d < 10
    ensures '0' <= c <= '9'
  {
    ['0', '1', '2', '3', '4', '5', '6', '7', '8', '9'][d]
  }

  /** Decimal notation of a natural number, without leading zeros. */
  function NatString(n: nat): (r: string)
    ensures r != [] && forall i :: 0 <= i < |r| ==> '0' <= r[i] <= '9'
    ensures |r| > 1 ==> r[0] != '0'
    decreases n
  {
    if n < 10 then [Digit(n)] else NatString(n / 10) + [Digit(n % 10)]
  }

  /** fmt's `%d` / `%v` for an int: a minus sign for negatives, then the decimal digits. */
  function IntString(i: int): (r: string)
    ensures r != [] && '0' <= r[|r| - 1] <= '9'
    ensures (r[0] == '-') <==> i < 0
  {
    if i < 0 then "-" + NatString(-i) else NatString(i)
  }

  /** fmt's `%v` for a bool. */
  function BoolString(b: bool): string
  {
    if b then "true" else "false"
  }
}
