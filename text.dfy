/** Character classes, whitespace trimming and character counting on strings. */
module Text {

  /** The whitespace class `\s` of a regular expression in ASCII mode: six characters. */
  predicate IsSpace(c: char) {
    c == ' ' || c == '\t' || c == '\n' || c == '\r' || c == '\U{000B}' || c == '\U{000C}'
  }

  predicate IsDigit(c: char) { '0' <= c <= '9' }

  predicate IsLetter(c: char) { 'a' <= c <= 'z' || 'A' <= c <= 'Z' }

  predicate IsPeriod(c: char) { c == '.' }

  predicate IsOpenParen(c: char) { c == '(' }

  predicate AllSpace(s: string) {
    forall i :: 0 <= i < |s| ==> IsSpace(s[i])
  }

  /** `s` without its leading whitespace, the six characters of `\s` in ASCII mode. */
  function TrimLeft(s: string): (r: string)
    ensures |r| <= |s|
  {
    if |s| > 0 && IsSpace(s[0]) then TrimLeft(s[1..]) else s
  }

  /** `s` without its trailing whitespace, the six characters of `\s` in ASCII mode. */
  function TrimRight(s: string): (r: string)
    ensures |r| <= |s|
  {
    if |s| > 0 && IsSpace(s[|s| - 1]) then TrimRight(s[..|s| - 1]) else s
  }

  /** `s` without leading and trailing whitespace, the six characters of `\s` in ASCII mode. */
  function Trim(s: string): (r: string)
    ensures |r| <= |s|
  {
    TrimRight(TrimLeft(s))
  }

  /** `TrimLeft` removes a whitespace prefix and nothing else. */
  lemma {:induction false} TrimLeftSpec(s: string)
    ensures var r := TrimLeft(s);
      && |r| <= |s| && s[|s| - |r|..] == r
      && AllSpace(s[..|s| - |r|])
      && (r == [] || !IsSpace(r[0]))
  {
    if |s| > 0 && IsSpace(s[0]) {
      TrimLeftSpec(s[1..]);
      var r := TrimLeft(s);
      assert s[1..][..|s| - 1 - |r|] == s[1..|s| - |r|];
      assert s[|s| - |r|..] == s[1..][|s| - 1 - |r|..];
    }
  }

  /** `TrimRight` removes a whitespace suffix and nothing else. */
  lemma {:induction false} TrimRightSpec(s: string)
    ensures var r := TrimRight(s);
      && |r| <= |s| && s[..|r|] == r
      && AllSpace(s[|r|..])
      && (r == [] || !IsSpace(r[|r| - 1]))
  {
    if |s| > 0 && IsSpace(s[|s| - 1]) {
      var p := s[..|s| - 1];
      TrimRightSpec(p);
      var r := TrimRight(s);
      assert p[..|r|] == s[..|r|];
      assert forall k :: |r| <= k < |s| - 1 ==> s[k] == p[k];
    }
  }

  /** Trimming the front twice is trimming it once. */
  lemma TrimLeftTwice(s: string)
    ensures TrimLeft(TrimLeft(s)) == TrimLeft(s)
  {
    TrimLeftSpec(s);
  }

  /** `Trim` removes a whitespace prefix and a whitespace suffix and nothing else. */
  lemma TrimSpec(s: string)
    ensures var i := |s| - |TrimLeft(s)|; var r := Trim(s);
      i + |r| <= |s| && s[i..i + |r|] == r && AllSpace(s[..i]) && AllSpace(s[i + |r|..])
    ensures Trim(s) == [] || (!IsSpace(Trim(s)[0]) && !IsSpace(Trim(s)[|Trim(s)| - 1]))
  {
    var l := TrimLeft(s);
    var r := TrimRight(l);
    assert Trim(s) == r;
    TrimLeftSpec(s);
    TrimRightSpec(l);
    TrimParts(s, l, r);
    TrimEnds(l, r);
  }

  /** A prefix of a string that starts with a non-space, itself ending in a non-space, has no whitespace at either end. */
  lemma TrimEnds(l: string, r: string)
    requires l == [] || !IsSpace(l[0])
    requires |r| <= |l| && l[..|r|] == r && (r == [] || !IsSpace(r[|r| - 1]))
    ensures r == [] || (!IsSpace(r[0]) && !IsSpace(r[|r| - 1]))
  {
    if r != [] {
      assert r[0] == l[0];
    }
  }

  /** Whitespace trimmed off the front of `s`, then off the back of what is left, is whitespace of `s`. */
  lemma TrimParts(s: string, l: string, r: string)
    requires |l| <= |s| && s[|s| - |l|..] == l
    requires |r| <= |l| && l[..|r|] == r && AllSpace(l[|r|..])
    ensures var i := |s| - |l|; i + |r| <= |s| && s[i..i + |r|] == r && AllSpace(s[i + |r|..])
  {
    var i := |s| - |l|;
    assert s[i + |r|..] == l[|r|..];
    assert s[i..i + |r|] == l[..|r|];
  }

  lemma AllSpaceConcat(a: string, b: string)
    requires AllSpace(a) && AllSpace(b)
    ensures AllSpace(a + b)
  {
  }

  /** `s` is its leading whitespace, its trimmed core and its trailing whitespace. */
  lemma TrimDecomposes(s: string) returns (lead: string, trail: string)
    ensures AllSpace(lead) && AllSpace(trail) && s == lead + Trim(s) + trail
  {
    var r := Trim(s);
    var i := |s| - |TrimLeft(s)|;
    TrimSpec(s);
    lead, trail := s[..i], s[i + |r|..];
    assert s[i..i + |r|] == r;
    Cut3(s, i, i + |r|);
  }

  /** Cutting a string at two positions and concatenating the pieces gives it back. */
  lemma Cut3(s: string, i: nat, j: nat)
    requires i <= j <= |s|
    ensures s == s[..i] + s[i..j] + s[j..]
  {
    assert s[..j] == s[..i] + s[i..j];
  }

  /** Leading whitespace in front of a string that starts with a non-space is exactly what is trimmed. */
  lemma {:induction false} TrimLeftSpaces(gap: string, s: string)
    requires AllSpace(gap) && (s == [] || !IsSpace(s[0]))
    ensures TrimLeft(gap + s) == s
  {
    if gap == [] {
      assert gap + s == s;
    } else {
      assert (gap + s)[1..] == gap[1..] + s;
      TrimLeftSpaces(gap[1..], s);
    }
  }

  /** A string with no whitespace at either end is its own trimmed form. */
  lemma TrimSolid(s: string)
    requires s == [] || (!IsSpace(s[0]) && !IsSpace(s[|s| - 1]))
    ensures Trim(s) == s
  {
  }

  /** A character inside an all-whitespace prefix is whitespace. */
  lemma SpaceInPrefix(s: string, m: nat, p: nat)
    requires p < m <= |s| && AllSpace(s[..m])
    ensures IsSpace(s[p])
  {
    assert s[..m][p] == s[p];
  }

  /** Number of characters of `s` in the class `p`. */
  function Count(s: string, p: char -> bool): (n: nat)
    ensures n <= |s|
  {
    if s == [] then 0 else (if p(s[0]) then 1 else 0) + Count(s[1..], p)
  }

  lemma {:induction false} CountConcat(a: string, b: string, p: char -> bool)
    ensures Count(a + b, p) == Count(a, p) + Count(b, p)
  {
    if a != [] {
      assert (a + b)[1..] == a[1..] + b;
      CountConcat(a[1..], b, p);
    } else {
      assert a + b == b;
    }
  }

  lemma {:induction false} CountNone(s: string, p: char -> bool)
    requires forall i :: 0 <= i < |s| ==> !p(s[i])
    ensures Count(s, p) == 0
  {
    if s != [] {
      CountNone(s[1..], p);
    }
  }

  lemma {:induction false} CountAll(s: string, p: char -> bool)
    requires forall i :: 0 <= i < |s| ==> p(s[i])
    ensures Count(s, p) == |s|
  {
    if s != [] {
      CountAll(s[1..], p);
    }
  }

  lemma {:induction false} CountSome(s: string, p: char -> bool, k: nat)
    requires k < |s| && p(s[k])
    ensures Count(s, p) >= 1
  {
    if k > 0 {
      CountSome(s[1..], p, k - 1);
    }
  }
}
