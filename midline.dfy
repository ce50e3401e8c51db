/**
 * The midline splitter (`split_text_with_role_midline`): a role clause and
 * the first responsibility under it that share one physical line, joined by
 * a colon, are separated into the head up to the colon and the tail starting
 * at the numbering token.
 */
module Midline {
  import opened Wrappers
  import opened Text
  import opened Numbering

  /** Index of the first colon of `s`, if any. */
  function FirstColon(s: string): (r: Option<nat>)
    ensures r.None? <==> ':' !in s
    ensures r.Some? ==> r.value < |s| && s[r.value] == ':' && ':' !in s[..r.value]
  {
    if s == [] then None
    else if s[0] == ':' then Some(0)
    else match FirstColon(s[1..])
      case None => None
      case Some(i) => assert s[..i + 1] == [s[0]] + s[1..][..i]; Some(i + 1)
  }

  /**
   * `(head, tail)`: when the text after the first colon (past any
   * whitespace) starts with a numbering token, the head is the text up to
   * and including that colon and the tail is the text from the token on,
   * both trimmed; otherwise `(text, "")`.
   */
  function SplitMidline(text: string): (r: (string, string))
  {
    match FirstColon(text)
    case None => (text, "")
    case Some(i) => SplitAfter(text, i)
  }

  /** The split at the colon at position `i`. */
  function SplitAfter(text: string, i: nat): (r: (string, string))
    requires i < |text|
  {
    var after := TrimLeft(text[i + 1..]);
    if ExtractNumbering(after).0 != "" then (Trim(text[..i + 1]), Trim(after)) else (text, "")
  }

  /** The splitter cuts at the first colon. */
  lemma SplitAtFirstColon(text: string, i: nat)
    requires FirstColon(text) == Some(i)
    ensures SplitMidline(text) == SplitAfter(text, i)
  {
  }

  /** A colon followed by a token: the trimmed text up to the colon and the trimmed rest. */
  lemma SplitAfterToken(text: string, i: nat)
    requires i < |text| && ExtractNumbering(TrimLeft(text[i + 1..])).0 != ""
    ensures SplitAfter(text, i) == (Trim(text[..i + 1]), Trim(TrimLeft(text[i + 1..])))
  {
  }

  /** A nonempty tail means a token follows the colon. */
  lemma SplitAfterHasToken(text: string, i: nat)
    requires i < |text| && SplitAfter(text, i).1 != ""
    ensures ExtractNumbering(TrimLeft(text[i + 1..])).0 != ""
  {
  }

  /** A colon not followed by a token: the text stays whole. */
  lemma SplitAfterNoToken(text: string, i: nat)
    requires i < |text| && ExtractNumbering(TrimLeft(text[i + 1..])).0 == ""
    ensures SplitAfter(text, i) == (text, "")
  {
  }

  /** The splitter itself decides to split: a colon is followed by a token. */
  predicate SplitsAt(text: string, i: nat) {
    i < |text| && FirstColon(text) == Some(i) && ExtractNumbering(TrimLeft(text[i + 1..])).0 != ""
  }

  /**
   * A line is split exactly when the text after its first colon, past any
   * whitespace, starts with a numbering token; an unsplit line comes back
   * whole with an empty tail.
   */
  lemma SplitIff(text: string)
    ensures SplitMidline(text).1 != "" <==> exists i :: SplitsAt(text, i)
    ensures SplitMidline(text).1 == "" ==> SplitMidline(text).0 == text
  {
    if FirstColon(text).None? {
      assert forall i :: !SplitsAt(text, i);
    } else {
      var i := FirstColon(text).value;
      if ExtractNumbering(TrimLeft(text[i + 1..])).0 != "" {
        SplitYes(text, i);
      } else {
        SplitNo(text, i);
      }
    }
  }

  /** A first colon followed by a token splits the line, with a nonempty tail. */
  lemma SplitYes(text: string, i: nat)
    requires FirstColon(text) == Some(i) && ExtractNumbering(TrimLeft(text[i + 1..])).0 != ""
    ensures SplitsAt(text, i) && SplitMidline(text).1 != ""
  {
    SplitAtFirstColon(text, i);
    SplitAfterToken(text, i);
    TokenKeepsTrim(TrimLeft(text[i + 1..]));
  }

  /** A first colon not followed by a token leaves the line whole, and no position splits it. */
  lemma SplitNo(text: string, i: nat)
    requires FirstColon(text) == Some(i) && ExtractNumbering(TrimLeft(text[i + 1..])).0 == ""
    ensures SplitMidline(text) == (text, "") && forall j :: !SplitsAt(text, j)
  {
    SplitAtFirstColon(text, i);
    SplitAfterNoToken(text, i);
  }

  /** A string that starts with a numbering token is not all whitespace. */
  lemma TokenKeepsTrim(s: string)
    requires ExtractNumbering(s).0 != ""
    ensures Trim(s) != ""
  {
    TailSolid(s);
    TrimRightSpec(s);
    assert TrimLeft(s) == s;
    assert s[0..] == s;
  }

  /**
   * A token at the start of a string survives the removal of trailing
   * whitespace: the token ends with a period or a parenthesis.
   */
  lemma TrimKeepsToken(s: string, k: Kind, n: nat)
    requires StartsWithToken(s, k, n)
    ensures |TrimRight(s)| >= n && StartsWithToken(TrimRight(s), k, n)
  {
    TokenEndsSolid(k, s[..n]);
    TrimRightSpec(s);
    var r := TrimRight(s);
    assert !IsSpace(s[n - 1]);
    assert r[..n] == s[..n];
    if n < |r| {
      assert r[n..][0] == s[n..][0];
    }
  }

  /** Head of a split: the text up to the first colon, trimmed, ends with that colon and holds no other. */
  lemma SplitHead(text: string, i: nat)
    requires FirstColon(text) == Some(i)
    ensures var head := Trim(text[..i + 1]);
      var j := |text[..i + 1]| - |TrimLeft(text[..i + 1])|;
      && j <= i && head == text[j..i + 1] && AllSpace(text[..j])
      && head[|head| - 1] == ':' && ':' !in head[..|head| - 1]
  {
    var s := text[..i + 1];
    var l := TrimLeft(s);
    TrimLeftSpec(s);
    assert !IsSpace(s[i]);
    if l == [] {
      SpaceInPrefix(s, |s|, i);
    }
    assert l[|l| - 1] == s[i];
    assert TrimRight(l) == l;
    var j := |s| - |l|;
    var head := Trim(s);
    assert head == text[j..i + 1];
    assert head[..|head| - 1] == text[..i][j..];
    assert text[..j] == s[..j];
  }

  /**
   * Tail of a split: the text after the colon, trimmed, still starts with
   * the same numbering token, and what was trimmed off its end is whitespace.
   */
  lemma SplitTail(after: string)
    requires ExtractNumbering(after).0 != "" && TrimLeft(after) == after
    ensures var tail := Trim(after);
      && ExtractNumbering(tail).0 == ExtractNumbering(after).0
      && tail == after[..|tail|] && AllSpace(after[|tail|..])
  {
    var tok := Scan(after).value;
    ScanSound(after);
    var n := tok.length;
    TrimKeepsToken(after, tok.kind, n);
    var tail := TrimRight(after);
    TrimRightSpec(after);
    assert Trim(after) == tail;
    var num := after[..n];
    assert ExtractNumbering(after).0 == num;
    PrefixRest(after, tail, n);
    ExtractNumberingComplete(tok.kind, num, tail[n..]);
  }

  /** A prefix `p` of `s` that is at least `n` long is `s[..n]` followed by the rest of `p`. */
  lemma PrefixRest(s: string, p: string, n: nat)
    requires n <= |p| <= |s| && p == s[..|p|]
    ensures p == s[..n] + p[n..]
  {
    assert p[..n] == s[..n];
  }

  /**
   * When the line is split: the head ends at the first colon and holds no
   * other colon, the tail starts with the numbering token that follows the
   * colon, and the line is whitespace, head, whitespace, tail and
   * whitespace, in that order.
   */
  lemma SplitSound(text: string)
    requires SplitMidline(text).1 != ""
    ensures var head := SplitMidline(text).0;
      head != [] && head[|head| - 1] == ':' && ':' !in head[..|head| - 1]
    ensures ExtractNumbering(SplitMidline(text).1).0 != ""
    ensures exists lead, gap, trail ::
      AllSpace(lead) && AllSpace(gap) && AllSpace(trail) &&
      text == lead + SplitMidline(text).0 + gap + SplitMidline(text).1 + trail
  {
    var i := FirstColon(text).value;
    var rest := text[i + 1..];
    var after := TrimLeft(rest);
    var head := Trim(text[..i + 1]);
    var tail := Trim(after);
    SplitAtFirstColon(text, i);
    SplitAfterHasToken(text, i);
    SplitAfterToken(text, i);
    TrimLeftTwice(rest);
    SplitHead(text, i);
    SplitTail(after);
    var lead, gap, trail := SplitReassembles(text, i);
    assert text == lead + head + gap + tail + trail;
  }

  /** Cutting after position `i` and trimming both sides loses only whitespace. */
  lemma SplitReassembles(text: string, i: nat) returns (lead: string, gap: string, trail: string)
    requires i < |text|
    ensures AllSpace(lead) && AllSpace(gap) && AllSpace(trail)
    ensures text == lead + Trim(text[..i + 1]) + gap + Trim(TrimLeft(text[i + 1..])) + trail
  {
    var a, b := text[..i + 1], text[i + 1..];
    assert text == a + b;
    var after := TrimLeft(b);
    TrimLeftSpec(b);
    var gapB := b[..|b| - |after|];
    assert b == gapB + after;
    var gapA, gap2;
    lead, gapA := TrimDecomposes(a);
    gap2, trail := TrimDecomposes(after);
    AllSpaceConcat(gapA, gapB);
    AllSpaceConcat(gapA + gapB, gap2);
    gap := gapA + gapB + gap2;
    Regroup(text, a, b, after, lead, Trim(a), gapA, gapB, gap2, Trim(after), trail);
  }

  lemma Regroup(text: string, a: string, b: string, after: string,
                lead: string, head: string, gapA: string, gapB: string, gap2: string, tail: string, trail: string)
    requires text == a + b && a == lead + head + gapA && b == gapB + after && after == gap2 + tail + trail
    ensures text == lead + head + (gapA + gapB + gap2) + tail + trail
  {
  }

  /**
   * The converse of `SplitSound`: a line made of a head that ends at its only
   * colon, whitespace, and a tail that starts with a numbering token, with no
   * whitespace at either end of head or tail, splits into that head and tail.
   */
  lemma SplitComplete(head: string, gap: string, tail: string)
    requires head != [] && head[|head| - 1] == ':' && ':' !in head[..|head| - 1] && !IsSpace(head[0])
    requires AllSpace(gap)
    requires tail != [] && ExtractNumbering(tail).0 != "" && !IsSpace(tail[|tail| - 1])
    ensures SplitMidline(head + gap + tail) == (head, tail)
  {
    var text := head + gap + tail;
    var i := |head| - 1;
    ColonAt(head, gap + tail);
    Cut(head, gap, tail);
    TailSolid(tail);
    TrimLeftSpaces(gap, tail);
    TrimSolid(head);
    TrimSolid(tail);
    assert TrimLeft(text[i + 1..]) == tail;
    assert text[..i + 1] == head;
    SplitAtFirstColon(text, i);
    SplitAfterToken(text, i);
  }

  /** Cutting `head + gap + rest` after `head` gives back the two sides. */
  lemma Cut(head: string, gap: string, rest: string)
    ensures head + gap + rest == head + (gap + rest)
    ensures (head + gap + rest)[..|head|] == head && (head + gap + rest)[|head|..] == gap + rest
  {
  }

  /** A string that starts with a numbering token starts with a non-space. */
  lemma TailSolid(tail: string)
    requires ExtractNumbering(tail).0 != ""
    ensures tail != [] && !IsSpace(tail[0])
  {
    ExtractNumberingSound(tail);
    var n := |ExtractNumbering(tail).0|;
    var k :| StartsWithToken(tail, k, n);
    TokenStartsSolid(k, tail[..n]);
    assert tail[0] == tail[..n][0];
  }

  /**
   * A line whose first colon is followed, past whitespace, by text that does
   * not start with a numbering token is not split.
   */
  lemma NoSplitWithoutToken(head: string, gap: string, rest: string)
    requires head != [] && head[|head| - 1] == ':' && ':' !in head[..|head| - 1]
    requires AllSpace(gap) && (rest == [] || !IsSpace(rest[0]))
    requires ExtractNumbering(rest).0 == ""
    ensures SplitMidline(head + gap + rest) == (head + gap + rest, "")
  {
    ColonAt(head, gap + rest);
    Cut(head, gap, rest);
    TrimLeftSpaces(gap, rest);
    SplitAtFirstColon(head + gap + rest, |head| - 1);
    SplitAfterNoToken(head + gap + rest, |head| - 1);
  }

  /** The first colon of `head + rest` is the last character of `head` when that is its only colon. */
  lemma ColonAt(head: string, rest: string)
    requires head != [] && head[|head| - 1] == ':' && ':' !in head[..|head| - 1]
    ensures FirstColon(head + rest) == Some(|head| - 1)
  {
    var s := head + rest;
    var i := |head| - 1;
    assert s[i] == ':';
    assert s[..i] == head[..i];
    var j := FirstColon(s).value;
    assert forall m :: 0 <= m < i ==> s[m] == s[..i][m];
    assert forall m :: 0 <= m < j ==> s[m] == s[..j][m];
  }

  /** A line with no colon is never split. */
  lemma NoColonNoSplit(text: string)
    requires ':' !in text
    ensures SplitMidline(text) == (text, "")
  {
  }
}
