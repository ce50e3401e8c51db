/**
 * The numbering classifier: recognises an outline-numbering token at the
 * start of a line ("1.", "1.1.", "(1)", "a.", "zz.", "(a)") and splits it
 * off from the text that follows (`extract_numbering`).
 */
module Numbering {
  import opened Wrappers
  import opened Text

  /** The four kinds of numbering token. */
  datatype Kind = Decimal | ParenNumber | Lettered | ParenLetter

  /** A recognised token: its kind and its length at the start of the line. */
  datatype Token = Token(kind: Kind, length: nat)

  // ---------------------------------------------------------------------
  // Reference grammar of the tokens, stated declaratively.
  // ---------------------------------------------------------------------

  /** One or more groups `digits "."`: "1.", "11.", "1.1.", "1.11.", ... */
  predicate IsDecimalToken(t: string) {
    && |t| >= 2
    && IsDigit(t[0])
    && t[|t| - 1] == '.'
    && (forall i :: 0 <= i < |t| ==> IsDigit(t[i]) || t[i] == '.')
    && (forall i, j :: 0 <= i < |t| && j == i + 1 && j < |t| && t[j] == '.' ==> IsDigit(t[i]))
  }

  /** `"(" digits ")"`: "(1)", "(11)". */
  predicate IsParenNumberToken(t: string) {
    |t| >= 3 && t[0] == '(' && t[|t| - 1] == ')' &&
    forall i :: 0 < i < |t| - 1 ==> IsDigit(t[i])
  }

  /** One or two letters and a period: "a.", "zz.". */
  predicate IsLetteredToken(t: string) {
    2 <= |t| <= 3 && t[|t| - 1] == '.' &&
    forall i :: 0 <= i < |t| - 1 ==> IsLetter(t[i])
  }

  /** `"(" one or two letters ")"`: "(a)", "(zz)". */
  predicate IsParenLetterToken(t: string) {
    3 <= |t| <= 4 && t[0] == '(' && t[|t| - 1] == ')' &&
    forall i :: 0 < i < |t| - 1 ==> IsLetter(t[i])
  }

  predicate IsToken(k: Kind, t: string) {
    match k
    case Decimal => IsDecimalToken(t)
    case ParenNumber => IsParenNumberToken(t)
    case Lettered => IsLetteredToken(t)
    case ParenLetter => IsParenLetterToken(t)
  }

  /**
   * What may follow a token of kind `k`: a parenthesised letter token must
   * not be followed by a period; every other token must be followed by
   * whitespace or by the end of the line.
   */
  predicate FollowedOk(k: Kind, after: string) {
    if k == ParenLetter then after == [] || after[0] != '.'
    else after == [] || IsSpace(after[0])
  }

  /** `line` starts with a token of kind `k` and length `n` that is properly followed. */
  predicate StartsWithToken(line: string, k: Kind, n: nat) {
    n <= |line| && IsToken(k, line[..n]) && FollowedOk(k, line[n..])
  }

  // ---------------------------------------------------------------------
  // The scanner.
  // ---------------------------------------------------------------------

  /** Length of the longest prefix of `s` made of digits. */
  function DigitRun(s: string): (n: nat)
    ensures n <= |s|
  {
    if |s| > 0 && IsDigit(s[0]) then 1 + DigitRun(s[1..]) else 0
  }

  /** Length of the longest prefix of `s` made of letters. */
  function LetterRun(s: string): (n: nat)
    ensures n <= |s|
  {
    if |s| > 0 && IsLetter(s[0]) then 1 + LetterRun(s[1..]) else 0
  }

  /** The digit run is made of digits and is not followed by one. */
  lemma {:induction false} DigitRunSpec(s: string)
    ensures forall i :: 0 <= i < DigitRun(s) ==> IsDigit(s[i])
    ensures DigitRun(s) == |s| || !IsDigit(s[DigitRun(s)])
  {
    if |s| > 0 && IsDigit(s[0]) {
      DigitRunSpec(s[1..]);
      assert forall i :: 1 <= i < DigitRun(s) ==> s[i] == s[1..][i - 1];
    }
  }

  /** The letter run is made of letters and is not followed by one. */
  lemma {:induction false} LetterRunSpec(s: string)
    ensures forall i :: 0 <= i < LetterRun(s) ==> IsLetter(s[i])
    ensures LetterRun(s) == |s| || !IsLetter(s[LetterRun(s)])
  {
    if |s| > 0 && IsLetter(s[0]) {
      LetterRunSpec(s[1..]);
      assert forall i :: 1 <= i < LetterRun(s) ==> s[i] == s[1..][i - 1];
    }
  }

  /** Length of the longest prefix of `s` made of groups `digits "."`. */
  function DecimalRun(s: string): (n: nat)
    ensures n <= |s|
    decreases |s|
  {
    var d := DigitRun(s);
    if 0 < d < |s| && s[d] == '.' then d + 1 + DecimalRun(s[d + 1..]) else 0
  }

  /** The token at the start of `line`, trying the four kinds in turn. */
  function Scan(line: string): (r: Option<Token>)
    ensures r.Some? ==> 0 < r.value.length <= |line|
  {
    var dec := DecimalRun(line);
    if dec > 0 then
      if FollowedOk(Decimal, line[dec..]) then Some(Token(Decimal, dec)) else None
    else if |line| > 0 && line[0] == '(' then
      var inner := line[1..];
      var d := DigitRun(inner);
      var l := LetterRun(inner);
      if 0 < d < |inner| && inner[d] == ')' && FollowedOk(ParenNumber, line[d + 2..]) then
        Some(Token(ParenNumber, d + 2))
      else if 1 <= l <= 2 && l < |inner| && inner[l] == ')' && FollowedOk(ParenLetter, line[l + 2..]) then
        Some(Token(ParenLetter, l + 2))
      else
        None
    else
      var l := LetterRun(line);
      if 1 <= l <= 2 && l < |line| && line[l] == '.' && FollowedOk(Lettered, line[l + 1..]) then
        Some(Token(Lettered, l + 1))
      else
        None
  }

  /**
   * `extract_numbering`: the numbering token at the start of `line` and the
   * text after it with the separating whitespace removed, or `("", line)`
   * when the line does not start with a token.
   */
  function ExtractNumbering(line: string): (r: (string, string))
  {
    match Scan(line)
    case None => ("", line)
    case Some(t) => (line[..t.length], TrimLeft(line[t.length..]))
  }

  // ---------------------------------------------------------------------
  // The scanner agrees with the reference grammar.
  // ---------------------------------------------------------------------

  /** A maximal run of groups `digits "."` is a decimal token. */
  lemma {:induction false} DecimalRunSound(s: string)
    requires DecimalRun(s) > 0
    ensures IsDecimalToken(s[..DecimalRun(s)])
    decreases |s|
  {
    var d := DigitRun(s);
    DigitRunSpec(s);
    var rest := s[d + 1..];
    var m := DecimalRun(rest);
    assert DecimalRun(s) == d + 1 + m;
    var tok := s[..d + 1 + m];
    assert tok == s[..d] + ['.'] + rest[..m];
    if m > 0 {
      DecimalRunSound(rest);
    }
    DecimalGroup(s[..d], rest[..m]);
    assert s[..DecimalRun(s)] == tok;
  }

  /** Digits, a period, then nothing or a decimal token, make a decimal token. */
  lemma DecimalGroup(p: string, u: string)
    requires |p| >= 1 && forall i :: 0 <= i < |p| ==> IsDigit(p[i])
    requires u == [] || IsDecimalToken(u)
    ensures IsDecimalToken(p + ['.'] + u)
  {
    var t := p + ['.'] + u;
    var d := |p|;
    forall i | 0 <= i < |t| ensures IsDigit(t[i]) || t[i] == '.' {
      if i > d { assert t[i] == u[i - d - 1]; }
    }
    forall i, j | 0 <= i < |t| && j == i + 1 && j < |t| && t[j] == '.' ensures IsDigit(t[i]) {
      if i > d { assert t[i] == u[i - d - 1] && t[j] == u[j - d - 1]; }
    }
  }

  /** A decimal token followed by a non-digit is exactly the decimal run. */
  lemma {:induction false} DecimalRunComplete(t: string, after: string)
    requires IsDecimalToken(t)
    requires after == [] || !IsDigit(after[0])
    ensures DecimalRun(t + after) == |t|
    decreases |t|
  {
    var s := t + after;
    var d := DigitRun(s);
    DigitRunSpec(s);
    // The first group ends at the first period of t.
    assert d < |t| by {
      assert !IsDigit(s[|t| - 1]);
    }
    assert s[d] == t[d] == '.';
    var t' := t[d + 1..];
    assert s[d + 1..] == t' + after;
    if t' == [] {
      assert s[d + 1..] == after;
    } else {
      assert IsDigit(t'[0]) by {
        assert t[d + 1] == t'[0];
        assert !IsDigit(t[d]);
      }
      assert t'[|t'| - 1] == t[|t| - 1];
      forall i | 0 <= i < |t'| ensures IsDigit(t'[i]) || t'[i] == '.' {
        assert t'[i] == t[d + 1 + i];
      }
      forall i, j | 0 <= i < |t'| && j == i + 1 && j < |t'| && t'[j] == '.' ensures IsDigit(t'[i]) {
        assert t'[i] == t[d + 1 + i] && t'[j] == t[d + 1 + j];
      }
      DecimalRunComplete(t', after);
    }
  }

  /** What Scan recognises is a properly followed token of the reference grammar. */
  lemma ScanSound(line: string)
    requires Scan(line).Some?
    ensures StartsWithToken(line, Scan(line).value.kind, Scan(line).value.length)
  {
    var dec := DecimalRun(line);
    if dec > 0 {
      DecimalRunSound(line);
    } else if |line| > 0 && line[0] == '(' {
      var inner := line[1..];
      var d := DigitRun(inner);
      if 0 < d < |inner| && inner[d] == ')' && FollowedOk(ParenNumber, line[d + 2..]) {
        ParenNumberSound(line, d);
      } else {
        ParenLetterSound(line, LetterRun(inner));
      }
    } else {
      LetterRunSpec(line);
    }
  }

  /** A parenthesis, the digit run and a closing parenthesis make a parenthesised number. */
  lemma ParenNumberSound(line: string, d: nat)
    requires 0 < |line| && line[0] == '(' && d == DigitRun(line[1..])
    requires 0 < d < |line| - 1 && line[d + 1] == ')'
    ensures IsParenNumberToken(line[..d + 2])
  {
    var inner := line[1..];
    DigitRunSpec(inner);
    var tok := line[..d + 2];
    assert forall i :: 0 <= i < d ==> tok[i + 1] == inner[i];
  }

  /** A parenthesis, one or two letters of the letter run and a closing parenthesis make a parenthesised letter. */
  lemma ParenLetterSound(line: string, l: nat)
    requires 0 < |line| && line[0] == '(' && l == LetterRun(line[1..])
    requires 1 <= l <= 2 && l < |line| - 1 && line[l + 1] == ')'
    ensures IsParenLetterToken(line[..l + 2])
  {
    var inner := line[1..];
    LetterRunSpec(inner);
    var tok := line[..l + 2];
    assert forall i :: 0 <= i < l ==> tok[i + 1] == inner[i];
  }

  /** A properly followed token of the reference grammar is what Scan recognises. */
  lemma ScanComplete(k: Kind, t: string, after: string)
    requires IsToken(k, t) && FollowedOk(k, after)
    ensures Scan(t + after) == Some(Token(k, |t|))
  {
    var line := t + after;
    assert line[..|t|] == t && line[|t|..] == after;
    match k
    case Decimal =>
      DecimalRunComplete(t, after);
    case ParenNumber =>
      var inner := line[1..];
      assert DigitRun(inner) == |t| - 2 by {
        DigitRunSpec(inner);
        assert forall i :: 0 <= i < |t| - 2 ==> inner[i] == t[i + 1];
        assert inner[|t| - 2] == ')';
      }
      assert DecimalRun(line) == 0;
    case ParenLetter =>
      var inner := line[1..];
      assert LetterRun(inner) == |t| - 2 by {
        LetterRunSpec(inner);
        assert forall i :: 0 <= i < |t| - 2 ==> inner[i] == t[i + 1];
        assert inner[|t| - 2] == ')';
      }
      assert DigitRun(inner) == 0;
      assert DecimalRun(line) == 0;
    case Lettered =>
      assert LetterRun(line) == |t| - 1 by {
        LetterRunSpec(line);
        assert forall i :: 0 <= i < |t| - 1 ==> line[i] == t[i];
        assert line[|t| - 1] == '.';
      }
      assert DigitRun(line) == 0;
      assert DecimalRun(line) == 0;
  }

  /** At most one kind and length of token starts a line. */
  lemma TokenUnique(line: string, k1: Kind, n1: nat, k2: Kind, n2: nat)
    requires StartsWithToken(line, k1, n1) && StartsWithToken(line, k2, n2)
    ensures k1 == k2 && n1 == n2
  {
    assert line == line[..n1] + line[n1..] == line[..n2] + line[n2..];
    ScanComplete(k1, line[..n1], line[n1..]);
    ScanComplete(k2, line[..n2], line[n2..]);
  }

  // ---------------------------------------------------------------------
  // What extract_numbering promises.
  // ---------------------------------------------------------------------

  /**
   * A line that starts with a properly followed token yields that token and
   * the text after it without its leading whitespace.
   */
  lemma ExtractNumberingComplete(k: Kind, t: string, after: string)
    requires IsToken(k, t) && FollowedOk(k, after)
    ensures ExtractNumbering(t + after) == (t, TrimLeft(after))
  {
    ScanComplete(k, t, after);
    assert (t + after)[..|t|] == t && (t + after)[|t|..] == after;
  }

  /**
   * A non-empty numbering is a properly followed token at the start of the
   * line; the line is the numbering, some whitespace, then the text, and the
   * text starts with no whitespace.
   */
  lemma ExtractNumberingSound(line: string)
    requires ExtractNumbering(line).0 != ""
    ensures exists k :: StartsWithToken(line, k, |ExtractNumbering(line).0|)
    ensures var num := ExtractNumbering(line).0;
      var rest := ExtractNumbering(line).1;
      |num| + |rest| <= |line| && AllSpace(line[|num|..|line| - |rest|]) &&
      line == num + line[|num|..|line| - |rest|] + rest && (rest == [] || !IsSpace(rest[0]))
  {
    var tok := Scan(line).value;
    ScanSound(line);
    var n := tok.length;
    assert ExtractNumbering(line) == (line[..n], TrimLeft(line[n..]));
    assert StartsWithToken(line, tok.kind, |line[..n]|);
    Reassemble(line, n);
  }

  lemma Reassemble(line: string, n: nat)
    requires n <= |line|
    ensures var rest := TrimLeft(line[n..]);
      n + |rest| <= |line| && AllSpace(line[n..|line| - |rest|]) &&
      line == line[..n] + line[n..|line| - |rest|] + rest && (rest == [] || !IsSpace(rest[0]))
  {
    var after := line[n..];
    var rest := TrimLeft(after);
    TrimLeftSpec(after);
    assert line[n..|line| - |rest|] == after[..|after| - |rest|];
    assert line == line[..n] + line[n..|line| - |rest|] + rest;
  }

  /** The numbering is empty exactly when no token starts the line, and then the text is the whole line. */
  lemma ExtractNumberingAbsent(line: string)
    ensures ExtractNumbering(line).0 == "" <==>
      forall k: Kind, n: nat :: !StartsWithToken(line, k, n)
    ensures ExtractNumbering(line).0 == "" ==> ExtractNumbering(line).1 == line
  {
    if Scan(line).Some? {
      ScanSound(line);
    } else {
      forall k: Kind, n: nat | StartsWithToken(line, k, n) ensures false {
        assert line[..n] + line[n..] == line;
        ScanComplete(k, line[..n], line[n..]);
      }
    }
  }

  /** Every token ends with a period or a closing parenthesis, never whitespace. */
  lemma TokenEndsSolid(k: Kind, t: string)
    requires IsToken(k, t)
    ensures t != [] && (t[|t| - 1] == '.' || t[|t| - 1] == ')') && !IsSpace(t[|t| - 1])
  {
  }

  /** Every token starts with a digit, a letter or an opening parenthesis, never whitespace. */
  lemma TokenStartsSolid(k: Kind, t: string)
    requires IsToken(k, t)
    ensures t != [] && (IsDigit(t[0]) || IsLetter(t[0]) || t[0] == '(') && !IsSpace(t[0])
  {
  }
}
