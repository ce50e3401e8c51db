/**
 * The example tables of the parser's unit tests, each entry proved about the
 * model: the classifier, the fingerprint, the matcher, the midline splitter
 * and the segmentation of the two sample sections.
 */
module ParserTests {
  import opened Wrappers
  import opened Text
  import opened Numbering
  import opened Metadata
  import opened Midline
  import opened Segmentation

  const Rest := "Here is some text"
  const Body := " " + Rest

  lemma BodyTrimmed()
    ensures TrimLeft(Body) == Rest
  {
    TrimLeftSpaces(" ", Rest);
  }

  /** A token followed by the sample text is split off, with the space after it. */
  lemma TokenThenBody(k: Kind, t: string)
    requires IsToken(k, t)
    ensures ExtractNumbering(t + Body) == (t, Rest)
  {
    BodyTrimmed();
    ExtractNumberingComplete(k, t, Body);
  }

  // Lines that start with a numbering token lose it and the space after it.

  lemma ExtractDepth1()
    ensures ExtractNumbering("1." + Body) == ("1.", Rest)
  {
    TokenThenBody(Decimal, "1.");
  }

  lemma ExtractTwoDigits()
    ensures ExtractNumbering("11." + Body) == ("11.", Rest)
  {
    TokenThenBody(Decimal, "11.");
  }

  lemma ExtractDepth2()
    ensures ExtractNumbering("1.1." + Body) == ("1.1.", Rest)
  {
    TokenThenBody(Decimal, "1.1.");
  }

  lemma ExtractDepth2TwoDigits()
    ensures ExtractNumbering("1.11." + Body) == ("1.11.", Rest)
  {
    TokenThenBody(Decimal, "1.11.");
  }

  lemma ExtractDepth3()
    ensures ExtractNumbering("1.1.1." + Body) == ("1.1.1.", Rest)
  {
    TokenThenBody(Decimal, "1.1.1.");
  }

  lemma ExtractDepth4()
    ensures ExtractNumbering("1.1.1.1." + Body) == ("1.1.1.1.", Rest)
  {
    TokenThenBody(Decimal, "1.1.1.1.");
  }

  lemma ExtractParenNumber()
    ensures ExtractNumbering("(1)" + Body) == ("(1)", Rest)
  {
    TokenThenBody(ParenNumber, "(1)");
  }

  lemma ExtractParenTwoDigits()
    ensures ExtractNumbering("(11)" + Body) == ("(11)", Rest)
  {
    TokenThenBody(ParenNumber, "(11)");
  }

  lemma ExtractLetter()
    ensures ExtractNumbering("a." + Body) == ("a.", Rest)
  {
    TokenThenBody(Lettered, "a.");
  }

  lemma ExtractTwoLetters()
    ensures ExtractNumbering("zz." + Body) == ("zz.", Rest)
  {
    TokenThenBody(Lettered, "zz.");
  }

  // Lines that do not start with a token come back whole, with an empty numbering.

  lemma NoTokenSentence()
    ensures ExtractNumbering("end. of a sentence and beginning of next") == ("", "end. of a sentence and beginning of next")
  {
    RejectLetterWord("end. of a sentence and beginning of next");
  }

  lemma NoTokenPlainText()
    ensures ExtractNumbering(Rest) == ("", Rest)
  {
    RejectLetterWord(Rest);
  }

  lemma NoTokenBareNumber()
    ensures ExtractNumbering("321561" + Body) == ("", "321561" + Body)
  {
    RejectDigitsWithoutPeriod("321561" + Body);
  }

  lemma NoTokenParenthetical()
    ensures ExtractNumbering("(if applicable)" + Body) == ("", "(if applicable)" + Body)
  {
    RejectParenWord("(if applicable)" + Body, 2);
  }

  lemma NoTokenParenLetterPeriod()
    ensures ExtractNumbering("(a)." + Body) == ("", "(a)." + Body)
  {
    RejectParenLetterThenPeriod("(a)." + Body, 1);
  }

  lemma NoTokenParenLettersPeriod()
    ensures ExtractNumbering("(zz)." + Body) == ("", "(zz)." + Body)
  {
    RejectParenLetterThenPeriod("(zz)." + Body, 2);
  }

  /** A word of three or more letters is not a lettered token. */
  lemma RejectLetterWord(line: string)
    requires |line| >= 3 && IsLetter(line[0]) && IsLetter(line[1]) && IsLetter(line[2])
    ensures Scan(line) == None
  {
    assert DigitRun(line) == 0;
    LetterRunSpec(line);
    assert LetterRun(line) >= 3;
  }

  /** Digits with no period anywhere after them are not a decimal token. */
  lemma RejectDigitsWithoutPeriod(line: string)
    requires |line| > 0 && IsDigit(line[0]) && '.' !in line
    ensures Scan(line) == None
  {
    var d := DigitRun(line);
    assert d < |line| ==> line[d] != '.';
    assert DecimalRun(line) == 0;
    assert LetterRun(line) == 0;
  }

  /** A parenthesised letter token followed by a period is rejected. */
  lemma RejectParenLetterThenPeriod(line: string, l: nat)
    requires 1 <= l <= 2 && l + 2 < |line| && line[0] == '('
    requires forall i :: 1 <= i <= l ==> IsLetter(line[i])
    requires line[l + 1] == ')' && line[l + 2] == '.'
    ensures Scan(line) == None
  {
    var inner := line[1..];
    assert DigitRun(line) == 0;
    assert DigitRun(inner) == 0 by { assert IsLetter(inner[0]); }
    LetterRunSpec(inner);
    assert LetterRun(inner) == l;
    assert line[l + 2..][0] == '.';
  }

  /** An opening parenthesis, letters, and then neither a letter nor `)`, is not a token. */
  lemma RejectParenWord(line: string, l: nat)
    requires 1 <= l && l + 1 < |line| && line[0] == '('
    requires forall i :: 1 <= i <= l ==> IsLetter(line[i])
    requires !IsLetter(line[l + 1]) && line[l + 1] != ')'
    ensures Scan(line) == None
  {
    var inner := line[1..];
    assert DigitRun(line) == 0;
    assert DigitRun(inner) == 0 by { assert IsLetter(inner[0]); }
    LetterRunSpec(inner);
    assert LetterRun(inner) == l;
  }

  // ---------------------------------------------------------------------
  // The fingerprints of sample numberings.
  // ---------------------------------------------------------------------

  lemma MetadataOfEmpty()
    ensures ConstructMetadata("") == NumberingMetadata(0, 0, 0, 0)
  {
  }

  lemma MetadataOfDepth1()
    ensures ConstructMetadata("1.") == NumberingMetadata(1, 0, 1, 0)
  {
    MetadataOfToken(Decimal, "1.");
  }

  lemma MetadataOfDepth3()
    ensures ConstructMetadata("1.1.1.") == NumberingMetadata(3, 0, 3, 0)
  {
    LiteralSplit();
    MetadataOfDepth1();
    MetadataConcat("1.", "1.");
    MetadataConcat("1." + "1.", "1.");
  }

  lemma MetadataOfParenNumber()
    ensures ConstructMetadata("(1)") == NumberingMetadata(0, 1, 1, 0)
  {
    MetadataOfToken(ParenNumber, "(1)");
  }

  lemma MetadataOfLetter()
    ensures ConstructMetadata("a.") == NumberingMetadata(1, 0, 0, 1)
  {
    MetadataOfToken(Lettered, "a.");
  }

  lemma MetadataOfTwoLetters()
    ensures ConstructMetadata("aa.") == NumberingMetadata(1, 0, 0, 2)
  {
    MetadataOfToken(Lettered, "aa.");
  }

  lemma MetadataOfParenLetter()
    ensures ConstructMetadata("(a)") == NumberingMetadata(0, 1, 0, 1)
  {
    MetadataOfToken(ParenLetter, "(a)");
  }

  // ---------------------------------------------------------------------
  // The matcher on sample fingerprints and numberings.
  // ---------------------------------------------------------------------

  lemma MatchedDepth1()
    ensures MetadataMatched(NumberingMetadata(1, 0, 1, 0), "5.")
  {
    MetadataOfToken(Decimal, "5.");
  }

  lemma MatchedDepth4()
    ensures MetadataMatched(NumberingMetadata(4, 0, 4, 0), "5.1.2.4.")
  {
    LiteralSplit();
    OneGroup("5.");
    OneGroup("1.");
    OneGroup("2.");
    OneGroup("4.");
    FourGroups("5.", "1.", "2.", "4.");
  }

  /** A one-digit decimal token: one period and one digit. */
  lemma OneGroup(t: string)
    requires IsDecimalToken(t) && |t| == 2
    ensures ConstructMetadata(t) == NumberingMetadata(1, 0, 1, 0)
  {
    MetadataOfToken(Decimal, t);
  }

  /** Four one-digit groups: four periods and four digits. */
  lemma FourGroups(a: string, b: string, c: string, d: string)
    requires ConstructMetadata(a) == ConstructMetadata(b) == NumberingMetadata(1, 0, 1, 0)
    requires ConstructMetadata(c) == ConstructMetadata(d) == NumberingMetadata(1, 0, 1, 0)
    ensures ConstructMetadata(a + b + c + d) == NumberingMetadata(4, 0, 4, 0)
  {
    MetadataConcat(a, b);
    MetadataConcat(a + b, c);
    MetadataConcat(a + b + c, d);
  }

  lemma MatchedParenNumber()
    ensures MetadataMatched(NumberingMetadata(0, 1, 1, 0), "(5)")
  {
    MetadataOfToken(ParenNumber, "(5)");
  }

  lemma NotMatchedDeeper()
    ensures !MetadataMatched(NumberingMetadata(1, 0, 1, 0), "5.5.")
  {
    LiteralSplit();
    MetadataOfToken(Decimal, "5.");
    MetadataConcat("5.", "5.");
  }

  lemma NotMatchedOtherKind()
    ensures !MetadataMatched(NumberingMetadata(0, 1, 1, 0), "5.")
    ensures !MetadataMatched(NumberingMetadata(0, 1, 1, 0), "(a)")
    ensures !MetadataMatched(NumberingMetadata(0, 1, 0, 1), "(4)")
  {
    MetadataOfToken(Decimal, "5.");
    MetadataOfToken(ParenLetter, "(a)");
    MetadataOfToken(ParenNumber, "(4)");
  }

  lemma MatchedParenLetter()
    ensures MetadataMatched(NumberingMetadata(0, 1, 0, 1), "(a)")
  {
    MetadataOfToken(ParenLetter, "(a)");
  }

  lemma LiteralSplit()
    ensures "1.1.1." == "1." + "1." + "1."
    ensures "5.1.2.4." == "5." + "1." + "2." + "4."
    ensures "5.5." == "5." + "5."
  {
  }

  // ---------------------------------------------------------------------
  // The midline splitter on sample lines.
  // ---------------------------------------------------------------------

  const WorkWith := "Work with the Director, DIA"
  const InAccordance := " in accordance with Reference (b)"
  const ToPerform := " to perform responsibility X"
  const Shall := "The Director, DIA shall"
  const Director := "1. The Director, DIA"
  const PerformXY := "perform responsibility X and Y"
  const PerformX := " perform responsibility X"
  const WorkWithX := " Work with X to perform responsibility Y"

  lemma ColonFreeWorkWith() ensures ':' !in WorkWith {}
  lemma ColonFreeInAccordance() ensures ':' !in InAccordance {}
  lemma ColonFreeToPerform() ensures ':' !in ToPerform {}
  lemma ColonFreeShall() ensures ':' !in Shall {}
  lemma ColonFreeDirector() ensures ':' !in Director {}

  /** Colon-free pieces make a colon-free line, which is not split. */
  lemma NoColonPieces(a: string, b: string)
    requires ':' !in a && ':' !in b
    ensures SplitMidline(a + b) == (a + b, "")
  {
    NoColonNoSplit(a + b);
  }

  /** A clause, its colon, whitespace and a numbering token with its text: split after the colon. */
  lemma SplitAfterClause(body: string, gap: string, k: Kind, token: string, rest: string)
    requires body != [] && ':' !in body && !IsSpace(body[0]) && AllSpace(gap)
    requires IsToken(k, token) && FollowedOk(k, rest) && rest != [] && !IsSpace(rest[|rest| - 1])
    ensures SplitMidline(body + ":" + gap + (token + rest)) == (body + ":", token + rest)
  {
    var head := body + ":";
    assert head[..|head| - 1] == body;
    ExtractNumberingComplete(k, token, rest);
    assert (token + rest)[|token + rest| - 1] == rest[|rest| - 1];
    SplitComplete(head, gap, token + rest);
  }

  /** A clause, its colon, whitespace and text without a numbering token: not split. */
  lemma NoSplitAfterClause(body: string, gap: string, rest: string)
    requires ':' !in body && AllSpace(gap) && rest != [] && !IsSpace(rest[0]) && Scan(rest) == None
    ensures SplitMidline(body + ":" + gap + rest) == (body + ":" + gap + rest, "")
  {
    var head := body + ":";
    assert head[..|head| - 1] == body;
    NoSplitWithoutToken(head, gap, rest);
  }

  lemma NoSplitShortLine()
    ensures SplitMidline(WorkWith + ToPerform) == (WorkWith + ToPerform, "")
  {
    ColonFreeWorkWith();
    ColonFreeToPerform();
    NoColonPieces(WorkWith, ToPerform);
  }

  lemma NoSplitLongLine()
    ensures SplitMidline(WorkWith + InAccordance + ToPerform) == (WorkWith + InAccordance + ToPerform, "")
  {
    ColonFreeWorkWith();
    ColonFreeInAccordance();
    ColonFreeToPerform();
    NoColonPieces(WorkWith + InAccordance, ToPerform);
  }

  lemma NoSplitWithoutNumbering()
    ensures SplitMidline(Shall + ":" + " " + PerformXY) == (Shall + ":" + " " + PerformXY, "")
  {
    ColonFreeShall();
    NoTokenPerformXY();
    NoSplitAfterClause(Shall, " ", PerformXY);
  }

  lemma NoTokenPerformXY()
    ensures Scan(PerformXY) == None
  {
    RejectLetterWord(PerformXY);
  }

  lemma SplitBeforeParenLetter()
    ensures SplitMidline(Shall + ":" + " " + ("(a)" + PerformX)) == (Shall + ":", "(a)" + PerformX)
  {
    ColonFreeShall();
    SplitAfterClause(Shall, " ", ParenLetter, "(a)", PerformX);
  }

  lemma SplitBeforeDecimal()
    ensures SplitMidline(Director + ":" + "" + ("1.1." + WorkWithX)) == (Director + ":", "1.1." + WorkWithX)
  {
    ColonFreeDirector();
    SplitAfterClause(Director, "", Decimal, "1.1.", WorkWithX);
  }

  // ---------------------------------------------------------------------
  // The two sample sections of `format_responsibility_results`.
  // ---------------------------------------------------------------------

  const FileName := "test_file.pdf"
  const Title := "test title"

  // TEST 1: the role and all of its responsibilities in one block of text.
  const Single1 := "The Director, DIA, in accordance"
  const Single2 := " with the USD(P), shall do"
  const Single3 := " responsibility X. They are also"
  const Single4 := " responsible for performing"
  const Single5 := " responsibility Y and Z."

  // TEST 2: the role on a line of its own, then two responsibilities under it.
  const Perform1 := "Perform X responsibility"
  const Perform2a := "Perform Y responsibility"
  const Perform2b := " with the Director, DLA."

  lemma ColonFreeSingle1() ensures ':' !in Single1 {}
  lemma ColonFreeSingle2() ensures ':' !in Single2 {}
  lemma ColonFreeSingle3() ensures ':' !in Single3 {}
  lemma ColonFreeSingle4() ensures ':' !in Single4 {}
  lemma ColonFreeSingle5() ensures ':' !in Single5 {}
  lemma ColonFreePerform1() ensures ':' !in Perform1 {}
  lemma ColonFreePerform2a() ensures ':' !in Perform2a {}
  lemma ColonFreePerform2b() ensures ':' !in Perform2b {}

  /** No token contains a colon. */
  lemma TokenColonFree(k: Kind, t: string)
    requires IsToken(k, t)
    ensures ':' !in t
  {
    forall i | 0 <= i < |t| ensures t[i] != ':' {
      match k
      case Decimal => assert IsDigit(t[i]) || t[i] == '.';
      case ParenNumber => assert i == 0 || i == |t| - 1 || IsDigit(t[i]);
      case Lettered => assert i == |t| - 1 || IsLetter(t[i]);
      case ParenLetter => assert i == 0 || i == |t| - 1 || IsLetter(t[i]);
    }
  }

  /**
   * A line made of a token, one space and a text with no whitespace at its
   * end, that the splitter leaves whole, is a numbered line with that token
   * and that text.
   */
  lemma NumberedPieces(k: Kind, token: string, text: string)
    requires IsToken(k, token) && text != [] && !IsSpace(text[0]) && !IsSpace(text[|text| - 1])
    requires SplitMidline(token + " " + text).1 == ""
    ensures NumberedLine(token + " " + text)
    ensures NumberingOf(token + " " + text) == token && TextOf(token + " " + text) == text
  {
    var line := token + " " + text;
    TokenStartsSolid(k, token);
    assert line[0] == token[0] && line[|line| - 1] == text[|text| - 1];
    TrimSolid(line);
    assert line == token + (" " + text);
    ExtractNumberingComplete(k, token, " " + text);
    TrimLeftSpaces(" ", text);
  }

  /** A token, a space and a colon-free text: the splitter leaves the line whole. */
  lemma UnsplitWithoutColon(k: Kind, token: string, text: string)
    requires IsToken(k, token) && ':' !in text
    ensures SplitMidline(token + " " + text) == (token + " " + text, "")
  {
    TokenColonFree(k, token);
    NoColonNoSplit(token + " " + text);
  }

  /** A token, a space and a colon-free clause ending in a colon: nothing follows the colon, no split. */
  lemma UnsplitColonAtEnd(k: Kind, token: string, clause: string)
    requires IsToken(k, token) && ':' !in clause
    ensures SplitMidline(token + " " + (clause + ":")) == (token + " " + (clause + ":"), "")
  {
    TokenColonFree(k, token);
    var head := token + " " + clause + ":";
    assert head == token + " " + (clause + ":");
    assert head[..|head| - 1] == token + " " + clause;
    assert head + "" + "" == head;
    assert ExtractNumbering("") == ("", "");
    NoSplitWithoutToken(head, "", "");
  }

  lemma SingleText()
    ensures var text := Single1 + Single2 + Single3 + Single4 + Single5;
      ':' !in text && text != [] && !IsSpace(text[0]) && !IsSpace(text[|text| - 1])
  {
    ColonFreeSingle1();
    ColonFreeSingle2();
    ColonFreeSingle3();
    ColonFreeSingle4();
    ColonFreeSingle5();
  }

  /** TEST 1: one record for the role, with empty responsibility fields. */
  lemma FormatSingleResponsibilityLine()
    ensures var text := Single1 + Single2 + Single3 + Single4 + Single5;
      FormatResults(["2.4." + " " + text], FileName, Title) ==
        [ResponsibilityRecord(FileName, Title, "2.4.", text, "", "", "active")]
  {
    var text := Single1 + Single2 + Single3 + Single4 + Single5;
    SingleText();
    NumberedWithoutColon(Decimal, "2.4.", text);
    SingleRoleLine("2.4." + " " + text, FileName, Title);
  }

  lemma PeriodsOfSamples()
    ensures Deeper("1.1.", "1.") && Deeper("1.2.", "1.")
  {
    assert Count("1.", IsPeriod) == 1;
    assert Count("1.1.", IsPeriod) == 2;
    assert Count("1.2.", IsPeriod) == 2;
  }

  const RoleLine := "1." + " " + (Shall + ":")
  const FirstLine := "1.1." + " " + Perform1
  const SecondLine := "1.2." + " " + (Perform2a + Perform2b)

  /** A token, a space and a colon-free text: a numbered line with that token and text. */
  lemma NumberedWithoutColon(k: Kind, token: string, text: string)
    requires IsToken(k, token) && ':' !in text
    requires text != [] && !IsSpace(text[0]) && !IsSpace(text[|text| - 1])
    ensures NumberedLine(token + " " + text)
    ensures NumberingOf(token + " " + text) == token && TextOf(token + " " + text) == text
  {
    UnsplitWithoutColon(k, token, text);
    NumberedPieces(k, token, text);
  }

  /** A token, a space and a colon-free clause closed by a colon: a numbered line with that clause. */
  lemma NumberedColonAtEnd(k: Kind, token: string, clause: string)
    requires IsToken(k, token) && ':' !in clause && clause != [] && !IsSpace(clause[0])
    ensures NumberedLine(token + " " + (clause + ":"))
    ensures NumberingOf(token + " " + (clause + ":")) == token && TextOf(token + " " + (clause + ":")) == clause + ":"
  {
    UnsplitColonAtEnd(k, token, clause);
    var text := clause + ":";
    assert text[0] == clause[0] && text[|text| - 1] == ':';
    NumberedPieces(k, token, text);
  }

  lemma RoleLineNumbered()
    ensures NumberedLine(RoleLine) && NumberingOf(RoleLine) == "1." && TextOf(RoleLine) == Shall + ":"
  {
    ColonFreeShall();
    NumberedColonAtEnd(Decimal, "1.", Shall);
  }

  lemma FirstLineNumbered()
    ensures NumberedLine(FirstLine) && NumberingOf(FirstLine) == "1.1." && TextOf(FirstLine) == Perform1
  {
    ColonFreePerform1();
    NumberedWithoutColon(Decimal, "1.1.", Perform1);
  }

  lemma SecondLineNumbered()
    ensures NumberedLine(SecondLine) && NumberingOf(SecondLine) == "1.2." && TextOf(SecondLine) == Perform2a + Perform2b
  {
    ColonFreePerform2a();
    ColonFreePerform2b();
    NumberedWithoutColon(Decimal, "1.2.", Perform2a + Perform2b);
  }

  /** A role line and two lines numbered deeper than it: two records, in order. */
  lemma TwoChildren(role: string, first: string, second: string, file: string, title: string)
    requires NumberedLine(role) && NumberedLine(first) && NumberedLine(second)
    requires Deeper(NumberingOf(first), NumberingOf(role)) && Deeper(NumberingOf(second), NumberingOf(role))
    ensures FormatResults([role, first, second], file, title) ==
      [Row(file, title, NumberingOf(role), TextOf(role), NumberingOf(first), TextOf(first)),
       Row(file, title, NumberingOf(role), TextOf(role), NumberingOf(second), TextOf(second))]
  {
    var children := [first, second];
    assert [role] + children == [role, first, second];
    forall k | 0 <= k < |children|
      ensures NumberedLine(children[k]) && Deeper(NumberingOf(children[k]), NumberingOf(role))
    {
      if k == 0 { assert children[k] == first; } else { assert children[k] == second; }
    }
    RoleWithChildren(role, children, file, title);
    var records := FormatResults([role] + children, file, title);
    var r1 := Row(file, title, NumberingOf(role), TextOf(role), NumberingOf(first), TextOf(first));
    var r2 := Row(file, title, NumberingOf(role), TextOf(role), NumberingOf(second), TextOf(second));
    assert records[0] == r1 && records[1] == r2 && |records| == 2;
    Pair(records, r1, r2);
  }

  /** TEST 2: one record per responsibility, each paired with the role above it. */
  lemma FormatMultipleResponsibilityLines()
    ensures FormatResults([RoleLine, FirstLine, SecondLine], FileName, Title) ==
      [ResponsibilityRecord(FileName, Title, "1.", Shall + ":", "1.1.", Perform1, "active"),
       ResponsibilityRecord(FileName, Title, "1.", Shall + ":", "1.2.", Perform2a + Perform2b, "active")]
  {
    RoleLineNumbered();
    FirstLineNumbered();
    SecondLineNumbered();
    PeriodsOfSamples();
    TwoChildren(RoleLine, FirstLine, SecondLine, FileName, Title);
  }
}
