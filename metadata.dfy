/**
 * The numbering fingerprint (`construct_numbering_metadata_dict`) and the
 * same-type-and-depth test built on it (`numbering_metadata_dict_matched`).
 */
module Metadata {
  import opened Text
  import opened Numbering

  /** The four counts of a numbering: the keys n_periods, n_parenthesis, n_numbers and n_letters. */
  datatype NumberingMetadata = NumberingMetadata(nPeriods: nat, nParenthesis: nat, nNumbers: nat, nLetters: nat)

  /**
   * Periods, parenthesis pairs (counted by their opening parenthesis),
   * digit characters and letter characters of `numbering`.
   */
  function ConstructMetadata(numbering: string): (m: NumberingMetadata)
  {
    NumberingMetadata(Count(numbering, IsPeriod), Count(numbering, IsOpenParen),
                      Count(numbering, IsDigit), Count(numbering, IsLetter))
  }

  /** True exactly when `numbering` has the fingerprint `metadata` in every field. */
  predicate MetadataMatched(metadata: NumberingMetadata, numbering: string) {
    ConstructMetadata(numbering) == metadata
  }

  /** The fingerprint of a concatenation is the sum of the fingerprints of the parts. */
  lemma MetadataConcat(a: string, b: string)
    ensures var (m, ma, mb) := (ConstructMetadata(a + b), ConstructMetadata(a), ConstructMetadata(b));
      && m.nPeriods == ma.nPeriods + mb.nPeriods
      && m.nParenthesis == ma.nParenthesis + mb.nParenthesis
      && m.nNumbers == ma.nNumbers + mb.nNumbers
      && m.nLetters == ma.nLetters + mb.nLetters
  {
    CountConcat(a, b, IsPeriod);
    CountConcat(a, b, IsOpenParen);
    CountConcat(a, b, IsDigit);
    CountConcat(a, b, IsLetter);
  }

  /** The four counted classes are disjoint, so the counts add up to at most the length. */
  lemma {:induction false} MetadataBounded(s: string)
    ensures var m := ConstructMetadata(s);
      m.nPeriods + m.nParenthesis + m.nNumbers + m.nLetters <= |s|
  {
    if s != [] {
      MetadataBounded(s[1..]);
    }
  }

  /** The fingerprint of each kind of token. */
  lemma MetadataOfToken(k: Kind, t: string)
    requires IsToken(k, t)
    ensures var m := ConstructMetadata(t);
      match k
      case Decimal =>
        m.nPeriods >= 1 && m.nParenthesis == 0 && m.nNumbers >= 1 && m.nLetters == 0 &&
        m.nPeriods + m.nNumbers == |t|
      case ParenNumber =>
        m == NumberingMetadata(0, 1, |t| - 2, 0)
      case Lettered =>
        m == NumberingMetadata(1, 0, 0, |t| - 1)
      case ParenLetter =>
        m == NumberingMetadata(0, 1, 0, |t| - 2)
  {
    match k
    case Decimal => MetadataOfDecimal(t);
    case ParenNumber => MetadataOfParenNumber(t);
    case Lettered => MetadataOfLettered(t);
    case ParenLetter => MetadataOfParenLetter(t);
  }

  lemma MetadataOfDecimal(t: string)
    requires IsDecimalToken(t)
    ensures var m := ConstructMetadata(t);
      m.nPeriods >= 1 && m.nParenthesis == 0 && m.nNumbers >= 1 && m.nLetters == 0 &&
      m.nPeriods + m.nNumbers == |t|
  {
    CountSome(t, IsPeriod, |t| - 1);
    CountSome(t, IsDigit, 0);
    CountNone(t, IsOpenParen);
    CountNone(t, IsLetter);
    CountPeriodsAndDigits(t);
  }

  lemma MetadataOfParenNumber(t: string)
    requires IsParenNumberToken(t)
    ensures ConstructMetadata(t) == NumberingMetadata(0, 1, |t| - 2, 0)
  {
    var body := t[1..|t| - 1];
    OuterCounts(t);
    CountAll(body, IsDigit);
    CountNone(body, IsPeriod);
    CountNone(body, IsOpenParen);
    CountNone(body, IsLetter);
  }

  lemma MetadataOfParenLetter(t: string)
    requires IsParenLetterToken(t)
    ensures ConstructMetadata(t) == NumberingMetadata(0, 1, 0, |t| - 2)
  {
    var body := t[1..|t| - 1];
    OuterCounts(t);
    CountAll(body, IsLetter);
    CountNone(body, IsPeriod);
    CountNone(body, IsOpenParen);
    CountNone(body, IsDigit);
  }

  lemma MetadataOfLettered(t: string)
    requires IsLetteredToken(t)
    ensures ConstructMetadata(t) == NumberingMetadata(1, 0, 0, |t| - 1)
  {
    var body := t[..|t| - 1];
    assert t == body + ".";
    MetadataConcat(body, ".");
    CountAll(body, IsLetter);
    CountNone(body, IsPeriod);
    CountNone(body, IsOpenParen);
    CountNone(body, IsDigit);
  }

  /** A string of digits and periods only: every character is one or the other. */
  lemma {:induction false} CountPeriodsAndDigits(s: string)
    requires forall i :: 0 <= i < |s| ==> IsDigit(s[i]) || s[i] == '.'
    ensures Count(s, IsPeriod) + Count(s, IsDigit) == |s|
  {
    if s != [] {
      CountPeriodsAndDigits(s[1..]);
    }
  }

  /** Counts of `"(" body ")"` are the counts of body plus one opening parenthesis. */
  lemma OuterCounts(t: string)
    requires |t| >= 2 && t[0] == '(' && t[|t| - 1] == ')'
    ensures var body := t[1..|t| - 1];
      && Count(t, IsPeriod) == Count(body, IsPeriod)
      && Count(t, IsOpenParen) == Count(body, IsOpenParen) + 1
      && Count(t, IsDigit) == Count(body, IsDigit)
      && Count(t, IsLetter) == Count(body, IsLetter)
  {
    var body := t[1..|t| - 1];
    assert t == "(" + body + ")";
    forall p: char -> bool ensures Count(t, p) == Count("(", p) + Count(body, p) + Count(")", p) {
      CountConcat("(" + body, ")", p);
      CountConcat("(", body, p);
    }
  }

  /** Matching fingerprints never relate tokens of different kinds. */
  lemma MatchedTokensShareKind(k1: Kind, t1: string, k2: Kind, t2: string)
    requires IsToken(k1, t1) && IsToken(k2, t2)
    requires MetadataMatched(ConstructMetadata(t1), t2)
    ensures k1 == k2
  {
    MetadataOfToken(k1, t1);
    MetadataOfToken(k2, t2);
  }

  /**
   * Two tokens of the same non-decimal kind match exactly when they have the
   * same length, e.g. "(a)" matches "(b)" but not "(aa)".
   */
  lemma MatchedSameKind(k: Kind, t1: string, t2: string)
    requires k != Decimal && IsToken(k, t1) && IsToken(k, t2)
    ensures MetadataMatched(ConstructMetadata(t1), t2) <==> |t1| == |t2|
  {
    MetadataOfToken(k, t1);
    MetadataOfToken(k, t2);
  }

  /**
   * Two decimal tokens match exactly when they have the same number of
   * periods (the same depth) and the same number of digits.
   */
  lemma MatchedDecimal(t1: string, t2: string)
    requires IsDecimalToken(t1) && IsDecimalToken(t2)
    ensures MetadataMatched(ConstructMetadata(t1), t2) <==>
      Count(t1, IsPeriod) == Count(t2, IsPeriod) && Count(t1, IsDigit) == Count(t2, IsDigit)
  {
    MetadataOfToken(Decimal, t1);
    MetadataOfToken(Decimal, t2);
  }

  /** The match relation between numberings is reflexive, symmetric and transitive. */
  lemma MatchedIsEquivalence(a: string, b: string, c: string)
    ensures MetadataMatched(ConstructMetadata(a), a)
    ensures MetadataMatched(ConstructMetadata(a), b) <==> MetadataMatched(ConstructMetadata(b), a)
    ensures MetadataMatched(ConstructMetadata(a), b) && MetadataMatched(ConstructMetadata(b), c) ==>
      MetadataMatched(ConstructMetadata(a), c)
  {
  }
}
