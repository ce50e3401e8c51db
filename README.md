# Responsibility-section parser, modelled in Dafny

This project models the parser that turns the responsibilities section of a
policy document into (role, responsibility) records. It covers the parser's
five text operations:

- `extract_numbering` classifies the outline-numbering token at the start of
  a line and splits it off. The token kinds are `1.`, `1.1.`, …, `(1)`, `a.`,
  `zz.` and `(a)`.
- `construct_numbering_metadata_dict` computes a token's fingerprint. It
  counts periods, parentheses, digits and letters.
- `numbering_metadata_dict_matched` compares two fingerprints field by field.
- `split_text_with_role_midline` separates a role clause from the first
  responsibility when both share one line, joined by a colon.
- `format_responsibility_results` walks the lines of a section with one
  open role clause. It emits a record for every child responsibility, and
  one record with empty responsibility fields for a role that has no
  children.

The implementation module of `ResponsibilityParser` is not part of this
model. The behaviour modelled is the one its unit tests pin down
(`common/document_parser/lib/responsibility_parse/tests/unit/test_responsibility_parser.py`),
together with the segmentation rules stated below. Every entry of the tests'
input/output tables, except the entity table of `test_parse_entities`, is
proved as an example lemma in `ParserTests`.

Modules, in dependency order:

- `Wrappers`: `Option`.
- `Text`: character classes, trimming of the six characters of `\s` in ASCII
  mode, character counting.
- `Numbering`: a declarative grammar of the four token kinds, and the
  scanner behind `extract_numbering`. Lemmas prove that the scanner accepts
  exactly the grammar.
- `Metadata`: the fingerprint and the matcher.
- `Midline`: the midline splitter.
- `Segmentation`: the record type and the segmentation state machine.
  `Step`, `Feed` and `Run` specify it; the method
  `FormatResponsibilityResults` implements it with a loop over the lines.
- `ParserTests`: the test tables.

Choices the tests leave open, and how the model settles them:

- `n_numbers` counts digit characters, not digit groups, and `n_parenthesis`
  counts opening parentheses. The tests only use one-digit groups, so either
  reading passes them.
- Letters are ASCII `a`–`z` and `A`–`Z`. Whitespace is the ASCII set of `\s`:
  space, tab, newline, carriage return, vertical tab and form feed. Unicode
  whitespace such as U+00A0 is not trimmed, so `"1.\u00A0X"` has no numbering.
  Python's `str.strip()` also removes U+001C–U+001F. The model keeps one
  whitespace class for both trimming and token matching, so `"\x1c1. X"` has
  no numbering here.
- A token of kind `1.`, `(1)` or `a.` must be followed by whitespace **or by
  the end of the text**. Whitespace alone would be the stricter reading. End
  of text is also accepted because the splitter trims its tail, and a tail that
  is just a token must still classify. A `(a)` token must not be followed by
  a period.
- A `(n)` token takes any number of digits, so `"(123) X"` has numbering
  `"(123)"`. A `(a)` token takes one or two letters, and an `a.` token one or
  two letters. The tests show only `(1)` and `(11)`.
- Lines are trimmed before they are segmented, and empty pieces are skipped.
- A numbering is a child of the open role when it has strictly more periods
  than the role's numbering. Depth is an ordering on period counts, not the
  field-wise equality of the metadata matcher. Any other numbering opens a
  new role, and the previous role is flushed as one record with empty
  responsibility fields when it had no children.
- Unnumbered text continues the most recently opened clause, joined with one
  space. That is the last child when the role has children, and the role text
  otherwise. Unnumbered text with no open role, such as a heading line before
  the first role, is dropped and the segmenter stays in the no-role state. So
  every record has a non-empty role numbering.

## Model

| member | source | states |
|---|---|---|
| Numbering.ScanSound | common/document_parser/lib/responsibility_parse/tests/unit/test_responsibility_parser.py:34-43 | whatever the scanner recognises is a token of the reference grammar, properly followed |
| Numbering.ScanComplete | common/document_parser/lib/responsibility_parse/tests/unit/test_responsibility_parser.py:34-43 | every properly followed token of the grammar is recognised, with its kind and full length |
| Numbering.TokenUnique | common/document_parser/lib/responsibility_parse/tests/unit/test_responsibility_parser.py:30-45 | at most one kind and one length of token starts a line, so the classification is unambiguous |
| Numbering.DecimalRunSound | common/document_parser/lib/responsibility_parse/tests/unit/test_responsibility_parser.py:34-39 | the longest run of `digits "."` groups is a decimal token, at any depth |
| Numbering.DecimalRunComplete | common/document_parser/lib/responsibility_parse/tests/unit/test_responsibility_parser.py:34-39 | a decimal token followed by a non-digit is read whole, at any depth |
| Numbering.ExtractNumberingComplete | common/document_parser/lib/responsibility_parse/tests/unit/test_responsibility_parser.py:34-43 | a line that starts with a properly followed token yields that token and the rest of the line without its leading whitespace |
| Numbering.ExtractNumberingSound | common/document_parser/lib/responsibility_parse/tests/unit/test_responsibility_parser.py:34-43 | a non-empty numbering is a token that starts the line; the line is the numbering, whitespace and the text, and the text starts with no whitespace |
| Numbering.ExtractNumberingAbsent | common/document_parser/lib/responsibility_parse/tests/unit/test_responsibility_parser.py:30-33 | the numbering is empty exactly when no token starts the line, and the line then comes back unchanged |
| Metadata.MetadataConcat | common/document_parser/lib/responsibility_parse/tests/unit/test_responsibility_parser.py:139-212 | each of the four counts of a concatenation is the sum of the counts of its parts |
| Metadata.MetadataBounded | common/document_parser/lib/responsibility_parse/tests/unit/test_responsibility_parser.py:139-212 | the four counted classes are disjoint: the counts add up to at most the length |
| Metadata.MetadataOfToken | common/document_parser/lib/responsibility_parse/tests/unit/test_responsibility_parser.py:139-212 | the fingerprint of each kind: a decimal token has periods and digits only, `(n)` has one parenthesis and its digits, `a.` one period and its letters, `(a)` one parenthesis and its letters |
| Metadata.MatchedTokensShareKind | common/document_parser/lib/responsibility_parse/tests/unit/test_responsibility_parser.py:260-292 | tokens whose fingerprints match are of the same kind |
| Metadata.MatchedSameKind | common/document_parser/lib/responsibility_parse/tests/unit/test_responsibility_parser.py:238-303 | two non-decimal tokens of one kind match if and only if they have the same length |
| Metadata.MatchedDecimal | common/document_parser/lib/responsibility_parse/tests/unit/test_responsibility_parser.py:216-259 | two decimal tokens match if and only if they have the same number of periods (depth) and digits |
| Metadata.MatchedIsEquivalence | common/document_parser/lib/responsibility_parse/tests/unit/test_responsibility_parser.py:214-311 | the match relation is reflexive, symmetric and transitive |
| Midline.FirstColon | common/document_parser/lib/responsibility_parse/tests/unit/test_responsibility_parser.py:321-329 | finds a colon exactly when there is one, at a position with no colon before it |
| Midline.SplitIff | common/document_parser/lib/responsibility_parse/tests/unit/test_responsibility_parser.py:313-334 | a line is split if and only if a numbering token follows its first colon past whitespace; an unsplit line comes back whole with an empty tail |
| Midline.SplitSound | common/document_parser/lib/responsibility_parse/tests/unit/test_responsibility_parser.py:324-329 | a split head ends at its only colon, the tail starts with a numbering token, and whitespace, head, whitespace, tail and whitespace reassemble the line |
| Midline.SplitComplete | common/document_parser/lib/responsibility_parse/tests/unit/test_responsibility_parser.py:324-329 | a head ending at its only colon, then whitespace (possibly none), then a tail that starts with a token split into exactly that head and tail, when the head starts and the tail ends with a non-space |
| Midline.NoSplitWithoutToken | common/document_parser/lib/responsibility_parse/tests/unit/test_responsibility_parser.py:321-323 | a colon followed by text that is not a numbering token leaves the line whole |
| Midline.NoColonNoSplit | common/document_parser/lib/responsibility_parse/tests/unit/test_responsibility_parser.py:315-320 | a line with no colon is never split, whatever tokens appear in it |
| Segmentation.Step | common/document_parser/lib/responsibility_parse/tests/unit/test_responsibility_parser.py:126-137 | one piece of text keeps the segmenter invariant: records well formed, an open role not empty, and the latest child last |
| Segmentation.Feed | common/document_parser/lib/responsibility_parse/tests/unit/test_responsibility_parser.py:126-137 | one line, split at a midline colon and stepped piece by piece, keeps the invariant |
| Segmentation.Run | common/document_parser/lib/responsibility_parse/tests/unit/test_responsibility_parser.py:126-128 | the segmenter after all lines in order satisfies the invariant |
| Segmentation.FormatResponsibilityResults | common/document_parser/lib/responsibility_parse/tests/unit/test_responsibility_parser.py:126-128 | the loop over the lines, with the open clause and the output list, returns exactly the records of the section |
| Segmentation.FeedLine | common/document_parser/lib/responsibility_parse/tests/unit/test_responsibility_parser.py:126-128 | the inner loop over the pieces of one line leaves the state that feeding the line specifies |
| Segmentation.StepPiece | common/document_parser/lib/responsibility_parse/tests/unit/test_responsibility_parser.py:126-128 | one update of the open clause and the output list gives the state that one step specifies |
| Segmentation.FormatResultsWellFormed | common/document_parser/lib/responsibility_parse/tests/unit/test_responsibility_parser.py:77-121 | every record carries the given file name and title and status "active", has a non-empty role numbering, and has no responsibility text without a responsibility numbering |
| Segmentation.SingleRoleLine | common/document_parser/lib/responsibility_parse/tests/unit/test_responsibility_parser.py:70-91 | a single numbered line yields exactly one record: its numbering and text as the role, empty responsibility fields |
| Segmentation.RoleWithChildren | common/document_parser/lib/responsibility_parse/tests/unit/test_responsibility_parser.py:92-123 | a role line followed by N deeper-numbered lines yields exactly N records, the k-th pairing the role with the k-th line, and no empty-responsibility record |
| Segmentation.ContinuationLine | common/document_parser/lib/responsibility_parse/tests/unit/test_responsibility_parser.py:126-128 | a wrapped line (unnumbered, unsplit, non-empty) never adds or removes a record: with no role open it changes nothing, otherwise every earlier record stays and the last one gets the line joined with one space onto its responsibility text if it is a child, or onto its role text if it is a childless role |
| Segmentation.RoleContinued | common/document_parser/lib/responsibility_parse/tests/unit/test_responsibility_parser.py:70-91 | a role line and a wrapped line give one record whose role text is the two joined with one space |
| Segmentation.ChildContinued | common/document_parser/lib/responsibility_parse/tests/unit/test_responsibility_parser.py:92-123 | a role, a deeper child and a wrapped line give one record whose responsibility text is the child's text and the wrapped line joined with one space |
| Segmentation.LeadingTextDropped | common/document_parser/lib/responsibility_parse/tests/unit/test_responsibility_parser.py:126-128 | an unnumbered, unsplit line with no role open yet is dropped: the section yields exactly what the following lines yield |
| Segmentation.RoleBlockThenRest | common/document_parser/lib/responsibility_parse/tests/unit/test_responsibility_parser.py:70-123 | a role with N deeper-numbered children, followed by a line opening a new role, yields exactly its block (one empty-responsibility record when N = 0, otherwise the N role/child pairs in order, never N + 1), then the records the rest of the section yields on its own |
| Segmentation.LastBlock | common/document_parser/lib/responsibility_parse/tests/unit/test_responsibility_parser.py:70-123 | a role with N deeper-numbered children, alone, yields exactly its block |
| Segmentation.TwoRoleBlocks | common/document_parser/lib/responsibility_parse/tests/unit/test_responsibility_parser.py:70-123 | two roles, the second not deeper than the first, each with its own deeper children, yield the first role's block followed by the second's |
| Segmentation.SiblingRoles | common/document_parser/lib/responsibility_parse/tests/unit/test_responsibility_parser.py:70-91 | two numbered lines, the second not deeper than the first, give two records, one per line as a role, each with empty responsibility fields |
| Segmentation.MidlineRoleAndChild | common/document_parser/lib/responsibility_parse/tests/unit/test_responsibility_parser.py:327-329 | a line holding a role clause and, after its colon, a deeper-numbered responsibility yields one record pairing the two |
| Segmentation.HeadNotSplit | common/document_parser/lib/responsibility_parse/tests/unit/test_responsibility_parser.py:324-329 | the head of a split, ending at its only colon, is not split again |
| ParserTests.NoTokenSentence | common/document_parser/lib/responsibility_parse/tests/unit/test_responsibility_parser.py:30 | "end. of a sentence …" has no numbering and comes back whole |
| ParserTests.NoTokenPlainText | common/document_parser/lib/responsibility_parse/tests/unit/test_responsibility_parser.py:31 | "Here is some text" has no numbering and comes back whole |
| ParserTests.NoTokenBareNumber | common/document_parser/lib/responsibility_parse/tests/unit/test_responsibility_parser.py:32 | "321561 …" has no numbering and comes back whole |
| ParserTests.NoTokenParenthetical | common/document_parser/lib/responsibility_parse/tests/unit/test_responsibility_parser.py:33 | "(if applicable) …" has no numbering and comes back whole |
| ParserTests.ExtractDepth1 | common/document_parser/lib/responsibility_parse/tests/unit/test_responsibility_parser.py:34 | "1. Here is some text" gives ("1.", "Here is some text") |
| ParserTests.ExtractTwoDigits | common/document_parser/lib/responsibility_parse/tests/unit/test_responsibility_parser.py:35 | "11. …" gives ("11.", "Here is some text") |
| ParserTests.ExtractDepth2 | common/document_parser/lib/responsibility_parse/tests/unit/test_responsibility_parser.py:36 | "1.1. …" gives ("1.1.", "Here is some text") |
| ParserTests.ExtractDepth2TwoDigits | common/document_parser/lib/responsibility_parse/tests/unit/test_responsibility_parser.py:37 | "1.11. …" gives ("1.11.", "Here is some text") |
| ParserTests.ExtractDepth3 | common/document_parser/lib/responsibility_parse/tests/unit/test_responsibility_parser.py:38 | "1.1.1. …" gives ("1.1.1.", "Here is some text") |
| ParserTests.ExtractDepth4 | common/document_parser/lib/responsibility_parse/tests/unit/test_responsibility_parser.py:39 | "1.1.1.1. …" gives ("1.1.1.1.", "Here is some text") |
| ParserTests.ExtractParenNumber | common/document_parser/lib/responsibility_parse/tests/unit/test_responsibility_parser.py:40 | "(1) …" gives ("(1)", "Here is some text") |
| ParserTests.ExtractParenTwoDigits | common/document_parser/lib/responsibility_parse/tests/unit/test_responsibility_parser.py:41 | "(11) …" gives ("(11)", "Here is some text") |
| ParserTests.ExtractLetter | common/document_parser/lib/responsibility_parse/tests/unit/test_responsibility_parser.py:42 | "a. …" gives ("a.", "Here is some text") |
| ParserTests.ExtractTwoLetters | common/document_parser/lib/responsibility_parse/tests/unit/test_responsibility_parser.py:43 | "zz. …" gives ("zz.", "Here is some text") |
| ParserTests.NoTokenParenLetterPeriod | common/document_parser/lib/responsibility_parse/tests/unit/test_responsibility_parser.py:44 | "(a). …" has no numbering and comes back whole |
| ParserTests.NoTokenParenLettersPeriod | common/document_parser/lib/responsibility_parse/tests/unit/test_responsibility_parser.py:45 | "(zz). …" has no numbering and comes back whole |
| ParserTests.FormatSingleResponsibilityLine | common/document_parser/lib/responsibility_parse/tests/unit/test_responsibility_parser.py:70-91 | TEST 1: the single "2.4. …" line gives one record with role "2.4." and the full text, empty responsibility fields, status "active" |
| ParserTests.FormatMultipleResponsibilityLines | common/document_parser/lib/responsibility_parse/tests/unit/test_responsibility_parser.py:92-123 | TEST 2: the role "1." and children "1.1." and "1.2." give exactly two records, each with the role and one child, in order |
| ParserTests.MetadataOfEmpty | common/document_parser/lib/responsibility_parse/tests/unit/test_responsibility_parser.py:141-149 | the empty numbering has all four counts zero |
| ParserTests.MetadataOfDepth1 | common/document_parser/lib/responsibility_parse/tests/unit/test_responsibility_parser.py:150-158 | "1." has one period and one digit |
| ParserTests.MetadataOfDepth3 | common/document_parser/lib/responsibility_parse/tests/unit/test_responsibility_parser.py:159-167 | "1.1.1." has three periods and three digits |
| ParserTests.MetadataOfParenNumber | common/document_parser/lib/responsibility_parse/tests/unit/test_responsibility_parser.py:168-176 | "(1)" has one parenthesis and one digit |
| ParserTests.MetadataOfLetter | common/document_parser/lib/responsibility_parse/tests/unit/test_responsibility_parser.py:177-185 | "a." has one period and one letter |
| ParserTests.MetadataOfTwoLetters | common/document_parser/lib/responsibility_parse/tests/unit/test_responsibility_parser.py:187-195 | "aa." has one period and two letters |
| ParserTests.MetadataOfParenLetter | common/document_parser/lib/responsibility_parse/tests/unit/test_responsibility_parser.py:197-205 | "(a)" has one parenthesis and one letter |
| ParserTests.MatchedDepth1 | common/document_parser/lib/responsibility_parse/tests/unit/test_responsibility_parser.py:216-226 | "5." matches (1, 0, 1, 0) |
| ParserTests.MatchedDepth4 | common/document_parser/lib/responsibility_parse/tests/unit/test_responsibility_parser.py:227-237 | "5.1.2.4." matches (4, 0, 4, 0) |
| ParserTests.MatchedParenNumber | common/document_parser/lib/responsibility_parse/tests/unit/test_responsibility_parser.py:238-248 | "(5)" matches (0, 1, 1, 0) |
| ParserTests.NotMatchedDeeper | common/document_parser/lib/responsibility_parse/tests/unit/test_responsibility_parser.py:249-259 | "5.5." does not match the one-period fingerprint (1, 0, 1, 0) |
| ParserTests.NotMatchedOtherKind | common/document_parser/lib/responsibility_parse/tests/unit/test_responsibility_parser.py:260-292 | "5." and "(a)" do not match (0, 1, 1, 0), and "(4)" does not match (0, 1, 0, 1) |
| ParserTests.MatchedParenLetter | common/document_parser/lib/responsibility_parse/tests/unit/test_responsibility_parser.py:293-303 | "(a)" matches (0, 1, 0, 1) |
| ParserTests.NoSplitShortLine | common/document_parser/lib/responsibility_parse/tests/unit/test_responsibility_parser.py:315-317 | the colon-free line "Work with the Director, DIA to perform …" comes back whole |
| ParserTests.NoSplitLongLine | common/document_parser/lib/responsibility_parse/tests/unit/test_responsibility_parser.py:318-320 | the line with "Reference (b)" in mid-sentence and no colon comes back whole |
| ParserTests.NoSplitWithoutNumbering | common/document_parser/lib/responsibility_parse/tests/unit/test_responsibility_parser.py:321-323 | "… shall: perform responsibility X and Y", with prose after the colon, comes back whole |
| ParserTests.SplitBeforeParenLetter | common/document_parser/lib/responsibility_parse/tests/unit/test_responsibility_parser.py:324-326 | "… shall: (a) perform …" splits into "… shall:" and "(a) perform …" |
| ParserTests.SplitBeforeDecimal | common/document_parser/lib/responsibility_parse/tests/unit/test_responsibility_parser.py:327-329 | "1. The Director, DIA:1.1. Work …", with no space after the colon, splits into "1. The Director, DIA:" and "1.1. Work …" |

## Left out

- Entity tagging is not modelled. This covers `parse_entities` and the
  `organizationPersonnelEntities` and `responsibilityEntities` fields. The
  tags come from an external roster spreadsheet, and the tests drop them
  before comparing records. Records here have no entity columns.
- The fixture-driven tests are not modelled. These are
  `parse_responsibility_section` on the DoDI 5000.94 text,
  `extract_responsibilities_from_json` and `main`, with their
  `error_files` and `files_missing_responsibility_section` sets. They read
  input files, JSON, pandas frames and Excel output that are not part of
  this model.
- Test scaffolding is not modelled: setUp, tearDown and the removal of files
  from the output directory.
- Segmentation.FormatResultsWellFormed: only the role numbering of a record
  is guaranteed non-empty, not its role text. A role line that holds only its
  numbering, such as `"1."`, gives records with an empty role text:
  `["1.", "1.1. X"]` yields one record with role numbering `"1."` and role
  text `""`.
- Segmentation.RoleBlockThenRest: this lemma, and `LastBlock`,
  `TwoRoleBlocks` and `RoleWithChildren`, take every role and child to be a
  single unwrapped line. A wrapped line is covered one line at a time by
  `ContinuationLine`: it keeps the number of records and joins its text onto
  the last one. No lemma states a whole block with its joined texts in one
  equation.
- Segmentation.RoleWithChildren: the contract covers decimal-style depth
  only, where a child has more periods than its role. The tests show no
  mixed-scheme transitions such as decimal to lettered to parenthesised, and
  depth is compared by period count alone. So a lettered or parenthesised
  token under a decimal role opens a new role. In the other direction, `a.`
  (one period) counts as deeper than `(1)` (none). In an outline
  `1.` / `a.` / `(1)` / `(2)` / `b.`, the lines `a.`, `(1)` and `(2)` each open
  a new role, and `b.` becomes a child of `(2)`. That rule is a choice, not
  something the tests pin down.
- Metadata.MatchedDecimal: because `n_numbers` counts digit characters,
  same-depth siblings with different digit counts do not match: `9.` and
  `10.` have different fingerprints. The tests only use one-digit groups.
- Segmentation.FormatResponsibilityResults: records are Dafny values, not
  Python dictionaries. Key order and the dictionary type are not modelled.
