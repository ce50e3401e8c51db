/**
 * Segmentation of a responsibilities section into records
 * (`format_responsibility_results`): the lines are read in order, a role
 * clause is kept open, every deeper-numbered line under it becomes one
 * (role, responsibility) record, and a role without children becomes one
 * record with empty responsibility fields.
 */
module Segmentation {
  import opened Text
  import opened Numbering
  import opened Metadata
  import opened Midline

  /** One output row (the entity columns are not modelled). */
  datatype ResponsibilityRecord = ResponsibilityRecord(
    filename: string,
    documentTitle: string,
    organizationPersonnelNumbering: string,
    organizationPersonnelText: string,
    responsibilityNumbering: string,
    responsibilityText: string,
    status: string)

  const Active := "active"

  /** The clause the segmenter keeps open, with the number of children emitted under it. */
  datatype Clause = NoOpenRole | RoleOpen(numbering: string, text: string, children: nat)

  /** The open clause and the records emitted so far. */
  datatype Segmenter = Segmenter(clause: Clause, records: seq<ResponsibilityRecord>)

  const Start := Segmenter(NoOpenRole, [])

  /** Continuation text is joined to the clause it continues with a single space. */
  function Join(a: string, b: string): (r: string) {
    if a == "" then b else a + " " + b
  }

  /** A numbering lies strictly deeper than the open role's when it has more periods. */
  predicate Deeper(child: string, role: string) {
    ConstructMetadata(child).nPeriods > ConstructMetadata(role).nPeriods
  }

  function Row(file: string, title: string, roleNumbering: string, roleText: string,
               numbering: string, text: string): (r: ResponsibilityRecord)
  {
    ResponsibilityRecord(file, title, roleNumbering, roleText, numbering, text, Active)
  }

  /** Every record names the document, is active, has a numbered role, and an unnumbered responsibility is empty. */
  predicate WellFormed(r: ResponsibilityRecord, file: string, title: string) {
    && r.filename == file && r.documentTitle == title && r.status == Active
    && r.organizationPersonnelNumbering != ""
    && (r.responsibilityNumbering == "" ==> r.responsibilityText == "")
  }

  /**
   * The segmenter's invariant: its records are well formed, an open role is
   * numbered, and once a role has children the last record is its latest
   * child.
   */
  predicate Consistent(s: Segmenter, file: string, title: string) {
    && (forall r :: r in s.records ==> WellFormed(r, file, title))
    && (s.clause.RoleOpen? ==> s.clause.numbering != "")
    && (s.clause.RoleOpen? && s.clause.children > 0 ==>
          && |s.records| > 0
          && s.records[|s.records| - 1].organizationPersonnelNumbering == s.clause.numbering
          && s.records[|s.records| - 1].organizationPersonnelText == s.clause.text
          && s.records[|s.records| - 1].responsibilityNumbering != "")
  }

  /** The records, plus one empty-responsibility record when the open role has had no children. */
  function Flush(s: Segmenter, file: string, title: string): (r: seq<ResponsibilityRecord>) {
    match s.clause
    case RoleOpen(n, t, 0) => s.records + [Row(file, title, n, t, "", "")]
    case _ => s.records
  }

  /**
   * One piece of text that needs no further splitting: unnumbered text
   * continues the open clause, and is dropped when no role is open; a numbering deeper than the open role's is a
   * child; any other numbering opens a new role, flushing the previous one
   * if it had no children.
   */
  function Step(s: Segmenter, piece: string, file: string, title: string): (r: Segmenter)
    requires Consistent(s, file, title)
    ensures Consistent(r, file, title)
  {
    if piece == "" then s
    else
      var (num, text) := ExtractNumbering(piece);
      if num == "" then
        match s.clause
        case NoOpenRole => s
        case RoleOpen(n, t, c) =>
          if c == 0 then Segmenter(RoleOpen(n, Join(t, piece), 0), s.records)
          else
            var last := s.records[|s.records| - 1];
            var last' := last.(responsibilityText := Join(last.responsibilityText, piece));
            assert last in s.records;
            assert forall r :: r in s.records[..|s.records| - 1] ==> r in s.records;
            Segmenter(s.clause, s.records[..|s.records| - 1] + [last'])
      else if s.clause.RoleOpen? && Deeper(num, s.clause.numbering) then
        Segmenter(s.clause.(children := s.clause.children + 1),
                  s.records + [Row(file, title, s.clause.numbering, s.clause.text, num, text)])
      else
        Segmenter(RoleOpen(num, text, 0), Flush(s, file, title))
  }

  /** One line: split off a responsibility that follows a colon, then step on each part. */
  function Feed(s: Segmenter, text: string, file: string, title: string): (r: Segmenter)
    requires Consistent(s, file, title)
    ensures Consistent(r, file, title)
    decreases |text|
  {
    var (head, tail) := SplitMidline(text);
    if tail == "" then Step(s, text, file, title)
    else
      SplitSound(text);
      Feed(Step(s, head, file, title), tail, file, title)
  }

  /** The segmenter after all of `lines`, each trimmed, in order. */
  function Run(lines: seq<string>, file: string, title: string): (r: Segmenter)
    ensures Consistent(r, file, title)
  {
    if lines == [] then Start
    else Feed(Run(lines[..|lines| - 1], file, title), Trim(lines[|lines| - 1]), file, title)
  }

  /** The records of a whole section. */
  function FormatResults(lines: seq<string>, file: string, title: string): (r: seq<ResponsibilityRecord>) {
    Flush(Run(lines, file, title), file, title)
  }

  /** `format_responsibility_results`, one line at a time. */
  method FormatResponsibilityResults(lines: seq<string>, fileName: string, title: string)
    returns (records: seq<ResponsibilityRecord>)
    ensures records == FormatResults(lines, fileName, title)
  {
    var clause := NoOpenRole;
    var out: seq<ResponsibilityRecord> := [];
    for i := 0 to |lines|
      invariant Segmenter(clause, out) == Run(lines[..i], fileName, title)
    {
      clause, out := FeedLine(clause, out, Trim(lines[i]), fileName, title);
      RunPrefix(lines, i, fileName, title);
    }
    if clause.RoleOpen? && clause.children == 0 {
      out := out + [Row(fileName, title, clause.numbering, clause.text, "", "")];
    }
    records := out;
    assert lines[..|lines|] == lines;
  }

  /** One trimmed line, one piece at a time: the head before a midline colon, then the rest. */
  method FeedLine(clause: Clause, out: seq<ResponsibilityRecord>, line: string, fileName: string, title: string)
    returns (clause': Clause, out': seq<ResponsibilityRecord>)
    requires Consistent(Segmenter(clause, out), fileName, title)
    ensures Segmenter(clause', out') == Feed(Segmenter(clause, out), line, fileName, title)
  {
    clause', out' := clause, out;
    var pending := line;
    while pending != ""
      invariant Consistent(Segmenter(clause', out'), fileName, title)
      invariant Feed(Segmenter(clause', out'), pending, fileName, title) ==
                Feed(Segmenter(clause, out), line, fileName, title)
      decreases |pending|
    {
      var (head, tail) := SplitMidline(pending);
      if tail == "" {
        clause', out' := StepPiece(clause', out', pending, fileName, title);
      } else {
        SplitSound(pending);
        clause', out' := StepPiece(clause', out', head, fileName, title);
      }
      pending := tail;
    }
  }

  /**
   * One step on one non-empty piece: continue the open clause, emit a child,
   * or open a new role, updating the open clause and the records.
   */
  method StepPiece(clause: Clause, out: seq<ResponsibilityRecord>, piece: string, fileName: string, title: string)
    returns (clause': Clause, out': seq<ResponsibilityRecord>)
    requires piece != "" && Consistent(Segmenter(clause, out), fileName, title)
    ensures Segmenter(clause', out') == Step(Segmenter(clause, out), piece, fileName, title)
  {
    clause', out' := clause, out;
    var (num, text) := ExtractNumbering(piece);
    if num == "" {
      if clause.RoleOpen? && clause.children == 0 {
        clause' := clause.(text := Join(clause.text, piece));
      } else if clause.RoleOpen? {
        var last := out[|out| - 1];
        out' := out[..|out| - 1] + [last.(responsibilityText := Join(last.responsibilityText, piece))];
      }
    } else if clause.RoleOpen? && Deeper(num, clause.numbering) {
      out' := out + [Row(fileName, title, clause.numbering, clause.text, num, text)];
      clause' := clause.(children := clause.children + 1);
    } else {
      if clause.RoleOpen? && clause.children == 0 {
        out' := out + [Row(fileName, title, clause.numbering, clause.text, "", "")];
      }
      clause' := RoleOpen(num, text, 0);
    }
  }

  // ---------------------------------------------------------------------
  // What the segmentation promises.
  // ---------------------------------------------------------------------

  /**
   * Every record carries the file name and title it was given, the status
   * "active" and a role numbering.
   */
  lemma FormatResultsWellFormed(lines: seq<string>, file: string, title: string)
    ensures forall r :: r in FormatResults(lines, file, title) ==>
      r.filename == file && r.documentTitle == title && r.status == Active &&
      r.organizationPersonnelNumbering != "" &&
      (r.responsibilityNumbering == "" ==> r.responsibilityText == "")
  {
    var s := Run(lines, file, title);
    assert forall r :: r in s.records ==> WellFormed(r, file, title);
  }

  /** A line that is not split at a colon and starts with a numbering token. */
  predicate NumberedLine(line: string) {
    SplitMidline(Trim(line)).1 == "" && ExtractNumbering(Trim(line)).0 != ""
  }

  function NumberingOf(line: string): (n: string) { ExtractNumbering(Trim(line)).0 }

  function TextOf(line: string): (t: string) { ExtractNumbering(Trim(line)).1 }

  /** The segmenter after a line that is not split steps once on the trimmed line. */
  lemma FeedUnsplit(s: Segmenter, line: string, file: string, title: string)
    requires Consistent(s, file, title) && NumberedLine(line)
    ensures Trim(line) != ""
    ensures Feed(s, Trim(line), file, title) == Step(s, Trim(line), file, title)
  {
    assert ExtractNumbering("") == ("", "");
  }

  /** A numbered line with no children yields one record with empty responsibility fields. */
  lemma SingleRoleLine(line: string, file: string, title: string)
    requires NumberedLine(line)
    ensures FormatResults([line], file, title) ==
      [Row(file, title, NumberingOf(line), TextOf(line), "", "")]
  {
    RunSingle(line, file, title);
    var t := Trim(line);
    FeedUnsplit(Start, line, file, title);
    StepNewRole(Start, t, file, title);
  }

  lemma RunSingle(line: string, file: string, title: string)
    ensures Run([line], file, title) == Feed(Start, Trim(line), file, title)
  {
    assert [line][..0] == [];
  }

  /**
   * Unnumbered text before the first role, such as a heading, is dropped:
   * the section yields what the lines after it yield.
   */
  lemma LeadingTextDropped(line: string, rest: seq<string>, file: string, title: string)
    requires SplitMidline(Trim(line)).1 == "" && ExtractNumbering(Trim(line)).0 == ""
    ensures FormatResults([line] + rest, file, title) == FormatResults(rest, file, title)
  {
    RunSingle(line, file, title);
    assert Run([line], file, title) == Start;
    RunFromStart([line], rest, file, title);
  }

  /** Lines that leave the segmenter at its start can be left out. */
  lemma {:induction false} RunFromStart(p: seq<string>, q: seq<string>, file: string, title: string)
    requires Run(p, file, title) == Start
    ensures Run(p + q, file, title) == Run(q, file, title)
  {
    if q == [] {
      assert p + q == p;
    } else {
      var front, last := SplitLast(p, q);
      RunFromStart(p, front, file, title);
      RunSnoc(p + front, last, file, title);
      RunSnoc(front, last, file, title);
    }
  }

  /** A line that, trimmed, is non-empty, unsplit and unnumbered: a wrapped continuation. */
  predicate Continuation(line: string) {
    var t := Trim(line);
    t != "" && SplitMidline(t).1 == "" && ExtractNumbering(t).0 == ""
  }

  /**
   * `after` is `before` with `piece` joined onto the text of its clause: the
   * responsibility text of a child record, or the role text of a role record.
   * Everything else is unchanged.
   */
  predicate ContinuedBy(after: ResponsibilityRecord, before: ResponsibilityRecord, piece: string) {
    && after.filename == before.filename && after.documentTitle == before.documentTitle
    && after.status == before.status
    && after.organizationPersonnelNumbering == before.organizationPersonnelNumbering
    && after.responsibilityNumbering == before.responsibilityNumbering
    && if before.responsibilityNumbering == "" then
         after.organizationPersonnelText == Join(before.organizationPersonnelText, piece) &&
         after.responsibilityText == before.responsibilityText
       else
         after.responsibilityText == Join(before.responsibilityText, piece) &&
         after.organizationPersonnelText == before.organizationPersonnelText
  }

  /**
   * `after` is `before` with `piece` joined onto its last record: the same
   * number of records, all but the last unchanged.
   */
  predicate RecordsContinued(after: seq<ResponsibilityRecord>, before: seq<ResponsibilityRecord>, piece: string) {
    && |after| == |before| > 0
    && after[..|before| - 1] == before[..|before| - 1]
    && ContinuedBy(after[|before| - 1], before[|before| - 1], piece)
  }

  /**
   * A continuation line never adds or removes a record. With no role open it
   * changes nothing. Otherwise it joins its text onto the last record of the
   * section, which is the latest child or the childless role, and leaves
   * every earlier record alone.
   */
  lemma ContinuationLine(lines: seq<string>, line: string, file: string, title: string)
    requires Continuation(line)
    ensures var before := FormatResults(lines, file, title);
      var after := FormatResults(lines + [line], file, title);
      if Run(lines, file, title).clause.NoOpenRole? then after == before
      else RecordsContinued(after, before, Trim(line))
  {
    var s := Run(lines, file, title);
    var t := Trim(line);
    assert FormatResults(lines + [line], file, title) == Flush(Step(s, t, file, title), file, title) by {
      RunSnoc(lines, line, file, title);
      FeedWhole(s, t, file, title);
    }
    ContinuationFlush(s, t, file, title);
  }

  /** Text that is not split at a colon is stepped on as one piece. */
  lemma FeedWhole(s: Segmenter, text: string, file: string, title: string)
    requires Consistent(s, file, title) && SplitMidline(text).1 == ""
    ensures Feed(s, text, file, title) == Step(s, text, file, title)
  {
  }

  /** One unnumbered piece, on the records the segmenter would flush. */
  lemma ContinuationFlush(s: Segmenter, piece: string, file: string, title: string)
    requires Consistent(s, file, title) && piece != "" && ExtractNumbering(piece).0 == ""
    ensures var before := Flush(s, file, title);
      var after := Flush(Step(s, piece, file, title), file, title);
      if s.clause.NoOpenRole? then after == before
      else RecordsContinued(after, before, piece)
  {
    match s.clause
    case NoOpenRole =>
    case RoleOpen(n, t, c) =>
      if c == 0 {
        var after := Flush(Step(s, piece, file, title), file, title);
        assert after == s.records + [Row(file, title, n, Join(t, piece), "", "")];
        assert Flush(s, file, title) == s.records + [Row(file, title, n, t, "", "")];
        assert after[..|s.records|] == s.records;
      } else {
        var rs := s.records;
        var last := rs[|rs| - 1];
        var after := rs[..|rs| - 1] + [last.(responsibilityText := Join(last.responsibilityText, piece))];
        assert Step(s, piece, file, title).records == after;
        assert after[..|rs| - 1] == rs[..|rs| - 1];
      }
  }

  /** A role line and a wrapped continuation of it: one record with the joined role text. */
  lemma RoleContinued(role: string, line: string, file: string, title: string)
    requires NumberedLine(role) && Continuation(line)
    ensures FormatResults([role, line], file, title) ==
      [Row(file, title, NumberingOf(role), Join(TextOf(role), Trim(line)), "", "")]
  {
    RunRoleLine(role, file, title);
    SingleRoleLine(role, file, title);
    ContinuationLine([role], line, file, title);
    Singles(role, line);
    var after := FormatResults([role, line], file, title);
    One(after, Row(file, title, NumberingOf(role), Join(TextOf(role), Trim(line)), "", ""));
  }

  /**
   * A role line, a child numbered deeper than it and a wrapped continuation
   * of the child: one record, the continuation joined to the child's text.
   */
  lemma ChildContinued(role: string, child: string, line: string, file: string, title: string)
    requires NumberedLine(role) && NumberedLine(child) && Deeper(NumberingOf(child), NumberingOf(role))
    requires Continuation(line)
    ensures FormatResults([role, child, line], file, title) ==
      [Row(file, title, NumberingOf(role), TextOf(role), NumberingOf(child), Join(TextOf(child), Trim(line)))]
  {
    Snoc2(role, child, line);
    RoleRun(role, [child], file, title);
    RoleWithChildren(role, [child], file, title);
    ContinuationLine([role, child], line, file, title);
    var after := FormatResults([role, child, line], file, title);
    One(after, Row(file, title, NumberingOf(role), TextOf(role), NumberingOf(child), Join(TextOf(child), Trim(line))));
  }

  /** A numbered piece that is not deeper than the open role opens a new role. */
  lemma StepNewRole(s: Segmenter, piece: string, file: string, title: string)
    requires Consistent(s, file, title) && ExtractNumbering(piece).0 != ""
    requires !(s.clause.RoleOpen? && Deeper(ExtractNumbering(piece).0, s.clause.numbering))
    ensures Step(s, piece, file, title) ==
      Segmenter(RoleOpen(ExtractNumbering(piece).0, ExtractNumbering(piece).1, 0), Flush(s, file, title))
  {
    assert piece != "" by { assert ExtractNumbering("") == ("", ""); }
  }

  /** A numbered piece deeper than the open role is its next child. */
  lemma StepChild(s: Segmenter, piece: string, file: string, title: string)
    requires Consistent(s, file, title) && ExtractNumbering(piece).0 != ""
    requires s.clause.RoleOpen? && Deeper(ExtractNumbering(piece).0, s.clause.numbering)
    ensures Step(s, piece, file, title) ==
      Segmenter(s.clause.(children := s.clause.children + 1),
                s.records + [Row(file, title, s.clause.numbering, s.clause.text,
                                 ExtractNumbering(piece).0, ExtractNumbering(piece).1)])
  {
    assert piece != "" by { assert ExtractNumbering("") == ("", ""); }
    var (num, text) := ExtractNumbering(piece);
    assert num != "";
    assert Step(s, piece, file, title) ==
      Segmenter(s.clause.(children := s.clause.children + 1),
                s.records + [Row(file, title, s.clause.numbering, s.clause.text, num, text)]);
  }

  /**
   * A role line followed by N lines numbered deeper than it yields exactly N
   * records, the k-th pairing the role with the k-th child: no extra
   * empty-responsibility record appears for the role.
   */
  lemma RoleWithChildren(role: string, children: seq<string>, file: string, title: string)
    requires NumberedLine(role) && |children| > 0
    requires forall k :: 0 <= k < |children| ==>
      NumberedLine(children[k]) && Deeper(NumberingOf(children[k]), NumberingOf(role))
    ensures var records := FormatResults([role] + children, file, title);
      && |records| == |children|
      && forall k :: 0 <= k < |children| ==>
           records[k] == Row(file, title, NumberingOf(role), TextOf(role),
                             NumberingOf(children[k]), TextOf(children[k]))
  {
    RoleRun(role, children, file, title);
    assert |[role] + children| > 0;
  }

  /** The segmenter after a role line and children numbered deeper than it. */
  lemma {:induction false} RoleRun(role: string, children: seq<string>, file: string, title: string)
    requires NumberedLine(role)
    requires forall k :: 0 <= k < |children| ==>
      NumberedLine(children[k]) && Deeper(NumberingOf(children[k]), NumberingOf(role))
    ensures RoleState(Run([role] + children, file, title), role, children, file, title)
  {
    if children == [] {
      assert [role] + children == [role];
      RunRoleLine(role, file, title);
    } else {
      var front, last := SplitLast([role], children);
      RoleRun(role, front, file, title);
      var before := Run([role] + front, file, title);
      RunSnoc([role] + front, last, file, title);
      FeedUnsplit(before, last, file, title);
      RoleStateGrows(before, role, front, last, file, title);
    }
  }

  /** A nonempty sequence is its front followed by its last element, also behind a common prefix. */
  lemma SplitLast<T>(head: seq<T>, xs: seq<T>) returns (front: seq<T>, last: T)
    requires |xs| > 0
    ensures xs == front + [last] && head + xs == (head + front) + [last]
    ensures front == xs[..|xs| - 1] && last == xs[|xs| - 1]
  {
    front, last := xs[..|xs| - 1], xs[|xs| - 1];
    assert xs == front + [last];
  }

  /** The first `i + 1` lines run as the first `i` followed by line `i`. */
  lemma RunPrefix(lines: seq<string>, i: nat, file: string, title: string)
    requires i < |lines|
    ensures Run(lines[..i + 1], file, title) == Feed(Run(lines[..i], file, title), Trim(lines[i]), file, title)
  {
    assert lines[..i + 1] == lines[..i] + [lines[i]];
    RunSnoc(lines[..i], lines[i], file, title);
  }

  /** Running one more line feeds its trimmed text to the segmenter. */
  lemma RunSnoc(lines: seq<string>, last: string, file: string, title: string)
    ensures Run(lines + [last], file, title) == Feed(Run(lines, file, title), Trim(last), file, title)
  {
    assert (lines + [last])[..|lines|] == lines;
  }

  /** The segmenter holds the open role `role` and one record per child, in order. */
  predicate RoleState(s: Segmenter, role: string, children: seq<string>, file: string, title: string) {
    && s.clause == RoleOpen(NumberingOf(role), TextOf(role), |children|)
    && |s.records| == |children|
    && forall k :: 0 <= k < |children| ==>
         s.records[k] == Row(file, title, NumberingOf(role), TextOf(role),
                             NumberingOf(children[k]), TextOf(children[k]))
  }

  /** The segmenter after a single unsplit numbered line has it open as a childless role. */
  lemma RunRoleLine(role: string, file: string, title: string)
    requires NumberedLine(role)
    ensures Run([role], file, title) == Segmenter(RoleOpen(NumberingOf(role), TextOf(role), 0), [])
  {
    RunSingle(role, file, title);
    FeedUnsplit(Start, role, file, title);
    StepNewRole(Start, Trim(role), file, title);
  }

  /** One more deeper child adds one record and one to the count of children. */
  lemma RoleStateGrows(s: Segmenter, role: string, front: seq<string>, last: string, file: string, title: string)
    requires Consistent(s, file, title) && RoleState(s, role, front, file, title)
    requires NumberedLine(role) && NumberedLine(last) && Deeper(NumberingOf(last), NumberingOf(role))
    ensures RoleState(Step(s, Trim(last), file, title), role, front + [last], file, title)
  {
    StepChild(s, Trim(last), file, title);
    var after := Step(s, Trim(last), file, title);
    var children := front + [last];
    forall k | 0 <= k < |children|
      ensures after.records[k] == Row(file, title, NumberingOf(role), TextOf(role),
                                      NumberingOf(children[k]), TextOf(children[k]))
    {
      if k < |front| {
        assert after.records[k] == s.records[k];
        assert children[k] == front[k];
      }
    }
  }

  /**
   * A numbered line that is not deeper than the open childless role starts a
   * new role and flushes the first one as a record of its own.
   */
  lemma SiblingRoles(first: string, second: string, file: string, title: string)
    requires NumberedLine(first) && NumberedLine(second)
    requires !Deeper(NumberingOf(second), NumberingOf(first))
    ensures FormatResults([first, second], file, title) == [
      Row(file, title, NumberingOf(first), TextOf(first), "", ""),
      Row(file, title, NumberingOf(second), TextOf(second), "", "")]
  {
    Singles(first, second);
    RunSnoc([first], second, file, title);
    RunRoleLine(first, file, title);
    var s := Run([first], file, title);
    FeedUnsplit(s, second, file, title);
    SiblingStep(s, Trim(second), file, title);
  }

  lemma SiblingStep(s: Segmenter, piece: string, file: string, title: string)
    requires s.clause.RoleOpen? && s.clause.children == 0 && s.records == [] && s.clause.numbering != ""
    requires ExtractNumbering(piece).0 != "" && !Deeper(ExtractNumbering(piece).0, s.clause.numbering)
    ensures Flush(Step(s, piece, file, title), file, title) == [
      Row(file, title, s.clause.numbering, s.clause.text, "", ""),
      Row(file, title, ExtractNumbering(piece).0, ExtractNumbering(piece).1, "", "")]
  {
    var row := Row(file, title, s.clause.numbering, s.clause.text, "", "");
    assert Consistent(s, file, title);
    StepNewRole(s, piece, file, title);
    assert Flush(s, file, title) == [row];
    Singles(row, Row(file, title, ExtractNumbering(piece).0, ExtractNumbering(piece).1, "", ""));
  }

  lemma Singles<T>(a: T, b: T)
    ensures [] + [a] == [a] && [a] + [b] == [a, b]
  {
  }

  lemma Snoc2<T>(a: T, b: T, c: T)
    ensures [a] + [b] == [a, b] && [a, b] + [c] == [a, b, c]
  {
  }

  lemma One<T>(xs: seq<T>, a: T)
    requires |xs| == 1 && xs[0] == a
    ensures xs == [a]
  {
  }

  lemma Pair<T>(xs: seq<T>, a: T, b: T)
    requires |xs| == 2 && xs[0] == a && xs[1] == b
    ensures xs == [a, b]
  {
  }

  /**
   * A line holding a role clause and, after its colon, a deeper-numbered
   * responsibility yields one record pairing the two.
   */
  lemma MidlineRoleAndChild(line: string, file: string, title: string)
    requires var (head, tail) := SplitMidline(Trim(line));
      && tail != ""
      && ExtractNumbering(head).0 != ""
      && SplitMidline(tail).1 == ""
      && Deeper(ExtractNumbering(tail).0, ExtractNumbering(head).0)
    ensures var (head, tail) := SplitMidline(Trim(line));
      FormatResults([line], file, title) == [Row(file, title,
        ExtractNumbering(head).0, ExtractNumbering(head).1,
        ExtractNumbering(tail).0, ExtractNumbering(tail).1)]
  {
    var text := Trim(line);
    var (head, tail) := SplitMidline(text);
    SplitSound(text);
    RunSingle(line, file, title);
    assert Feed(Start, text, file, title) == Feed(Step(Start, head, file, title), tail, file, title);
    StepNewRole(Start, head, file, title);
    var s := Step(Start, head, file, title);
    assert Feed(s, tail, file, title) == Step(s, tail, file, title);
    StepChild(s, tail, file, title);
  }

  /** A head that ends with its only colon is not split again. */
  lemma HeadNotSplit(head: string)
    requires head != [] && head[|head| - 1] == ':' && ':' !in head[..|head| - 1]
    ensures SplitMidline(head).1 == ""
  {
    ColonAt(head, "");
    assert head + "" == head;
    assert head[|head|..] == [];
    assert ExtractNumbering("") == ("", "");
    SplitAtFirstColon(head, |head| - 1);
    SplitAfterNoToken(head, |head| - 1);
  }

  // ---------------------------------------------------------------------
  // A section of several roles: each role and its children are one block.
  // ---------------------------------------------------------------------

  /**
   * The records of one role and its children: one record per child, or a
   * single record with empty responsibility fields when it has none.
   */
  function Block(role: string, children: seq<string>, file: string, title: string): (b: seq<ResponsibilityRecord>) {
    if children == [] then [Row(file, title, NumberingOf(role), TextOf(role), "", "")]
    else
      seq(|children|, k requires 0 <= k < |children| =>
        Row(file, title, NumberingOf(role), TextOf(role), NumberingOf(children[k]), TextOf(children[k])))
  }

  /** The same segmenter with `pre` emitted in front of its records. */
  function Shift(s: Segmenter, pre: seq<ResponsibilityRecord>): (r: Segmenter) {
    Segmenter(s.clause, pre + s.records)
  }

  /**
   * A section whose first role has only deeper-numbered children, followed by
   * a line that opens a new role, yields that role's block and then the
   * records of the rest of the section as if it stood alone.
   */
  lemma RoleBlockThenRest(role: string, children: seq<string>, rest: seq<string>, file: string, title: string)
    requires NumberedLine(role)
    requires forall k :: 0 <= k < |children| ==>
      NumberedLine(children[k]) && Deeper(NumberingOf(children[k]), NumberingOf(role))
    requires rest != [] && NumberedLine(rest[0]) && !Deeper(NumberingOf(rest[0]), NumberingOf(role))
    ensures FormatResults([role] + children + rest, file, title) ==
      Block(role, children, file, title) + FormatResults(rest, file, title)
  {
    var block := Block(role, children, file, title);
    assert rest == [rest[0]] + rest[1..];
    BlockThenRole(role, children, rest[0], file, title);
    BlockWellFormed(role, children, file, title);
    RunShiftLines([role] + children, rest[0], rest[1..], block, file, title);
    FlushShift(Run(rest, file, title), Block(role, children, file, title), file, title);
  }

  /** A role and its deeper-numbered children, alone, yield exactly their block. */
  lemma LastBlock(role: string, children: seq<string>, file: string, title: string)
    requires NumberedLine(role)
    requires forall k :: 0 <= k < |children| ==>
      NumberedLine(children[k]) && Deeper(NumberingOf(children[k]), NumberingOf(role))
    ensures FormatResults([role] + children, file, title) == Block(role, children, file, title)
  {
    RoleRun(role, children, file, title);
    BlockOfRoleState(Run([role] + children, file, title), role, children, file, title);
  }

  /**
   * Two roles, the second not deeper than the first, each with its own
   * deeper-numbered children: the first role's block, then the second's.
   */
  lemma TwoRoleBlocks(role1: string, children1: seq<string>, role2: string, children2: seq<string>,
                      file: string, title: string)
    requires NumberedLine(role1) && NumberedLine(role2)
    requires forall k :: 0 <= k < |children1| ==>
      NumberedLine(children1[k]) && Deeper(NumberingOf(children1[k]), NumberingOf(role1))
    requires forall k :: 0 <= k < |children2| ==>
      NumberedLine(children2[k]) && Deeper(NumberingOf(children2[k]), NumberingOf(role2))
    requires !Deeper(NumberingOf(role2), NumberingOf(role1))
    ensures FormatResults([role1] + children1 + ([role2] + children2), file, title) ==
      Block(role1, children1, file, title) + Block(role2, children2, file, title)
  {
    var rest := [role2] + children2;
    assert rest[0] == role2;
    RoleBlockThenRest(role1, children1, rest, file, title);
    LastBlock(role2, children2, file, title);
  }

  /**
   * Once `p` followed by `first` leaves the segmenter as `first` alone does
   * but with `pre` in front, so does `p` followed by `first` and any more lines.
   */
  lemma {:induction false} RunShiftLines(p: seq<string>, first: string, more: seq<string>,
                                         pre: seq<ResponsibilityRecord>, file: string, title: string)
    requires Run(p + [first], file, title) == Shift(Run([first], file, title), pre)
    requires forall r :: r in pre ==> WellFormed(r, file, title)
    ensures Run(p + ([first] + more), file, title) == Shift(Run([first] + more, file, title), pre)
  {
    if more == [] {
      assert [first] + more == [first];
    } else {
      var front, last := SplitLast([first], more);
      RunShiftLines(p, first, front, pre, file, title);
      RunShiftSnoc(p, [first] + front, last, pre, file, title);
    }
  }

  /** A role's block followed by a line that opens a new role. */
  lemma BlockThenRole(role: string, children: seq<string>, next: string, file: string, title: string)
    requires NumberedLine(role)
    requires forall k :: 0 <= k < |children| ==>
      NumberedLine(children[k]) && Deeper(NumberingOf(children[k]), NumberingOf(role))
    requires NumberedLine(next) && !Deeper(NumberingOf(next), NumberingOf(role))
    ensures Run([role] + children + [next], file, title) ==
      Shift(Run([next], file, title), Block(role, children, file, title))
  {
    var p := [role] + children;
    var block := Block(role, children, file, title);
    RunSnoc(p, next, file, title);
    RoleRun(role, children, file, title);
    var s := Run(p, file, title);
    FeedUnsplit(s, next, file, title);
    StepNewRole(s, Trim(next), file, title);
    BlockOfRoleState(s, role, children, file, title);
    RunRoleLine(next, file, title);
    assert block + [] == block;
  }

  /** One more line keeps two runs apart by the same leading records. */
  lemma RunShiftSnoc(p: seq<string>, q: seq<string>, last: string, pre: seq<ResponsibilityRecord>,
                     file: string, title: string)
    requires Run(p + q, file, title) == Shift(Run(q, file, title), pre)
    requires forall r :: r in pre ==> WellFormed(r, file, title)
    ensures Run(p + (q + [last]), file, title) == Shift(Run(q + [last], file, title), pre)
  {
    assert p + (q + [last]) == (p + q) + [last];
    RunSnoc(p + q, last, file, title);
    RunSnoc(q, last, file, title);
    FeedShift(Run(q, file, title), pre, Trim(last), file, title);
  }

  /** The open role with one record per child flushes to the role's block. */
  lemma BlockOfRoleState(s: Segmenter, role: string, children: seq<string>, file: string, title: string)
    requires RoleState(s, role, children, file, title)
    ensures Flush(s, file, title) == Block(role, children, file, title)
  {
    if children == [] {
      assert s.records == [];
    } else {
      assert s.records == Block(role, children, file, title);
    }
  }

  lemma BlockWellFormed(role: string, children: seq<string>, file: string, title: string)
    requires NumberedLine(role)
    requires forall k :: 0 <= k < |children| ==> NumberedLine(children[k])
    ensures forall r :: r in Block(role, children, file, title) ==> WellFormed(r, file, title)
  {
  }

  /** Records emitted in front do not change how the segmenter goes on. */
  lemma ShiftConsistent(s: Segmenter, pre: seq<ResponsibilityRecord>, file: string, title: string)
    requires Consistent(s, file, title) && forall r :: r in pre ==> WellFormed(r, file, title)
    ensures Consistent(Shift(s, pre), file, title)
  {
    if s.clause.RoleOpen? && s.clause.children > 0 {
      var all := pre + s.records;
      assert all[|all| - 1] == s.records[|s.records| - 1];
    }
  }

  lemma FlushShift(s: Segmenter, pre: seq<ResponsibilityRecord>, file: string, title: string)
    ensures Flush(Shift(s, pre), file, title) == pre + Flush(s, file, title)
  {
    match s.clause
    case RoleOpen(n, t, 0) =>
      assert pre + s.records + [Row(file, title, n, t, "", "")] == pre + (s.records + [Row(file, title, n, t, "", "")]);
    case _ =>
  }

  lemma StepShift(s: Segmenter, pre: seq<ResponsibilityRecord>, piece: string, file: string, title: string)
    requires Consistent(s, file, title) && forall r :: r in pre ==> WellFormed(r, file, title)
    ensures Consistent(Shift(s, pre), file, title)
    ensures Step(Shift(s, pre), piece, file, title) == Shift(Step(s, piece, file, title), pre)
  {
    ShiftConsistent(s, pre, file, title);
    var num := ExtractNumbering(piece).0;
    if piece == "" {
    } else if num == "" {
      if s.clause.RoleOpen? && s.clause.children > 0 {
        var all := pre + s.records;
        assert all[|all| - 1] == s.records[|s.records| - 1];
        assert all[..|all| - 1] == pre + s.records[..|s.records| - 1];
      }
    } else if s.clause.RoleOpen? && Deeper(num, s.clause.numbering) {
      StepChild(s, piece, file, title);
      StepChild(Shift(s, pre), piece, file, title);
    } else {
      StepNewRole(s, piece, file, title);
      StepNewRole(Shift(s, pre), piece, file, title);
      FlushShift(s, pre, file, title);
    }
  }

  lemma {:induction false} FeedShift(s: Segmenter, pre: seq<ResponsibilityRecord>, text: string, file: string, title: string)
    requires Consistent(s, file, title) && forall r :: r in pre ==> WellFormed(r, file, title)
    ensures Consistent(Shift(s, pre), file, title)
    ensures Feed(Shift(s, pre), text, file, title) == Shift(Feed(s, text, file, title), pre)
    decreases |text|
  {
    ShiftConsistent(s, pre, file, title);
    var (head, tail) := SplitMidline(text);
    if tail == "" {
      StepShift(s, pre, text, file, title);
    } else {
      SplitSound(text);
      StepShift(s, pre, head, file, title);
      FeedShift(Step(s, head, file, title), pre, tail, file, title);
    }
  }
}
