/**
 * The text helpers of `ResumeParser` (resume_parser.py:16-57, 77-129): choosing a
 * reader by file suffix, the largest "N years" figure, the first line that looks like a
 * name, and the lines that mention a degree.
 *
 * Reading a PDF, a DOCX or a text file is the parameter `files`: for each path it gives
 * the page texts, the paragraph texts or the file contents, or `None` when reading fails.
 */
module ResumeParsing {
  import opened Wrappers
  import opened Text
  import opened Seqs

  // ---------------- extract_text ----------------

  /** What the three libraries read from a path; `None` when they raise. */
  datatype Files = Files(
    pdfPages: string -> Option<seq<string>>,
    docxParagraphs: string -> Option<seq<string>>,
    txtContents: string -> Option<string>)

  /** The index of the last `c` in `s`. */
  function LastIndexOf(s: string, c: char): (r: Option<nat>)
    ensures r.Some? ==> r.value < |s| && s[r.value] == c && c !in s[r.value + 1..]
    ensures r.None? ==> c !in s
  {
    if s == [] then None
    else if s[|s| - 1] == c then Some(|s| - 1)
    else
      var r := LastIndexOf(s[..|s| - 1], c);
      assert s == s[..|s| - 1] + [s[|s| - 1]];
      r
  }

  /** `Path(path).name` for a path with `/` separators. */
  function BaseName(path: string): (name: string)
    ensures '/' !in name
  {
    match LastIndexOf(path, '/')
    case None => path
    case Some(i) => path[i + 1..]
  }

  /** `Path(path).suffix`: from the last dot of the name, unless that dot starts or ends it. */
  function Suffix(path: string): (r: string)
    ensures r == [] || (r[0] == '.' && '.' !in r[1..] && |r| >= 2)
  {
    var name := BaseName(path);
    match LastIndexOf(name, '.')
    case Some(i) => if 0 < i < |name| - 1 then name[i..] else []
    case None => []
  }

  /**
   * The text the reader accumulates with `text += part + "\n"`, before it is stripped.
   */
  function Joined(parts: seq<string>): string {
    if parts == [] then [] else Joined(parts[..|parts| - 1]) + parts[|parts| - 1] + "\n"
  }

  /** The loop that appends every page or paragraph followed by a newline. */
  method JoinParts(parts: seq<string>) returns (text: string)
    ensures text == Joined(parts)
  {
    text := "";
    var i := 0;
    while i < |parts|
      invariant 0 <= i <= |parts|
      invariant text == Joined(parts[..i])
    {
      assert parts[..i + 1][..i] == parts[..i];
      text := text + parts[i] + "\n";
      i := i + 1;
    }
    assert parts[..|parts|] == parts;
  }

  /** The reader for a suffix; `None` for an unsupported one. */
  datatype Reader = Pdf | Docx | Txt

  function ReaderFor(suffix: string): Option<Reader> {
    if suffix == ".pdf" then Some(Pdf)
    else if suffix == ".docx" || suffix == ".doc" then Some(Docx)
    else if suffix == ".txt" then Some(Txt)
    else None
  }

  /** What a reader returns: the stripped text, or `""` when reading fails. */
  function ReadWith(files: Files, reader: Reader, path: string): string {
    match reader
    case Pdf => (match files.pdfPages(path) case None => "" case Some(pages) => Strip(Joined(pages)))
    case Docx => (match files.docxParagraphs(path) case None => "" case Some(paragraphs) => Strip(Joined(paragraphs)))
    case Txt => (match files.txtContents(path) case None => "" case Some(contents) => Strip(contents))
  }

  /** `extract_text(file_path)`: `Failure` carries the `ValueError` message. */
  function ExtractedText(files: Files, path: string): Result<string, string> {
    var extension := Lower(Suffix(path));
    match ReaderFor(extension)
    case None => Failure("Unsupported file format: " + extension)
    case Some(reader) => Success(ReadWith(files, reader, path))
  }

  /** `_extract_from_pdf`, `_extract_from_docx` and `_extract_from_txt`, each catching every failure. */
  method ReadFile(files: Files, reader: Reader, path: string) returns (text: string)
    ensures text == ReadWith(files, reader, path)
  {
    match reader {
      case Pdf =>
        match files.pdfPages(path) {
          case None => text := "";
          case Some(pages) =>
            var joined := JoinParts(pages);
            text := Strip(joined);
        }
      case Docx =>
        match files.docxParagraphs(path) {
          case None => text := "";
          case Some(paragraphs) =>
            var joined := JoinParts(paragraphs);
            text := Strip(joined);
        }
      case Txt =>
        match files.txtContents(path) {
          case None => text := "";
          case Some(contents) => text := Strip(contents);
        }
    }
  }

  /** `extract_text(file_path)` */
  method ExtractText(files: Files, path: string) returns (r: Result<string, string>)
    ensures r == ExtractedText(files, path)
  {
    var extension := Lower(Suffix(path));
    match ReaderFor(extension) {
      case None =>
        r := Failure("Unsupported file format: " + extension);
      case Some(reader) =>
        var text := ReadFile(files, reader, path);
        r := Success(text);
    }
  }

  /** The dispatch: `.pdf`, `.docx`/`.doc` and `.txt` in any letter case pick their reader; any other suffix is refused. */
  lemma ExtractTextDispatch(files: Files, path: string)
    ensures var extension := Lower(Suffix(path));
      && (extension == ".pdf" ==> ExtractedText(files, path) == Success(ReadWith(files, Pdf, path)))
      && (extension == ".docx" || extension == ".doc" ==> ExtractedText(files, path) == Success(ReadWith(files, Docx, path)))
      && (extension == ".txt" ==> ExtractedText(files, path) == Success(ReadWith(files, Txt, path)))
      && (ExtractedText(files, path).Failure? <==> extension !in [".pdf", ".docx", ".doc", ".txt"])
      && (ExtractedText(files, path).Failure? ==> ExtractedText(files, path).error == "Unsupported file format: " + extension)
  {
  }

  /** A reader never raises: a failed read gives `""`, and any text it gives is stripped. */
  lemma ReadersReturnStrippedText(files: Files, reader: Reader, path: string)
    ensures IsStripped(ReadWith(files, reader, path))
    ensures reader == Pdf && files.pdfPages(path).None? ==> ReadWith(files, reader, path) == ""
    ensures reader == Docx && files.docxParagraphs(path).None? ==> ReadWith(files, reader, path) == ""
    ensures reader == Txt && files.txtContents(path).None? ==> ReadWith(files, reader, path) == ""
  {
    match reader
    case Pdf => if files.pdfPages(path).Some? { StripIsStripped(Joined(files.pdfPages(path).value)); }
    case Docx => if files.docxParagraphs(path).Some? { StripIsStripped(Joined(files.docxParagraphs(path).value)); }
    case Txt => if files.txtContents(path).Some? { StripIsStripped(files.txtContents(path).value); }
  }

  /** A concrete file name: `cv.PDF` is read as a PDF. */
  lemma UpperCaseSuffixIsPdf(files: Files)
    ensures ExtractedText(files, "cv.PDF") == Success(ReadWith(files, Pdf, "cv.PDF"))
  {
    var path := "cv.PDF";
    assert '/' !in path;
    assert LastIndexOf(path, '/') == None;
    assert BaseName(path) == path;
    assert path[..5] == "cv.PD" && path[..4] == "cv.P" && path[..3] == "cv.";
    assert LastIndexOf(path, '.') == Some(2);
    assert path[2..] == ".PDF";
    assert Suffix(path) == ".PDF";
    var lowered := Lower(".PDF");
    assert lowered[0] == '.' && lowered[1] == 'p' && lowered[2] == 'd' && lowered[3] == 'f';
    assert lowered == ".pdf";
  }

  // ---------------- extract_experience_years ----------------

  predicate IsDigit(c: char) {
    '0' <= c <= '9'
  }

  /** The end of the run of digits that starts at `p`. */
  function DigitRunEnd(s: string, p: nat): (q: nat)
    requires p <= |s|
    ensures p <= q <= |s| && (q == |s| || !IsDigit(s[q]))
    ensures forall k :: p <= k < q ==> IsDigit(s[k])
    decreases |s| - p
  {
    if p < |s| && IsDigit(s[p]) then DigitRunEnd(s, p + 1) else p
  }

  /** The end of the run of whitespace that starts at `p`. */
  function SpaceRunEnd(s: string, p: nat): (q: nat)
    requires p <= |s|
    ensures p <= q <= |s| && (q == |s| || !IsSpace(s[q]))
    decreases |s| - p
  {
    if p < |s| && IsSpace(s[p]) then SpaceRunEnd(s, p + 1) else p
  }

  /** `int(digits)` */
  function DigitsValue(digits: string): nat {
    if digits == [] then 0
    else DigitsValue(digits[..|digits| - 1]) * 10 + (if IsDigit(digits[|digits| - 1]) then digits[|digits| - 1] as int - '0' as int else 0)
  }

  /**
   * A match of `(\d+)\+?\s*years?` starting at `p`: the number and the end of the match.
   * Backtracking cannot help here, since a shorter digit run is followed by a digit.
   */
  function YearsMatchAt(s: string, p: nat): (r: Option<(nat, nat)>)
    requires p <= |s|
    ensures r.Some? ==> p < r.value.1 <= |s|
  {
    if p < |s| && IsDigit(s[p]) then
      var q := DigitRunEnd(s, p);
      var a := if q < |s| && s[q] == '+' then q + 1 else q;
      var b := SpaceRunEnd(s, a);
      if b + 4 <= |s| && s[b..b + 4] == "year" then
        var e := if b + 4 < |s| && s[b + 4] == 's' then b + 5 else b + 4;
        Some((DigitsValue(s[p..q]), e))
      else None
    else None
  }

  /** `re.findall` of the pattern from `p` on: the numbers of the non-overlapping matches, left to right. */
  function YearsFrom(s: string, p: nat): seq<nat>
    requires p <= |s|
    decreases |s| - p
  {
    if p == |s| then []
    else
      match YearsMatchAt(s, p)
      case Some((n, e)) => [n] + YearsFrom(s, e)
      case None => YearsFrom(s, p + 1)
  }

  /** The numbers `re.findall(r'(\d+)\+?\s*years?', text.lower())` finds. */
  function YearMentions(text: string): seq<nat> {
    YearsFrom(Lower(text), 0)
  }

  /** `extract_experience_years(text)`: the largest number found, or 0 when there is none. */
  function ExperienceYears(text: string): (r: nat)
    ensures forall k :: 0 <= k < |YearMentions(text)| ==> YearMentions(text)[k] <= r
    ensures YearMentions(text) == [] ==> r == 0
    ensures YearMentions(text) != [] ==> r in YearMentions(text)
  {
    var mentions := YearMentions(text);
    if mentions == [] then 0
    else
      var ints := seq(|mentions|, k requires 0 <= k < |mentions| => mentions[k] as int);
      var m := Max(ints);
      assert forall k :: 0 <= k < |mentions| ==> mentions[k] as int == ints[k];
      m as nat
  }

  /** A concrete text: "5+ Years" counts as 5. */
  lemma FivePlusYears()
    ensures ExperienceYears("5+ Years") == 5
  {
    var s := Lower("5+ Years");
    assert s == "5+ years";
    assert DigitRunEnd(s, 1) == 1;
    assert DigitRunEnd(s, 0) == 1;
    assert SpaceRunEnd(s, 3) == 3;
    assert SpaceRunEnd(s, 2) == 3;
    assert s[3..7] == "year";
    assert s[0..1] == "5";
    assert DigitsValue("5") == 5 by { assert "5"[..0] == []; }
    assert YearsMatchAt(s, 0) == Some((5, 8));
    assert YearsFrom(s, 8) == [];
    assert YearMentions("5+ Years") == [5];
  }

  // ---------------- extract_name fallback ----------------

  /** `line and len(line.split()) <= 4 and len(line) < 50`, on a stripped line. */
  predicate LooksLikeName(line: string) {
    line != [] && |Words(line)| <= 4 && |line| < 50
  }

  /** `text.split('\n')` */
  function Lines(text: string): seq<string> {
    Split(text, '\n')
  }

  /** The first line whose stripped text passes `accept`, stripped. */
  function FirstStrippedWhere(lines: seq<string>, accept: string -> bool): Option<string> {
    if lines == [] then None
    else if accept(Strip(lines[0])) then Some(Strip(lines[0]))
    else FirstStrippedWhere(lines[1..], accept)
  }

  /** Line `i` is the first whose stripped text passes `accept`. */
  predicate FirstLineWhere(lines: seq<string>, accept: string -> bool, i: int) {
    0 <= i < |lines| && accept(Strip(lines[i]))
    && forall j :: 0 <= j < i ==> !accept(Strip(lines[j]))
  }

  /** A line is found only as the first that passes, and nothing is found only when no line passes. */
  lemma FirstStrippedWhereIsFirst(lines: seq<string>, accept: string -> bool)
    ensures FirstStrippedWhere(lines, accept).Some? ==>
      exists i :: FirstLineWhere(lines, accept, i) && FirstStrippedWhere(lines, accept).value == Strip(lines[i])
    ensures FirstStrippedWhere(lines, accept).None? <==> forall i :: 0 <= i < |lines| ==> !accept(Strip(lines[i]))
  {
    if FirstStrippedWhere(lines, accept).Some? {
      var i := FirstFound(lines, accept);
    } else {
      FirstMissing(lines, accept);
    }
  }

  lemma {:induction false} FirstFound(lines: seq<string>, accept: string -> bool) returns (i: nat)
    requires FirstStrippedWhere(lines, accept).Some?
    ensures FirstLineWhere(lines, accept, i) && FirstStrippedWhere(lines, accept).value == Strip(lines[i])
  {
    if accept(Strip(lines[0])) {
      i := 0;
    } else {
      var rest := lines[1..];
      var k := FirstFound(rest, accept);
      i := k + 1;
      forall j | 0 <= j < i ensures !accept(Strip(lines[j])) {
        if j > 0 { assert lines[j] == rest[j - 1]; }
      }
      assert lines[i] == rest[k];
    }
  }

  lemma {:induction false} FirstMissing(lines: seq<string>, accept: string -> bool)
    requires FirstStrippedWhere(lines, accept).None?
    ensures forall i :: 0 <= i < |lines| ==> !accept(Strip(lines[i]))
  {
    if lines != [] {
      var rest := lines[1..];
      FirstMissing(rest, accept);
      forall i | 0 <= i < |lines| ensures !accept(Strip(lines[i])) {
        if i > 0 { assert lines[i] == rest[i - 1]; }
      }
    }
  }

  /**
   * The fallback of `extract_name`: the first stripped line that is short enough, or
   * `None` when no line is.
   */
  method NameFromFirstLines(text: string) returns (name: Option<string>)
    ensures name == FirstStrippedWhere(Lines(text), LooksLikeName)
  {
    var lines := Lines(text);
    var i := 0;
    while i < |lines|
      invariant 0 <= i <= |lines|
      invariant FirstStrippedWhere(lines[i..], LooksLikeName) == FirstStrippedWhere(lines, LooksLikeName)
    {
      var line := Strip(lines[i]);
      if LooksLikeName(line) {
        return Some(line);
      }
      assert lines[i..][1..] == lines[i + 1..];
      i := i + 1;
    }
    return None;
  }

  /** The name is the first line that looks like one, and none is given only when no line does. */
  lemma NameIsFirstShortLine(text: string)
    ensures FirstStrippedWhere(Lines(text), LooksLikeName).Some? ==>
      exists i :: FirstLineWhere(Lines(text), LooksLikeName, i)
        && FirstStrippedWhere(Lines(text), LooksLikeName).value == Strip(Lines(text)[i])
    ensures FirstStrippedWhere(Lines(text), LooksLikeName).None? <==>
      forall i :: 0 <= i < |Lines(text)| ==> !LooksLikeName(Strip(Lines(text)[i]))
  {
    FirstStrippedWhereIsFirst(Lines(text), LooksLikeName);
  }

  // ---------------- extract_education ----------------

  /** `education_keywords` */
  const EducationKeywords: seq<string> :=
    ["Bachelor", "Master", "PhD", "B.Tech", "M.Tech", "MBA", "B.Sc", "M.Sc",
     "BCA", "MCA", "BE", "ME", "B.E", "M.E", "Diploma", "Certificate"]

  /** The test of `extract_education`: some keyword, lowercased, occurs anywhere in the lowercased line. */
  predicate MentionsEducation(line: string) {
    exists k :: 0 <= k < |EducationKeywords| && Contains(Lower(line), Lower(EducationKeywords[k]))
  }

  /** The inner loop: whether the line mentions a keyword, trying the keywords in order until one matches. */
  method FirstKeywordMatch(line: string) returns (found: bool)
    ensures found <==> MentionsEducation(line)
  {
    var lowered := Lower(line);
    var k := 0;
    while k < |EducationKeywords|
      invariant 0 <= k <= |EducationKeywords|
      invariant forall j :: 0 <= j < k ==> !Contains(lowered, Lower(EducationKeywords[j]))
    {
      if Contains(lowered, Lower(EducationKeywords[k])) {
        return true;
      }
      k := k + 1;
    }
    return false;
  }

  /** The stripped lines that mention a keyword, in order, repeats included. */
  function EducationLines(lines: seq<string>): seq<string> {
    if lines == [] then []
    else
      var rest := EducationLines(lines[..|lines| - 1]);
      if MentionsEducation(lines[|lines| - 1]) then rest + [Strip(lines[|lines| - 1])] else rest
  }

  /** Every member of `EducationLines` is a stripped line that mentions a keyword. */
  lemma {:induction false} EducationLinesSound(lines: seq<string>, x: string)
    requires x in EducationLines(lines)
    ensures exists i :: 0 <= i < |lines| && MentionsEducation(lines[i]) && x == Strip(lines[i])
  {
    var init := lines[..|lines| - 1];
    if x in EducationLines(init) {
      EducationLinesSound(init, x);
      var i :| 0 <= i < |init| && MentionsEducation(init[i]) && x == Strip(init[i]);
      assert lines[i] == init[i];
    } else {
      assert MentionsEducation(lines[|lines| - 1]) && x == Strip(lines[|lines| - 1]);
    }
  }

  /** Every line that mentions a keyword is in `EducationLines`, stripped. */
  lemma {:induction false} EducationLinesComplete(lines: seq<string>, i: nat)
    requires i < |lines| && MentionsEducation(lines[i])
    ensures Strip(lines[i]) in EducationLines(lines)
  {
    var init := lines[..|lines| - 1];
    if i < |init| {
      assert init[i] == lines[i];
      EducationLinesComplete(init, i);
    }
  }

  /**
   * `extract_education(text)`: the stripped lines that mention a keyword, once each.
   * `list(set(...))` fixes no order, so the contract fixes none either.
   */
  method ExtractEducation(text: string) returns (education: seq<string>)
    ensures Distinct(education)
    ensures forall x :: x in education <==> x in EducationLines(Lines(text))
  {
    var lines := Lines(text);
    var kept := EducationLinesOf(lines);
    education := Dedup(kept);
    forall x ensures x in education <==> x in kept {
      DedupMembership(kept, x);
    }
  }

  /** The loop of `extract_education`: each line that mentions a keyword is kept, stripped. */
  method EducationLinesOf(lines: seq<string>) returns (kept: seq<string>)
    ensures kept == EducationLines(lines)
  {
    kept := [];
    var i := 0;
    while i < |lines|
      invariant 0 <= i <= |lines|
      invariant kept == EducationLines(lines[..i])
    {
      assert lines[..i + 1][..i] == lines[..i];
      var found := FirstKeywordMatch(lines[i]);
      if found {
        kept := kept + [Strip(lines[i])];
      }
      i := i + 1;
    }
    assert lines[..|lines|] == lines;
  }

  /** As written, a line containing "me" or "be" inside any word counts as education. */
  lemma MemberCountsAsEducation()
    ensures MentionsEducation("Member")
  {
    assert Lower("Member") == "member";
    assert Lower(EducationKeywords[11]) == "me";
    assert OccursAt("member", "me", 0);
  }

  predicate IsWordChar(c: char) {
    ('a' <= c <= 'z') || ('A' <= c <= 'Z') || IsDigit(c)
  }

  /** `t` occurs in `s` at `i` with no letter or digit directly before or after it. */
  predicate OccursAsWord(s: string, t: string, i: nat) {
    OccursAt(s, t, i)
    && (i == 0 || !IsWordChar(s[i - 1]))
    && (i + |t| == |s| || !IsWordChar(s[i + |t|]))
  }

  /** The intended test: a keyword, lowercased, occurs as a whole word of the lowercased line. */
  ghost predicate MentionsEducationWord(line: string) {
    exists k: nat, i: nat :: k < |EducationKeywords| && OccursAsWord(Lower(line), Lower(EducationKeywords[k]), i)
  }

  /** The intended test accepts only lines the written one accepts. */
  lemma WordMatchIsSubstringMatch(line: string)
    requires MentionsEducationWord(line)
    ensures MentionsEducation(line)
  {
    var k: nat, i: nat :| k < |EducationKeywords| && OccursAsWord(Lower(line), Lower(EducationKeywords[k]), i);
    assert Contains(Lower(line), Lower(EducationKeywords[k]));
  }

  /** A match at `i` fixes the characters of `s` from `i` on. */
  lemma OccursAtChars(s: string, t: string, i: nat)
    ensures OccursAt(s, t, i) ==> forall j :: 0 <= j < |t| ==> s[i + j] == t[j]
  {
    if OccursAt(s, t, i) {
      forall j | 0 <= j < |t| ensures s[i + j] == t[j] {
        assert s[i..i + |t|][j] == s[i + j];
      }
    }
  }

  /** Under the intended test "Member" is not a degree. */
  lemma WordMatchRejectsMember()
    ensures !MentionsEducationWord("Member")
  {
    var s := Lower("Member");
    assert s[0] == 'm' && s[1] == 'e' && s[2] == 'm' && s[3] == 'b' && s[4] == 'e' && s[5] == 'r';
    forall k: nat, i: nat | k < |EducationKeywords| ensures !OccursAsWord(s, Lower(EducationKeywords[k]), i) {
      OccursAtChars(s, Lower(EducationKeywords[k]), i);
    }
  }

  /** Under the intended test "BE in Computer Science" still names a degree. */
  lemma WordMatchKeepsDegree()
    ensures MentionsEducationWord("BE in Computer Science")
  {
    var u := Lower("BE in Computer Science");
    var be := Lower(EducationKeywords[10]);
    assert u[0] == 'b' && u[1] == 'e' && u[2] == ' ';
    assert be[0] == 'b' && be[1] == 'e' && |be| == 2;
    assert u[0..2] == be;
    assert OccursAsWord(u, be, 0);
  }
}
