/** The spreadsheet importer: it turns a workbook, one sheet per root
    symptom, into knowledge-base protocols. Each sheet is read row by row
    through a small state machine: a first cell holding "PREGUNTA" or
    "RECOMENDACION" switches to the questions or recommendations section,
    a first cell holding a classification marker switches to the
    classification section and is itself read as a rule, and every other
    non-blank row is read in the current section. A CSV file takes a
    second path that is given here as its per-symptom protocols. */
module Excel {
  import opened Wrappers
  import opened Text
  import opened Codes
  import opened Knowledge
  import opened Inference

  /** A worksheet row as openpyxl yields it: one value per cell, `None` for an empty cell. */
  type Row = seq<Value>

  /** A worksheet: its title and its rows from the first one on. */
  datatype Sheet = Sheet(name: string, rows: seq<Row>)

  /** `any(row)` */
  predicate AnyTruthy(row: Row) {
    exists i :: 0 <= i < |row| && row[i].Truthy()
  }

  /** `str(row[k]).strip() if len(row) > k and row[k] else ""` */
  function CellText(row: Row, k: nat): string {
    if k < |row| && row[k].Truthy() then Strip(row[k].Render()) else ""
  }

  /** The first cell as the section detector reads it: stripped and upper-cased, "" when falsy. */
  function FirstCell(row: Row): string {
    Upper(CellText(row, 0))
  }

  // ---------------------------------------------------------------------
  // Questions and recommendations

  const QuestionHeaders: seq<string> := ["PREGUNTA", "PREGUNTAS OBLIGATORIAS"]
  const RecommendationHeaders: seq<string> := ["RECOMENDACION", "RECOMENDACIONES"]

  const AnswerTypes: seq<string> := ["si_no", "valor", "multiple"]

  /** The answer type written in the second cell, already stripped and lower-cased. */
  function AnswerType(written: string): (t: string)
    ensures t in AnswerTypes
    ensures t == "valor" <==> written in ["numero", "n\U{00FA}mero", "valor"]
    ensures t == "multiple" <==> written in ["multiple", "opcion"]
  {
    if written in ["numero", "n\U{00FA}mero", "valor"] then "valor"
    else if written in ["multiple", "opcion"] then "multiple"
    else "si_no"
  }

  /** `_parse_pregunta`: a question from a row whose first cell is set and
      is not a header; `hash` is Python's string hash, which gives the id. */
  function ParseQuestion(row: Row, hash: string -> int): (r: Option<Question>)
    ensures r.None? <==> !(|row| > 0 && row[0].Truthy()) || Upper(CellText(row, 0)) in QuestionHeaders
    ensures r.Some? ==> r.value.text == CellText(row, 0) && r.value.weight == 1.0
                        && r.value.answerType == AnswerType(Lower(CellText(row, 1)))
                        && StartsWith(r.value.id, "q_")
  {
    if !(|row| > 0 && row[0].Truthy()) then None
    else
      var text := Strip(row[0].Render());
      if Upper(text) in QuestionHeaders then None
      else
        var id := "q_" + NatToString(hash(text) % 10000);
        assert id[..2] == "q_";
        Some(Question(id, text, AnswerType(Lower(CellText(row, 1))), 1.0))
  }

  /** `_parse_recomendacion`: the stripped first cell, unless it is unset or a header. */
  function ParseRecommendation(row: Row): (r: Option<string>)
    ensures r.None? <==> !(|row| > 0 && row[0].Truthy()) || Upper(CellText(row, 0)) in RecommendationHeaders
    ensures r.Some? ==> r.value == CellText(row, 0)
  {
    if !(|row| > 0 && row[0].Truthy()) then None
    else
      var text := Strip(row[0].Render());
      if Upper(text) in RecommendationHeaders then None else Some(text)
  }

  /** A question id is "q_" followed by at most four digits. */
  lemma {:induction false} QuestionIdLength(row: Row, hash: string -> int)
    requires ParseQuestion(row, hash).Some?
    ensures 3 <= |ParseQuestion(row, hash).value.id| <= 6
  {
    var n := hash(Strip(row[0].Render())) % 10000;
    assert ParseQuestion(row, hash).value.id == "q_" + NatToString(n);
    AtMostFourDigits(n);
  }

  lemma {:induction false} AtMostFourDigits(n: nat)
    requires n < 10000
    ensures |NatToString(n)| <= 4
  {
    if n >= 10 {
      assert |NatToString(n)| == |NatToString(n / 10)| + 1;
      if n / 10 >= 10 {
        assert |NatToString(n / 10)| == |NatToString(n / 10 / 10)| + 1;
        if n / 10 / 10 >= 10 {
          assert |NatToString(n / 10 / 10)| == |NatToString(n / 10 / 10 / 10)| + 1;
          assert n / 10 / 10 / 10 < 10;
        }
      }
    }
  }

  // ---------------------------------------------------------------------
  // Classification rules

  /** Whether a (stripped, upper-cased) first cell carries the marker of a code. */
  predicate Marked(c: Code, cell: string) {
    match c
    case D1 => Contains(cell, "D1") || Contains(cell, "EMERGENCIA") || Contains(cell, "01")
    case D2 => Contains(cell, "D2") || (Contains(cell, "URGENCIA") && !Contains(cell, "BAJA")) || Contains(cell, "02")
    case D7 => Contains(cell, "D7") || Contains(cell, "BAJA COMPLEJIDAD") || Contains(cell, "07")
    case D3 => Contains(cell, "D3") || Contains(cell, "CONSULTA") || Contains(cell, "03")
  }

  /** The code detection of `_parse_clasificacion`: the markers are tried
      in the order D1, D2, D7, D3. */
  function DetectCode(cell: string): (r: Option<Code>)
    ensures r.Some? ==> Marked(r.value, cell)
    ensures r.None? ==> forall c: Code :: !Marked(c, cell)
  {
    if Marked(D1, cell) then Some(D1)
    else if Marked(D2, cell) then Some(D2)
    else if Marked(D7, cell) then Some(D7)
    else if Marked(D3, cell) then Some(D3)
    else None
  }

  /** The detected code is the most urgent code whose marker the cell
      carries; no code is detected exactly when the cell carries no marker. */
  lemma {:induction false} DetectCodeMostUrgent(cell: string)
    ensures DetectCode(cell).None? <==> forall c: Code :: !Marked(c, cell)
    ensures DetectCode(cell).Some? ==>
      Marked(DetectCode(cell).value, cell)
      && forall c: Code :: Marked(c, cell) ==> Priority(c) <= Priority(DetectCode(cell).value)
  {
    forall c: Code | Marked(c, cell)
      ensures DetectCode(cell).Some? && Priority(c) <= Priority(DetectCode(cell).value)
    {
      match c
      case D1 =>
      case D2 =>
      case D7 =>
      case D3 =>
    }
  }

  /** The causes cell split at commas, each piece stripped, empty pieces dropped. */
  function Causes(text: string): (r: seq<string>)
    ensures forall k :: 0 <= k < |r| ==> r[k] != []
    ensures |r| <= |SplitCommas(text)|
  {
    NonEmptyShorter(StripAll(SplitCommas(text)));
    NonEmpty(StripAll(SplitCommas(text)))
  }

  function StripAll(pieces: seq<string>): (r: seq<string>)
    ensures |r| == |pieces| && forall k :: 0 <= k < |r| ==> r[k] == Strip(pieces[k])
  {
    seq(|pieces|, k requires 0 <= k < |pieces| => Strip(pieces[k]))
  }

  /** A cause as the importer stores it: non-empty, stripped, without a comma. */
  predicate CleanCause(c: string) {
    c != [] && !IsSpace(c[0]) && !IsSpace(c[|c| - 1]) && ',' !in c
  }

  /** Every stored cause is clean. */
  lemma {:induction false} CausesClean(text: string)
    ensures forall k :: 0 <= k < |Causes(text)| ==> CleanCause(Causes(text)[k])
  {
    var pieces := SplitCommas(text);
    var stripped := StripAll(pieces);
    forall k | 0 <= k < |Causes(text)| ensures CleanCause(Causes(text)[k]) {
      var c := Causes(text)[k];
      assert c in stripped;
      var j :| 0 <= j < |stripped| && stripped[j] == c;
      CleanPiece(pieces[j]);
    }
  }

  /** A comma-free piece that is not all whitespace strips to a clean cause. */
  lemma {:induction false} CleanPiece(piece: string)
    requires ',' !in piece && Strip(piece) != []
    ensures CleanCause(Strip(piece))
  {
    StripKeepsChars(piece);
  }

  /** Splitting a comma-joined list at its commas: the first piece keeps
      what stood before it, every later one the padding after its comma. */
  lemma {:induction false} SplitJoined(pre: string, xs: seq<string>, pad: string)
    requires xs != []
    requires ',' !in pre && ',' !in pad
    requires forall k :: 0 <= k < |xs| ==> CleanCause(xs[k])
    ensures var s := SplitCommas(pre + Join(xs, "," + pad));
      |s| == |xs| && s[0] == pre + xs[0] && forall k :: 1 <= k < |xs| ==> s[k] == pad + xs[k]
    decreases |xs|
  {
    assert CleanCause(xs[0]);
    if |xs| == 1 {
      SplitWithoutComma(pre + xs[0]);
    } else {
      var rest := Join(xs[1..], "," + pad);
      assert Join(xs, "," + pad) == xs[0] + ("," + pad) + rest;
      Regroup(pre, xs[0], pad, rest);
      SplitAtComma(pre + xs[0], pad + rest);
      SplitJoined(pad, xs[1..], pad);
      assert forall k :: 1 <= k < |xs| ==> xs[1..][k - 1] == xs[k];
    }
  }

  lemma {:induction false} Regroup(pre: string, x: string, pad: string, rest: string)
    ensures pre + (x + ("," + pad) + rest) == (pre + x) + "," + (pad + rest)
  {
  }

  lemma {:induction false} NonEmptyKeepsAll(xs: seq<string>)
    requires forall k :: 0 <= k < |xs| ==> xs[k] != []
    ensures NonEmpty(xs) == xs
    decreases |xs|
  {
    if xs != [] {
      NonEmptyKeepsAll(xs[1..]);
    }
  }

  lemma {:induction false} StripCause(pre: string, x: string)
    requires AllSpace(pre) && CleanCause(x)
    ensures Strip(pre + x) == x
  {
    assert pre + x + "" == pre + x;
    StripPadded(pre, x, "");
    StripNoOp(x);
  }

  /** Causes written as clean names separated by ", " are read back as
      exactly those names, in order. */
  lemma {:induction false} CausesRoundTrip(xs: seq<string>)
    requires forall k :: 0 <= k < |xs| ==> CleanCause(xs[k])
    ensures Causes(Join(xs, ", ")) == xs
  {
    if xs == [] {
      assert SplitCommas("") == [""];
      assert StripAll([""]) == [""];
    } else {
      JoinedPiecesStrip(xs);
      NonEmptyKeepsAll(xs);
    }
  }

  /** Stripping the comma-separated pieces of a ", "-joined list gives the list. */
  lemma {:induction false} JoinedPiecesStrip(xs: seq<string>)
    requires xs != [] && forall k :: 0 <= k < |xs| ==> CleanCause(xs[k])
    ensures StripAll(SplitCommas(Join(xs, ", "))) == xs
  {
    SplitCommaSpace(xs);
    var s := SplitCommas(Join(xs, ", "));
    forall k | 0 <= k < |xs| ensures StripAll(s)[k] == xs[k] {
      if k == 0 {
        StripNoOp(xs[0]);
      } else {
        StripCause(" ", xs[k]);
      }
    }
  }

  /** The pieces of a ", "-joined list: the first name, then each later
      name behind its space. */
  lemma {:induction false} SplitCommaSpace(xs: seq<string>)
    requires xs != [] && forall k :: 0 <= k < |xs| ==> CleanCause(xs[k])
    ensures var s := SplitCommas(Join(xs, ", "));
      |s| == |xs| && s[0] == xs[0] && forall k :: 1 <= k < |xs| ==> s[k] == " " + xs[k]
  {
    assert "," + " " == ", ";
    assert "" + Join(xs, ", ") == Join(xs, ", ");
    SplitJoined("", xs, " ");
  }

  /** `_parse_clasificacion`: a rule from a row whose first cell is set and
      carries a code marker; the other four cells are the condition
      question, the expected answer, the instruction and the causes. */
  function ParseRule(row: Row): (r: Option<Rule>)
    ensures r.None? <==> !(|row| > 0 && row[0].Truthy()) || DetectCode(FirstCell(row)).None?
    ensures r.Some? ==> IsCodeName(r.value.code) && ParseCode(r.value.code) == DetectCode(FirstCell(row))
    ensures r.Some? ==> r.value.condition == Condition(CellText(row, 1), CellText(row, 2))
    ensures r.Some? ==> r.value.instruction == CellText(row, 3) && r.value.causes == Causes(CellText(row, 4))
  {
    if !(|row| > 0 && row[0].Truthy()) then None
    else
      match DetectCode(FirstCell(row))
      case None => None
      case Some(c) =>
        ParseName(Name(c), c);
        Some(Rule(Name(c), Condition(CellText(row, 1), CellText(row, 2)), CellText(row, 3),
                  Causes(CellText(row, 4))))
  }

  // ---------------------------------------------------------------------
  // The sheet reader

  /** `current_section`; `NoSection` is the `None` before the first header. */
  datatype Section = NoSection | InQuestions | InRecommendations | InClassification

  const ClassificationMarkers: seq<string> :=
    ["CODIGO", "C\U{00D3}DIGO", "CLASIFICACION", "D1", "D2", "D7", "D3"]

  /** Where the sheet reader stands after some rows: the current section
      and the three lists collected so far. */
  datatype SheetState = SheetState(
    section: Section,
    questions: seq<Question>,
    recommendations: seq<string>,
    rules: seq<Rule>)

  const Start := SheetState(NoSection, [], [], [])

  /** The first cell names the questions section. */
  predicate QuestionHeader(row: Row) {
    Contains(FirstCell(row), "PREGUNTA")
  }

  /** The first cell names the recommendations section. */
  predicate RecommendationHeader(row: Row) {
    Contains(FirstCell(row), "RECOMENDACION")
  }

  /** The first cell carries a classification marker. */
  predicate ClassificationHeader(row: Row) {
    AnyPatternIn(ClassificationMarkers, FirstCell(row))
  }

  predicate IsHeader(row: Row) {
    QuestionHeader(row) || RecommendationHeader(row) || ClassificationHeader(row)
  }

  /** The section the reader is in after a row: blank rows change nothing,
      headers switch, the question header winning over the other two. */
  function NextSection(current: Section, row: Row): Section {
    if !AnyTruthy(row) then current
    else if QuestionHeader(row) then InQuestions
    else if RecommendationHeader(row) then InRecommendations
    else if ClassificationHeader(row) then InClassification
    else current
  }

  /** What one row contributes: nothing, or one item for one of the lists. */
  datatype Yield = Nothing | NewQuestion(q: Question) | NewRecommendation(text: string) | NewRule(rule: Rule)

  /** A row read in a section. */
  function Read(section: Section, row: Row, hash: string -> int): Yield {
    match section
    case NoSection => Nothing
    case InQuestions =>
      (match ParseQuestion(row, hash)
       case Some(q) => NewQuestion(q)
       case None => Nothing)
    case InRecommendations =>
      (match ParseRecommendation(row)
       case Some(t) => NewRecommendation(t)
       case None => Nothing)
    case InClassification =>
      (match ParseRule(row)
       case Some(r) => NewRule(r)
       case None => Nothing)
  }

  /** What a row yields: blank rows and question or recommendation headers
      yield nothing (the loop continues); every other row, a
      classification header included, is read in the section it leaves
      the reader in. */
  function Yielded(current: Section, row: Row, hash: string -> int): Yield {
    if !AnyTruthy(row) || QuestionHeader(row) || RecommendationHeader(row) then Nothing
    else Read(NextSection(current, row), row, hash)
  }

  /** Appends a row's contribution to its list. */
  function Add(st: SheetState, y: Yield): SheetState {
    match y
    case Nothing => st
    case NewQuestion(q) => st.(questions := st.questions + [q])
    case NewRecommendation(t) => st.(recommendations := st.recommendations + [t])
    case NewRule(r) => st.(rules := st.rules + [r])
  }

  /** One iteration of the row loop of `_extract_sheet_data`. */
  function Step(st: SheetState, row: Row, hash: string -> int): SheetState {
    Add(st.(section := NextSection(st.section, row)), Yielded(st.section, row, hash))
  }

  /** The reader's state after the given rows. */
  function Scan(rows: seq<Row>, hash: string -> int): SheetState
    decreases |rows|
  {
    if rows == [] then Start
    else Step(Scan(rows[..|rows| - 1], hash), rows[|rows| - 1], hash)
  }

  /** The protocol a sheet yields: its lower-cased, stripped title as root
      symptom and the lists the reader collected. */
  function SheetProtocol(sheet: Sheet, hash: string -> int): (p: Protocol)
    ensures IsLowerCase(p.root)
    ensures |p.questions| + |p.recommendations| + |p.rules| <= |sheet.rows|
  {
    StripKeepsLowerCase(Lower(sheet.name));
    ScanGrows(sheet.rows, 0, hash);
    assert sheet.rows[..0] == [];
    var st := Scan(sheet.rows, hash);
    Protocol(Strip(Lower(sheet.name)), st.questions, st.recommendations, st.rules)
  }

  /** Reading one more row is one more step. */
  lemma {:induction false} ScanNext(rows: seq<Row>, k: nat, hash: string -> int)
    requires k < |rows|
    ensures Scan(rows[..k + 1], hash) == Step(Scan(rows[..k], hash), rows[k], hash)
  {
    assert rows[..k + 1][..k] == rows[..k];
  }

  /** The same step, with the section and the yield the row reader computed. */
  lemma {:induction false} ScanStep(rows: seq<Row>, i: nat, hash: string -> int, st: SheetState, next: Section, y: Yield)
    requires i < |rows| && st == Scan(rows[..i], hash)
    requires next == NextSection(st.section, rows[i]) && y == Yielded(st.section, rows[i], hash)
    ensures Scan(rows[..i + 1], hash) == Add(st.(section := next), y)
  {
    ScanNext(rows, i, hash);
  }

  /** The body of the row loop of `_extract_sheet_data`: the section after
      the row and what the row yields. */
  method ReadRow(section: Section, row: Row, hash: string -> int) returns (next: Section, y: Yield)
    ensures next == NextSection(section, row) && y == Yielded(section, row, hash)
  {
    next, y := section, Nothing;
    if !AnyTruthy(row) {
      return;
    }
    var first := FirstCell(row);
    if Contains(first, "PREGUNTA") {
      next := InQuestions;
      return;
    } else if Contains(first, "RECOMENDACION") {
      next := InRecommendations;
      return;
    } else if AnyPatternIn(ClassificationMarkers, first) {
      next := InClassification;
    }
    if next == InQuestions {
      var q := ParseQuestion(row, hash);
      if q.Some? {
        y := NewQuestion(q.value);
      }
    } else if next == InRecommendations {
      var t := ParseRecommendation(row);
      if t.Some? {
        y := NewRecommendation(t.value);
      }
    } else if next == InClassification {
      var r := ParseRule(row);
      if r.Some? {
        y := NewRule(r.value);
      }
    }
  }

  /** `_extract_sheet_data`: one pass over the rows. */
  method ExtractSheetData(sheet: Sheet, hash: string -> int) returns (p: Protocol)
    ensures p == SheetProtocol(sheet, hash)
  {
    var rows := sheet.rows;
    var section := NoSection;
    var questions: seq<Question> := [];
    var recommendations: seq<string> := [];
    var rules: seq<Rule> := [];
    var i := 0;
    while i < |rows|
      invariant 0 <= i <= |rows|
      invariant SheetState(section, questions, recommendations, rules) == Scan(rows[..i], hash)
    {
      ghost var before := SheetState(section, questions, recommendations, rules);
      var y;
      section, y := ReadRow(section, rows[i], hash);
      ScanStep(rows, i, hash, before, section, y);
      match y {
        case Nothing =>
        case NewQuestion(q) => questions := questions + [q];
        case NewRecommendation(t) => recommendations := recommendations + [t];
        case NewRule(r) => rules := rules + [r];
      }
      i := i + 1;
    }
    assert rows[..i] == rows;
    p := Protocol(Strip(Lower(sheet.name)), questions, recommendations, rules);
  }

  // ---------------------------------------------------------------------
  // What the sheet reader promises

  /** One row adds at most one item, to the list of the section it is
      read in, and never removes or reorders anything. */
  lemma {:induction false} StepAppendsAtMostOne(st: SheetState, row: Row, hash: string -> int)
    ensures var s := Step(st, row, hash);
      st.questions <= s.questions && st.recommendations <= s.recommendations && st.rules <= s.rules
      && |s.questions| + |s.recommendations| + |s.rules|
           <= |st.questions| + |st.recommendations| + |st.rules| + 1
    ensures var s := Step(st, row, hash);
      (|s.questions| > |st.questions| ==> s.section == InQuestions)
      && (|s.recommendations| > |st.recommendations| ==> s.section == InRecommendations)
      && (|s.rules| > |st.rules| ==> s.section == InClassification)
  {
    var section := NextSection(st.section, row);
    var y := Yielded(st.section, row, hash);
    if y != Nothing {
      assert AnyTruthy(row) && y == Read(section, row, hash);
    }
  }

  /** The lists only grow: reading more rows keeps what earlier rows
      yielded, in order, and every row adds at most one item. */
  lemma {:induction false} ScanGrows(rows: seq<Row>, k: nat, hash: string -> int)
    requires k <= |rows|
    ensures var a, b := Scan(rows[..k], hash), Scan(rows, hash);
      a.questions <= b.questions && a.recommendations <= b.recommendations && a.rules <= b.rules
      && |b.questions| + |b.recommendations| + |b.rules|
           <= |a.questions| + |a.recommendations| + |a.rules| + (|rows| - k)
    decreases |rows| - k
  {
    if k == |rows| {
      assert rows[..k] == rows;
    } else {
      ScanGrows(rows, k + 1, hash);
      ScanNext(rows, k, hash);
      StepAppendsAtMostOne(Scan(rows[..k], hash), rows[k], hash);
    }
  }

  /** Rows before the first header yield nothing: a sheet without any
      header row gives empty lists. */
  lemma {:induction false} NothingBeforeHeader(rows: seq<Row>, hash: string -> int)
    requires forall i :: 0 <= i < |rows| ==> !IsHeader(rows[i])
    ensures Scan(rows, hash) == Start
    decreases |rows|
  {
    if rows != [] {
      var init := rows[..|rows| - 1];
      assert forall i :: 0 <= i < |init| ==> init[i] == rows[i];
      NothingBeforeHeader(init, hash);
      var row := rows[|rows| - 1];
      assert !IsHeader(row);
      assert NextSection(NoSection, row) == NoSection;
      assert Read(NoSection, row, hash) == Nothing;
    }
  }

  /** Every rule the reader collects carries a code name of the priority
      table and clean causes. */
  predicate RulesWellFormed(rules: seq<Rule>) {
    forall k :: 0 <= k < |rules| ==>
      (IsCodeName(rules[k].code) && forall j :: 0 <= j < |rules[k].causes| ==> CleanCause(rules[k].causes[j]))
  }

  lemma {:induction false} ParsedRuleWellFormed(row: Row)
    requires ParseRule(row).Some?
    ensures RulesWellFormed([ParseRule(row).value])
  {
    CausesClean(CellText(row, 4));
  }

  /** A row adds to the rules only the rule `_parse_clasificacion` reads from it. */
  lemma {:induction false} StepRules(st: SheetState, row: Row, hash: string -> int)
    ensures var s := Step(st, row, hash);
      s.rules == st.rules || (ParseRule(row).Some? && s.rules == st.rules + [ParseRule(row).value])
  {
    var y := Yielded(st.section, row, hash);
    if y.NewRule? {
      assert y == Read(NextSection(st.section, row), row, hash);
    }
  }

  lemma {:induction false} WellFormedAppend(rules: seq<Rule>, r: Rule)
    requires RulesWellFormed(rules) && RulesWellFormed([r])
    ensures RulesWellFormed(rules + [r])
  {
    var all := rules + [r];
    forall k | 0 <= k < |all|
      ensures IsCodeName(all[k].code) && forall j :: 0 <= j < |all[k].causes| ==> CleanCause(all[k].causes[j])
    {
      if k < |rules| {
        assert all[k] == rules[k];
      } else {
        assert all[k] == [r][0];
      }
    }
  }

  lemma {:induction false} ScanRulesWellFormed(rows: seq<Row>, hash: string -> int)
    ensures RulesWellFormed(Scan(rows, hash).rules)
    decreases |rows|
  {
    if rows != [] {
      var before := Scan(rows[..|rows| - 1], hash);
      var row := rows[|rows| - 1];
      ScanRulesWellFormed(rows[..|rows| - 1], hash);
      var after := Scan(rows, hash).rules;
      assert after == Step(before, row, hash).rules;
      StepRules(before, row, hash);
      if after != before.rules {
        ParsedRuleWellFormed(row);
        WellFormedAppend(before.rules, ParseRule(row).value);
      }
    }
  }

  /** Under a question header a row with a set first cell always yields a
      question (the header test of `_parse_pregunta` never fires here:
      such a row would have been taken as a header), unless its first cell
      carries another section's marker. */
  lemma {:induction false} QuestionRowKept(st: SheetState, row: Row, hash: string -> int)
    requires st.section == InQuestions && |row| > 0 && row[0].Truthy()
    requires !IsHeader(row)
    ensures var s := Step(st, row, hash);
      s.section == InQuestions && |s.questions| == |st.questions| + 1
      && s.questions[|st.questions|].text == CellText(row, 0)
  {
    assert AnyTruthy(row) by { assert row[0].Truthy(); }
    PlainRow(st.section, row, hash);
    HeaderTextsCarryMarkers(row);
    assert ParseQuestion(row, hash).Some?;
  }

  /** Under a recommendation header a row with a set first cell always
      yields that cell's text, unless it carries another section's marker. */
  lemma {:induction false} RecommendationRowKept(st: SheetState, row: Row, hash: string -> int)
    requires st.section == InRecommendations && |row| > 0 && row[0].Truthy()
    requires !IsHeader(row)
    ensures Step(st, row, hash).recommendations == st.recommendations + [CellText(row, 0)]
  {
    assert AnyTruthy(row) by { assert row[0].Truthy(); }
    PlainRow(st.section, row, hash);
    HeaderTextsCarryMarkers(row);
    assert ParseRecommendation(row) == Some(CellText(row, 0));
  }

  /** A classification header row, or any row with a set cell read in the
      classification section that is no other section's header, appends
      the rule `_parse_clasificacion` reads from it whenever there is one:
      nothing skips the header row itself in that section. */
  lemma {:induction false} RuleRowKept(st: SheetState, row: Row, hash: string -> int)
    requires AnyTruthy(row) && !QuestionHeader(row) && !RecommendationHeader(row)
    requires st.section == InClassification || ClassificationHeader(row)
    requires ParseRule(row).Some?
    ensures var s := Step(st, row, hash);
      s.section == InClassification && s.rules == st.rules + [ParseRule(row).value]
      && s.questions == st.questions && s.recommendations == st.recommendations
  {
    assert NextSection(st.section, row) == InClassification;
    assert Yielded(st.section, row, hash) == NewRule(ParseRule(row).value);
  }

  /** A row that is neither blank nor a header keeps the section and is read in it. */
  lemma {:induction false} PlainRow(current: Section, row: Row, hash: string -> int)
    requires AnyTruthy(row) && !IsHeader(row)
    ensures NextSection(current, row) == current
    ensures Yielded(current, row, hash) == Read(current, row, hash)
  {
  }

  /** The header texts that `_parse_pregunta` and `_parse_recomendacion`
      skip all carry the marker of their section. */
  lemma {:induction false} HeaderTextsCarryMarkers(row: Row)
    ensures !QuestionHeader(row) ==> Upper(CellText(row, 0)) !in QuestionHeaders
    ensures !RecommendationHeader(row) ==> Upper(CellText(row, 0)) !in RecommendationHeaders
  {
    var first := FirstCell(row);
    assert "PREGUNTA" <= QuestionHeaders[0] && "PREGUNTA" <= QuestionHeaders[1];
    assert "RECOMENDACION" <= RecommendationHeaders[0] && "RECOMENDACION" <= RecommendationHeaders[1];
  }

  /** The protocol's root is already an index key: lower-case and stripped. */
  lemma {:induction false} SheetRootIsKey(sheet: Sheet, hash: string -> int)
    ensures KeyOf(SheetProtocol(sheet, hash)) == SheetProtocol(sheet, hash).root
    ensures IsLowerCase(SheetProtocol(sheet, hash).root)
  {
    var root := Strip(Lower(sheet.name));
    assert IsLowerCase(Lower(sheet.name));
    StripKeepsLowerCase(Lower(sheet.name));
    LowerOfLowerCase(root);
    StripNoOp(root);
  }

  // ---------------------------------------------------------------------
  // The transformer

  /** The protocols of all sheets of a workbook, in sheet order. */
  function SheetProtocols(workbook: seq<Sheet>, hash: string -> int): (r: seq<Protocol>)
    ensures |r| == |workbook|
    decreases |workbook|
  {
    if workbook == [] then []
    else SheetProtocols(workbook[..|workbook| - 1], hash) + [SheetProtocol(workbook[|workbook| - 1], hash)]
  }

  /** Reading one more sheet appends its protocol. */
  lemma {:induction false} SheetProtocolsStep(workbook: seq<Sheet>, i: nat, hash: string -> int)
    requires i < |workbook|
    ensures SheetProtocols(workbook[..i + 1], hash) == SheetProtocols(workbook[..i], hash) + [SheetProtocol(workbook[i], hash)]
  {
    assert workbook[..i + 1][..i] == workbook[..i];
  }

  /** Sheet `i` yields protocol `i`. */
  lemma {:induction false} SheetProtocolsAt(workbook: seq<Sheet>, hash: string -> int, i: nat)
    requires i < |workbook|
    ensures SheetProtocols(workbook, hash)[i] == SheetProtocol(workbook[i], hash)
    decreases |workbook|
  {
    var front := workbook[..|workbook| - 1];
    var last := SheetProtocol(workbook[|workbook| - 1], hash);
    assert SheetProtocols(workbook, hash) == SheetProtocols(front, hash) + [last];
    if i < |front| {
      SheetProtocolsAt(front, hash, i);
      assert front[i] == workbook[i];
    }
  }

  /** Every rule a sheet yields names a known code. */
  lemma {:induction false} SheetRulesNamed(sheet: Sheet, hash: string -> int)
    ensures forall r :: r in SheetProtocol(sheet, hash).rules ==> IsCodeName(r.code)
  {
    var rules := Scan(sheet.rows, hash).rules;
    ScanRulesWellFormed(sheet.rows, hash);
    forall r | r in rules ensures IsCodeName(r.code) {
      var k :| 0 <= k < |rules| && rules[k] == r;
    }
  }

  /** Every rule of every protocol imported from a workbook names a known code. */
  lemma {:induction false} ImportedRulesNamed(workbook: seq<Sheet>, hash: string -> int)
    ensures forall p, r :: p in SheetProtocols(workbook, hash) && r in p.rules ==> IsCodeName(r.code)
    decreases |workbook|
  {
    if workbook != [] {
      var front := workbook[..|workbook| - 1];
      ImportedRulesNamed(front, hash);
      SheetRulesNamed(workbook[|workbook| - 1], hash);
    }
  }

  /** A knowledge base imported from a workbook never makes the rule
      classifier fail on an unknown code: every symptom it knows classifies. */
  lemma {:induction false} ImportedNeverFails(workbook: seq<Sheet>, hash: string -> int, symptom: string,
                                              answers: Answers)
    requires Lookup(IndexOf(SheetProtocols(workbook, hash)), Lower(symptom)).Some?
    ensures Classification(IndexOf(SheetProtocols(workbook, hash)), symptom, answers).Success?
  {
    var kb := SheetProtocols(workbook, hash);
    IndexFindsLast(kb, Lower(symptom));
    ImportedRulesNamed(workbook, hash);
    KnownCodesNeverFail(IndexOf(kb), symptom, answers);
  }

  datatype TransformError = Unsupported(fileType: string)

  /** `TriageDataTransformer`: the input file's lower-cased suffix and the
      knowledge base built so far. */
  class Transformer {
    const fileType: string
    var knowledgeBase: seq<Protocol>

    /** `Path(input_path).suffix` is the `suffix` parameter. */
    constructor(suffix: string)
      ensures fileType == Lower(suffix) && knowledgeBase == []
    {
      fileType := Lower(suffix);
      knowledgeBase := [];
    }

    /** `_transform_excel`: appends one protocol per sheet, in sheet order
        (a sheet's dictionary is never empty, so none is skipped). */
    method TransformExcel(workbook: seq<Sheet>, hash: string -> int) returns (kb: seq<Protocol>)
      modifies this
      ensures knowledgeBase == old(knowledgeBase) + SheetProtocols(workbook, hash)
      ensures kb == knowledgeBase
    {
      var i := 0;
      while i < |workbook|
        invariant 0 <= i <= |workbook|
        invariant knowledgeBase == old(knowledgeBase) + SheetProtocols(workbook[..i], hash)
      {
        var p := ExtractSheetData(workbook[i], hash);
        SheetProtocolsStep(workbook, i, hash);
        knowledgeBase := knowledgeBase + [p];
        i := i + 1;
      }
      assert workbook[..i] == workbook;
      kb := knowledgeBase;
    }

    /** `_transform_csv`, given the per-symptom protocols it extracts. */
    method TransformCsv(extracted: seq<Protocol>) returns (kb: seq<Protocol>)
      modifies this
      ensures knowledgeBase == old(knowledgeBase) + extracted
      ensures kb == knowledgeBase
    {
      knowledgeBase := knowledgeBase + extracted;
      kb := knowledgeBase;
    }

    /** `transform`: dispatches on the suffix; any suffix other than
        ".xlsx", ".xls" and ".csv" is refused and nothing changes. */
    method Transform(workbook: seq<Sheet>, extracted: seq<Protocol>, hash: string -> int)
      returns (r: Result<seq<Protocol>, TransformError>)
      modifies this
      ensures fileType in [".xlsx", ".xls"] ==>
        knowledgeBase == old(knowledgeBase) + SheetProtocols(workbook, hash) && r == Success(knowledgeBase)
      ensures fileType == ".csv" ==> knowledgeBase == old(knowledgeBase) + extracted && r == Success(knowledgeBase)
      ensures fileType !in [".xlsx", ".xls", ".csv"] ==>
        knowledgeBase == old(knowledgeBase) && r == Failure(Unsupported(fileType))
    {
      if fileType in [".xlsx", ".xls"] {
        var kb := TransformExcel(workbook, hash);
        r := Success(kb);
      } else if fileType == ".csv" {
        var kb := TransformCsv(extracted);
        r := Success(kb);
      } else {
        r := Failure(Unsupported(fileType));
      }
    }
  }
}
