/** The rule classifier: the symptom index over the knowledge base, symptom
    detection in free text, evaluation of rule conditions against the
    answers, and the choice of the most urgent firing rule. */
module Inference {
  import opened Wrappers
  import opened Text
  import opened Codes
  import opened Knowledge

  // ---------------------------------------------------------------------
  // The symptom index

  /** Root symptom key to protocol, in first-insertion order. */
  type Index = Dict<Protocol>

  /** The index key of a protocol: its root symptom lower-cased and stripped. */
  function KeyOf(p: Protocol): string {
    Strip(Lower(p.root))
  }

  /** The key of every protocol of the knowledge base, in order. */
  function RootKeys(kb: seq<Protocol>): (r: seq<string>)
    ensures |r| == |kb| && forall i :: 0 <= i < |kb| ==> r[i] == KeyOf(kb[i])
  {
    seq(|kb|, i requires 0 <= i < |kb| => KeyOf(kb[i]))
  }

  /** The index after inserting the protocols of `kb` one by one; a later
      protocol with the same key overwrites an earlier one in place. */
  function IndexOf(kb: seq<Protocol>): Index {
    FromPairs(RootKeys(kb), kb)
  }

  /** Builds the symptom index with one pass over the knowledge base. */
  method BuildIndex(kb: seq<Protocol>) returns (index: Index)
    ensures index == IndexOf(kb)
    ensures DistinctKeys(index)
  {
    var keys := RootKeys(kb);
    index := [];
    var i := 0;
    while i < |kb|
      invariant 0 <= i <= |kb|
      invariant index == FromPairs(keys[..i], kb[..i])
      invariant DistinctKeys(index)
    {
      var key := KeyOf(kb[i]);
      assert key == keys[i];
      AssignDistinct(index, key, kb[i]);
      FromPairsPrefix(keys, kb, i);
      index := Assign(index, key, kb[i]);
      i := i + 1;
    }
    assert keys[..|kb|] == keys && kb[..|kb|] == kb;
  }

  /** A key of the index finds the LAST protocol of the knowledge base with
      that key; a key no protocol has finds nothing. */
  lemma {:induction false} IndexFindsLast(kb: seq<Protocol>, k: string)
    ensures Lookup(IndexOf(kb), k).None? <==> forall i :: 0 <= i < |kb| ==> KeyOf(kb[i]) != k
    ensures Lookup(IndexOf(kb), k).Some? ==>
      exists i :: 0 <= i < |kb| && kb[i] == Lookup(IndexOf(kb), k).value && KeyOf(kb[i]) == k
        && forall j :: i < j < |kb| ==> KeyOf(kb[j]) != k
  {
    var keys := RootKeys(kb);
    FromPairsFindsLast(keys, kb, k);
    if Lookup(IndexOf(kb), k).None? {
      forall i | 0 <= i < |kb| ensures KeyOf(kb[i]) != k {
        assert keys[i] == KeyOf(kb[i]);
      }
    } else {
      var i :| 0 <= i < |keys| && keys[i] == k && kb[i] == Lookup(IndexOf(kb), k).value
        && forall j :: i < j < |keys| ==> keys[j] != k;
      assert forall j :: i < j < |kb| ==> KeyOf(kb[j]) != k;
    }
  }

  /** Every index key is lower-case, so looking a key up after `lower()` finds it. */
  lemma {:induction false} KeyIsLowerCase(p: Protocol)
    ensures IsLowerCase(KeyOf(p))
    ensures Lower(KeyOf(p)) == KeyOf(p)
  {
    assert IsLowerCase(Lower(p.root));
    StripKeepsLowerCase(Lower(p.root));
    LowerOfLowerCase(KeyOf(p));
  }

  /** Every key of an index built from a knowledge base is some protocol's key. */
  lemma {:induction false} IndexKeysAreKeys(kb: seq<Protocol>, k: string)
    requires k in Keys(IndexOf(kb))
    ensures exists i :: 0 <= i < |kb| && KeyOf(kb[i]) == k
  {
    IndexFindsLast(kb, k);
  }

  // ---------------------------------------------------------------------
  // Symptom detection

  /** The position of the first true entry. */
  function FirstTrue(bs: seq<bool>): (r: Option<nat>)
    ensures r.None? <==> forall i :: 0 <= i < |bs| ==> !bs[i]
    ensures r.Some? ==> r.value < |bs| && bs[r.value] && forall j :: 0 <= j < r.value ==> !bs[j]
    decreases |bs|
  {
    if bs == [] then None
    else if bs[0] then Some(0)
    else
      match FirstTrue(bs[1..])
      case None => None
      case Some(i) => Some(i + 1)
  }

  /** A true entry with only false entries before it is the first one. */
  lemma {:induction false} FirstTrueAt(bs: seq<bool>, i: nat)
    requires i < |bs| && bs[i] && forall j :: 0 <= j < i ==> !bs[j]
    ensures FirstTrue(bs) == Some(i)
  {
  }

  /** The two detection passes. */
  datatype Pass = Exact | Keyword

  /** Whether a key matches the lower-cased text in a pass: in the exact pass
      the whole key occurs in the text, in the keyword pass some word of the
      key longer than 3 characters does. */
  predicate Hit(pass: Pass, text: string, key: string) {
    match pass
    case Exact => Contains(text, key)
    case Keyword => AnyLongWordIn(Words(key), text)
  }

  /** Python's `any(w in text for w in words if len(w) > 3)`. */
  predicate AnyLongWordIn(words: seq<string>, text: string)
    decreases |words|
  {
    words != [] && ((|words[0]| > 3 && Contains(text, words[0])) || AnyLongWordIn(words[1..], text))
  }

  /** The keyword test holds exactly when some word longer than 3 characters occurs in the text. */
  lemma {:induction false} AnyLongWordMeaning(words: seq<string>, text: string)
    ensures AnyLongWordIn(words, text) <==> exists w :: w in words && |w| > 3 && Contains(text, w)
    decreases |words|
  {
    if words != [] {
      AnyLongWordMeaning(words[1..], text);
      assert forall w :: w in words <==> w == words[0] || w in words[1..];
    }
  }

  function Hits(pass: Pass, text: string, keys: seq<string>): (r: seq<bool>)
    ensures |r| == |keys| && forall i :: 0 <= i < |keys| ==> r[i] == Hit(pass, text, keys[i])
  {
    seq(|keys|, i requires 0 <= i < |keys| => Hit(pass, text, keys[i]))
  }

  /** `k` is the first key, in index order, that matches in `pass`. */
  predicate FirstHit(pass: Pass, text: string, keys: seq<string>, k: string) {
    exists i :: 0 <= i < |keys| && keys[i] == k && Hit(pass, text, k)
      && forall j :: 0 <= j < i ==> !Hit(pass, text, keys[j])
  }

  /** The symptom key detected in a patient's free text: the first key that
      occurs in the lower-cased text, else the first key with a long word
      occurring in it, else none. */
  function DetectSymptom(index: Index, text: string): (r: Option<string>)
    ensures r.Some? ==> r.value in Keys(index)
  {
    var t := Lower(text);
    var keys := Keys(index);
    match FirstTrue(Hits(Exact, t, keys))
    case Some(i) => Some(keys[i])
    case None =>
      match FirstTrue(Hits(Keyword, t, keys))
      case Some(i) => Some(keys[i])
      case None => None
  }

  /** Nothing is detected exactly when no key matches in either pass; a
      detected symptom is an index key, and it is the first exact match or,
      when there is none, the first keyword match. */
  lemma {:induction false} DetectionMeaning(index: Index, text: string)
    ensures DetectSymptom(index, text).None? <==>
      forall i :: 0 <= i < |index| ==>
        !Hit(Exact, Lower(text), index[i].0) && !Hit(Keyword, Lower(text), index[i].0)
    ensures DetectSymptom(index, text).Some? ==> DetectSymptom(index, text).value in Keys(index)
    ensures DetectSymptom(index, text).Some? ==>
      var k := DetectSymptom(index, text).value;
      FirstHit(Exact, Lower(text), Keys(index), k)
      || ((forall i :: 0 <= i < |index| ==> !Hit(Exact, Lower(text), index[i].0))
          && FirstHit(Keyword, Lower(text), Keys(index), k))
  {
    var keys := Keys(index);
    var t := Lower(text);
    match FirstTrue(Hits(Exact, t, keys))
    case Some(i) =>
    case None =>
      assert forall i :: 0 <= i < |index| ==> !Hit(Exact, t, index[i].0) by {
        forall i | 0 <= i < |index| ensures !Hit(Exact, t, index[i].0) {
          assert keys[i] == index[i].0;
        }
      }
  }

  /** One scan over the keys, in index order: the position of the first
      key that matches the lower-cased text in `pass`. */
  method ScanKeys(pass: Pass, lowered: string, keys: seq<string>) returns (r: Option<nat>)
    ensures r == FirstTrue(Hits(pass, lowered, keys))
  {
    ghost var hits := Hits(pass, lowered, keys);
    var i := 0;
    while i < |keys|
      invariant 0 <= i <= |keys|
      invariant forall j :: 0 <= j < i ==> !hits[j]
    {
      var hit := match pass
        case Exact => Contains(lowered, keys[i])
        case Keyword => AnyLongWordIn(Words(keys[i]), lowered);
      if hit {
        assert hits[i];
        FirstTrueAt(hits, i);
        return Some(i);
      }
      i := i + 1;
    }
    return None;
  }

  /** Scans the index keys twice, in index order: first for a key occurring
      in the lower-cased text, then for a key with a word longer than 3
      characters occurring in it. */
  method FindSymptom(index: Index, text: string) returns (r: Option<string>)
    ensures r == DetectSymptom(index, text)
  {
    var lowered := Lower(text);
    var keys := Keys(index);
    var exact := ScanKeys(Exact, lowered, keys);
    if exact.Some? {
      return Some(keys[exact.value]);
    }
    var keyword := ScanKeys(Keyword, lowered, keys);
    if keyword.Some? {
      return Some(keys[keyword.value]);
    }
    return None;
  }

  /** A detected symptom is a key of the index, so the classifier finds its protocol. */
  lemma {:induction false} DetectedIsIndexed(kb: seq<Protocol>, text: string)
    requires DetectSymptom(IndexOf(kb), text).Some?
    ensures Lookup(IndexOf(kb), Lower(DetectSymptom(IndexOf(kb), text).value)).Some?
  {
    var k := DetectSymptom(IndexOf(kb), text).value;
    DetectionMeaning(IndexOf(kb), text);
    IndexKeysAreKeys(kb, k);
    var i :| 0 <= i < |kb| && KeyOf(kb[i]) == k;
    KeyIsLowerCase(kb[i]);
  }

  // ---------------------------------------------------------------------
  // Conditions

  /** The yes/no synonym table: an expected "si"/"sí"/"yes" accepts only an
      affirmative answer, an expected "no" only a negative one, and any
      other expected answer matches when it occurs in the given answer. */
  function AnswerMatches(expected: string, actual: string): bool {
    if expected in ["si", "sí", "yes"] then actual in ["si", "sí", "yes", "true", "1"]
    else if expected == "no" then actual in ["no", "false", "0"]
    else Contains(actual, expected)
  }

  /** An expected yes and an expected no never both accept the same answer. */
  lemma {:induction false} YesAndNoExclusive(yes: string, actual: string)
    requires yes in ["si", "sí", "yes"]
    ensures !(AnswerMatches(yes, actual) && AnswerMatches("no", actual))
  {
  }

  /** Which answer keys mention the (lower-cased) question. */
  function KeysMentioning(answers: Answers, question: string): (r: seq<bool>)
    ensures |r| == |answers|
    ensures forall i :: 0 <= i < |answers| ==> r[i] == Contains(Lower(answers[i].0), question)
  {
    seq(|answers|, i requires 0 <= i < |answers| => Contains(Lower(answers[i].0), question))
  }

  /** Whether a rule condition holds (`_evaluar_condicion`). */
  function EvalCondition(c: Condition, answers: Answers): (holds: bool)
    ensures holds ==> Lower(c.question) != [] && Lower(c.expected) != []
    ensures holds ==> exists i :: 0 <= i < |answers| && Contains(Lower(answers[i].0), Lower(c.question))
  {
    var q := Lower(c.question);
    var e := Lower(c.expected);
    if q == [] || e == [] then false
    else
      match FirstTrue(KeysMentioning(answers, q))
      case None => false
      case Some(i) => AnswerMatches(e, Lower(answers[i].1.Render()))
  }

  /** A condition holds exactly when its question and expected answer are
      non-empty and the first answer key whose lower-cased form contains the
      lower-cased question carries an answer accepted by the synonym table;
      no such key means false. */
  lemma {:induction false} ConditionMeaning(c: Condition, answers: Answers)
    ensures Lower(c.question) == [] || Lower(c.expected) == [] ==> !EvalCondition(c, answers)
    ensures (forall i :: 0 <= i < |answers| ==> !Contains(Lower(answers[i].0), Lower(c.question)))
      ==> !EvalCondition(c, answers)
    ensures EvalCondition(c, answers) <==>
      Lower(c.question) != [] && Lower(c.expected) != [] &&
      exists i :: 0 <= i < |answers| && Contains(Lower(answers[i].0), Lower(c.question))
        && (forall j :: 0 <= j < i ==> !Contains(Lower(answers[j].0), Lower(c.question)))
        && AnswerMatches(Lower(c.expected), Lower(answers[i].1.Render()))
  {
    var q := Lower(c.question);
    var mentions := KeysMentioning(answers, q);
    if q != [] && Lower(c.expected) != [] {
      match FirstTrue(mentions)
      case Some(i) =>
        forall k | 0 <= k < |answers| && Contains(Lower(answers[k].0), q)
            && (forall j :: 0 <= j < k ==> !Contains(Lower(answers[j].0), q))
          ensures k == i
        {
          assert mentions[k] && mentions[i];
        }
      case None =>
    }
  }

  /** The first mentioning key decides even when its answer does not match:
      later keys are never consulted. */
  lemma {:induction false} FirstKeyDecides(c: Condition, answers: Answers, i: nat)
    requires Lower(c.question) != [] && Lower(c.expected) != []
    requires i < |answers| && Contains(Lower(answers[i].0), Lower(c.question))
    requires forall j :: 0 <= j < i ==> !Contains(Lower(answers[j].0), Lower(c.question))
    ensures EvalCondition(c, answers) == AnswerMatches(Lower(c.expected), Lower(answers[i].1.Render()))
  {
  }

  /** Evaluates a rule condition by scanning the answers in order; the
      first key that mentions the question decides. */
  method EvaluateCondition(c: Condition, answers: Answers) returns (holds: bool)
    ensures holds == EvalCondition(c, answers)
  {
    var question := Lower(c.question);
    var expected := Lower(c.expected);
    if question == [] || expected == [] {
      return false;
    }
    ghost var mentions := KeysMentioning(answers, question);
    var k := 0;
    while k < |answers|
      invariant 0 <= k <= |answers|
      invariant forall j :: 0 <= j < k ==> !mentions[j]
    {
      if Contains(Lower(answers[k].0), question) {
        assert FirstTrue(mentions) == Some(k);
        return AnswerMatches(expected, Lower(answers[k].1.Render()));
      }
      k := k + 1;
    }
    assert FirstTrue(mentions).None?;
    return false;
  }

  // ---------------------------------------------------------------------
  // Choosing the rule

  /** Which rules fire on the answers, in rule order. */
  function Firing(rules: seq<Rule>, answers: Answers): (r: seq<bool>)
    ensures |r| == |rules|
    ensures forall i :: 0 <= i < |rules| ==> r[i] == EvalCondition(rules[i].condition, answers)
    decreases |rules|
  {
    if rules == [] then []
    else [EvalCondition(rules[0].condition, answers)] + Firing(rules[1..], answers)
  }

  /** The table entry of every rule's code, in rule order; `None` for a
      code outside the tables. */
  function TableCodes(rules: seq<Rule>): (r: seq<Option<Code>>)
    ensures |r| == |rules| && forall i :: 0 <= i < |rules| ==> r[i] == ParseCode(rules[i].code)
    decreases |rules|
  {
    if rules == [] then [] else [ParseCode(rules[0].code)] + TableCodes(rules[1..])
  }

  /** State of the rule pass: nothing chosen yet, the index of the chosen
      rule, or the index of the rule whose code the priority lookup failed on. */
  datatype Pick = NoPick | Picked(i: nat) | Broken(i: nat)

  /** One iteration of the rule pass over rule `i`: a firing rule is taken
      when nothing is chosen yet, or when its priority is STRICTLY greater
      than the chosen one's; comparing looks up the current code, then the
      chosen one, in the priority table, which fails on a code outside it. */
  function Step(acc: Pick, codes: seq<Option<Code>>, fired: seq<bool>, i: nat): (r: Pick)
    requires i < |codes| == |fired|
    requires !acc.NoPick? ==> acc.i < i
    ensures !r.NoPick? ==> r.i <= i
  {
    if acc.Broken? || !fired[i] then acc
    else match acc
      case NoPick => Picked(i)
      case Picked(b) =>
        if codes[i].None? then Broken(i)
        else if codes[b].None? then Broken(b)
        else if Priority(codes[i].value) > Priority(codes[b].value) then Picked(i)
        else acc
  }

  /** The state of the rule pass after the first `n` rules. */
  function Choose(codes: seq<Option<Code>>, fired: seq<bool>, n: nat): (r: Pick)
    requires n <= |codes| == |fired|
    ensures !r.NoPick? ==> r.i < n
    decreases n
  {
    if n == 0 then NoPick else Step(Choose(codes, fired, n - 1), codes, fired, n - 1)
  }

  predicate NoneFires(fired: seq<bool>, n: nat)
    requires n <= |fired|
  {
    forall j :: 0 <= j < n ==> !fired[j]
  }

  /** Every firing rule among the first `n` has a code in the tables. */
  predicate KnownFiring(codes: seq<Option<Code>>, fired: seq<bool>, n: nat)
    requires n <= |codes| == |fired|
  {
    forall j :: 0 <= j < n && fired[j] ==> codes[j].Some?
  }

  /** Rule `b` fires with a known code, no firing rule has a higher
      priority, and every firing rule before it has a strictly lower one. */
  predicate Best(codes: seq<Option<Code>>, fired: seq<bool>, n: nat, b: nat)
    requires n <= |codes| == |fired|
  {
    b < n && fired[b] && codes[b].Some? &&
    forall j :: 0 <= j < n && fired[j] && codes[j].Some? ==>
      Priority(codes[j].value) <= Priority(codes[b].value)
      && (j < b ==> Priority(codes[j].value) < Priority(codes[b].value))
  }

  /** What the rule pass computes over the first `n` rules. */
  lemma {:induction false} ChooseMeaning(codes: seq<Option<Code>>, fired: seq<bool>, n: nat)
    requires n <= |codes| == |fired|
    ensures Choose(codes, fired, n) == NoPick <==> NoneFires(fired, n)
    ensures Choose(codes, fired, n).Broken? ==>
      var i := Choose(codes, fired, n).i;
      fired[i] && codes[i].None?
    ensures Choose(codes, fired, n).Picked? ==> fired[Choose(codes, fired, n).i]
    ensures Choose(codes, fired, n).Picked? && codes[Choose(codes, fired, n).i].Some? ==>
      KnownFiring(codes, fired, n) && Best(codes, fired, n, Choose(codes, fired, n).i)
    ensures Choose(codes, fired, n).Picked? && codes[Choose(codes, fired, n).i].None? ==>
      forall j :: 0 <= j < n && fired[j] ==> j == Choose(codes, fired, n).i
    decreases n
  {
    if n > 0 {
      ChooseMeaning(codes, fired, n - 1);
      var prev := Choose(codes, fired, n - 1);
      if prev.Picked? && fired[n - 1] && codes[n - 1].Some? && codes[prev.i].Some? {
        assert KnownFiring(codes, fired, n - 1);
      }
    }
  }

  /** Once the rule pass has failed it stays failed. */
  lemma {:induction false} BrokenSticks(codes: seq<Option<Code>>, fired: seq<bool>, i: nat, n: nat)
    requires i <= n <= |codes| == |fired|
    requires Choose(codes, fired, i).Broken?
    ensures Choose(codes, fired, n) == Choose(codes, fired, i)
    decreases n
  {
    if n > i {
      BrokenSticks(codes, fired, i, n - 1);
    }
  }

  // ---------------------------------------------------------------------
  // Classification

  datatype ClassifyError =
    | UnknownSymptom(symptom: string)   // the symptom is not an index key
    | UnknownCode(code: string)         // a firing rule's code is outside the code tables

  /** A mandatory question and the answer found for it. */
  datatype AskedQuestion = AskedQuestion(question: string, answer: Option<Value>)

  datatype TriageResult = TriageResult(
    code: Code,
    category: string,
    instruction: string,
    causes: seq<string>,
    asked: seq<AskedQuestion>,
    confidence: real)

  /** `answers.get(id) or answers.get(text)`: the answer under the question
      id when that one is truthy, else whatever is stored under the text. */
  function AnswerFor(q: Question, answers: Answers): (r: Option<Value>)
    ensures r.Some? && !r.value.Truthy() ==> r == Lookup(answers, q.text)
    ensures Lookup(answers, q.id).Some? && Lookup(answers, q.id).value.Truthy() ==> r == Lookup(answers, q.id)
  {
    match Lookup(answers, q.id)
    case Some(v) => if v.Truthy() then Some(v) else Lookup(answers, q.text)
    case None => Lookup(answers, q.text)
  }

  /** One entry per mandatory question, in protocol order. */
  function Asked(questions: seq<Question>, answers: Answers): (r: seq<AskedQuestion>)
    ensures |r| == |questions|
    ensures forall i :: 0 <= i < |questions| ==>
      r[i] == AskedQuestion(questions[i].text, AnswerFor(questions[i], answers))
  {
    seq(|questions|, i requires 0 <= i < |questions| =>
      AskedQuestion(questions[i].text, AnswerFor(questions[i], answers)))
  }

  const FallbackInstruction := "Evaluación médica necesaria"
  const FallbackCauses := ["Requiere valoración clínica"]

  /** The result once the rule pass is over: its failure, the D3 fallback
      when nothing fired, or the chosen rule, whose code must be in the
      category table. */
  function Conclude(rules: seq<Rule>, codes: seq<Option<Code>>, pick: Pick, asked: seq<AskedQuestion>)
    : Result<TriageResult, ClassifyError>
    requires |codes| == |rules|
    requires !pick.NoPick? ==> pick.i < |rules|
  {
    match pick
    case Broken(i) => Failure(UnknownCode(rules[i].code))
    case NoPick => Success(TriageResult(D3, Category(D3), FallbackInstruction, FallbackCauses, asked, 0.5))
    case Picked(b) =>
      match codes[b]
      case None => Failure(UnknownCode(rules[b].code))
      case Some(c) => Success(TriageResult(c, Category(c), rules[b].instruction, rules[b].causes, asked, 0.9))
  }

  /** The verdict of the rule classifier for a symptom and its answers. */
  function Classification(index: Index, symptom: string, answers: Answers): (r: Result<TriageResult, ClassifyError>)
    ensures r.Failure? && r.error.UnknownSymptom? <==> Lookup(index, Lower(symptom)).None?
    ensures r.Failure? ==> r.error == UnknownSymptom(symptom) || r.error.UnknownCode?
    ensures r.Success? ==> r.value.category == Category(r.value.code)
    ensures r.Success? ==> r.value.confidence == 0.5 || r.value.confidence == 0.9
  {
    match Lookup(index, Lower(symptom))
    case None => Failure(UnknownSymptom(symptom))
    case Some(p) =>
      var codes := TableCodes(p.rules);
      Conclude(p.rules, codes, Choose(codes, Firing(p.rules, answers), |p.rules|), Asked(p.questions, answers))
  }

  /** Pairs every mandatory question, in order, with the answer found for it. */
  method AskQuestions(questions: seq<Question>, answers: Answers) returns (asked: seq<AskedQuestion>)
    ensures asked == Asked(questions, answers)
  {
    asked := [];
    var j := 0;
    while j < |questions|
      invariant 0 <= j <= |questions|
      invariant |asked| == j
      invariant forall k :: 0 <= k < j ==>
        asked[k] == AskedQuestion(questions[k].text, AnswerFor(questions[k], answers))
    {
      var q := questions[j];
      asked := asked + [AskedQuestion(q.text, AnswerFor(q, answers))];
      j := j + 1;
    }
  }

  /** What the rule pass leaves in the classifier's variables: the chosen
      code as written in the rule, its instruction, causes and confidence. */
  datatype Chosen = Chosen(code: string, instruction: string, causes: seq<string>, confidence: real)

  /** What the rule pass returns once it has reached `pick`; while it is
      running, the classifier's variables are the success value. */
  function PassResult(rules: seq<Rule>, pick: Pick): Result<Option<Chosen>, ClassifyError>
    requires !pick.NoPick? ==> pick.i < |rules|
  {
    match pick
    case NoPick => Success(None)
    case Broken(k) => Failure(UnknownCode(rules[k].code))
    case Picked(b) => Success(Some(Chosen(rules[b].code, rules[b].instruction, rules[b].causes, 0.9)))
  }

  /** One iteration of the rule pass over rule `i`: a firing rule replaces
      the chosen one when nothing is chosen yet or when its priority is
      strictly greater; the comparison fails on a code outside the tables. */
  method ConsiderRule(rules: seq<Rule>, answers: Answers, i: nat, chosen: Option<Chosen>, ghost pick: Pick)
    returns (r: Result<Option<Chosen>, ClassifyError>)
    requires i < |rules|
    requires !pick.NoPick? ==> pick.i < i
    requires !pick.Broken? && PassResult(rules, pick) == Success(chosen)
    ensures r == PassResult(rules, Step(pick, TableCodes(rules), Firing(rules, answers), i))
  {
    StepOutcome(rules, TableCodes(rules), Firing(rules, answers), i, pick, chosen);
    var rule := rules[i];
    var fires := EvaluateCondition(rule.condition, answers);
    if !fires {
      return Success(chosen);
    }
    var current := rule.code;
    if chosen.None? {
      return Success(Some(Chosen(current, rule.instruction, rule.causes, 0.9)));
    }
    var pc := ParseCode(current);
    if pc.None? {
      return Failure(UnknownCode(current));
    }
    var pa := ParseCode(chosen.value.code);
    if pa.None? {
      return Failure(UnknownCode(chosen.value.code));
    }
    if Priority(pc.value) > Priority(pa.value) {
      return Success(Some(Chosen(current, rule.instruction, rule.causes, 0.9)));
    }
    return Success(chosen);
  }

  /** The pass's variables after rule `i`, read off the chosen rule's code. */
  lemma {:induction false} StepOutcome(rules: seq<Rule>, codes: seq<Option<Code>>, fired: seq<bool>, i: nat,
                                       pick: Pick, chosen: Option<Chosen>)
    requires i < |rules| == |codes| == |fired|
    requires forall j :: 0 <= j < |rules| ==> codes[j] == ParseCode(rules[j].code)
    requires !pick.NoPick? ==> pick.i < i
    requires !pick.Broken? && PassResult(rules, pick) == Success(chosen)
    ensures var next := PassResult(rules, Step(pick, codes, fired, i));
      var taken := Success(Some(Chosen(rules[i].code, rules[i].instruction, rules[i].causes, 0.9)));
      (!fired[i] ==> next == Success(chosen))
      && (fired[i] && chosen.None? ==> next == taken)
      && (fired[i] && chosen.Some? && ParseCode(rules[i].code).None? ==> next == Failure(UnknownCode(rules[i].code)))
      && (fired[i] && chosen.Some? && ParseCode(rules[i].code).Some? && ParseCode(chosen.value.code).None? ==>
            next == Failure(UnknownCode(chosen.value.code)))
      && (fired[i] && chosen.Some? && ParseCode(rules[i].code).Some? && ParseCode(chosen.value.code).Some? ==>
            next == if Priority(ParseCode(rules[i].code).value) > Priority(ParseCode(chosen.value.code).value)
                    then taken else Success(chosen))
  {
    if pick.Picked? {
      assert codes[pick.i] == ParseCode(chosen.value.code);
    }
  }

  /** The rule pass of the classifier: walks the rules in order, keeping the
      first of the most urgent firing rules; fails as soon as a priority
      lookup meets a code outside the tables. */
  method RulePass(rules: seq<Rule>, answers: Answers) returns (r: Result<Option<Chosen>, ClassifyError>)
    ensures r == PassResult(rules, Choose(TableCodes(rules), Firing(rules, answers), |rules|))
  {
    ghost var codes := TableCodes(rules);
    ghost var fired := Firing(rules, answers);
    var chosen: Option<Chosen> := None;
    ghost var pick := NoPick;
    var i := 0;
    while i < |rules|
      invariant 0 <= i <= |rules|
      invariant pick == Choose(codes, fired, i)
      invariant !pick.Broken? && PassResult(rules, pick) == Success(chosen)
    {
      var step := ConsiderRule(rules, answers, i, chosen, pick);
      pick := Step(pick, codes, fired, i);
      if step.Failure? {
        BrokenSticks(codes, fired, i + 1, |rules|);
        return Failure(step.error);
      }
      chosen := step.value;
      i := i + 1;
    }
    return Success(chosen);
  }

  /** Classifies a case: finds the protocol, runs the rule pass, falls back
      to D3 when no rule fires, pairs each mandatory question with its
      answer, and looks the code up in the category table. */
  method ClassifyTriage(index: Index, symptom: string, answers: Answers)
    returns (r: Result<TriageResult, ClassifyError>)
    ensures r == Classification(index, symptom, answers)
  {
    var found := Lookup(index, Lower(symptom));
    if found.None? {
      return Failure(UnknownSymptom(symptom));
    }
    var p := found.value;
    var pass := RulePass(p.rules, answers);
    if pass.Failure? {
      return Failure(pass.error);
    }
    var chosen := pass.value.GetOr(Chosen("D3", FallbackInstruction, FallbackCauses, 0.5));
    var asked := AskQuestions(p.questions, answers);
    PassConcludes(p.rules, Choose(TableCodes(p.rules), Firing(p.rules, answers), |p.rules|), asked);
    var code := ParseCode(chosen.code);
    if code.None? {
      return Failure(UnknownCode(chosen.code));
    }
    r := Success(TriageResult(code.value, Category(code.value), chosen.instruction, chosen.causes, asked, chosen.confidence));
  }

  /** How the classifier's ending reads the rule pass's result: a failure
      is passed on, and otherwise the chosen rule, or the D3 fallback, is
      looked up in the category table. */
  lemma {:induction false} PassConcludes(rules: seq<Rule>, pick: Pick, asked: seq<AskedQuestion>)
    requires !pick.NoPick? ==> pick.i < |rules|
    ensures var pass := PassResult(rules, pick);
      pass.Failure? ==> Conclude(rules, TableCodes(rules), pick, asked) == Failure(pass.error)
    ensures var pass := PassResult(rules, pick);
      pass.Success? ==>
        var chosen := pass.value.GetOr(Chosen("D3", FallbackInstruction, FallbackCauses, 0.5));
        Conclude(rules, TableCodes(rules), pick, asked) ==
          match ParseCode(chosen.code)
          case None => Failure(UnknownCode(chosen.code))
          case Some(c) => Success(TriageResult(c, Category(c), chosen.instruction, chosen.causes, asked, chosen.confidence))
  {
    if pick.NoPick? {
      assert ParseCode("D3") == Some(D3);
    }
  }

  /** The rule pass fails exactly when some firing rule has a code outside
      the tables, and the error names the code of a firing rule. */
  lemma {:induction false} VerdictFailure(rules: seq<Rule>, codes: seq<Option<Code>>, fired: seq<bool>, asked: seq<AskedQuestion>)
    requires |rules| == |codes| == |fired|
    ensures Conclude(rules, codes, Choose(codes, fired, |rules|), asked).Failure?
      <==> !KnownFiring(codes, fired, |rules|)
    ensures var pick := Choose(codes, fired, |rules|);
      Conclude(rules, codes, pick, asked).Failure? ==>
        !pick.NoPick? && fired[pick.i] && codes[pick.i].None?
        && Conclude(rules, codes, pick, asked).error == UnknownCode(rules[pick.i].code)
  {
    ChooseMeaning(codes, fired, |rules|);
    if Choose(codes, fired, |rules|).NoPick? {
      assert KnownFiring(codes, fired, |rules|);
    }
  }

  /** When no rule fires the verdict is D3, with the fallback instruction,
      the fallback causes and confidence 0.5. */
  lemma {:induction false} VerdictFallback(rules: seq<Rule>, codes: seq<Option<Code>>, fired: seq<bool>, asked: seq<AskedQuestion>)
    requires |rules| == |codes| == |fired|
    requires NoneFires(fired, |rules|)
    ensures Conclude(rules, codes, Choose(codes, fired, |rules|), asked)
      == Success(TriageResult(D3, Category(D3), FallbackInstruction, FallbackCauses, asked, 0.5))
  {
    ChooseMeaning(codes, fired, |rules|);
  }

  /** When some rule fires and the verdict is not an error, it is taken from
      the first of the most urgent firing rules, with confidence 0.9, and its
      category is its code's. */
  lemma {:induction false} VerdictBest(rules: seq<Rule>, codes: seq<Option<Code>>, fired: seq<bool>, asked: seq<AskedQuestion>)
    requires |rules| == |codes| == |fired|
    requires !NoneFires(fired, |rules|)
    requires Conclude(rules, codes, Choose(codes, fired, |rules|), asked).Success?
    ensures var pick := Choose(codes, fired, |rules|);
      var t := Conclude(rules, codes, pick, asked).value;
      pick.Picked? && Best(codes, fired, |rules|, pick.i)
      && codes[pick.i] == Some(t.code) && t.category == Category(t.code)
      && t.instruction == rules[pick.i].instruction && t.causes == rules[pick.i].causes
      && t.asked == asked && t.confidence == 0.9
  {
    ChooseMeaning(codes, fired, |rules|);
  }

  /** What the classifier promises: an unknown symptom is an error; for a
      known one the verdict fails exactly when a firing rule has a code
      outside the tables, is D3 at confidence 0.5 when no rule fires, and
      otherwise comes from the first of the most urgent firing rules at
      confidence 0.9; the category always matches the code and there is
      one asked question per mandatory question. */
  lemma {:induction false} ClassificationMeaning(index: Index, symptom: string, answers: Answers)
    ensures Lookup(index, Lower(symptom)).None? ==>
      Classification(index, symptom, answers) == Failure(UnknownSymptom(symptom))
    ensures Lookup(index, Lower(symptom)).Some? ==>
      var p := Lookup(index, Lower(symptom)).value;
      var codes := TableCodes(p.rules);
      var fired := Firing(p.rules, answers);
      var r := Classification(index, symptom, answers);
      (r.Failure? <==> !KnownFiring(codes, fired, |p.rules|))
      && (r.Failure? ==> r.error.UnknownCode?)
      && (r.Success? ==> r.value.category == Category(r.value.code) && r.value.asked == Asked(p.questions, answers))
      && (r.Success? && NoneFires(fired, |p.rules|) ==> r.value.code == D3 && r.value.confidence == 0.5)
      && (r.Success? && !NoneFires(fired, |p.rules|) ==>
            var pick := Choose(codes, fired, |p.rules|);
            pick.Picked? && Best(codes, fired, |p.rules|, pick.i) && Name(r.value.code) == p.rules[pick.i].code
            && r.value.confidence == 0.9)
  {
    if Lookup(index, Lower(symptom)).Some? {
      var p := Lookup(index, Lower(symptom)).value;
      var codes := TableCodes(p.rules);
      var fired := Firing(p.rules, answers);
      var asked := Asked(p.questions, answers);
      VerdictFailure(p.rules, codes, fired, asked);
      if NoneFires(fired, |p.rules|) {
        VerdictFallback(p.rules, codes, fired, asked);
      } else if Classification(index, symptom, answers).Success? {
        VerdictBest(p.rules, codes, fired, asked);
      }
    }
  }

  /** The rule classifier never fails on a protocol whose every rule code is in the tables. */
  lemma {:induction false} KnownCodesNeverFail(index: Index, symptom: string, answers: Answers)
    requires Lookup(index, Lower(symptom)).Some?
    requires forall r :: r in Lookup(index, Lower(symptom)).value.rules ==> IsCodeName(r.code)
    ensures Classification(index, symptom, answers).Success?
  {
    ClassificationMeaning(index, symptom, answers);
    var p := Lookup(index, Lower(symptom)).value;
    assert KnownFiring(TableCodes(p.rules), Firing(p.rules, answers), |p.rules|) by {
      forall j | 0 <= j < |p.rules| ensures TableCodes(p.rules)[j].Some? {
        assert p.rules[j] in p.rules;
      }
    }
  }

  /** `get_preguntas_obligatorias`: the mandatory questions, none for an unknown symptom. */
  function GetQuestions(index: Index, symptom: string): (r: seq<Question>)
    ensures Lookup(index, Lower(symptom)).None? ==> r == []
    ensures Lookup(index, Lower(symptom)).Some? ==> r == Lookup(index, Lower(symptom)).value.questions
  {
    match Lookup(index, Lower(symptom))
    case None => []
    case Some(p) => p.questions
  }

  /** `get_recomendaciones`: the general recommendations, none for an unknown symptom. */
  function GetRecommendations(index: Index, symptom: string): (r: seq<string>)
    ensures Lookup(index, Lower(symptom)).None? ==> r == []
    ensures Lookup(index, Lower(symptom)).Some? ==> r == Lookup(index, Lower(symptom)).value.recommendations
  {
    match Lookup(index, Lower(symptom))
    case None => []
    case Some(p) => p.recommendations
  }

  /** An unknown symptom is an error for the classifier but only an empty
      list for the two lookups; a known one yields one asked question per
      question the lookup returns, in the same order. */
  lemma {:induction false} LookupsAgree(index: Index, symptom: string, answers: Answers)
    ensures Classification(index, symptom, answers) == Failure(UnknownSymptom(symptom))
      ==> GetQuestions(index, symptom) == [] && GetRecommendations(index, symptom) == []
    ensures Classification(index, symptom, answers).Success? ==>
      Classification(index, symptom, answers).value.asked == Asked(GetQuestions(index, symptom), answers)
  {
    ClassificationMeaning(index, symptom, answers);
  }
}
