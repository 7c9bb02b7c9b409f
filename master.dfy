/** The master engine: the linear pipeline that turns a patient's text and
    answers into a logged triage decision (symptom detection, threat gate,
    eligibility proof, identity hash, question pairing, classification,
    disposition, referral flag, cost), the decision log it appends to, and
    the monthly report over that log. */
module Master {
  import opened Wrappers
  import opened Text
  import opened Codes
  import opened Knowledge
  import opened Inference
  import opened MedGemma
  import opened Hybrid
  import opened Connectors

  // ---------------------------------------------------------------------
  // The decision log

  /** One entry of `preguntas_realizadas`: the question text, the answer
      found under that text, and the question's answer type. */
  datatype PairedQuestion = PairedQuestion(question: string, answer: Value, answerType: string)

  /** `clasificacion_reglas` / `clasificacion_ai`: a code, a confidence and
      an instruction (rules) or a reasoning (AI). */
  datatype Summary = Summary(code: string, confidence: real, text: string)

  /** `TriageDecisionLog` */
  datatype DecisionLog = DecisionLog(
    timestamp: string,
    bioHash: string,
    symptom: string,
    asked: seq<PairedQuestion>,
    rules: Summary,
    ai: Summary,
    finalCode: string,
    category: string,
    confidence: real,
    agreement: bool,
    instructions: seq<string>,
    causes: seq<string>,
    conduct: string,
    conductCode: string,
    vpp: bool,
    observations: string,
    gas: real,
    zkp: bool,
    threat: bool,
    honeypot: bool)

  // ---------------------------------------------------------------------
  // Tables and small pure steps

  /** `CODIGO_TO_CONDUCTA.get(code, "CONS")`: URG for D1 and D2, LM for D7,
      CONS for D3 and for anything else. */
  function Conduct(code: string): string {
    if code == "D1" || code == "D2" then "URG"
    else if code == "D7" then "LM"
    else "CONS"
  }

  /** `code in VPP_THRESHOLD_CODES` */
  predicate Vpp(code: string) {
    code in ["D7", "D3"]
  }

  /** The disposition follows the priority table: a code is sent to
      immediate care (URG) exactly when its priority is 3 or more, is
      referred to the vertical pathway exactly when its priority is 2 or
      less, and never both. */
  lemma {:induction false} DispositionByPriority(c: Code)
    ensures Conduct(Name(c)) == "URG" <==> Priority(c) >= 3
    ensures Vpp(Name(c)) <==> Priority(c) <= 2
    ensures Vpp(Name(c)) <==> Conduct(Name(c)) != "URG"
    ensures Conduct(Name(c)) == (if c == D7 then "LM" else if c == D3 then "CONS" else "URG")
  {
    match c
    case D1 =>
    case D2 =>
    case D7 =>
    case D3 =>
  }

  /** `_calculate_gas_cost`: a base of 0.001, 0.0001 per question, 0.005
      when an AI client is configured, 0.002 when the eligibility proof
      was valid. */
  function GasCost(questions: nat, aiUsed: bool, zkpUsed: bool): (cost: real)
    ensures 0.001 + (questions as real) * 0.0001 <= cost <= 0.008 + (questions as real) * 0.0001
    ensures !aiUsed && !zkpUsed ==> cost == 0.001 + (questions as real) * 0.0001
  {
    var cost := 0.001 + (questions as real) * 0.0001;
    var withAi := if aiUsed then cost + 0.005 else cost;
    if zkpUsed then withAi + 0.002 else withAi
  }

  /** The cost is never below the base and grows with each of its inputs. */
  lemma {:induction false} GasCostMonotone(n: nat, ai: bool, zkp: bool, m: nat, ai': bool, zkp': bool)
    requires n <= m && (ai ==> ai') && (zkp ==> zkp')
    ensures 0.001 <= GasCost(n, ai, zkp) <= GasCost(m, ai', zkp')
    ensures GasCost(n, ai, zkp) == 0.001 + (n as real) * 0.0001 + (if ai then 0.005 else 0.0) + (if zkp then 0.002 else 0.0)
  {
    assert (n as real) * 0.0001 <= (m as real) * 0.0001;
  }

  /** The first three causes, or all of them when there are fewer. */
  function FirstThree(causes: seq<string>): (r: seq<string>)
    ensures |r| <= 3 && r <= causes
    ensures |causes| <= 3 ==> r == causes
    ensures |r| == if |causes| <= 3 then |causes| else 3
  {
    if |causes| <= 3 then causes else causes[..3]
  }

  /** `_generate_observations`: the code and the first three causes. */
  function Observations(code: string, causes: seq<string>): (r: string)
    ensures StartsWith(r, "Clasificación " + code + ". Diagnósticos diferenciales: ")
    ensures r[|"Clasificación " + code + ". Diagnósticos diferenciales: "|..] == Join(FirstThree(causes), ", ")
  {
    var head := "Clasificación " + code + ". Diagnósticos diferenciales: ";
    var r := head + Join(FirstThree(causes), ", ");
    assert r[..|head|] == head;
    r
  }

  const NotAnswered := "No respondida"

  /** `respuestas.get(pregunta['pregunta'], 'No respondida')`: the answer is
      looked up by question text only. */
  function AnswerByText(q: Question, answers: Answers): (v: Value)
    ensures Lookup(answers, q.text).Some? ==> v == Lookup(answers, q.text).value
    ensures Lookup(answers, q.text).None? ==> v == Str(NotAnswered)
  {
    Lookup(answers, q.text).GetOr(Str(NotAnswered))
  }

  /** One paired question per mandatory question, in order. */
  function Paired(questions: seq<Question>, answers: Answers): (r: seq<PairedQuestion>)
    ensures |r| == |questions|
    ensures forall i :: 0 <= i < |questions| ==>
      r[i] == PairedQuestion(questions[i].text, AnswerByText(questions[i], answers), questions[i].answerType)
  {
    seq(|questions|, i requires 0 <= i < |questions| =>
      PairedQuestion(questions[i].text, AnswerByText(questions[i], answers), questions[i].answerType))
  }

  /** The question-pairing loop of `process_triage`. */
  method PairQuestions(questions: seq<Question>, answers: Answers) returns (paired: seq<PairedQuestion>)
    ensures paired == Paired(questions, answers)
  {
    paired := [];
    var j := 0;
    while j < |questions|
      invariant 0 <= j <= |questions|
      invariant |paired| == j
      invariant forall k :: 0 <= k < j ==>
        paired[k] == PairedQuestion(questions[k].text, AnswerByText(questions[k], answers), questions[k].answerType)
    {
      var q := questions[j];
      paired := paired + [PairedQuestion(q.text, AnswerByText(q, answers), q.answerType)];
      j := j + 1;
    }
  }

  /** The orchestrator pairs answers by question text only, while the
      classifier first tries the question id: when the id holds a truthy
      answer and the text holds none, the log says "No respondida" for a
      question the classifier saw answered. */
  lemma {:induction false} PairingDiffersFromClassifier(q: Question, answers: Answers)
    requires Lookup(answers, q.id).Some? && Lookup(answers, q.id).value.Truthy()
    requires Lookup(answers, q.text).None?
    ensures AnswerByText(q, answers) == Str(NotAnswered)
    ensures AnswerFor(q, answers) == Lookup(answers, q.id)
  {
  }

  /** `_redirect_to_honeypot`: the fixed BLOCKED record. */
  function HoneypotRecord(input: string, timestamp: string): (log: DecisionLog)
    ensures log.finalCode == "BLOCKED" && log.conductCode == "BLOCKED" && log.gas == 0.0
    ensures log.threat && log.honeypot && !log.zkp && !log.vpp && log.asked == []
    ensures log.timestamp == timestamp
  {
    var target := ActivateHoneypot(input, timestamp).target;
    DecisionLog(timestamp, "HONEYPOT_REDIRECT", "THREAT_DETECTED", [],
      Summary("BLOCKED", 1.0, "Acceso denegado"), Summary("BLOCKED", 1.0, "Threat detected"),
      "BLOCKED", "SECURITY_THREAT", 1.0, true,
      ["Sistema protegido - Acceso bloqueado"], ["Intento de ataque detectado"],
      "BLOCKED", "BLOCKED", false, "Honeypot activado - " + target,
      0.0, false, true, true)
  }

  // ---------------------------------------------------------------------
  // The pipeline as a function

  /** One call's inputs: the patient's text, answers, biometric data and id. */
  datatype Request = Request(input: string, answers: Answers, bio: Option<Biometrics>, patientId: Option<string>)

  /** What the call reads from outside: the clock reading stamped on the
      record, the (later) clock reading inside the identity hash, SHA-256
      as hex text, and the AI call's verdict (`None` when it raised). */
  datatype Env = Env(now: string, hashNow: string, sha256: string -> string, ai: Option<AiResult>)

  datatype TriageError =
    | NoSymptom                     // `ValueError`: no symptom detected
    | NotEligible                   // `PermissionError`: the eligibility proof failed
    | Classifier(error: ClassifyError)  // raised by the rule classifier

  /** How a call ends: it raises, returns the BLOCKED record without logging
      it, or returns a decision that it also appends to the log. */
  datatype Outcome = Raised(error: TriageError) | Redirected(log: DecisionLog) | Decided(log: DecisionLog) {
    /** What `process_triage` returns or raises. */
    function Returned(): Result<DecisionLog, TriageError> {
      match this
      case Raised(e) => Failure(e)
      case Redirected(log) => Success(log)
      case Decided(log) => Success(log)
    }
  }

  /** The classification fields of a record. */
  datatype Verdict = Verdict(
    finalCode: string, category: string, confidence: real, agreement: bool,
    rules: Summary, ai: Summary, instructions: seq<string>, causes: seq<string>)

  /** The AI summary when no hybrid engine is configured. */
  const NoAiSummary := Summary("N/A", 0.0, "AI no disponible")

  /** The classification step: the hybrid engine when an AI client is
      configured, else the rule classifier alone with the category
      "CLASIFICADO". Instructions and causes always come from the rules. */
  function ClassifyStep(index: Index, hasAi: bool, symptom: string, answers: Answers, ai: Option<AiResult>)
    : Result<Verdict, ClassifyError>
  {
    if hasAi then
      match Classify(NewEngine(true), index, symptom, answers, ai)
      case Failure(e) => Failure(e)
      case Success(h) =>
        Success(Verdict(Name(h.code), h.category, h.confidence, h.agreement,
          Summary(Name(h.rules.code), h.rules.confidence, h.rules.instruction),
          Summary(Name(h.ai.code), h.ai.confidence, h.ai.reasoning),
          [h.rules.instruction], h.rules.causes))
    else
      match Classification(index, symptom, answers)
      case Failure(e) => Failure(e)
      case Success(t) =>
        Success(Verdict(Name(t.code), "CLASIFICADO", t.confidence, true,
          Summary(Name(t.code), t.confidence, t.instruction), NoAiSummary,
          [t.instruction], t.causes))
  }

  /** The record of a decided case. */
  function Record(now: string, bioHash: string, symptom: string, asked: seq<PairedQuestion>,
                  v: Verdict, gas: real, zkp: bool, threat: bool): DecisionLog
  {
    DecisionLog(now, bioHash, symptom, asked, v.rules, v.ai, v.finalCode, v.category,
      v.confidence, v.agreement, v.instructions, v.causes,
      Conduct(v.finalCode), v.finalCode, Vpp(v.finalCode), Observations(v.finalCode, v.causes),
      gas, zkp, threat, false)
  }

  /** `process_triage` as a function of its inputs and the engine's
      configuration. */
  function Triage(index: Index, hasAi: bool, safe: SafeCore, q: Request, env: Env): (r: Outcome)
    ensures DetectSymptom(index, q.input).None? ==> r == Raised(NoSymptom)
    ensures r != Raised(NotEligible)
    ensures r.Redirected? ==>
      r.log == HoneypotRecord(q.input, env.now) && DetectThreat(q.input, q.answers) && safe.honeypotEnabled
    ensures r.Decided? ==>
      r.log.zkp && !r.log.honeypot && r.log.timestamp == env.now && (r.log.threat ==> !safe.honeypotEnabled)
  {
    match DetectEntity(index, q.input)
    case None => Raised(NoSymptom)
    case Some(symptom) =>
      if symptom == "" then Raised(NoSymptom)
      else
        var threat := DetectThreat(q.input, q.answers);
        if threat && safe.honeypotEnabled then Redirected(HoneypotRecord(q.input, env.now))
        else
          var zkp := ValidateZkp(safe, q.patientId, None);
          if !zkp then Raised(NotEligible)
          else
            var bioHash := GenerateBioHash(env.sha256, q.patientId, env.hashNow, q.bio);
            var asked := Paired(GetQuestions(index, symptom), q.answers);
            match ClassifyStep(index, hasAi, symptom, q.answers, env.ai)
            case Failure(e) => Raised(Classifier(e))
            case Success(v) => Decided(Record(env.now, bioHash, symptom, asked, v, GasCost(|asked|, hasAi, zkp), zkp, threat))
  }

  // ---------------------------------------------------------------------
  // What the pipeline promises

  /** No detected symptom raises, whatever the text holds: detection comes
      before the threat gate, so a malicious text without a symptom is not
      redirected. */
  lemma {:induction false} NoSymptomRaises(index: Index, hasAi: bool, safe: SafeCore, q: Request, env: Env)
    requires DetectSymptom(index, q.input).None?
    ensures Triage(index, hasAi, safe, q, env) == Raised(NoSymptom)
  {
  }

  /** A detected symptom with a threat and the honeypot enabled gives the
      BLOCKED record, stamped with the call's time. */
  lemma {:induction false} ThreatRedirects(index: Index, hasAi: bool, safe: SafeCore, q: Request, env: Env)
    requires DetectSymptom(index, q.input).Some? && DetectSymptom(index, q.input).value != ""
    requires DetectThreat(q.input, q.answers) && safe.honeypotEnabled
    ensures Triage(index, hasAi, safe, q, env) == Redirected(HoneypotRecord(q.input, env.now))
  {
  }

  /** The outcome is a decision exactly when a non-empty symptom is
      detected, the threat gate lets the call through, and the
      classification succeeds; the eligibility proof never stops a call. */
  lemma {:induction false} DecidedExactly(index: Index, hasAi: bool, safe: SafeCore, q: Request, env: Env)
    ensures Triage(index, hasAi, safe, q, env).Decided? <==>
      DetectSymptom(index, q.input).Some? && DetectSymptom(index, q.input).value != ""
      && !(DetectThreat(q.input, q.answers) && safe.honeypotEnabled)
      && ClassifyStep(index, hasAi, DetectSymptom(index, q.input).value, q.answers, env.ai).Success?
    ensures Triage(index, hasAi, safe, q, env) != Raised(NotEligible)
  {
  }

  /** What a decided record holds: the detected symptom; one paired
      question per mandatory question, in order; the disposition and the
      referral flag of its final code; the cost of its questions with the
      AI surcharge whenever an AI client is configured (even when the AI
      call raised) and the proof surcharge; a valid proof; no honeypot; and
      the threat flag, which can only be set when the honeypot is off. */
  lemma {:induction false} DecidedRecord(index: Index, hasAi: bool, safe: SafeCore, q: Request, env: Env)
    requires Triage(index, hasAi, safe, q, env).Decided?
    ensures var log := Triage(index, hasAi, safe, q, env).log;
      var symptom := DetectSymptom(index, q.input).value;
      log.symptom == symptom && symptom in Keys(index)
      && log.asked == Paired(GetQuestions(index, symptom), q.answers)
      && |log.asked| == |GetQuestions(index, symptom)|
      && log.conduct == Conduct(log.finalCode) && log.conductCode == log.finalCode
      && (log.vpp <==> log.finalCode == "D7" || log.finalCode == "D3")
      && log.gas == GasCost(|log.asked|, hasAi, true)
      && log.zkp && !log.honeypot
      && log.threat == DetectThreat(q.input, q.answers)
      && (log.threat ==> !safe.honeypotEnabled)
      && log.timestamp == env.now
      && log.bioHash == env.sha256(BioHashInput(q.patientId, env.hashNow, q.bio))
  {
    var symptom := DetectSymptom(index, q.input).value;
    var asked := Paired(GetQuestions(index, symptom), q.answers);
    DecidedIsRecord(index, hasAi, safe, q, env);
    RecordFields(env.now, GenerateBioHash(env.sha256, q.patientId, env.hashNow, q.bio), symptom, asked,
      ClassifyStep(index, hasAi, symptom, q.answers, env.ai).value, GasCost(|asked|, hasAi, true), DetectThreat(q.input, q.answers));
  }

  /** A decided outcome is the record of the detected symptom, its paired
      questions and its verdict. */
  lemma {:induction false} DecidedIsRecord(index: Index, hasAi: bool, safe: SafeCore, q: Request, env: Env)
    requires Triage(index, hasAi, safe, q, env).Decided?
    ensures var symptom := DetectSymptom(index, q.input).value;
      var asked := Paired(GetQuestions(index, symptom), q.answers);
      DetectSymptom(index, q.input).Some? && !(DetectThreat(q.input, q.answers) && safe.honeypotEnabled)
      && ClassifyStep(index, hasAi, symptom, q.answers, env.ai).Success?
      && Triage(index, hasAi, safe, q, env) == Decided(Record(env.now, GenerateBioHash(env.sha256, q.patientId, env.hashNow, q.bio),
           symptom, asked, ClassifyStep(index, hasAi, symptom, q.answers, env.ai).value,
           GasCost(|asked|, hasAi, true), true, DetectThreat(q.input, q.answers)))
  {
  }

  /** The fields of a decided record: disposition and referral from its
      final code, and the given time, hash, symptom, questions and cost. */
  lemma {:induction false} RecordFields(now: string, bioHash: string, symptom: string, asked: seq<PairedQuestion>,
                                        v: Verdict, gas: real, threat: bool)
    ensures var log := Record(now, bioHash, symptom, asked, v, gas, true, threat);
      log.symptom == symptom && log.asked == asked && log.finalCode == v.finalCode
      && log.conduct == Conduct(log.finalCode) && log.conductCode == log.finalCode
      && (log.vpp <==> log.finalCode == "D7" || log.finalCode == "D3")
      && log.gas == gas && log.zkp && !log.honeypot && log.threat == threat
      && log.timestamp == now && log.bioHash == bioHash
  {
  }

  /** Without an AI client the record carries the rule verdict, agreement,
      the category "CLASIFICADO" and the N/A AI summary; with one, the
      final code is never less urgent than the rule code. */
  lemma {:induction false} DecidedVerdict(index: Index, hasAi: bool, symptom: string, answers: Answers, ai: Option<AiResult>)
    requires ClassifyStep(index, hasAi, symptom, answers, ai).Success?
    ensures var v := ClassifyStep(index, hasAi, symptom, answers, ai).value;
      var t := Classification(index, symptom, answers);
      t.Success? && v.rules == Summary(Name(t.value.code), t.value.confidence, t.value.instruction)
      && v.instructions == [t.value.instruction] && v.causes == t.value.causes
      && (!hasAi ==> v.finalCode == Name(t.value.code) && v.category == "CLASIFICADO"
                     && v.agreement && v.ai == NoAiSummary && v.confidence == t.value.confidence)
      && (hasAi ==> exists c :: v.finalCode == Name(c) && Priority(c) >= Priority(t.value.code)
                     && v.category == Category(c))
  {
    if hasAi {
      ClassifyMeaning(NewEngine(true), index, symptom, answers, ai);
      var h := Classify(NewEngine(true), index, symptom, answers, ai).value;
      assert ClassifyStep(index, hasAi, symptom, answers, ai).value.finalCode == Name(h.code);
    }
  }

  // ---------------------------------------------------------------------
  // The monthly report

  /** `get_monthly_report`, without its duplicated dict key. */
  datatype Report = Report(total: nat, gasTotal: real, byCode: Dict<nat>, threats: nat, zkpValidations: nat)

  function SumGas(logs: seq<DecisionLog>): real
    decreases |logs|
  {
    if logs == [] then 0.0 else SumGas(logs[..|logs| - 1]) + logs[|logs| - 1].gas
  }

  function CountThreats(logs: seq<DecisionLog>): (n: nat)
    ensures n <= |logs|
    decreases |logs|
  {
    if logs == [] then 0 else CountThreats(logs[..|logs| - 1]) + (if logs[|logs| - 1].threat then 1 else 0)
  }

  function CountZkp(logs: seq<DecisionLog>): (n: nat)
    ensures n <= |logs|
    decreases |logs|
  {
    if logs == [] then 0 else CountZkp(logs[..|logs| - 1]) + (if logs[|logs| - 1].zkp then 1 else 0)
  }

  /** How many records carry `code` as their conduct code. */
  function CountCode(logs: seq<DecisionLog>, code: string): (n: nat)
    ensures n <= |logs|
    decreases |logs|
  {
    if logs == [] then 0 else CountCode(logs[..|logs| - 1], code) + (if logs[|logs| - 1].conductCode == code then 1 else 0)
  }

  /** `decisions_by_code`, as the loop builds it: one key per code, in
      order of first appearance, counting its records. */
  function CountByCode(logs: seq<DecisionLog>): Dict<nat>
    decreases |logs|
  {
    if logs == [] then []
    else
      var d := CountByCode(logs[..|logs| - 1]);
      var code := logs[|logs| - 1].conductCode;
      Assign(d, code, Lookup(d, code).GetOr(0) + 1)
  }

  /** Counting one more record of a prefix. */
  lemma {:induction false} CountByCodeStep(logs: seq<DecisionLog>, i: nat)
    requires i < |logs|
    ensures var d := CountByCode(logs[..i]);
      var code := logs[i].conductCode;
      CountByCode(logs[..i + 1]) == Assign(d, code, Lookup(d, code).GetOr(0) + 1)
  {
    assert logs[..i + 1][..i] == logs[..i];
  }

  function ReportOf(logs: seq<DecisionLog>): Report {
    Report(|logs|, SumGas(logs), CountByCode(logs), CountThreats(logs), CountZkp(logs))
  }

  /** The sum of a dict's counts. */
  function SumValues(d: Dict<nat>): nat
    decreases |d|
  {
    if d == [] then 0 else d[0].1 + SumValues(d[1..])
  }

  /** Assigning a count replaces the old count of that key in the sum. */
  lemma {:induction false} SumValuesAssign(d: Dict<nat>, key: string, v: nat)
    ensures SumValues(Assign(d, key, v)) + Lookup(d, key).GetOr(0) == SumValues(d) + v
    decreases |d|
  {
    if d != [] && d[0].0 != key {
      SumValuesAssign(d[1..], key, v);
      assert Assign(d, key, v)[1..] == Assign(d[1..], key, v);
    } else if d != [] {
      assert Assign(d, key, v)[1..] == d[1..];
    }
  }

  /** Each code's entry counts exactly its records, and codes without
      records have no entry. */
  lemma {:induction false} CountByCodeMeaning(logs: seq<DecisionLog>, code: string)
    ensures Lookup(CountByCode(logs), code) == if CountCode(logs, code) == 0 then None else Some(CountCode(logs, code))
    decreases |logs|
  {
    if logs != [] {
      var n := |logs| - 1;
      var d := CountByCode(logs[..n]);
      var c := logs[n].conductCode;
      var before := CountCode(logs[..n], code);
      var count := Lookup(d, c).GetOr(0) + 1;
      assert CountByCode(logs) == Assign(d, c, count);
      CountByCodeMeaning(logs[..n], code);
      AssignLookup(d, c, count, code);
      if c == code {
        assert count == before + 1;
        assert CountCode(logs, code) == before + 1;
      } else {
        assert CountCode(logs, code) == before;
      }
    }
  }

  /** Each code has one entry. */
  lemma {:induction false} CountByCodeDistinct(logs: seq<DecisionLog>)
    ensures DistinctKeys(CountByCode(logs))
    decreases |logs|
  {
    if logs != [] {
      var n := |logs| - 1;
      var d := CountByCode(logs[..n]);
      var c := logs[n].conductCode;
      CountByCodeDistinct(logs[..n]);
      AssignDistinct(d, c, Lookup(d, c).GetOr(0) + 1);
    }
  }

  /** The counts sum to the number of records. */
  lemma {:induction false} CountByCodeSum(logs: seq<DecisionLog>)
    ensures SumValues(CountByCode(logs)) == |logs|
    decreases |logs|
  {
    if logs != [] {
      var n := |logs| - 1;
      var d := CountByCode(logs[..n]);
      var c := logs[n].conductCode;
      var count := Lookup(d, c).GetOr(0) + 1;
      assert CountByCode(logs) == Assign(d, c, count);
      CountByCodeSum(logs[..n]);
      SumValuesAssign(d, c, count);
    }
  }

  /** The report counts every logged record: the per-code counts sum to
      the total, and threats and valid proofs are at most the total. */
  lemma {:induction false} ReportTotals(logs: seq<DecisionLog>)
    ensures var r := ReportOf(logs);
      r.total == |logs| && SumValues(r.byCode) == r.total
      && r.threats <= r.total && r.zkpValidations <= r.total
  {
    CountByCodeSum(logs);
  }

  /** Logging one more record adds it to every total of the report. */
  lemma {:induction false} ReportAppend(logs: seq<DecisionLog>, log: DecisionLog)
    ensures var before, after := ReportOf(logs), ReportOf(logs + [log]);
      after.total == before.total + 1
      && after.gasTotal == before.gasTotal + log.gas
      && after.threats == before.threats + (if log.threat then 1 else 0)
      && after.zkpValidations == before.zkpValidations + (if log.zkp then 1 else 0)
  {
    var all := logs + [log];
    assert all[..|logs|] == logs;
    assert all[|logs|] == log;
  }

  /** Logging one more record adds one to its code's count, and creates
      the entry with count 1 for a code not seen before. */
  lemma {:induction false} ReportAppendByCode(logs: seq<DecisionLog>, log: DecisionLog)
    ensures Lookup(ReportOf(logs + [log]).byCode, log.conductCode)
      == Some(Lookup(ReportOf(logs).byCode, log.conductCode).GetOr(0) + 1)
  {
    var all := logs + [log];
    assert all[..|logs|] == logs;
    assert all[|logs|] == log;
    var d := CountByCode(logs);
    var count := Lookup(d, log.conductCode).GetOr(0) + 1;
    assert CountByCode(all) == Assign(d, log.conductCode, count);
    AssignLookup(d, log.conductCode, count, log.conductCode);
  }

  /** The classification step of `process_triage`: the hybrid engine
      when an AI client was given, else the rule classifier. */
  method RunClassifier(index: Index, hasAi: bool, symptom: string, answers: Answers, ai: Option<AiResult>)
    returns (v: Result<Verdict, ClassifyError>)
    ensures v == ClassifyStep(index, hasAi, symptom, answers, ai)
  {
    if hasAi {
      var h := Classify(NewEngine(true), index, symptom, answers, ai);
      if h.Failure? {
        return Failure(h.error);
      }
      var hr := h.value;
      v := Success(Verdict(Name(hr.code), hr.category, hr.confidence, hr.agreement,
        Summary(Name(hr.rules.code), hr.rules.confidence, hr.rules.instruction),
        Summary(Name(hr.ai.code), hr.ai.confidence, hr.ai.reasoning),
        [hr.rules.instruction], hr.rules.causes));
    } else {
      var t := ClassifyTriage(index, symptom, answers);
      if t.Failure? {
        return Failure(t.error);
      }
      var tr := t.value;
      v := Success(Verdict(Name(tr.code), "CLASIFICADO", tr.confidence, true,
        Summary(Name(tr.code), tr.confidence, tr.instruction), NoAiSummary,
        [tr.instruction], tr.causes));
    }
  }

  // ---------------------------------------------------------------------
  // The engine

  /** `OrionMasterEngine`: its configuration is fixed at construction; the
      decision log is the only state that changes. */
  class OrionMaster {
    const index: Index
    /** Whether an AI client was given; the hybrid engine exists exactly then. */
    const hasAi: bool
    const safe: SafeCore
    var decisionLogs: seq<DecisionLog>

    constructor(index: Index, hasAi: bool, zkpEnabled: bool, honeypotEnabled: bool)
      ensures this.index == index && this.hasAi == hasAi
      ensures safe == SafeCore(zkpEnabled, honeypotEnabled)
      ensures decisionLogs == []
    {
      this.index := index;
      this.hasAi := hasAi;
      this.safe := SafeCore(zkpEnabled, honeypotEnabled);
      decisionLogs := [];
    }

    /** `process_triage`: returns or raises what `Triage` says, and appends
      the record to the log exactly when the case was decided — a raised
      error or a BLOCKED record leaves the log as it was. */
    method ProcessTriage(q: Request, env: Env) returns (r: Result<DecisionLog, TriageError>)
      modifies this
      ensures r == Triage(index, hasAi, safe, q, env).Returned()
      ensures Triage(index, hasAi, safe, q, env).Decided? ==> decisionLogs == old(decisionLogs) + [r.value]
      ensures !Triage(index, hasAi, safe, q, env).Decided? ==> decisionLogs == old(decisionLogs)
    {
      var symptom := FindSymptom(index, q.input);
      if symptom.None? || symptom.value == "" {
        return Failure(NoSymptom);
      }
      var threat := DetectThreat(q.input, q.answers);
      if threat && safe.honeypotEnabled {
        return Success(HoneypotRecord(q.input, env.now));
      }
      var zkp := ValidateZkp(safe, q.patientId, None);
      if !zkp {
        return Failure(NotEligible);
      }
      var bioHash := GenerateBioHash(env.sha256, q.patientId, env.hashNow, q.bio);
      var asked := PairQuestions(GetQuestions(index, symptom.value), q.answers);
      var verdict := RunClassifier(index, hasAi, symptom.value, q.answers, env.ai);
      if verdict.Failure? {
        return Failure(Classifier(verdict.error));
      }
      var gas := GasCost(|asked|, hasAi, zkp);
      var log := Record(env.now, bioHash, symptom.value, asked, verdict.value, gas, zkp, threat);
      decisionLogs := decisionLogs + [log];
      return Success(log);
    }

    /** `get_monthly_report`: the totals over the logged decisions. */
    method MonthlyReport() returns (r: Report)
      ensures r == ReportOf(decisionLogs)
    {
      var byCode: Dict<nat> := [];
      var i := 0;
      while i < |decisionLogs|
        invariant 0 <= i <= |decisionLogs|
        invariant byCode == CountByCode(decisionLogs[..i])
      {
        var code := decisionLogs[i].conductCode;
        CountByCodeStep(decisionLogs, i);
        byCode := Assign(byCode, code, Lookup(byCode, code).GetOr(0) + 1);
        i := i + 1;
      }
      assert decisionLogs[..|decisionLogs|] == decisionLogs;
      r := Report(|decisionLogs|, SumGas(decisionLogs), byCode, CountThreats(decisionLogs), CountZkp(decisionLogs));
    }
  }
}
