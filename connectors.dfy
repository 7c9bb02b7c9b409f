/** The three connectors the orchestrator goes through: the security
    connector (threat screening, eligibility proof, honeypot redirect),
    the data connector (symptom detection and questions, delegated to the
    rule classifier) and the biometric connector (identity hash input and
    the vital-sign check). Their configuration never changes after
    construction, so each is a value. */
module Connectors {
  import opened Wrappers
  import opened Text
  import opened Knowledge
  import opened Inference

  // ---------------------------------------------------------------------
  // Security connector

  /** The security connector's configuration. */
  datatype SafeCore = SafeCore(zkpEnabled: bool, honeypotEnabled: bool)

  /** The fixed list of attack patterns, all in lower case. */
  const ThreatPatterns: seq<string> := [
    "sql", "injection", "script", "alert(", "drop table",
    "union select", "exec(", "eval(", "<script", "javascript:"]

  /** Whether an answer value is a string that, lower-cased, holds a threat pattern. */
  predicate ThreatValue(v: Value) {
    v.Str? && AnyPatternIn(ThreatPatterns, Lower(v.s))
  }

  /** Whether some answer value is a threatening string, in dict order. */
  predicate AnyThreatValue(answers: Answers)
    decreases |answers|
  {
    answers != [] && (ThreatValue(answers[0].1) || AnyThreatValue(answers[1..]))
  }

  /** `detect_threat`: the lower-cased text holds a pattern, or some
      string-valued answer does; other answer values are ignored. */
  predicate DetectThreat(input: string, answers: Answers): (threat: bool)
    ensures (exists p :: p in ThreatPatterns && Contains(Lower(input), p)) ==> threat
    ensures answers == [] ==> (threat <==> exists p :: p in ThreatPatterns && Contains(Lower(input), p))
  {
    AnyPatternMeaning(ThreatPatterns, Lower(input));
    AnyPatternIn(ThreatPatterns, Lower(input)) || AnyThreatValue(answers)
  }

  /** What threat screening promises, as an existential over patterns and answers. */
  lemma {:induction false} DetectThreatMeaning(input: string, answers: Answers)
    ensures DetectThreat(input, answers) <==>
      (exists p :: p in ThreatPatterns && Contains(Lower(input), p))
      || (exists i, p :: 0 <= i < |answers| && answers[i].1.Str? && p in ThreatPatterns
            && Contains(Lower(answers[i].1.s), p))
  {
    AnyPatternMeaning(ThreatPatterns, Lower(input));
    AnyThreatValueMeaning(answers);
  }

  lemma {:induction false} AnyThreatValueMeaning(answers: Answers)
    ensures AnyThreatValue(answers) <==>
      exists i, p :: 0 <= i < |answers| && answers[i].1.Str? && p in ThreatPatterns
        && Contains(Lower(answers[i].1.s), p)
    decreases |answers|
  {
    if answers != [] {
      AnyThreatValueMeaning(answers[1..]);
      var v := answers[0].1;
      if v.Str? {
        AnyPatternMeaning(ThreatPatterns, Lower(v.s));
      }
      if exists i, p :: 0 <= i < |answers| && answers[i].1.Str? && p in ThreatPatterns
          && Contains(Lower(answers[i].1.s), p) {
        var i, p :| 0 <= i < |answers| && answers[i].1.Str? && p in ThreatPatterns
          && Contains(Lower(answers[i].1.s), p);
        if i > 0 {
          assert answers[1..][i - 1] == answers[i];
        }
      }
      if AnyThreatValue(answers[1..]) {
        var i, p :| 0 <= i < |answers[1..]| && answers[1..][i].1.Str? && p in ThreatPatterns
          && Contains(Lower(answers[1..][i].1.s), p);
        assert answers[i + 1] == answers[1..][i];
      }
    }
  }

  /** A text holding "drop table" is a threat, whatever the answers. */
  lemma {:induction false} DropTableIsThreat(before: string, after: string, answers: Answers)
    ensures DetectThreat(before + "drop table" + after, answers)
  {
    var text := before + "drop table" + after;
    assert "drop table" in ThreatPatterns;
    LowerAppend(before + "drop table", after);
    LowerAppend(before, "drop table");
    assert Lower("drop table") == "drop table";
    assert Contains("drop table", "drop table");
    ContainsAppendLeft(Lower(before), "drop table", "drop table");
    ContainsAppendRight(Lower(before) + "drop table", Lower(after), "drop table");
    DetectThreatMeaning(text, answers);
  }

  /** A text without the letters s, i, p, u, x, v, j and without "(" holds
      none of the patterns. */
  lemma {:induction false} NoPatternWithout(t: string)
    requires 's' !in t && 'i' !in t && 'p' !in t && 'u' !in t
    requires 'x' !in t && 'v' !in t && 'j' !in t && '(' !in t
    ensures !AnyPatternIn(ThreatPatterns, t)
  {
    var ps := ThreatPatterns;
    var missing := "sis(puxvsj";  // for each pattern, one of its characters
    forall k | 0 <= k < |ps| ensures !Contains(t, ps[k]) {
      assert missing[k] in ps[k];
      MissingCharNotContained(t, ps[k], missing[k]);
    }
    AnyPatternMeaning(ps, t);
  }

  /** A plain complaint is no threat. */
  lemma {:induction false} HeadacheIsNoThreat()
    ensures !DetectThreat("dolor de cabeza", [])
  {
    var t := "dolor de cabeza";
    HeadacheLetters(t);
    LowerOfLowerCase(t);
    NoPatternWithout(t);
  }

  lemma {:induction false} HeadacheLetters(t: string)
    requires t == "dolor de cabeza"
    ensures IsLowerCase(t)
    ensures 's' !in t && 'i' !in t && 'p' !in t && 'u' !in t
    ensures 'x' !in t && 'v' !in t && 'j' !in t && '(' !in t
  {
  }

  /** `validate_zkp`: the simulated eligibility proof accepts every patient,
      whether or not the proof is enabled. */
  function ValidateZkp(safe: SafeCore, patientId: Option<string>, bioHash: Option<string>): (ok: bool)
    ensures ok
  {
    true
  }

  /** The redirect record of `activate_honeypot`. */
  datatype Honeypot = Honeypot(redirect: bool, target: string, reason: string, timestamp: string)

  /** `activate_honeypot`: a fixed redirect to the synthetic environment,
      stamped with the given time; the input text is not read. */
  function ActivateHoneypot(input: string, timestamp: string): (h: Honeypot)
    ensures h.redirect && h.target == "SYNTHETIC_ENV_01" && h.reason == "THREAT_DETECTED"
    ensures h.timestamp == timestamp
  {
    Honeypot(true, "SYNTHETIC_ENV_01", "THREAT_DETECTED", timestamp)
  }

  // ---------------------------------------------------------------------
  // Data connector: delegation to the rule classifier

  /** `detect_entity`: the rule classifier's symptom detection. */
  function DetectEntity(index: Index, text: string): (r: Option<string>)
    ensures r.Some? ==> r.value in Keys(index)
    ensures r.None? <==> DetectSymptom(index, text).None?
    ensures r == DetectSymptom(index, text)
  {
    DetectionMeaning(index, text);
    DetectSymptom(index, text)
  }

  /** `get_protocol`: the rule classifier's mandatory questions. */
  function GetProtocol(index: Index, symptom: string): (r: seq<Question>)
    ensures Lookup(index, Lower(symptom)).None? ==> r == []
    ensures Lookup(index, Lower(symptom)).Some? ==> r == Lookup(index, Lower(symptom)).value.questions
  {
    GetQuestions(index, symptom)
  }

  // ---------------------------------------------------------------------
  // Biometric connector

  /** The biometric readings the connectors read; the other readings of the
      record (diastolic pressure, saturation, temperature, respiratory
      rate) are never read by them. A reading of 0 is falsy. */
  datatype Biometrics = Biometrics(heartRate: Option<int>, systolic: Option<int>)

  /** `getattr(data, name, None) or '0'`, rendered. */
  function ReadingText(reading: Option<int>): string {
    match reading
    case Some(v) => if v != 0 then IntToString(v) else "0"
    case None => "0"
  }

  /** A reading is rendered "0" exactly when it is missing or zero, the
      falsy values the `or '0'` default replaces. */
  lemma {:induction false} ReadingTextZero(reading: Option<int>)
    ensures ReadingText(reading) == "0" <==> reading.None? || reading == Some(0)
  {
    if reading.Some? && reading.value != 0 {
      IntToStringZero(reading.value);
    }
  }

  /** The identity part of the hash input: the patient id, or "ANONYMOUS"
      when it is missing or empty. */
  function Who(patientId: Option<string>): string {
    if patientId.Some? && patientId.value != "" then patientId.value else "ANONYMOUS"
  }

  /** The biometric part of the hash input: nothing without data, else the
      heart rate and the systolic pressure. */
  function Readings(bio: Option<Biometrics>): string {
    match bio
    case None => ""
    case Some(b) => "_" + ReadingText(b.heartRate) + "_" + ReadingText(b.systolic)
  }

  /** The text that `generate_bio_hash` feeds to SHA-256: identity, clock
      reading, readings. */
  function BioHashInput(patientId: Option<string>, now: string, bio: Option<Biometrics>): string {
    Who(patientId) + "_" + now + Readings(bio)
  }

  /** `generate_bio_hash`: the digest (the parameter `sha256`, as hex text)
      of the hash input; `now` is the clock reading the connector takes. */
  function GenerateBioHash(sha256: string -> string, patientId: Option<string>, now: string, bio: Option<Biometrics>): (h: string)
    ensures bio.None? ==> h == sha256(Who(patientId) + "_" + now)
    ensures patientId.None? || patientId == Some("") ==> h == sha256("ANONYMOUS_" + now + Readings(bio))
  {
    assert "ANONYMOUS" + "_" == "ANONYMOUS_";
    assert bio.None? ==> BioHashInput(patientId, now, bio) == Who(patientId) + "_" + now;
    sha256(BioHashInput(patientId, now, bio))
  }

  /** The hash input starts with the given patient id (or "ANONYMOUS") and
      the clock reading, is exactly that without biometric data, and with
      it ends with the heart rate and the systolic pressure. */
  lemma {:induction false} BioHashInputShape(patientId: Option<string>, now: string, bio: Option<Biometrics>)
    ensures patientId.Some? && patientId.value != "" ==> StartsWith(BioHashInput(patientId, now, bio), patientId.value + "_" + now)
    ensures patientId.None? || patientId.value == "" ==> StartsWith(BioHashInput(patientId, now, bio), "ANONYMOUS_" + now)
    ensures bio.None? ==> BioHashInput(patientId, now, bio) == Who(patientId) + "_" + now
    ensures bio.Some? ==> EndsWith(BioHashInput(patientId, now, bio),
      "_" + ReadingText(bio.value.heartRate) + "_" + ReadingText(bio.value.systolic))
  {
    var head := Who(patientId) + "_" + now;
    assert (head + Readings(bio))[..|head|] == head;
    assert (head + Readings(bio))[|head|..] == Readings(bio);
    assert "ANONYMOUS" + "_" == "ANONYMOUS_";
  }

  /** `validate_vitals`: no alerts without data; "CRITICAL" under
      "heart_rate" when the heart rate is present, non-zero and outside
      [40, 120]. */
  function ValidateVitals(bio: Option<Biometrics>): (alerts: Dict<string>)
    ensures |alerts| <= 1
    ensures alerts != [] <==> (bio.Some? && bio.value.heartRate.Some? && bio.value.heartRate.value != 0
      && (bio.value.heartRate.value > 120 || bio.value.heartRate.value < 40))
    ensures alerts != [] ==> alerts[0] == ("heart_rate", "CRITICAL")
  {
    match bio
    case None => []
    case Some(b) =>
      match b.heartRate
      case Some(hr) => if hr != 0 && (hr > 120 || hr < 40) then [("heart_rate", "CRITICAL")] else []
      case None => []
  }

  /** The vital-sign check flags the heart rate exactly in the critical
      cases and flags nothing else. */
  lemma {:induction false} ValidateVitalsMeaning(bio: Option<Biometrics>)
    ensures bio.None? ==> ValidateVitals(bio) == []
    ensures forall k :: k in Keys(ValidateVitals(bio)) ==> k == "heart_rate"
    ensures Lookup(ValidateVitals(bio), "heart_rate") == Some("CRITICAL") <==>
      bio.Some? && bio.value.heartRate.Some? && bio.value.heartRate.value != 0
      && (bio.value.heartRate.value > 120 || bio.value.heartRate.value < 40)
    ensures Lookup(ValidateVitals(bio), "heart_rate").Some? ==> Lookup(ValidateVitals(bio), "heart_rate") == Some("CRITICAL")
  {
  }
}
