# Orion triage core, modelled in Dafny

This project models the decision core of the Orion emergency-triage system.
The core has seven parts:

- **The rule classifier** (`core/inference_engine.py`, module `Inference`). It indexes the clinical protocols by lower-cased, stripped root symptom and detects the symptom in a patient's text: an exact key match first, then any key word longer than three letters. It evaluates each rule's condition against the answers and keeps the most urgent firing rule. Without a firing rule it falls back to D3. It pairs the mandatory questions with their answers. An unknown symptom, and a firing code outside the table, end in the errors the source raises.
- **Triage codes** (`Codes`). These are D1, D2, D7 and D3, with their priorities (4, 3, 2, 1) and categories.
- **The hybrid engine** (`core/hybrid_engine.py`, module `Hybrid`). It cross-validates the rule verdict against an AI verdict, in three cases:
  - agreement adds a 0.1 bonus, capped at 1;
  - a one-level gap escalates to the more urgent code with a 0.4/0.6 weighted confidence;
  - a wider gap escalates with a 0.7 penalty and asks for review.

  When there is no AI result it passes the rule verdict through.
- **The AI reply parser** (`_parse_response` of `core/medgemma_client.py`, module `MedGemma`). It strips markdown fences, checks the code in upper case and clamps the confidence.
- **The connectors** (`core/connectors.py`, module `Connectors`):
  - threat screening over the text and the string answers;
  - the always-true eligibility proof;
  - the honeypot redirect;
  - delegation to the classifier;
  - the identity-hash input;
  - the heart-rate check.
- **The master engine** (`core/orion_master.py`, module `Master`). It has two parts:
  - The pipeline of `process_triage`, modelled as the function `Triage` (which outcome each input leads to) and the class `OrionMaster`, which appends decided cases to its decision log. It returns a redirect record without logging it, and it builds the monthly report from the log.
  - The table from code to disposition (URG/LM/CONS), the referral flag and the cost formula.
- **The resource predictor** (`core/resource_predictor.py`, module `Predictor`, class `ResourcePredictor`):
  - the slot baseline and its defaults;
  - the weather, traffic and event multipliers;
  - doctors, nurses and boxes;
  - the bounded usage log;
  - the drift report and alert;
  - training from grouped simple CSV rows.
- **The spreadsheet importer** (`etl/excel_transformer.py`, module `Excel`, class `Transformer`). It reads sheet rows section by section into questions, recommendations and rules, and builds the knowledge base from a workbook or from CSV groups.

A Python `dict` is a sequence of key/value pairs kept in insertion order (`Knowledge.Dict`). Assigning to an existing key replaces its value in place, so lookups see the last write and iteration sees the first-insertion order. Cell and answer values are `Knowledge.Value`: a string, a number, a boolean or None. Each value has Python's truthiness and `str()` rendering.

Loops in the source are methods with invariants, each proved equal to a specification function:
- `Inference.FindSymptom` and `Inference.ScanKeys`;
- `Inference.EvaluateCondition`;
- `Inference.RulePass` and `Inference.ConsiderRule`;
- `Inference.AskQuestions`;
- `Inference.BuildIndex`;
- `Master.PairQuestions`;
- `Excel.ExtractSheetData`;
- the transformer's methods.

The three objects whose fields change are classes:
- the master engine's decision log;
- the predictor's baseline and usage log;
- the transformer's knowledge base.

The hybrid engine calls the AI client with three arguments. The client's `classify` (line 71 of `core/medgemma_client.py`) takes two, so with that client the call always raises and the hybrid engine falls back to the rule verdict. The model takes the AI outcome as an input: `None` means the call raised. The proofs cover every outcome.

## Model

| member | source | states |
|---|---|---|
| Codes.Priority | core/inference_engine.py:44-49 | every code's priority lies between 1 and 4 |
| Codes.ParseCode | core/inference_engine.py:44-49 | a string is read as a code only when it is exactly that code's table key |
| Codes.ParseName | core/inference_engine.py:44-49 | a string parses to code c if and only if it is c's name |
| Codes.PriorityInjective | core/inference_engine.py:44-49 | two codes have the same priority if and only if they are the same code, so "more urgent" is a strict order |
| Knowledge.Keys | core/inference_engine.py:91 | the keys of a dict, one per entry, in insertion order |
| Knowledge.Lookup | core/inference_engine.py:130 | `get` yields nothing exactly when the key is absent; a value it yields is stored under that key |
| Knowledge.AssignLookup | core/inference_engine.py:75 | after `d[key] = v` the key reads v and every other key reads what it read before |
| Knowledge.AssignKeys | core/inference_engine.py:75 | assigning an existing key keeps the key order; a new key goes last |
| Knowledge.AssignDistinct | core/inference_engine.py:75 | assignment keeps the keys distinct |
| Knowledge.FromPairsPrefix | core/inference_engine.py:72-76 | building a dict from one more pair is one more assignment |
| Knowledge.FromPairsFindsLast | core/inference_engine.py:72-76 | a key is missing exactly when no pair has it; otherwise it holds the value of the last pair with that key |
| Inference.BuildIndex | core/inference_engine.py:70-76 | the loop builds the index that the key/protocol pairs define, and its keys are distinct |
| Inference.IndexFindsLast | core/inference_engine.py:70-76 | a key is missing exactly when no protocol has it; otherwise it maps to the last protocol with that key |
| Inference.KeyIsLowerCase | core/inference_engine.py:74 | every index key is in lower case, so lower-casing it again changes nothing |
| Inference.IndexKeysAreKeys | core/inference_engine.py:70-76 | every index key comes from some protocol |
| Inference.FirstTrue | core/inference_engine.py:91-99 | the first position that holds, or none exactly when no position holds |
| Inference.AnyLongWordMeaning | core/inference_engine.py:97-98 | the keyword pass fires exactly when some word of the key longer than three letters occurs in the text |
| Inference.DetectionMeaning | core/inference_engine.py:78-101 | detection fails exactly when no key hits in either pass. A detected symptom is an index key. It is the first exact hit, or, when no key hits exactly, the first keyword hit |
| Inference.DetectSymptom | core/inference_engine.py:78-101 | a detected symptom is always a key of the index |
| Inference.ScanKeys | core/inference_engine.py:91-99 | the loop returns the first key that hits in the pass |
| Inference.FindSymptom | core/inference_engine.py:78-101 | the two-pass loop returns what the detection specification says |
| Inference.DetectedIsIndexed | core/inference_engine.py:78-101 | a detected symptom is found again by the classifier's lower-cased lookup |
| Inference.YesAndNoExclusive | core/inference_engine.py:205-208 | no answer counts both as the expected "yes" and as the expected "no" |
| Inference.ConditionMeaning | core/inference_engine.py:182-212 | a condition holds exactly when the question and expected answer are non-empty, and the FIRST answer key containing the question has a value that matches the expected answer |
| Inference.EvalCondition | core/inference_engine.py:182-212 | a condition can only hold when its question and expected answer are non-empty and some answer key contains the question |
| Inference.FirstKeyDecides | core/inference_engine.py:200-210 | the first answer key that mentions the question decides the condition; later keys are not consulted |
| Inference.EvaluateCondition | core/inference_engine.py:182-212 | the loop returns what the condition specification says |
| Inference.Firing | core/inference_engine.py:142-143 | one flag per rule: whether its condition holds |
| Inference.TableCodes | core/inference_engine.py:144-148 | one entry per rule: its code read against the priority table |
| Inference.Step | core/inference_engine.py:146-152 | one rule's update of the kept rule; the kept rule is always one already visited |
| Inference.Choose | core/inference_engine.py:142-152 | the rule kept after the first n rules is one of them |
| Inference.ChooseMeaning | core/inference_engine.py:142-152 | nothing is kept exactly when nothing fires. A kept rule fired. When every firing code is known, the kept rule is the first firing rule of highest priority. A lookup failure stops at a firing rule with an unknown code |
| Inference.BrokenSticks | core/inference_engine.py:147-148 | once a lookup fails, later rules do not change the outcome |
| Inference.AnswerFor | core/inference_engine.py:166 | a truthy answer under the question id wins; otherwise the answer is the one under the question text |
| Inference.Asked | core/inference_engine.py:162-171 | one asked question per mandatory question, in order, each with its text and answer |
| Inference.AskQuestions | core/inference_engine.py:162-171 | the loop builds exactly that list |
| Inference.ConsiderRule | core/inference_engine.py:143-152 | one iteration of the rule loop moves the pass to the next kept rule, or to the lookup error |
| Inference.StepOutcome | core/inference_engine.py:143-152 | what one iteration does, in each of its five cases: the rule does not fire; it is the first to fire; its code is unknown; the kept code is unknown; the codes are compared by priority |
| Inference.RulePass | core/inference_engine.py:142-152 | the rule loop ends with the kept rule, or the lookup error, that the specification gives |
| Inference.ClassifyTriage | core/inference_engine.py:119-180 | the method returns or raises what the classification specification says |
| Inference.PassConcludes | core/inference_engine.py:154-180 | the verdict is the pass's error, or the kept rule (D3 and its fallback text when none) turned into a result |
| Inference.VerdictFailure | core/inference_engine.py:147-148 | classification fails exactly when some firing rule's code is unknown, and the error names the code that was looked up |
| Inference.VerdictFallback | core/inference_engine.py:155-159 | when no rule fires the verdict is D3 with the fallback instruction, the fallback causes and confidence 0.5 |
| Inference.VerdictBest | core/inference_engine.py:142-152 | when some rule fires and classification succeeds, the verdict is the first firing rule of highest priority, with that rule's instruction and causes and confidence 0.9 |
| Inference.ClassificationMeaning | core/inference_engine.py:119-180 | an unknown symptom raises. Otherwise the classification fails only on an unknown firing code, its category matches its code, the asked questions are the protocol's, and D3/0.5 applies without a firing rule, or the best firing rule with 0.9 |
| Inference.Classification | core/inference_engine.py:119-180 | the unknown-symptom error happens exactly when the lower-cased symptom is not indexed; any other failure is an unknown code; a result's category matches its code and its confidence is 0.5 or 0.9 |
| Inference.KnownCodesNeverFail | core/inference_engine.py:142-175 | a protocol whose rule codes are all in the table always classifies |
| Inference.GetQuestions | core/inference_engine.py:103-117 | the protocol's mandatory questions, or none for an unknown symptom |
| Inference.GetRecommendations | core/inference_engine.py:214-228 | the protocol's recommendations, or none for an unknown symptom |
| Inference.LookupsAgree | core/inference_engine.py:103-132 | an unknown symptom raises in the classifier but yields empty lists from the lookups; a successful classification asks exactly the questions that the question lookup returns |
| Connectors.DetectThreatMeaning | core/connectors.py:29-43 | a threat is reported exactly when some pattern occurs in the lower-cased text or in some lower-cased string answer |
| Connectors.DetectThreat | core/connectors.py:29-43 | a pattern in the lower-cased text is always a threat; with no answers, that is the only way to be one |
| Connectors.AnyThreatValueMeaning | core/connectors.py:39-41 | the answer scan fires exactly when some string answer holds a pattern; answers of other types are ignored |
| Connectors.DropTableIsThreat | core/connectors.py:24-36 | any text containing "drop table" is a threat, whatever the answers |
| Connectors.NoPatternWithout | core/connectors.py:24-27 | a text lacking the letters s, i, p, u, x, v, j and "(" holds no pattern |
| Connectors.HeadacheIsNoThreat | core/connectors.py:29-43 | an ordinary complaint with no answers is not a threat |
| Connectors.ValidateZkp | core/connectors.py:45-55 | the simulated proof accepts every patient, enabled or not |
| Connectors.ActivateHoneypot | core/connectors.py:57-64 | the redirect record points at SYNTHETIC_ENV_01 with reason THREAT_DETECTED and the given time |
| Connectors.DetectEntity | core/connectors.py:81-83 | the data connector's detection is exactly the classifier's detection; a detected entity is an index key |
| Connectors.GetProtocol | core/connectors.py:85-87 | the data connector returns the classifier's mandatory questions, or none |
| Connectors.BioHashInputShape | core/connectors.py:99-115 | the hash input starts with the patient id (or ANONYMOUS when it is missing or empty) and the clock reading; without biometric data it is exactly those two, and with it it ends with "_", the heart rate, "_" and the systolic pressure |
| Connectors.ReadingTextZero | core/connectors.py:110-111 | a reading is written "0" exactly when it is missing or zero, the values the `or '0'` default replaces |
| Connectors.GenerateBioHash | core/connectors.py:99-115 | without biometric data the digest is of the identity and the clock reading alone; without a patient id (or with an empty one) the identity is ANONYMOUS |
| Connectors.ValidateVitalsMeaning | core/connectors.py:117-128 | no data gives no alerts; only heart_rate is ever flagged, as CRITICAL, exactly when it is present, non-zero and outside 40..120 |
| Connectors.ValidateVitals | core/connectors.py:117-128 | at most one alert; there is one exactly when a non-zero heart rate lies outside 40..120, and it is heart_rate: CRITICAL |
| Hybrid.NewEngine | core/hybrid_engine.py:69-89 | the default weights are non-negative and add up to 1 |
| Hybrid.Gap | core/hybrid_engine.py:139-142 | the priority gap is at most 3 and is zero exactly for equal codes |
| Hybrid.Escalate | core/hybrid_engine.py:202-207 | the escalated code is one of the two and at least as urgent as both |
| Hybrid.CrossValidateMeaning | core/hybrid_engine.py:124-200 | cross-validation keeps both inputs. Agreement means equal codes. The final code is the more urgent of the two, with its category. Review is asked exactly for a gap of 2 or more, and the alert level is none, low, medium or high for a gap of 0, 1, 2 or 3 |
| Hybrid.CrossValidate | core/hybrid_engine.py:124-200 | both verdicts are kept; agreement means equal codes; the final code is at least as urgent as each of them; review is only asked on disagreement |
| Hybrid.AgreementConfidence | core/hybrid_engine.py:145-150 | on agreement the confidence is at least the larger input and at most 1 |
| Hybrid.BlendedConfidence | core/hybrid_engine.py:159-165 | on a one-level gap the weighted confidence lies between the two inputs |
| Hybrid.PenalisedConfidence | core/hybrid_engine.py:174-179 | on a wider gap the confidence is at most the smaller input and non-negative |
| Hybrid.ConfidenceInRange | core/hybrid_engine.py:124-200 | with inputs in [0, 1] and the default weights, the final confidence stays in [0, 1] |
| Hybrid.RulesOnlyIsAgreement | core/hybrid_engine.py:249-272 | the rules-only result has the rule code, category, agreement flag, review flag and alert that cross-validating against its own placeholder would give, and it keeps the rule confidence where cross-validation would add 0.1 |
| Hybrid.RulesOnly | core/hybrid_engine.py:249-272 | the rules-only result keeps the rule code, confidence and verdict, agrees, asks for no review, raises no alert, and gives the AI side confidence 0 |
| Hybrid.ClassifyMeaning | core/hybrid_engine.py:91-122 | the hybrid verdict fails exactly when the rule classifier does, with its error. It is never less urgent than the rule verdict, nor than the AI verdict when that is used. Without AI, or when the AI call raises, it is the rules-only result. Its confidence stays in [0, 1] |
| Hybrid.Classify | core/hybrid_engine.py:91-122 | the hybrid verdict fails exactly when the rule classifier fails, and is never less urgent than the rule verdict |
| Hybrid.ValidatedReplyKeepsRange | core/hybrid_engine.py:119-122 | an AI reply that passed the parser's checks keeps the hybrid confidence in [0, 1] |
| MedGemma.DropPrefix | core/medgemma_client.py:180-183 | dropping a prefix that is there leaves the rest; otherwise the text is unchanged |
| MedGemma.DropSuffix | core/medgemma_client.py:184-185 | dropping a suffix that is there leaves the rest; otherwise the text is unchanged |
| MedGemma.DropPrefixOf | core/medgemma_client.py:180-183 | dropping p from p + t gives back t |
| MedGemma.DropSuffixOf | core/medgemma_client.py:184-185 | dropping p from t + p gives back t |
| MedGemma.StripFences | core/medgemma_client.py:178-187 | the cleaned reply is no longer than the reply and neither starts nor ends with whitespace |
| MedGemma.StripAroundFence | core/medgemma_client.py:179 | whitespace around a fenced block is stripped away |
| MedGemma.JsonFenceRemoved | core/medgemma_client.py:178-187 | a reply fenced as json, with any surrounding whitespace, cleans to its stripped body |
| MedGemma.OpenFenceDropped | core/medgemma_client.py:180-181 | the json fence is dropped from the front |
| MedGemma.PlainFenceIsNotJson | core/medgemma_client.py:180 | a plain fence whose body does not start with "json" is not taken for a json fence |
| MedGemma.PlainFenceRemoved | core/medgemma_client.py:178-187 | a reply in a plain fence cleans to its stripped body |
| MedGemma.PlainOpenDropped | core/medgemma_client.py:182-183 | the plain fence is dropped from the front |
| MedGemma.UnfencedKept | core/medgemma_client.py:178-187 | a reply without fences cleans to the stripped reply |
| MedGemma.Clamp | core/medgemma_client.py:197-200 | the confidence is clamped into [0, 1] and kept when it is already inside |
| MedGemma.ValidateMeaning | core/medgemma_client.py:189-214 | the reply is rejected exactly when it is not decoded, its code upper-cased is not in the table, or its confidence is not a number. Otherwise the code is the upper-cased one, the confidence is clamped (0.5 when missing) and the text fields default to empty |
| MedGemma.Validate | core/medgemma_client.py:189-208 | nothing decoded is the not-JSON error; an accepted reply had a code and gets a confidence in [0, 1] |
| MedGemma.ParseResponse | core/medgemma_client.py:174-214 | a cleaned reply that does not decode is the not-JSON error; an accepted reply has a confidence in [0, 1] |
| MedGemma.LowerCaseCodeAccepted | core/medgemma_client.py:193-195 | a code written in lower case is accepted as that code |
| Master.DispositionByPriority | core/orion_master.py:81-89 | URG is assigned exactly to priorities 3 and 4. Referral is recommended exactly for priorities 1 and 2, which are exactly the non-URG codes |
| Master.GasCostMonotone | core/orion_master.py:340-355 | the cost is at least 0.001 and never falls when questions, AI use or the proof are added |
| Master.GasCost | core/orion_master.py:340-355 | the cost is the base 0.001 plus 0.0001 per question, plus at most 0.007 of surcharges, and exactly the base part without AI or proof |
| Master.FirstThree | core/orion_master.py:359 | a prefix of the causes of length min(3, number of causes): all of them when there are three or fewer |
| Master.Observations | core/orion_master.py:357-359 | the observation text is the code and the differential-diagnosis heading, followed by exactly the first three causes joined by ", " |
| Master.AnswerByText | core/orion_master.py:200 | the answer stored under the question text, or "No respondida" |
| Master.Paired | core/orion_master.py:196-206 | one paired entry per mandatory question, in order, with its text, its answer and its answer type |
| Master.PairQuestions | core/orion_master.py:196-206 | the loop builds exactly that list |
| Master.PairingDiffersFromClassifier | core/orion_master.py:200 | the decision log pairs answers by text only. A question answered only under its id is logged unanswered, although the classifier reads that answer |
| Master.HoneypotRecord | core/orion_master.py:313-338 | the redirect record is BLOCKED, costs nothing, asks nothing, flags threat and honeypot, has no proof and carries the time |
| Master.NoSymptomRaises | core/orion_master.py:158-161 | no detected symptom raises |
| Master.ThreatRedirects | core/orion_master.py:165-174 | a threat, with the honeypot enabled and a symptom detected, returns the redirect record |
| Master.DecidedExactly | core/orion_master.py:125-311 | a case is decided exactly when a symptom is detected, there is no honeypot redirect and classification succeeds. The eligibility error never happens |
| Master.DecidedRecord | core/orion_master.py:276-304 | a decided record holds the detected symptom, one paired entry per mandatory question, the disposition of its code, the referral flag for D7/D3, the cost formula, a valid proof, the threat flag, the time and the identity hash |
| Master.DecidedVerdict | core/orion_master.py:213-255 | the rules summary, instructions and causes come from the rule verdict. Without AI the final code is the rule code with category CLASIFICADO; with AI it is at least as urgent and has its own category |
| Master.Triage | core/orion_master.py:125-311 | no detected symptom raises; the eligibility error never happens; a redirect is the BLOCKED record for a detected threat with the honeypot on; a decided record has a valid proof, no honeypot, the call's time, and a threat flag only when the honeypot is off |
| Master.CountThreats | core/orion_master.py:379 | at most one threat per logged decision |
| Master.CountZkp | core/orion_master.py:387 | at most one validation per logged decision |
| Master.CountCode | core/orion_master.py:374-377 | at most one count per logged decision |
| Master.CountByCodeStep | core/orion_master.py:374-377 | each log entry increments its code's count (from 0 when new) |
| Master.CountByCodeMeaning | core/orion_master.py:374-377 | the per-code table holds, for each code, exactly the number of decisions with it, and omits codes never used |
| Master.CountByCodeDistinct | core/orion_master.py:374-377 | the per-code table has no repeated code |
| Master.CountByCodeSum | core/orion_master.py:371-377 | the per-code counts add up to the number of decisions |
| Master.ReportTotals | core/orion_master.py:369-388 | the total is the log length, the per-code counts add up to it, and threats and validations never exceed it |
| Master.ReportAppend | core/orion_master.py:369-388 | one more decision adds one to the total, its cost to the cost total, and one to threats or validations when it has them |
| Master.ReportAppendByCode | core/orion_master.py:374-377 | one more decision adds one to its code's count |
| Master.RunClassifier | core/orion_master.py:213-255 | the classification step returns what the verdict specification says |
| Master.OrionMaster.constructor | core/orion_master.py:91-123 | a new engine keeps its index, AI flag and security settings and has an empty log |
| Master.OrionMaster.ProcessTriage | core/orion_master.py:125-311 | returns or raises what the pipeline specification says; appends the record to the log exactly when the case is decided |
| Master.OrionMaster.MonthlyReport | core/orion_master.py:369-388 | the report of the current log |
| Predictor.WeatherFactor | core/resource_predictor.py:46-51 | the weather multiplier lies between 1 and 1.25 |
| Predictor.TrafficFactor | core/resource_predictor.py:52-56 | the traffic multiplier lies between 1 and 1.15 |
| Predictor.EventFactor | core/resource_predictor.py:57-62 | the event multiplier lies between 1 and 1.35 |
| Predictor.Ceil | core/resource_predictor.py:213 | the ceiling is the least integer at or above x |
| Predictor.CeilMonotone | core/resource_predictor.py:213 | the ceiling never decreases |
| Predictor.StaffingCovers | core/resource_predictor.py:207-222 | the doctors cover the severity-weighted demand at four patients each, with less than one doctor to spare. The nurses are the fewest that are at least two and at least 1.5 per doctor, and the boxes are the fewest that cover 3.3 times the demand |
| Predictor.ScaledAtLeastBase | core/resource_predictor.py:185-205 | the combined multiplier is at least 1, so the predicted demand is never below a non-negative baseline |
| Predictor.ForecastDemand | core/resource_predictor.py:176-205 | the prediction is the slot baseline times the three multipliers, and never less than the baseline |
| Predictor.ForecastDefaults | core/resource_predictor.py:176-183 | an unknown slot predicts from 10 patients at severity 1 with confidence 0.4. A known slot gives confidence 0.85 and reads a plain number, or a count and a severity, each with its own default |
| Predictor.Forecast | core/resource_predictor.py:176-231 | an unknown slot gives confidence 0.4 at severity 1, a known one 0.85; there are at least two nurses and at least 1.5 per doctor |
| Predictor.Predict | core/resource_predictor.py:165-231 | the prediction is never below a non-negative slot baseline, and an unknown slot predicts at least 10 patients at confidence 0.4 |
| Predictor.DoctorsMonotone | core/resource_predictor.py:210-213 | a higher severity never lowers the doctors needed |
| Predictor.ForecastSeverity | core/resource_predictor.py:176-213 | raising a slot's severity never lowers its doctors |
| Predictor.AssignedSlot | core/resource_predictor.py:165-231 | a slot entry with count and severity gives the staffing of its scaled count, at confidence 0.85 |
| Predictor.SeverityRaisesDoctors | core/resource_predictor.py:165-231 | for any weekday, hour and factors, a higher stored severity never lowers the doctors predicted |
| Predictor.MondayTen | core/resource_predictor.py:170-172 | Monday at 10 is slot "0-10" |
| Predictor.SeverityExample | core/resource_predictor.py:165-231 | 10 patients at severity 2 need 5 doctors, and at severity 1 need 3 |
| Predictor.StormProtestExample | core/resource_predictor.py:185-205 | a storm and a protest raise a baseline of 20 to 33.75 patients |
| Predictor.RecordedMeaning | core/resource_predictor.py:233-241 | the new reading is last. Below 100 readings it is appended; at the limit the oldest is dropped. The log never grows past 100 |
| Predictor.Recorded | core/resource_predictor.py:233-241 | the new reading is last, the log grows by at most one, and a log of at most 100 readings stays within 100 |
| Predictor.DriftAlertMeaning | core/resource_predictor.py:259-270 | for a positive prediction the alert fires exactly when the reading is above 120% or below 80% of it; a zero prediction gives zero drift |
| Predictor.DriftReportMeaning | core/resource_predictor.py:243-276 | no readings gives the no-data report with 0% drift and no alert. Otherwise the report compares the latest reading with the calm-conditions prediction for its slot, and the alert fires exactly when the drift exceeds 20% |
| Predictor.GetDriftReport | core/resource_predictor.py:243-271 | no data exactly when there are no readings; otherwise the report is stamped with the latest reading, and for a positive prediction its alert is set exactly outside 80%..120% |
| Predictor.CheckDriftAlert | core/resource_predictor.py:273-276 | no readings means no alert; for a positive calm prediction the alert fires exactly when the latest count is above 120% or below 80% of it |
| Predictor.DefaultSlotDrift | core/resource_predictor.py:243-276 | against the default 10-patient baseline, a reading of 50 raises the alert and a reading of 10 does not |
| Predictor.TrainedMeaning | core/resource_predictor.py:140-149 | the trained baseline has exactly the slots of the groups, each with the group's mean count and severity 1 |
| Predictor.Trained | core/resource_predictor.py:140-149 | every group's slot is filled, and every filled slot holds a record at severity 1 |
| Predictor.TrainedSlots | core/resource_predictor.py:144-147 | the slot-by-slot assignment fills each group's slot with a record at severity 1 |
| Predictor.TrainedPrediction | core/resource_predictor.py:144-149 | after training, a trained slot predicts from its mean at severity 1 with confidence 0.85 |
| Predictor.ResourcePredictor.constructor | core/resource_predictor.py:73-87 | a new predictor has the loaded baseline and no readings |
| Predictor.ResourcePredictor.RecordActualUsage | core/resource_predictor.py:233-241 | the usage log becomes the bounded log with the new reading; the baseline is untouched |
| Predictor.ResourcePredictor.TrainSimple | core/resource_predictor.py:140-160 | the baseline becomes the trained one, the usage log is untouched, and the entry count is the baseline size |
| Excel.AnswerType | etl/excel_transformer.py:168-174 | the answer type is valor exactly for numero/número/valor, multiple exactly for multiple/opcion, otherwise si_no |
| Excel.ParseQuestion | etl/excel_transformer.py:157-181 | a question row is skipped exactly when its first cell is falsy or is a question header. Otherwise the question keeps the stripped text, has weight 1, takes its type from the second cell and has an id starting "q_" |
| Excel.ParseRecommendation | etl/excel_transformer.py:183-194 | a recommendation row is skipped exactly when its first cell is falsy or is a header; otherwise it yields the stripped text |
| Excel.QuestionIdLength | etl/excel_transformer.py:177 | a question id has between 3 and 6 characters |
| Excel.DetectCodeMostUrgent | etl/excel_transformer.py:203-212 | no code is detected exactly when no code's markers occur; a detected code's markers occur, and it is the most urgent code whose markers do |
| Excel.DetectCode | etl/excel_transformer.py:203-212 | a detected code's markers occur in the cell; no code is detected only when no code's markers occur |
| Excel.Causes | etl/excel_transformer.py:221-230 | no stored cause is empty, and there are no more causes than comma-separated pieces |
| Excel.CausesClean | etl/excel_transformer.py:230 | every cause is non-empty, has no surrounding space and holds no comma |
| Excel.CausesRoundTrip | etl/excel_transformer.py:230 | writing clean causes joined by ", " and reading them back gives the same list |
| Excel.ParseRule | etl/excel_transformer.py:196-231 | a rule row is skipped exactly when its first cell is falsy or shows no code. A parsed rule carries the detected code's table name, the condition of cells 2 and 3, the instruction of cell 4 and the causes of cell 5 |
| Excel.ReadRow | etl/excel_transformer.py:86-117 | one row's effect: the next section and what the row yields |
| Excel.ExtractSheetData | etl/excel_transformer.py:74-119 | the loop builds the protocol that the row-by-row specification gives |
| Excel.StepAppendsAtMostOne | etl/excel_transformer.py:103-117 | a row only appends, adds at most one item, and adds it to the list of the section it leaves the reader in |
| Excel.ScanGrows | etl/excel_transformer.py:86-117 | the lists only grow along the sheet, by at most one item per row |
| Excel.ScanNext | etl/excel_transformer.py:86-117 | the reader's state after one more row is one more step from its state before it |
| Excel.NothingBeforeHeader | etl/excel_transformer.py:84-117 | rows before any section header yield nothing |
| Excel.ParsedRuleWellFormed | etl/excel_transformer.py:196-231 | a parsed rule has a table code and clean causes |
| Excel.StepRules | etl/excel_transformer.py:114-117 | a row leaves the rules as they were, or appends its parsed rule |
| Excel.ScanRulesWellFormed | etl/excel_transformer.py:86-117 | every rule read from a sheet is well formed |
| Excel.QuestionRowKept | etl/excel_transformer.py:104-107 | in the question section a non-header row with a truthy first cell appends its question |
| Excel.RecommendationRowKept | etl/excel_transformer.py:109-112 | in the recommendation section such a row appends its text |
| Excel.RuleRowKept | etl/excel_transformer.py:99-117 | a classification header row, or a row with a set cell read in the classification section that is no question or recommendation header, leaves the reader in that section and appends its parsed rule when there is one, touching neither other list |
| Excel.PlainRow | etl/excel_transformer.py:92-101 | a non-blank, non-header row keeps the section and is read by it |
| Excel.HeaderTextsCarryMarkers | etl/excel_transformer.py:93-98 | a row the section detector does not take for a header is not a header for the row parsers either |
| Excel.SheetRootIsKey | etl/excel_transformer.py:78 | the sheet's root symptom is in lower case and is already its own index key |
| Excel.SheetProtocol | etl/excel_transformer.py:74-119 | the root symptom is lower-case and the sheet yields at most one item per row |
| Excel.SheetProtocols | etl/excel_transformer.py:42-49 | one protocol per sheet |
| Excel.SheetProtocolsAt | etl/excel_transformer.py:42-49 | the i-th protocol is read from the i-th sheet |
| Excel.SheetRulesNamed | etl/excel_transformer.py:196-231 | every rule read from a sheet has a table code |
| Excel.ImportedRulesNamed | etl/excel_transformer.py:36-53 | every rule of an imported workbook has a table code |
| Excel.ImportedNeverFails | etl/excel_transformer.py:36-53 | classification over a knowledge base imported from a workbook never fails for a symptom it knows |
| Excel.Transformer.constructor | etl/excel_transformer.py:19-24 | the file type is the lower-cased suffix, and the knowledge base starts empty |
| Excel.Transformer.TransformExcel | etl/excel_transformer.py:36-53 | each sheet's protocol is appended, in order, and the knowledge base is returned |
| Excel.Transformer.TransformCsv | etl/excel_transformer.py:55-72 | each extracted protocol is appended, in order, and the knowledge base is returned |
| Excel.Transformer.Transform | etl/excel_transformer.py:26-34 | .xlsx and .xls go to the workbook path and .csv to the CSV path; any other type raises and leaves the knowledge base unchanged |
| Text.LowerChar | core/inference_engine.py:88 | an upper-case letter maps to a lower-case letter that upper-cases back to it; anything else is unchanged; the result is never upper-case |
| Text.LowerMeaning | core/inference_engine.py:88 | the lower-cased text has no upper-case letter, lower-casing it again changes nothing, and upper-casing it gives what upper-casing the original gives |
| Text.UpperChar | etl/excel_transformer.py:90 | a lower-case letter maps to an upper-case letter; anything else is unchanged; the result is never lower-case |
| Text.UpperMeaning | etl/excel_transformer.py:90 | the upper-cased text has no lower-case letter, upper-casing it again changes nothing, and lower-casing it gives what lower-casing the original gives |
| Text.TrimLeft | core/inference_engine.py:74 | the result does not start with whitespace |
| Text.TrimLeftDropsSpaces | core/inference_engine.py:74 | only whitespace is removed from the front |
| Text.TrimRight | core/inference_engine.py:74 | a prefix of the text that does not end with whitespace; everything removed is whitespace |
| Text.Strip | core/inference_engine.py:74 | the stripped text neither starts nor ends with whitespace |
| Text.StripPadded | core/inference_engine.py:74 | stripping ignores whitespace padding on both sides |
| Text.StripNoOp | core/inference_engine.py:74 | stripping a text with no surrounding whitespace changes nothing |
| Text.StripKeepsLowerCase | core/inference_engine.py:74 | stripping keeps a lower-case text lower-case |
| Text.StripKeepsChars | etl/excel_transformer.py:230 | stripping introduces no new character |
| Text.AnyPatternMeaning | core/connectors.py:34-36 | the pattern scan fires exactly when some pattern occurs in the text |
| Text.SplitCommas | etl/excel_transformer.py:230 | at least one piece, and no piece holds a comma |
| Text.SplitCommasJoin | etl/excel_transformer.py:230 | joining the pieces with commas gives back the text |
| Text.SplitAtComma | etl/excel_transformer.py:230 | a comma-free head followed by a comma is split off as the first piece |
| Text.SplitSpaces | core/inference_engine.py:97 | at least one piece, and no piece holds whitespace |
| Text.SplitSpacesJoin | core/inference_engine.py:97 | joining the pieces with single spaces gives back the text, with each whitespace character turned into a space |
| Text.NonEmpty | core/inference_engine.py:97 | every kept piece is non-empty and comes from the input |
| Text.NonEmptyAppend | etl/excel_transformer.py:230 | a non-empty piece is kept and an empty one dropped, and filtering a concatenation filters each part, so every non-empty piece is kept in order |
| Text.Words | core/inference_engine.py:97 | the words are non-empty and hold no whitespace |

## Left out

- Loading the knowledge base from JSON (`_load_knowledge_base`) and all file reads and writes are not modelled: the classifier and the master engine take the protocols as values. The excluded writes are `export_decision_log`, `save_to_json`, and the predictor's model file load and save.
- Spreadsheet and CSV reading (openpyxl, pandas) is not modelled. Sheets are given as name and rows of cells, with `None` (a falsy value that renders as "None") for an empty cell. The CSV path takes the protocols that `_extract_csv_data` would build from each symptom's rows, so `_extract_csv_data` itself is not modelled.
- The file suffix of `Path`, the clock (`datetime.now`), SHA-256 and Python's `hash()` are parameters: text, function values, or an int-valued function on strings.
- The AI model call, the prompts and the image list are not modelled: the AI verdict, or its absence when the call raised, is an input. The JSON decoding of the reply is a parameter of `MedGemma.ParseResponse`.
- The explanation and reasoning texts of the hybrid engine are left out. So are the AI-side summary texts of the decision log and printing and logging, because they are display text with no decision in them.
- Floating point is modelled as exact reals. The predictor's `round(…, 1)` and `round(…, 2)` are left out, so the drift report compares against the unrounded prediction.
- `datetime.fromisoformat` and `weekday()`/`hour` are abstracted: a usage reading carries its weekday, hour and timestamp text.
- Rich CSV training (the AI severity per slot) is left out. In simple training, the pandas `groupby` itself, the date parsing and the skipping of missing values are left out: training takes the rows already grouped per (weekday, hour) slot, and the model averages each group's `patients_seen`.
- The weather, traffic and event strings are enumerations: each known value, plus one constructor for every other string, which has multiplier 1.0 as in the source.
- The master engine's resource feedback, prediction-performance and training passthroughs are left out (`submit_resource_feedback`, `get_prediction_performance`, `train_prediction_model`). They forward to the predictor, which is modelled directly.
- The monthly report's duplicated `amenazas_detectadas` key is modelled as a single field, which is what the dict literal holds.
- Case mapping and whitespace cover only the Latin-1 range: ASCII and the accented Latin-1 letters from À to Þ and à to þ (except × and ÷), and Python's whitespace characters below U+0100. The whole of Unicode is not covered. Within Latin-1, `upper()` is not modelled for ß (Python gives "SS"), µ (Python gives U+039C) and ÿ (Python gives U+0178): the model leaves these three unchanged.
- Biometric readings other than heart rate and systolic pressure are not modelled, because the connectors never read them.
- Inference.Step: states only that the kept rule is one already visited. Its meaning is stated by Inference.ChooseMeaning and Inference.StepOutcome.
- Inference.Choose: states only that the kept rule lies among the first n. Its meaning is stated by Inference.ChooseMeaning.
- Text.Words: states that the words are non-empty and hold no whitespace. That they are every word of the text, in order, follows from Text.SplitSpacesJoin and Text.NonEmptyAppend but is not stated as one lemma.
- Text.TrimLeft: states that the result does not start with whitespace and is no longer than the input. That it is a suffix is stated pointwise by a separate lemma.
- Master.CountThreats: states only the bound by the log length. The exact count per appended decision is stated by Master.ReportAppend.
- Master.CountZkp: states only the bound by the log length. The exact count per appended decision is stated by Master.ReportAppend.
- Master.CountCode: states only the bound by the log length. The exact count is given by Master.CountByCodeMeaning.
