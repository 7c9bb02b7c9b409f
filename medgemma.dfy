/** The validator for the AI model's reply (`MedGemmaClient._parse_response`).
    It strips markdown fences from the raw text, checks the urgency code
    against the closed code set, clamps the confidence into [0, 1] and
    fills in defaults for the missing fields. JSON decoding is a parameter:
    the model starts from the object that `json.loads` produced, or from
    its failure. */
module MedGemma {
  import opened Wrappers
  import opened Text
  import opened Codes

  /** `MedGemmaResult`: the AI verdict. The code is always one of the four codes. */
  datatype AiResult = AiResult(
    code: Code,
    confidence: real,
    reasoning: string,
    differentials: seq<string>,
    recommendations: seq<string>)

  /** A field of the decoded JSON object that the validator converts:
      absent, present with a usable value, or present with a value the
      conversion (`.upper()` on a non-string, `float()` on a non-number)
      raises on. */
  datatype Field<T> = Missing | Present(v: T) | Unusable

  /** The decoded JSON object, as far as the validator reads it. The
      confidence is the value `float()` returns for the field. */
  datatype Reply = Reply(
    code: Field<string>,
    confidence: Field<real>,
    reasoning: Option<string>,
    differentials: Option<seq<string>>,
    recommendations: Option<seq<string>>)

  /** Every way the reply is refused; each one is a `ValueError` in Python. */
  datatype ParseError =
    | NotJson                  // `json.loads` failed, or the value is not an object
    | InvalidCode(code: string) // the upper-cased code is not in the code set
    | BadField                 // a field the validator converts has the wrong type

  const Fence := "```"
  const JsonFence := "```json"

  /** `s[len(p):]` when `s.startswith(p)`, else `s`. */
  function DropPrefix(s: string, p: string): (r: string)
    ensures StartsWith(s, p) ==> s == p + r
    ensures !StartsWith(s, p) ==> r == s
    ensures |r| <= |s|
  {
    if StartsWith(s, p) then s[|p|..] else s
  }

  /** `s[:-len(p)]` when `s.endswith(p)` (and p is not empty), else `s`. */
  function DropSuffix(s: string, p: string): (r: string)
    ensures EndsWith(s, p) ==> s == r + p
    ensures !EndsWith(s, p) ==> r == s
    ensures |r| <= |s|
  {
    if EndsWith(s, p) then s[..|s| - |p|] else s
  }

  /** Strips the reply, then removes at most one leading "```json", then at
      most one leading "```", then at most one trailing "```", and strips
      again. */
  function StripFences(response: string): (r: string)
    ensures |r| <= |response|
    ensures r == [] || (!IsSpace(r[0]) && !IsSpace(r[|r| - 1]))
  {
    var unfenced := DropSuffix(DropPrefix(DropPrefix(Strip(response), JsonFence), Fence), Fence);
    assert |unfenced| <= |response|;
    Strip(unfenced)
  }

  lemma {:induction false} DropPrefixOf(p: string, t: string)
    ensures DropPrefix(p + t, p) == t
  {
    assert StartsWith(p + t, p);
    assert (p + t)[|p|..] == t;
  }

  lemma {:induction false} DropSuffixOf(t: string, p: string)
    ensures DropSuffix(t + p, p) == t
  {
    assert (t + p)[|t|..] == p;
    assert (t + p)[..|t|] == t;
  }

  /** A fenced reply has no whitespace at either end, so only the padding around it is stripped. */
  lemma {:induction false} StripAroundFence(a: string, open: string, body: string, b: string)
    requires AllSpace(a) && AllSpace(b)
    requires open == JsonFence || open == Fence
    ensures Strip(a + open + body + Fence + b) == open + body + Fence
  {
    var x := open + body + Fence;
    assert a + open + body + Fence + b == a + x + b;
    StripPadded(a, x, b);
    assert x[0] == open[0] == '`';
    assert x[|x| - 1] == Fence[2] == '`';
    StripNoOp(x);
  }

  /** A reply wrapped in a "```json" fence, with any whitespace around it,
      comes out as the stripped body, provided the body does not itself
      start with a backtick. */
  lemma {:induction false} JsonFenceRemoved(a: string, body: string, b: string)
    requires AllSpace(a) && AllSpace(b)
    requires body == [] || body[0] != '`'
    ensures StripFences(a + JsonFence + body + Fence + b) == Strip(body)
  {
    var rest := body + Fence;
    StripAroundFence(a, JsonFence, body, b);
    OpenFenceDropped(body);
    var afterJson := DropPrefix(JsonFence + body + Fence, JsonFence);
    assert afterJson == rest;
    if body == [] {
      assert rest == Fence + [];
      DropPrefixOf(Fence, []);
      assert !EndsWith([], Fence);
    } else {
      assert !StartsWith(rest, Fence) by {
        assert rest[0] == body[0] != Fence[0];
      }
      DropSuffixOf(body, Fence);
    }
  }

  lemma {:induction false} OpenFenceDropped(body: string)
    ensures DropPrefix(JsonFence + body + Fence, JsonFence) == body + Fence
  {
    assert JsonFence + body + Fence == JsonFence + (body + Fence);
    DropPrefixOf(JsonFence, body + Fence);
  }

  /** A plain fence opens a "```json" fence only when the body starts with "json". */
  lemma {:induction false} PlainFenceIsNotJson(body: string)
    requires !StartsWith(body, "json")
    ensures !StartsWith(Fence + body + Fence, JsonFence)
  {
    var x := Fence + body + Fence;
    if |body| >= 4 {
      var i :| 0 <= i < 4 && body[i] != "json"[i];
      assert x[3 + i] == body[i] && JsonFence[3 + i] == "json"[i];
    } else {
      var k := 3 + |body|;
      assert x[k] == '`' && JsonFence[k] != '`';
    }
  }

  /** A reply wrapped in a plain "```" fence comes out as the stripped body,
      provided the body does not start with "json". */
  lemma {:induction false} PlainFenceRemoved(a: string, body: string, b: string)
    requires AllSpace(a) && AllSpace(b)
    requires !StartsWith(body, "json")
    ensures StripFences(a + Fence + body + Fence + b) == Strip(body)
  {
    StripAroundFence(a, Fence, body, b);
    var x := Fence + body + Fence;
    PlainFenceIsNotJson(body);
    assert DropPrefix(x, JsonFence) == x;
    PlainOpenDropped(body);
    DropSuffixOf(body, Fence);
  }

  lemma {:induction false} PlainOpenDropped(body: string)
    ensures DropPrefix(Fence + body + Fence, Fence) == body + Fence
  {
    assert Fence + body + Fence == Fence + (body + Fence);
    DropPrefixOf(Fence, body + Fence);
  }

  /** A reply with no fence at either end is only stripped. */
  lemma {:induction false} UnfencedKept(response: string)
    requires !StartsWith(Strip(response), Fence) && !EndsWith(Strip(response), Fence)
    ensures StripFences(response) == Strip(response)
  {
    var s0 := Strip(response);
    assert !StartsWith(s0, JsonFence) by {
      assert Fence <= JsonFence;
    }
    StripNoOp(s0);
  }

  /** `max(0.0, min(1.0, x))` applied only when x is outside [0, 1]. */
  function Clamp(x: real): (r: real)
    ensures 0.0 <= r <= 1.0
    ensures 0.0 <= x <= 1.0 ==> r == x
    ensures x < 0.0 ==> r == 0.0
    ensures x > 1.0 ==> r == 1.0
  {
    if 0.0 <= x <= 1.0 then x
    else
      var m := if x < 1.0 then x else 1.0;
      if m > 0.0 then m else 0.0
  }

  /** Validation of the decoded object: the code, upper-cased, must be in the
      code set (a missing code is the empty string, which is not); the
      confidence defaults to 0.5 and is clamped; the other fields default
      to empty. */
  function Validate(data: Option<Reply>): (r: Result<AiResult, ParseError>)
    ensures data.None? ==> r == Failure(NotJson)
    ensures r.Success? ==> data.Some? && data.value.code.Present? && 0.0 <= r.value.confidence <= 1.0
  {
    match data
    case None => Failure(NotJson)
    case Some(d) =>
      if d.code.Unusable? then Failure(BadField)
      else
        var codeText := Upper(if d.code.Present? then d.code.v else "");
        match ParseCode(codeText)
        case None => Failure(InvalidCode(codeText))
        case Some(c) =>
          if d.confidence.Unusable? then Failure(BadField)
          else
            var x := if d.confidence.Present? then d.confidence.v else 0.5;
            Success(AiResult(c, Clamp(x), d.reasoning.GetOr(""),
              d.differentials.GetOr([]), d.recommendations.GetOr([])))
  }

  /** `_parse_response`: fence stripping, decoding (the parameter `decode`
      stands for `json.loads` followed by the object check) and validation. */
  function ParseResponse(response: string, decode: string -> Option<Reply>): (r: Result<AiResult, ParseError>)
    ensures decode(StripFences(response)).None? ==> r == Failure(NotJson)
    ensures r.Success? ==> 0.0 <= r.value.confidence <= 1.0
  {
    Validate(decode(StripFences(response)))
  }

  /** What the validator promises: it fails exactly when the text does not
      decode to an object, the code is missing or outside the code set
      after upper-casing, or a converted field has the wrong type; a
      result carries the code that was written (in any letter case), a
      confidence in [0, 1] that equals the given one when that was already
      in range and 0.5 when none was given, and empty defaults. */
  lemma {:induction false} ValidateMeaning(data: Option<Reply>)
    ensures Validate(data).Failure? <==>
      data.None? || !data.value.code.Present? || !IsCodeName(Upper(data.value.code.v))
      || data.value.confidence.Unusable?
    ensures Validate(data).Success? ==>
      var d := data.value;
      var a := Validate(data).value;
      Name(a.code) == Upper(d.code.v)
      && 0.0 <= a.confidence <= 1.0
      && (d.confidence.Present? && 0.0 <= d.confidence.v <= 1.0 ==> a.confidence == d.confidence.v)
      && (d.confidence.Missing? ==> a.confidence == 0.5)
      && a.reasoning == d.reasoning.GetOr("")
      && a.differentials == d.differentials.GetOr([])
      && a.recommendations == d.recommendations.GetOr([])
  {
    if data.Some? && data.value.code.Missing? {
      assert !IsCodeName(Upper(""));
    }
  }

  /** The code check ignores letter case: a lower-case code name is accepted as its code. */
  lemma {:induction false} LowerCaseCodeAccepted(c: Code, confidence: Field<real>)
    requires !confidence.Unusable?
    ensures Validate(Some(Reply(Present(Lower(Name(c))), confidence, None, None, None))).Success?
    ensures Validate(Some(Reply(Present(Lower(Name(c))), confidence, None, None, None))).value.code == c
  {
    var u := Upper(Lower(Name(c)));
    assert u == Name(c) by {
      match c
      case D1 =>
      case D2 =>
      case D7 =>
      case D3 =>
    }
    ParseName(u, c);
  }
}
