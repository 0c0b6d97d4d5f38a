/** The reply validator `parse_response`: it decides whether the text the
    model sent back is an acceptable `(verdict, score, explanation)` triple
    and otherwise produces the "Error" sentinel with a diagnostic that quotes
    the reply. */
module Response {
  import opened PyText
  import opened Json

  /** The five verdict tags the validator accepts, in the source's order. */
  const ValidVerdicts: seq<string> := ["NTA", "YTA", "ESH", "NAH", "INFO"]

  /** The verdict of a sentinel result. */
  const ErrorVerdict: string := "Error"

  /** The score of a sentinel result, the neutral midpoint. */
  const NeutralScore: int := 50

  predicate IsValidVerdict(v: string) {
    v in ValidVerdicts
  }

  /** A verdict a result can carry: one of the five tags or the sentinel. */
  predicate IsResultVerdict(v: string) {
    IsValidVerdict(v) || v == ErrorVerdict
  }

  /** A score as Python holds it. `isinstance(True, int)` holds, so a JSON
      boolean passes the validator's integer test and is kept as a bool. */
  datatype Score = Num(n: int) | Flag(b: bool) {
    /** The number Python compares it as (True is 1, False is 0). */
    function Value(): int {
      match this
      case Num(n) => n
      case Flag(b) => if b then 1 else 0
    }
  }

  /** Python's `min(a, b)`: the first argument unless the second is strictly smaller. */
  function PyMin(a: Score, b: Score): (r: Score)
    ensures r == a || r == b
    ensures r.Value() <= a.Value() && r.Value() <= b.Value()
    ensures r.Value() == a.Value() ==> r == a
  {
    if b.Value() < a.Value() then b else a
  }

  /** Python's `max(a, b)`: the first argument unless the second is strictly larger. */
  function PyMax(a: Score, b: Score): (r: Score)
    ensures r == a || r == b
    ensures r.Value() >= a.Value() && r.Value() >= b.Value()
    ensures r.Value() == a.Value() ==> r == a
  {
    if b.Value() > a.Value() then b else a
  }

  /** `max(0, min(100, s))`. An integer stays an integer, clamped into
      [0, 100]; True survives as True; False turns into the integer 0. */
  function Clamp(s: Score): (r: Score)
    ensures 0 <= r.Value() <= 100
    ensures r.Value() == if s.Value() < 0 then 0 else if s.Value() > 100 then 100 else s.Value()
    ensures r.Flag? <==> s == Flag(true)
    ensures s.Num? && 0 <= s.n <= 100 ==> r == s
  {
    PyMax(Num(0), PyMin(Num(100), s))
  }

  /** Clamping a clamped score changes nothing. */
  lemma ClampIdempotent(s: Score)
    ensures Clamp(Clamp(s)) == Clamp(s)
  {
  }

  /** How an f-string renders a score: an integer in decimal, a bool as
      `True` or `False`. */
  function ShowScore(s: Score): string {
    match s
    case Num(n) => IntToDecimal(n)
    case Flag(b) => if b then "True" else "False"
  }

  /** A rendered integer score in [0, 100] is its decimal digits and reads
      back as the same number. */
  lemma ShowScoreReadsBack(s: Score)
    requires s.Num? && s.n >= 0
    ensures IsDigits(ShowScore(s)) && DecimalValue(ShowScore(s)) == s.Value()
  {
    DecimalRoundTrip(s.n);
  }

  /** A `(verdict, score, explanation)` triple. */
  datatype Judgment = Judgment(verdict: string, score: Score, explanation: string)

  /** A result every consumer can rely on: a known verdict and a score in [0, 100]. */
  predicate WellFormedJudgment(j: Judgment) {
    IsResultVerdict(j.verdict) && 0 <= j.score.Value() <= 100
  }

  /** What the validator demands of the decoded reply: a dict whose
      `verdict` is a string among the five tags, whose `score` is an int
      (a bool included) and whose `explanation` is a string. */
  predicate Acceptable(d: Decoded) {
    && d.Decoded? && d.value.Obj?
    && "verdict" in d.value.fields && d.value.fields["verdict"].Str?
    && IsValidVerdict(d.value.fields["verdict"].s)
    && "score" in d.value.fields
    && (d.value.fields["score"].Int? || d.value.fields["score"].Bool?)
    && "explanation" in d.value.fields && d.value.fields["explanation"].Str?
  }

  /** The score an acceptable reply carries, before clamping. */
  function ScoreOf(v: Value): Score
    requires v.Int? || v.Bool?
  {
    if v.Int? then Num(v.i) else Flag(v.b)
  }

  /** The diagnostic for a reply that decoded but has the wrong shape. */
  function MismatchText(personaName: string, responseText: string): string {
    "Parsed JSON for " + personaName + " does not match expected format.\nRaw Response:\n```\n"
      + responseText + "\n```"
  }

  /** The diagnostic for a reply that is not JSON at all. */
  function DecodeFailureText(personaName: string, error: string, responseText: string): string {
    "Failed to decode JSON response for " + personaName + ": " + error + "\nRaw Response:\n```\n"
      + responseText + "\n```"
  }

  /** `parse_response(response_text, persona_name)`, with `json.loads` given
      as `loads`. It accepts exactly the acceptable replies, clamping their
      score; anything else becomes the sentinel ("Error", 50) whose
      explanation quotes the reply verbatim. */
  function ParseResponse(responseText: string, personaName: string, loads: string -> Decoded): (r: Judgment)
    ensures WellFormedJudgment(r)
    ensures r.verdict != ErrorVerdict <==> Acceptable(loads(responseText))
    ensures Acceptable(loads(responseText)) ==>
      var f := loads(responseText).value.fields;
      r == Judgment(f["verdict"].s, Clamp(ScoreOf(f["score"])), f["explanation"].s)
    ensures !Acceptable(loads(responseText)) ==>
      r.score == Num(NeutralScore) && Contains(r.explanation, responseText) && Contains(r.explanation, personaName)
    ensures loads(responseText).DecodeError? ==> Contains(r.explanation, loads(responseText).message)
  {
    var decoded := loads(responseText);
    match decoded
    case DecodeError(e) =>
      var head := "Failed to decode JSON response for ";
      var mid := ": " + e + "\nRaw Response:\n```\n";
      var text := DecodeFailureText(personaName, e, responseText);
      assert text == head + personaName + (mid + responseText + "\n```");
      assert text == (head + personaName + ": ") + e + ("\nRaw Response:\n```\n" + responseText + "\n```");
      assert text == (head + personaName + mid) + responseText + "\n```";
      ContainsMiddle(head, personaName, mid + responseText + "\n```");
      ContainsMiddle(head + personaName + ": ", e, "\nRaw Response:\n```\n" + responseText + "\n```");
      ContainsMiddle(head + personaName + mid, responseText, "\n```");
      Judgment(ErrorVerdict, Num(NeutralScore), DecodeFailureText(personaName, e, responseText))
    case Decoded(v) =>
      if Acceptable(decoded) then
        Judgment(v.fields["verdict"].s, Clamp(ScoreOf(v.fields["score"])), v.fields["explanation"].s)
      else
        var head := "Parsed JSON for ";
        var mid := " does not match expected format.\nRaw Response:\n```\n";
        var text := MismatchText(personaName, responseText);
        assert text == head + personaName + (mid + responseText + "\n```");
        assert text == (head + personaName + mid) + responseText + "\n```";
        ContainsMiddle(head, personaName, mid + responseText + "\n```");
        ContainsMiddle(head + personaName + mid, responseText, "\n```");
        Judgment(ErrorVerdict, Num(NeutralScore), MismatchText(personaName, responseText))
  }

  /** The JSON object that states a judgment in the reply format. */
  function Encode(j: Judgment): Value {
    Obj(map[
      "verdict" := Str(j.verdict),
      "score" := (match j.score case Num(n) => Int(n) case Flag(b) => Bool(b)),
      "explanation" := Str(j.explanation)])
  }

  /** Round trip: a reply that decodes to the encoding of a judgment with a
      valid verdict and an in-range score is accepted as that judgment. */
  lemma AcceptsEncoded(responseText: string, personaName: string, loads: string -> Decoded, j: Judgment)
    requires IsValidVerdict(j.verdict) && j.score.Num? && 0 <= j.score.n <= 100
    requires loads(responseText) == Decoded(Encode(j))
    ensures ParseResponse(responseText, personaName, loads) == j
  {
  }

  /** Any integer score is clamped into range: `max(0, min(100, s))`. */
  lemma ScoreIsClamped(responseText: string, personaName: string, loads: string -> Decoded, v: string, s: int, e: string)
    requires IsValidVerdict(v)
    requires loads(responseText) == Decoded(Obj(map["verdict" := Str(v), "score" := Int(s), "explanation" := Str(e)]))
    ensures ParseResponse(responseText, personaName, loads)
         == Judgment(v, Num(if s < 0 then 0 else if s > 100 then 100 else s), e)
  {
  }

  /** A verdict string outside the five tags is never accepted. */
  lemma UnknownVerdictRejected(responseText: string, personaName: string, loads: string -> Decoded, v: string)
    requires !IsValidVerdict(v)
    requires loads(responseText).Decoded? && loads(responseText).value.Obj?
    requires "verdict" in loads(responseText).value.fields
    requires loads(responseText).value.fields["verdict"] == Str(v)
    ensures ParseResponse(responseText, personaName, loads).verdict == ErrorVerdict
    ensures ParseResponse(responseText, personaName, loads).score == Num(NeutralScore)
  {
  }

  /** The canonical reply is accepted as it stands. */
  lemma CanonicalReply(loads: string -> Decoded)
    requires loads("{\"verdict\":\"NTA\",\"score\":10,\"explanation\":\"fine\"}")
          == Decoded(Obj(map["verdict" := Str("NTA"), "score" := Int(10), "explanation" := Str("fine")]))
    ensures ParseResponse("{\"verdict\":\"NTA\",\"score\":10,\"explanation\":\"fine\"}", "Model", loads)
         == Judgment("NTA", Num(10), "fine")
  {
  }

  /** A reply without an explanation is rejected. */
  lemma MissingExplanationRejected(loads: string -> Decoded)
    requires loads("{\"verdict\":\"YTA\",\"score\":90}")
          == Decoded(Obj(map["verdict" := Str("YTA"), "score" := Int(90)]))
    ensures ParseResponse("{\"verdict\":\"YTA\",\"score\":90}", "Model", loads).verdict == ErrorVerdict
  {
  }

  /** A reply that is not JSON is rejected, and the diagnostic quotes it. */
  lemma NotJsonRejected(loads: string -> Decoded)
    requires loads("not json").DecodeError?
    ensures var r := ParseResponse("not json", "Model", loads);
      r.verdict == ErrorVerdict && r.score == Num(NeutralScore) && Contains(r.explanation, "not json")
  {
  }

  /** A float score, even a whole one such as 50.0, is rejected. */
  lemma FloatScoreRejected(loads: string -> Decoded)
    requires loads("{\"verdict\":\"NAH\",\"score\":50.0,\"explanation\":\"x\"}")
          == Decoded(Obj(map["verdict" := Str("NAH"), "score" := Float("50.0"), "explanation" := Str("x")]))
    ensures ParseResponse("{\"verdict\":\"NAH\",\"score\":50.0,\"explanation\":\"x\"}", "Model", loads).verdict == ErrorVerdict
  {
  }

  /** A boolean score passes: true stays the bool True (worth 1 and shown as
      "True"), false becomes the integer 0. */
  lemma BooleanScoreAccepted(responseText: string, loads: string -> Decoded, b: bool)
    requires loads(responseText)
          == Decoded(Obj(map["verdict" := Str("ESH"), "score" := Bool(b), "explanation" := Str("x")]))
    ensures var r := ParseResponse(responseText, "Model", loads);
      r.verdict == "ESH" && r.score.Value() == (if b then 1 else 0)
      && ShowScore(r.score) == (if b then "True" else "0")
  {
  }
}
