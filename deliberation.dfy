/** One press of the "Judge Me!" button: the persona fan-out that collects
    one opinion per persona, the judge prompt built from those opinions, and
    the final judgment that defaults to the "Error" sentinel until the
    judge's reply is accepted. The model gateway is not modelled: each call's
    outcome is an input. */
module Deliberation {
  import opened PyText
  import opened Json
  import opened Response

  /** An entry of the persona table: its name (the table's key) and the
      instruction that colours its prompt. */
  datatype Persona = Persona(name: string, instruction: string)

  /** The names of the persona table, in insertion order. The instruction
      texts are configuration data and are not part of the model. */
  const PersonaNames: seq<string> := ["Brittany", "Chad", "Mom", "Prof. Dr. Socrates", "Mrs. Jackson"]

  /** What one gateway call did: the reply's text, or the message of the
      exception raised while generating it or reading its text. */
  datatype Outcome = Ok(text: string) | Err(message: string)

  /** One entry of `persona_results`. */
  datatype Opinion = Opinion(name: string, verdict: string, score: Score, explanation: string)

  predicate WellFormedOpinion(o: Opinion) {
    IsResultVerdict(o.verdict) && 0 <= o.score.Value() <= 100
  }

  /** The name `parse_response` is given for the judge's reply. */
  const JudgeName: string := "Final Judge"

  // ---------------------------------------------------------------------
  // The prompt wording

  /** The fixed text of the two prompt templates, around the places where the
      persona's name, its instruction, the scenario and the opinions go.
      It is configuration: every property below holds whatever the wording. */
  datatype Wording = Wording(
    personaOpening: string, personaInstructions: string, personaBody: string, personaClosing: string,
    judgeOpening: string, judgeOpinionsHeading: string, judgeClosing: string)

  /** The wording the application uses. */
  const AppWording: Wording := Wording(
    personaOpening :=
      "\n" +
        "                Analyze the following scenario based on the AITA (Am I The Asshole?) framework.\n" +
        "                Adopt the persona of a '",
    personaInstructions := "' with the following instructions: ",
    personaBody :=
      "\n" +
        "\n" +
        "                Respond ONLY with a valid JSON object containing the following keys:\n" +
        "                - \"verdict\": A string, one of \"NTA\", \"YTA\", \"ESH\", \"NAH\", \"INFO\".\n" +
        "                - \"score\": An integer between 0 and 100 (0=NTA, 100=YTA).\n" +
        "                - \"explanation\": A string explaining the reasoning for the verdict and score from your persona's viewpoint. Keep this explanation concise, ideally around two sentences. If the verdict is \"YTA\", the explanation should be significantly harsher and more direct in its criticism of the user's actions from your persona's viewpoint.\n" +
        "\n" +
        "                Ensure the output is nothing but the JSON object itself.\n" +
        "\n" +
        "                Scenario:\n" +
        "                ",
    personaClosing :=
      "\n" +
        "                ",
    judgeOpening :=
      "\n" +
        "        You are the final judge in an AITA (Am I The Asshole?) scenario.\n" +
        "        You have received the following scenario and several opinions from different reviewers.\n" +
        "        Your task is to synthesize these opinions, the original scenario, and provide a final, objective verdict, score, and explanation.\n" +
        "        Do not just average the results; provide a considered judgment based on the evidence and arguments presented by the reviewers.\n" +
        "        If reviewers disagree, analyze the points of disagreement and determine which perspective is more convincing or applicable.\n" +
        "\n" +
        "        Original Scenario:\n" +
        "        ",
    judgeOpinionsHeading :=
      "\n" +
        "\n" +
        "        Reviewer Opinions:\n" +
        "        ",
    judgeClosing :=
      "\n" +
        "        Based on the above, provide your final judgment.\n" +
        "        Respond ONLY with a valid JSON object containing the following keys:\n" +
        "        - \"verdict\": A string, one of \"NTA\", \"YTA\", \"ESH\", \"NAH\", \"INFO\".\n" +
        "        - \"score\": An integer between 0 and 100 (0=NTA, 100=YTA).\n" +
        "        - \"explanation\": A string explaining your final reasoning, referencing the reviewer opinions where relevant. Your explanation should be objective and comprehensive.\n" +
        "\n" +
        "        Ensure the output is nothing but the JSON object itself.\n" +
        "        ")

  // ---------------------------------------------------------------------
  // The persona prompt

  /** The prompt sent for one persona: the template with the persona's
      name, its instruction and the scenario filled in. */
  function PersonaPrompt(w: Wording, scenario: string, p: Persona): string {
    w.personaOpening + p.name + w.personaInstructions + p.instruction
      + w.personaBody + scenario + w.personaClosing
  }

  /** A persona's prompt names the persona and carries its instruction and
      the scenario. */
  lemma PersonaPromptMentions(w: Wording, scenario: string, p: Persona)
    ensures var prompt := PersonaPrompt(w, scenario, p);
      Contains(prompt, p.name) && Contains(prompt, p.instruction) && Contains(prompt, scenario)
  {
    FillIn(w.personaOpening, p.name, w.personaInstructions, p.instruction, w.personaBody, scenario,
           w.personaClosing);
  }

  // ---------------------------------------------------------------------
  // The persona fan-out

  /** The record appended for one persona: the validated reply, with the
      persona's name, or the sentinel when the gateway call raised. */
  function PersonaOpinion(p: Persona, reply: Outcome, loads: string -> Decoded): (o: Opinion)
    ensures o.name == p.name
    ensures WellFormedOpinion(o)
    ensures reply.Err? ==>
      o == Opinion(p.name, ErrorVerdict, Num(NeutralScore), "An error occurred: " + reply.message)
    ensures reply.Ok? ==>
      var j := ParseResponse(Strip(reply.text), p.name, loads);
      o.verdict == j.verdict && o.score == j.score && o.explanation == j.explanation
  {
    match reply
    case Ok(text) =>
      var j := ParseResponse(Strip(text), p.name, loads);
      Opinion(p.name, j.verdict, j.score, j.explanation)
    case Err(e) =>
      Opinion(p.name, ErrorVerdict, Num(NeutralScore), "An error occurred: " + e)
  }

  /** `persona_results` after the loop has visited the first `|personas|`
      entries of the table, with `replies[i]` the i-th call's outcome. */
  function Opinions(personas: seq<Persona>, replies: seq<Outcome>, loads: string -> Decoded): (rs: seq<Opinion>)
    requires |replies| == |personas|
    ensures |rs| == |personas|
    decreases |personas|
  {
    if personas == [] then []
    else
      var n := |personas| - 1;
      Opinions(personas[..n], replies[..n], loads) + [PersonaOpinion(personas[n], replies[n], loads)]
  }

  /** Visiting one more persona appends its record. */
  lemma OpinionsSnoc(personas: seq<Persona>, replies: seq<Outcome>, loads: string -> Decoded, i: nat)
    requires |replies| == |personas| && i < |personas|
    ensures Opinions(personas[..i + 1], replies[..i + 1], loads)
         == Opinions(personas[..i], replies[..i], loads) + [PersonaOpinion(personas[i], replies[i], loads)]
  {
    assert personas[..i + 1][..i] == personas[..i];
    assert replies[..i + 1][..i] == replies[..i];
  }

  /** Entry i is persona i's record, and depends on nothing but persona i
      and the outcome of its own call. */
  lemma {:induction false} OpinionsAt(personas: seq<Persona>, replies: seq<Outcome>, loads: string -> Decoded, i: nat)
    requires |replies| == |personas| && i < |personas|
    ensures Opinions(personas, replies, loads)[i] == PersonaOpinion(personas[i], replies[i], loads)
    decreases |personas|
  {
    var n := |personas| - 1;
    if i < n {
      OpinionsAt(personas[..n], replies[..n], loads, i);
    }
  }

  /** One record per persona, in table order, each carrying its persona's name. */
  lemma OpinionsFollowTable(personas: seq<Persona>, replies: seq<Outcome>, loads: string -> Decoded)
    requires |replies| == |personas|
    ensures var rs := Opinions(personas, replies, loads);
      |rs| == |personas|
      && (forall i :: 0 <= i < |rs| ==> rs[i].name == personas[i].name && WellFormedOpinion(rs[i]))
  {
    forall i | 0 <= i < |personas| {
      OpinionsAt(personas, replies, loads, i);
    }
  }

  /** Over the application's own table, the records are named Brittany,
      Chad, Mom, Prof. Dr. Socrates and Mrs. Jackson, in that order. */
  lemma AppTableOrder(personas: seq<Persona>, replies: seq<Outcome>, loads: string -> Decoded)
    requires |personas| == |PersonaNames| && |replies| == |personas|
    requires forall i :: 0 <= i < |personas| ==> personas[i].name == PersonaNames[i]
    ensures var rs := Opinions(personas, replies, loads);
      |rs| == 5 && rs[0].name == "Brittany" && rs[1].name == "Chad" && rs[2].name == "Mom"
      && rs[3].name == "Prof. Dr. Socrates" && rs[4].name == "Mrs. Jackson"
  {
    OpinionsFollowTable(personas, replies, loads);
  }

  /** Isolation: when call i raises instead, entry i becomes the sentinel
      and every other entry is what it was. */
  lemma GatewayFailureIsolated(personas: seq<Persona>, replies: seq<Outcome>, loads: string -> Decoded,
                               i: nat, message: string)
    requires |replies| == |personas| && i < |personas|
    ensures var before := Opinions(personas, replies, loads);
      var after := Opinions(personas, replies[i := Err(message)], loads);
      |after| == |before|
      && after[i] == Opinion(personas[i].name, ErrorVerdict, Num(NeutralScore), "An error occurred: " + message)
      && (forall j :: 0 <= j < |before| && j != i ==> after[j] == before[j])
  {
    var failed := replies[i := Err(message)];
    OpinionsAt(personas, failed, loads, i);
    forall j | 0 <= j < |personas| && j != i
      ensures Opinions(personas, failed, loads)[j] == Opinions(personas, replies, loads)[j]
    {
      OpinionsAt(personas, failed, loads, j);
      OpinionsAt(personas, replies, loads, j);
    }
  }

  /** The body of the fan-out loop for one persona, once its call has
      returned `reply`: strip and validate the reply text, or record the
      exception message. */
  method ConsultPersona(persona: Persona, reply: Outcome, loads: string -> Decoded) returns (record: Opinion)
    ensures record == PersonaOpinion(persona, reply, loads)
  {
    match reply {
      case Ok(text) =>
        var responseText := Strip(text);
        var j := ParseResponse(responseText, persona.name, loads);
        record := Opinion(persona.name, j.verdict, j.score, j.explanation);
      case Err(e) =>
        record := Opinion(persona.name, ErrorVerdict, Num(NeutralScore), "An error occurred: " + e);
    }
  }

  /** The loop of the button handler: for each persona in table order,
      build its prompt, send it (the outcome is `replies[i]`) and append one
      record. Returns the prompts sent and `persona_results`. */
  method CollectOpinions(w: Wording, scenario: string, personas: seq<Persona>, replies: seq<Outcome>, loads: string -> Decoded)
    returns (prompts: seq<string>, results: seq<Opinion>)
    requires |replies| == |personas|
    ensures |prompts| == |personas|
    ensures forall i :: 0 <= i < |personas| ==> prompts[i] == PersonaPrompt(w, scenario, personas[i])
    ensures results == Opinions(personas, replies, loads)
  {
    prompts, results := [], [];
    var i := 0;
    while i < |personas|
      invariant 0 <= i <= |personas|
      invariant |prompts| == i
      invariant forall k :: 0 <= k < i ==> prompts[k] == PersonaPrompt(w, scenario, personas[k])
      invariant results == Opinions(personas[..i], replies[..i], loads)
    {
      var persona := personas[i];
      prompts := prompts + [PersonaPrompt(w, scenario, persona)];
      var record := ConsultPersona(persona, replies[i], loads);
      results := results + [record];
      OpinionsSnoc(personas, replies, loads, i);
      i := i + 1;
    }
    assert personas[..i] == personas;
    assert replies[..i] == replies;
  }

  // ---------------------------------------------------------------------
  // The judge prompt

  /** The judge prompt before any opinion is added: the instructions with
      the scenario filled in. */
  function JudgePrefix(w: Wording, scenario: string): string {
    w.judgeOpening + scenario + w.judgeOpinionsHeading
  }

  /** The four lines one opinion contributes to the judge prompt. */
  function NameLine(o: Opinion): string { "\n--- " + o.name + " ---\n" }
  function VerdictLine(o: Opinion): string { "Verdict: " + o.verdict + "\n" }
  function ScoreLine(o: Opinion): string { "Score: " + ShowScore(o.score) + "\n" }
  function ExplanationLine(o: Opinion): string { "Explanation: " + o.explanation + "\n" }

  /** The block one opinion adds to the judge prompt. */
  function Block(o: Opinion): string {
    NameLine(o) + VerdictLine(o) + ScoreLine(o) + ExplanationLine(o)
  }

  /** The block of each entry of `rs`, in list order. */
  function BlockTexts(rs: seq<Opinion>): (bs: seq<string>)
    ensures |bs| == |rs|
  {
    seq(|rs|, k requires 0 <= k < |rs| => Block(rs[k]))
  }

  /** The blocks of `rs`, appended one by one in list order. */
  function Blocks(rs: seq<Opinion>): string {
    Concat(BlockTexts(rs))
  }

  /** The whole judge prompt for a scenario and a result list. */
  function JudgePrompt(w: Wording, scenario: string, rs: seq<Opinion>): string {
    JudgePrefix(w, scenario) + Blocks(rs) + w.judgeClosing
  }

  /** Where the block of entry i starts in the judge prompt. */
  function BlockOffset(w: Wording, scenario: string, rs: seq<Opinion>, i: nat): nat
    requires i <= |rs|
  {
    |JudgePrefix(w, scenario)| + |Concat(BlockTexts(rs)[..i])|
  }

  /** The judge prompt is the prefix, then each entry's block at its
      offset, then the fixed closing; each block ends where the next begins. */
  lemma JudgePromptLayout(w: Wording, scenario: string, rs: seq<Opinion>, i: nat)
    requires i < |rs|
    ensures var prompt := JudgePrompt(w, scenario, rs);
      OccursAt(prompt, 0, JudgePrefix(w, scenario))
      && OccursAt(prompt, BlockOffset(w, scenario, rs, i), Block(rs[i]))
      && BlockOffset(w, scenario, rs, i) + |Block(rs[i])| == BlockOffset(w, scenario, rs, i + 1)
  {
    var bs := BlockTexts(rs);
    ConcatSplit(bs, i);
    ConcatSnoc(bs, i);
    assert bs[i] == Block(rs[i]);
    FramedIn(JudgePrompt(w, scenario, rs), JudgePrefix(w, scenario), Blocks(rs), w.judgeClosing,
             Concat(bs[..i]), bs[i], Concat(bs[i + 1..]), BlockOffset(w, scenario, rs, i));
  }

  /** Whatever the results, the judge prompt ends with the fixed closing. */
  lemma JudgePromptEnds(w: Wording, scenario: string, rs: seq<Opinion>)
    ensures var prompt := JudgePrompt(w, scenario, rs);
      OccursAt(prompt, |prompt| - |w.judgeClosing|, w.judgeClosing)
  {
    Pieces3(JudgePrompt(w, scenario, rs), JudgePrefix(w, scenario), Blocks(rs), w.judgeClosing);
  }

  /** Blocks appear in list order: entry i's block ends before entry j's begins. */
  lemma {:induction false} JudgePromptOrder(w: Wording, scenario: string, rs: seq<Opinion>, i: nat, j: nat)
    requires i < j < |rs|
    ensures BlockOffset(w, scenario, rs, i) + |Block(rs[i])| <= BlockOffset(w, scenario, rs, j)
    decreases j - i
  {
    JudgePromptLayout(w, scenario, rs, i);
    if i + 1 < j {
      JudgePromptOrder(w, scenario, rs, i + 1, j);
      JudgePromptLayout(w, scenario, rs, i + 1);
    }
  }

  /** The judge sees every entry: its name, verdict, score and explanation
      lines all occur in the judge prompt, as does the scenario. */
  lemma JudgePromptMentions(w: Wording, scenario: string, rs: seq<Opinion>, i: nat)
    requires i < |rs|
    ensures var prompt := JudgePrompt(w, scenario, rs);
      Contains(prompt, scenario)
      && Contains(prompt, NameLine(rs[i])) && Contains(prompt, VerdictLine(rs[i]))
      && Contains(prompt, ScoreLine(rs[i])) && Contains(prompt, ExplanationLine(rs[i]))
  {
    var prompt := JudgePrompt(w, scenario, rs);
    var o := rs[i];
    JudgePromptLayout(w, scenario, rs, i);
    var k := BlockOffset(w, scenario, rs, i);
    ContainsParts4(prompt, k, Block(o), NameLine(o), VerdictLine(o), ScoreLine(o), ExplanationLine(o));
    ContainsMiddleOf(prompt, 0, JudgePrefix(w, scenario), w.judgeOpening, scenario, w.judgeOpinionsHeading);
  }

  /** The judge-prompt assembly of the button handler: the prefix, then
      `+=` of four lines per result in list order, then the closing. */
  method BuildJudgePrompt(w: Wording, scenario: string, results: seq<Opinion>) returns (prompt: string)
    ensures prompt == JudgePrompt(w, scenario, results)
  {
    prompt := JudgePrefix(w, scenario);
    var i := 0;
    while i < |results|
      invariant 0 <= i <= |results|
      invariant prompt == JudgePrefix(w, scenario) + Concat(BlockTexts(results)[..i])
    {
      var res := results[i];
      prompt := prompt + ("\n--- " + res.name + " ---\n");
      prompt := prompt + ("Verdict: " + res.verdict + "\n");
      prompt := prompt + ("Score: " + ShowScore(res.score) + "\n");
      prompt := prompt + ("Explanation: " + res.explanation + "\n");
      ghost var bs := BlockTexts(results);
      ghost var done := JudgePrefix(w, scenario) + Concat(bs[..i]);
      AppendFour(done, NameLine(res), VerdictLine(res), ScoreLine(res), ExplanationLine(res));
      ConcatSnoc(bs, i);
      assert bs[i] == Block(res);
      Assoc(JudgePrefix(w, scenario), Concat(bs[..i]), Block(res));
      i := i + 1;
    }
    assert BlockTexts(results)[..i] == BlockTexts(results);
    prompt := prompt + w.judgeClosing;
  }

  // ---------------------------------------------------------------------
  // The final judgment

  /** The text of the final judgment when the judge call raised. */
  function JudgeErrorText(message: string): string {
    "An error occurred while the judge was deliberating: " + message
  }

  /** The final triple: the sentinel ("Error", 50) unless the judge's reply
      is accepted, in which case it is that reply's judgment. */
  function FinalJudgment(judgeReply: Outcome, loads: string -> Decoded): (r: Judgment)
    ensures WellFormedJudgment(r)
    ensures r.verdict != ErrorVerdict <==> judgeReply.Ok? && Acceptable(loads(Strip(judgeReply.text)))
    ensures r.verdict == ErrorVerdict ==> r.score == Num(NeutralScore)
    ensures judgeReply.Ok? && !Acceptable(loads(Strip(judgeReply.text))) ==>
      Contains(r.explanation, Strip(judgeReply.text))
    ensures judgeReply.Err? ==> Contains(r.explanation, judgeReply.message)
    ensures judgeReply.Ok? ==> r == ParseResponse(Strip(judgeReply.text), JudgeName, loads)
    ensures judgeReply.Err? ==> r == Judgment(ErrorVerdict, Num(NeutralScore), JudgeErrorText(judgeReply.message))
  {
    match judgeReply
    case Ok(text) => ParseResponse(Strip(text), JudgeName, loads)
    case Err(e) =>
      ContainsMiddle("An error occurred while the judge was deliberating: ", e, []);
      assert JudgeErrorText(e) == "An error occurred while the judge was deliberating: " + e + [];
      Judgment(ErrorVerdict, Num(NeutralScore), JudgeErrorText(e))
  }

  // ---------------------------------------------------------------------
  // One submission

  /** What one submission produces: the scenario, `persona_results` and
      the final triple. */
  datatype Session = Session(scenario: string, opinions: seq<Opinion>, final: Judgment)

  /** The persona phase, then the judge phase. Returns the prompts in the
      order they are sent (one per persona, then the judge's) and the session. */
  method Deliberate(w: Wording, scenario: string, personas: seq<Persona>, replies: seq<Outcome>, judgeReply: Outcome,
                    loads: string -> Decoded)
    returns (requests: seq<string>, session: Session)
    requires |replies| == |personas|
    ensures |requests| == |personas| + 1
    ensures forall i :: 0 <= i < |personas| ==> requests[i] == PersonaPrompt(w, scenario, personas[i])
    ensures requests[|personas|] == JudgePrompt(w, scenario, session.opinions)
    ensures session == Session(scenario, Opinions(personas, replies, loads), FinalJudgment(judgeReply, loads))
  {
    var prompts, results := CollectOpinions(w, scenario, personas, replies, loads);
    var judgePrompt := BuildJudgePrompt(w, scenario, results);
    var finalVerdict, finalScore, finalExplanation := ErrorVerdict, Num(NeutralScore), "Could not get a final judgment.";
    match judgeReply {
      case Ok(text) =>
        var judgeResponseText := Strip(text);
        var j := ParseResponse(judgeResponseText, JudgeName, loads);
        finalVerdict, finalScore, finalExplanation := j.verdict, j.score, j.explanation;
      case Err(e) =>
        finalExplanation := JudgeErrorText(e);
    }
    requests := prompts + [judgePrompt];
    session := Session(scenario, results, Judgment(finalVerdict, finalScore, finalExplanation));
  }

  /** Whatever the gateway does, the session is well formed: one
      well-formed record per persona, in table order, and a well-formed final triple. */
  lemma SessionWellFormed(personas: seq<Persona>, replies: seq<Outcome>, judgeReply: Outcome,
                          loads: string -> Decoded)
    requires |replies| == |personas|
    ensures var rs := Opinions(personas, replies, loads);
      |rs| == |personas|
      && (forall i :: 0 <= i < |rs| ==> rs[i].name == personas[i].name && WellFormedOpinion(rs[i]))
      && WellFormedJudgment(FinalJudgment(judgeReply, loads))
  {
    OpinionsFollowTable(personas, replies, loads);
  }

  /** When every call raises, every record is the persona's sentinel and
      the final triple is the sentinel too. */
  lemma TotalFailure(personas: seq<Persona>, replies: seq<Outcome>, judgeReply: Outcome,
                     loads: string -> Decoded)
    requires |replies| == |personas|
    requires forall i :: 0 <= i < |replies| ==> replies[i].Err?
    requires judgeReply.Err?
    ensures var rs := Opinions(personas, replies, loads);
      (forall i :: 0 <= i < |rs| ==>
        rs[i] == Opinion(personas[i].name, ErrorVerdict, Num(NeutralScore), "An error occurred: " + replies[i].message))
      && FinalJudgment(judgeReply, loads) == Judgment(ErrorVerdict, Num(NeutralScore), JudgeErrorText(judgeReply.message))
  {
    forall i | 0 <= i < |personas| {
      OpinionsAt(personas, replies, loads, i);
    }
  }

  /** What pressing the button leads to. */
  datatype Submission =
    | NotConfigured   // the API key was not found or configuring the client failed
    | ModelMissing    // no model object was created
    | NoScenario      // the scenario text is empty
    | Judged(requests: seq<string>, session: Session)

  /** The button handler: the three guards, checked in order before any
      gateway call, then the deliberation. */
  method Submit(w: Wording, apiConfigured: bool, modelReady: bool, scenario: string, personas: seq<Persona>,
                replies: seq<Outcome>, judgeReply: Outcome, loads: string -> Decoded)
    returns (r: Submission)
    requires |replies| == |personas|
    ensures !apiConfigured ==> r == NotConfigured
    ensures apiConfigured && !modelReady ==> r == ModelMissing
    ensures apiConfigured && modelReady && scenario == [] ==> r == NoScenario
    ensures r.Judged? <==> apiConfigured && modelReady && scenario != []
    ensures r.Judged? ==>
      |r.requests| == |personas| + 1
      && (forall i :: 0 <= i < |personas| ==> r.requests[i] == PersonaPrompt(w, scenario, personas[i]))
      && r.session == Session(scenario, Opinions(personas, replies, loads), FinalJudgment(judgeReply, loads))
      && r.requests[|personas|] == JudgePrompt(w, scenario, r.session.opinions)
  {
    if !apiConfigured {
      r := NotConfigured;
    } else if !modelReady {
      r := ModelMissing;
    } else if scenario == [] {
      r := NoScenario;
    } else {
      var requests, session := Deliberate(w, scenario, personas, replies, judgeReply, loads);
      r := Judged(requests, session);
    }
  }
}
