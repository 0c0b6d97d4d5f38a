/** What the page shows under "Final Verdict from the Judge:": a banner for
    one of the five verdict tags, or the failure banner when the final
    verdict is the "Error" sentinel. The Streamlit calls themselves are not
    modelled; a banner records what they are given. */
module Presenter {
  import opened PyText
  import opened Json
  import opened Response
  import opened Deliberation

  /** The Streamlit element a message goes into: `st.success`, `st.error`,
      `st.warning` or `st.info`. */
  datatype Tone = Success | Danger | Warning | Info

  /** The messages of the final-verdict section. */
  datatype Message = NotLikely | MightBe | SharedBlame | NoAssholes | MoreInformation | NoValidVerdict

  /** The text shown for each message. */
  function MessageText(m: Message): string {
    match m
    case NotLikely => "You are likely not the asshole (Final Judgment)."
    case MightBe => "You might be the asshole (Final Judgment)."
    case SharedBlame => "It seems everyone involved shares some blame (Final Judgment)."
    case NoAssholes => "No assholes here, just a complex situation (Final Judgment)."
    case MoreInformation => "More information is needed to make a clear judgment (Final Judgment)."
    case NoValidVerdict => "Failed to get a valid final verdict from the Judge."
  }

  /** What the final-verdict section displays. */
  datatype Banner =
    | VerdictBanner(heading: string, tone: Tone, message: Message, caption: string, explanation: string)
    | NoVerdict(tone: Tone, message: Message, explanation: string)

  datatype Option<T> = None | Some(value: T)

  /** The `if`/`elif` chain over the five tags: the element and the message
      each verdict is announced with. */
  function Announcement(v: string): (a: (Tone, Message))
    requires IsValidVerdict(v)
    ensures a.0 == Success <==> v == "NTA"
    ensures a.0 == Danger <==> v == "YTA"
    ensures a.0 == Warning <==> v == "ESH"
    ensures a.0 == Info <==> (v == "NAH" || v == "INFO")
    ensures a.1 != NoValidVerdict
  {
    if v == "NTA" then (Success, NotLikely)
    else if v == "YTA" then (Danger, MightBe)
    else if v == "ESH" then (Warning, SharedBlame)
    else if v == "NAH" then (Info, NoAssholes)
    else (Info, MoreInformation)
  }

  /** The verdict a message announces, if any. */
  function AnnouncedVerdict(m: Message): (r: Option<string>)
    ensures r.Some? <==> m != NoValidVerdict
    ensures r.Some? ==> IsValidVerdict(r.value)
  {
    match m
    case NotLikely => Some("NTA")
    case MightBe => Some("YTA")
    case SharedBlame => Some("ESH")
    case NoAssholes => Some("NAH")
    case MoreInformation => Some("INFO")
    case NoValidVerdict => None
  }

  /** Reading the message of a verdict banner back gives its verdict: the
      five verdicts are announced with five different messages. */
  lemma AnnouncementReadsBack(v: string)
    requires IsValidVerdict(v)
    ensures AnnouncedVerdict(Announcement(v).1) == Some(v)
  {
  }

  /** The caption under the score bar. */
  function ScoreCaption(s: Score): string {
    ShowScore(s) + "% likelihood of being the Asshole (Final Judgment)"
  }

  /** The final-verdict section for the final triple. The verdict banner is
      shown exactly for the five tags; the explanation is shown either way. */
  function Present(j: Judgment): (b: Banner)
    ensures b.VerdictBanner? <==> IsValidVerdict(j.verdict)
    ensures b.explanation == j.explanation
    ensures b.VerdictBanner? ==>
      b.heading == "## " + j.verdict && b.tone == Announcement(j.verdict).0
      && b.message == Announcement(j.verdict).1 && b.caption == ScoreCaption(j.score)
    ensures b.NoVerdict? ==> b.tone == Danger && b.message == NoValidVerdict
  {
    if IsValidVerdict(j.verdict) then
      var a := Announcement(j.verdict);
      VerdictBanner("## " + j.verdict, a.0, a.1, ScoreCaption(j.score), j.explanation)
    else
      NoVerdict(Danger, NoValidVerdict, j.explanation)
  }

  /** The heading is "## " followed by the verdict, which it gives back. */
  lemma HeadingReadsBack(j: Judgment)
    requires IsValidVerdict(j.verdict)
    ensures Present(j).heading[3..] == j.verdict
  {
  }

  /** For an integer score the caption starts with the score's digits, which
      read back as the score. */
  lemma CaptionReadsBack(j: Judgment)
    requires IsValidVerdict(j.verdict) && j.score.Num? && j.score.n >= 0
    ensures var c := Present(j).caption; var d := ShowScore(j.score);
      d == c[..|d|] && IsDigits(d) && DecimalValue(d) == j.score.n
  {
    ShowScoreReadsBack(j.score);
  }

  /** The "Error" sentinel always gets the failure banner, with its explanation. */
  lemma SentinelGetsFailureBanner(s: Score, explanation: string)
    ensures Present(Judgment(ErrorVerdict, s, explanation)) == NoVerdict(Danger, NoValidVerdict, explanation)
  {
  }

  /** End to end: the page shows a verdict banner exactly when the judge's
      call returned a reply that the validator accepts; otherwise it shows the
      failure banner with the sentinel's diagnostic. */
  lemma BannerFollowsJudge(judgeReply: Outcome, loads: string -> Decoded)
    ensures var b := Present(FinalJudgment(judgeReply, loads));
      (b.VerdictBanner? <==> judgeReply.Ok? && Acceptable(loads(Strip(judgeReply.text))))
      && b.explanation == FinalJudgment(judgeReply, loads).explanation
      && (judgeReply.Ok? && Acceptable(loads(Strip(judgeReply.text))) ==>
            var f := loads(Strip(judgeReply.text)).value.fields;
            b.heading == "## " + f["verdict"].s && b.caption == ScoreCaption(Clamp(ScoreOf(f["score"])))
            && b.explanation == f["explanation"].s)
  {
    var j := FinalJudgment(judgeReply, loads);
    assert IsResultVerdict(j.verdict);
  }
}
