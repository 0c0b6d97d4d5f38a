# RightOrRude — a verified model of the judging core

RightOrRude is a one-file Streamlit application. The user describes a
scenario in the "Am I The Asshole?" format. Five reviewer personas give an
opinion through an LLM: Brittany, Chad, Mom, Prof. Dr. Socrates and Mrs.
Jackson. A final judge LLM then turns those opinions into one verdict, a
0–100 score and an explanation. This project models the logic inside that
glue code and proves what it guarantees:

- **`parse_response`** (module `Response`, `response.dfy`) is the reply
  validator.
  - `json.loads` is an input. It is a function from text to a decoded JSON
    value or a decode error (module `Json`, `json.dfy`).
  - A reply is accepted exactly when it decodes to a dict with:
    - a `verdict` string among NTA, YTA, ESH, NAH and INFO;
    - an integer `score`, where a bool counts, as it does in Python;
    - a string `explanation`.
  - An accepted reply's score is clamped with `max(0, min(100, s))`, using
    Python's rule that the first of equal arguments wins.
  - Everything else becomes the sentinel `("Error", 50, diagnostic)`. The
    diagnostic quotes the reply verbatim.
- **The button handler's deliberation** (module `Deliberation`,
  `deliberation.dfy`) works as follows.
  - Fan-out: one prompt per persona, in table order, and exactly one record
    appended per persona. That record is the validated stripped reply, or
    the sentinel `"An error occurred: …"` when the call raised.
  - Judge prompt: a prefix carrying the scenario, then `+=` of one
    four-line block per record in list order, then a fixed closing.
  - Final triple: defaults to the sentinel and is replaced only by the
    judge reply's validated triple. When the judge call raised, it takes
    the judge error text.
  - The guards run before any call: the API is configured, a model
    exists, the scenario is non-empty.

  The LLM gateway is not modelled. Each call's outcome is an input,
  `Ok(text)` or `Err(message)`, one per persona plus one for the judge.
- **The final-verdict section** (module `Presenter`, `presenter.dfy`) maps
  the final triple to what is shown.
  - A valid verdict gets its `## verdict` heading and the Streamlit element
    for its tone. The message follows the `if`/`elif` chain: NTA → success,
    YTA → error, ESH → warning, NAH and INFO → info.
  - A valid verdict also gets a score caption and the explanation.
  - The sentinel gets the failure banner and the explanation.
- **Python string behaviour** is in module `PyText` (`text.dfy`).
  - `str.strip()` uses the `str.isspace` character set.
  - `str(int)` is the decimal rendering used when a score is formatted
    into the judge prompt and the caption.
  - Substring occurrence is how the prompt and diagnostic properties are
    stated.

Two behaviours of the source are kept on purpose rather than corrected.

- **Boolean scores.** Python's `isinstance(True, int)` holds, so a JSON
  boolean score is accepted.
  - `min(100, True)` and `max(0, True)` both return `True`, so a true score
    stays the bool `True`. It is worth 1 and is rendered `"True"` in the
    judge prompt and the caption.
  - `max(0, False)` returns the integer `0`.

  `Score = Num(int) | Flag(bool)` tracks this, and `Response.Clamp` states
  it.
- **Dead defaults.** The default explanations are overwritten on every path
  the model covers:
  - `"Could not parse the response for …"` (app.py:85);
  - `"Could not get a final judgment."` (app.py:180).

  Reaching them would need an exception other than `JSONDecodeError` inside
  `parse_response`, and such an exception propagates to the caller. So
  `Response.ParseResponse` never returns the first text. `Deliberation.Deliberate`
  assigns the second text and then always overwrites it.

The prompt templates' fixed wording is carried as data, `Deliberation.Wording`.
`Deliberation.AppWording` holds the application's exact text. The prompt
functions, the methods and their lemmas take the wording as a parameter, so
every property about prompt layout is proved for any wording, the
application's included. No lemma is stated about the literal text of
`AppWording` itself: it documents the wording the application sends. The
fixed text around each opinion block (`"\n--- "`, `"Verdict: "`, …) is
written out in the block functions. `Deliberation.PersonaNames` lists the
application's five persona names in table order; `Deliberation.AppTableOrder`
applies the fan-out lemmas to a table with those names.

## Model

| member | source | states |
|---|---|---|
| PyText.Strip | app.py:133 | `str.strip()`: the result is a trimmed middle piece of the text, with only `str.isspace` characters cut from each end |
| PyText.StripUnique | app.py:133 | whitespace, then a trimmed text, then whitespace always strips to that text, so strip is determined by what it promises |
| PyText.StripIdempotent | app.py:187 | stripping an already stripped reply changes nothing |
| PyText.LeadingSpacesExact | app.py:133 | the run of leading whitespace is exactly as long as the run of `isspace` characters before the first other character |
| PyText.TrailingSpacesExact | app.py:133 | the same for the trailing run |
| PyText.NatToDecimal | app.py:166 | definition of `str(n)` for `n >= 0`: at least one decimal digit, no leading zero unless `n` is 0; `DecimalRoundTrip` states its value |
| PyText.IntToDecimal | app.py:166 | `str(n)` of an integer: `NatToDecimal(n)` when `n >= 0`, otherwise `'-'` followed by `NatToDecimal(-n)`; all digits exactly when `n >= 0` |
| PyText.DecimalRoundTrip | app.py:219 | the rendered digits of a non-negative score read back as the same number |
| PyText.ConcatAppend | app.py:163-167 | appending the strings of two lists one by one equals appending the two results |
| PyText.ConcatSplit | app.py:163-167 | the appended strings split around entry i into the part before, entry i, and the part after |
| Response.PyMin | app.py:96 | `min(a, b)` is the smaller value and, on a tie, the first argument |
| Response.PyMax | app.py:96 | `max(a, b)` is the larger value and, on a tie, the first argument |
| Response.Clamp | app.py:96 | `max(0, min(100, s))` lies in [0, 100], equals the clamped value of `s`, stays a bool exactly when `s` is `True`, and leaves an in-range integer as it is |
| Response.ClampIdempotent | app.py:96 | clamping a clamped score changes nothing |
| Response.ShowScore | app.py:166 | definition of the f-string rendering of a score (`str(n)` for an int, `True`/`False` for a bool); `ShowScoreReadsBack` and `BooleanScoreAccepted` state its properties |
| Response.Acceptable | app.py:91-94 | definition of the acceptance test: a dict with a `verdict` string among the five tags, an int or bool `score`, and a string `explanation`; `ParseResponse` accepts exactly these |
| Response.MismatchText | app.py:99 | definition of the diagnostic for a decoded reply of the wrong shape; `ParseResponse` states that it contains the reply and the name |
| Response.DecodeFailureText | app.py:101 | definition of the diagnostic for a decode error; `ParseResponse` states that it contains the reply, the name and the decoder's message |
| Response.ShowScoreReadsBack | app.py:166 | an integer score ≥ 0 renders as digits that denote it |
| Response.ParseResponse | app.py:82-102 | the verdict is one of the five tags or "Error" and the score is in [0, 100]; the result is non-"Error" exactly when the decoded reply is acceptable; an acceptable reply gives exactly (verdict, clamped score, explanation); otherwise the score is 50 and the explanation contains both the raw reply and the persona name, and for a decode error also the decoder's message |
| Response.AcceptsEncoded | app.py:91-97 | a reply that decodes to the JSON encoding of a judgment with a valid tag and an in-range integer score is accepted as exactly that judgment |
| Response.ScoreIsClamped | app.py:91-97 | a well-formed reply with integer score `s` yields `(verdict, max(0, min(100, s)), explanation)` |
| Response.UnknownVerdictRejected | app.py:91-92 | a verdict string outside the five tags yields ("Error", 50) |
| Response.CanonicalReply | app.py:91-97 | the canonical reply `{"verdict":"NTA","score":10,"explanation":"fine"}` is accepted as it stands |
| Response.MissingExplanationRejected | app.py:94 | a reply without an `explanation` key is rejected |
| Response.NotJsonRejected | app.py:100-101 | text that is not JSON yields ("Error", 50) with the text quoted in the explanation |
| Response.FloatScoreRejected | app.py:93 | a float score, even the whole number 50.0, is rejected |
| Response.BooleanScoreAccepted | app.py:93-96 | a boolean score is accepted; `true` stays the bool True, worth 1 and rendered "True", and `false` becomes the integer 0 |
| Deliberation.PersonaPrompt | app.py:117-130 | definition of the persona prompt: the template with name, instruction and scenario filled in; `PersonaPromptMentions` states its property |
| Deliberation.PersonaPromptMentions | app.py:117-130 | a persona's prompt contains the persona's name, its instruction and the scenario |
| Deliberation.PersonaOpinion | app.py:131-148 | the record for one persona carries that persona's name and is well formed; a raised call gives ("Error", 50, "An error occurred: " + message); a reply gives the validation of the stripped reply text |
| Deliberation.ConsultPersona | app.py:131-148 | the `try`/`except` body of the fan-out loop produces exactly the record `PersonaOpinion` describes |
| Deliberation.Opinions | app.py:116-148 | `persona_results` has one entry per visited persona |
| Deliberation.OpinionsSnoc | app.py:116-139 | visiting one more persona appends exactly its record |
| Deliberation.OpinionsAt | app.py:116-148 | entry i is determined by persona i and the outcome of its own call alone |
| Deliberation.OpinionsFollowTable | app.py:73-79 | one well-formed record per persona, in table order, entry i carrying the i-th persona's name |
| Deliberation.AppTableOrder | app.py:73-79 | over a table named like the application's, the records are named Brittany, Chad, Mom, Prof. Dr. Socrates and Mrs. Jackson, in that order |
| Deliberation.GatewayFailureIsolated | app.py:131-148 | when call i raises instead, entry i becomes the "Error" sentinel with the exception message and every other entry is unchanged |
| Deliberation.CollectOpinions | app.py:114-148 | the loop sends one prompt per persona, in table order, and returns `persona_results` equal to `Opinions` of the table and the outcomes |
| Deliberation.JudgePrefix | app.py:151-162 | definition of the judge prompt before the opinions: the opening, the scenario and the opinions heading; `JudgePromptLayout` and `JudgePromptMentions` state its place and content |
| Deliberation.NameLine | app.py:164 | definition of the line `"\n--- name ---\n"`; `JudgePromptMentions` states that it occurs in the judge prompt |
| Deliberation.VerdictLine | app.py:165 | definition of the line `"Verdict: v\n"`; `JudgePromptMentions` states that it occurs in the judge prompt |
| Deliberation.ScoreLine | app.py:166 | definition of the line `"Score: s\n"`, with the score rendered by `ShowScore`; `JudgePromptMentions` states that it occurs in the judge prompt |
| Deliberation.ExplanationLine | app.py:167 | definition of the line `"Explanation: e\n"`; `JudgePromptMentions` states that it occurs in the judge prompt |
| Deliberation.Block | app.py:164-167 | definition of one entry's block, its four lines in order; `JudgePromptLayout` places it |
| Deliberation.Blocks | app.py:163-167 | definition of the blocks of all entries appended in list order; `JudgePromptLayout` and `JudgePromptOrder` state the order |
| Deliberation.JudgePrompt | app.py:151-177 | definition of the whole judge prompt: prefix, blocks, closing; `BuildJudgePrompt` builds exactly it and `JudgePromptLayout`, `JudgePromptEnds`, `JudgePromptOrder`, `JudgePromptMentions` state its shape |
| Deliberation.JudgeErrorText | app.py:191 | definition of the final explanation when the judge call raised; `FinalJudgment` states that it contains the message |
| Deliberation.JudgePromptLayout | app.py:151-167 | the judge prompt starts with the prefix, entry i's four-line block sits at its offset and ends where entry i+1's begins |
| Deliberation.JudgePromptEnds | app.py:169-177 | the judge prompt ends with the fixed closing |
| Deliberation.JudgePromptOrder | app.py:163-167 | for i < j, entry i's block ends before entry j's begins |
| Deliberation.JudgePromptMentions | app.py:151-167 | the judge prompt contains the scenario and, for every entry, its name, verdict, score and explanation lines |
| Deliberation.BuildJudgePrompt | app.py:151-177 | the `+=` loop builds exactly the prefix, the blocks of the results in list order, and the closing |
| Deliberation.FinalJudgment | app.py:178-191 | when the judge call returned, the final triple is exactly `parse_response` of its stripped reply under the name "Final Judge"; when it raised, it is ("Error", 50, the judge error text); so the verdict differs from "Error" exactly when the reply is acceptable, an "Error" verdict comes with score 50, and a rejected reply or a raised message is quoted in the explanation |
| Deliberation.Deliberate | app.py:114-191 | the requests are the persona prompts in table order followed by the judge prompt over the collected records; the session holds the scenario, the records and the final triple, whatever the defaults were |
| Deliberation.SessionWellFormed | app.py:116-191 | whatever the gateway does, every record and the final triple carry a known verdict and a score in [0, 100], one record per persona in table order |
| Deliberation.TotalFailure | app.py:145-148 | when every call raises, every record is its persona's sentinel and the final triple is the judge sentinel |
| Deliberation.Submit | app.py:104-112 | the three guards are checked in order and a deliberation happens exactly when all pass; the requests are then the persona prompts in table order followed by the judge prompt over the records, and the session holds the scenario, the records and the final triple |
| Presenter.MessageText | app.py:206-226 | definition of the text of each message; `Announcement` and `Present` state which message is shown |
| Presenter.Announcement | app.py:205-214 | NTA is shown as success, YTA as error, ESH as warning, NAH and INFO as info, each with its own message |
| Presenter.AnnouncedVerdict | app.py:205-214 | a message is one of the five verdict messages exactly when it is not the failure message, and names a valid verdict |
| Presenter.AnnouncementReadsBack | app.py:205-214 | the message shown for a verdict names that verdict, so the five verdicts get five different messages |
| Presenter.Present | app.py:203-228 | a verdict banner is shown exactly for the five tags, with heading "## verdict", the announced tone and message, and the score caption; otherwise the failure banner; the explanation is shown either way |
| Presenter.ScoreCaption | app.py:219 | definition of the caption `"{score}% likelihood …"`; `CaptionReadsBack` states that it starts with the score's digits |
| Presenter.HeadingReadsBack | app.py:204 | the heading is "## " followed by exactly the verdict |
| Presenter.CaptionReadsBack | app.py:219 | for an integer score the caption starts with the score's digits, which denote the score |
| Presenter.SentinelGetsFailureBanner | app.py:225-228 | the "Error" sentinel always gets the failure banner with its explanation |
| Presenter.BannerFollowsJudge | app.py:184-228 | a verdict banner is shown exactly when the judge call returned and its reply is acceptable |

## Left out

- The API key lookup from secrets or the environment and `genai.configure`
  (app.py:5-33) are configuration I/O. `Deliberation.Submit` takes their
  outcome as a flag.
- Model construction and its generation and safety settings (app.py:36-62)
  are left out. `Submit` takes whether a model exists as a flag.
- `generate_content` and `response.text` (app.py:132-133, 186-187) are a
  remote call. Each call's outcome is an input.
- The internals of `json.loads` are a foreign library. Its outcome is an
  input, and decoder messages are opaque strings.
  - Duplicate keys and float values are settled inside the decoder; a float
    is kept only as its literal.
  - An exception from the decoder other than `JSONDecodeError` (for example
    on very deep nesting) propagates out of `parse_response`. The caller's
    handler then records it like a failed call, which is the `Err` outcome.
- Streamlit rendering is not modelled: the text area, button, spinners,
  expanders, subheadings and markdown, and the `st.error`/`st.warning`
  notices in the handlers (app.py:64-70, 106-111, 142, 190, 195-200). The
  final-verdict section is modelled as the `Banner` value it is given.
- The progress bar value `float(final_score) / 100.0` (app.py:218) is
  floating point.
- The `.replace('_', ' ').title()` display names (app.py:196) are
  presentation only.
- The persona instruction texts (app.py:74-78) are configuration. The
  persona table is a parameter, and `Deliberation.PersonaNames` lists the
  five names in table order.
- The five message texts (app.py:206-214) are written out in
  `Presenter.MessageText`, but no lemma proves on the text itself that they
  differ pairwise. Reasoning about the long literals costs the verifier too
  much. Distinctness is stated on the `Message` values instead.
- Unicode is only as wide as `str.isspace` needs. No normalisation is
  modelled.
