/** Expression routing (app.js:88-113, app.js:373-389, app.js:438-440): the
    detector reports a confidence per expression name, the loop picks the
    top one, the pick is mapped onto one of the six suggestion keys and the
    suggestion for that key is shown. Confidences are modelled as integers;
    the loop only compares them with `>`. */
module Expressions {

  /** One entry of the detector's expression table, in key order. */
  datatype Reading = Reading(name: string, confidence: int)

  /** The loop's running pick `top = { name, val }`. */
  datatype Pick = Pick(name: string, val: int)

  /** A suggestion: coaching text and the stock-photo query for its image. */
  datatype Suggestion = Suggestion(text: string, imageQuery: string)

  /** The six keys of the suggestion table, in declaration order. */
  const SUGGESTION_KEYS: seq<string> := ["neutral", "happy", "sad", "angry", "fearful", "surprised"]

  const SUGGESTIONS: map<string, Suggestion> := map[
    "neutral" := Suggestion(
      "You're neutral \U{2014} take a breath and reflect. Consider a calm, factual response that names impact and suggests next steps.",
      "professional-calm-body-language,office"),
    "happy" := Suggestion(
      "You appear comfortable/positive \U{2014} maintain professionalism. If the comment was positive but problematic, gently reframe it.",
      "friendly-professional-smile,office"),
    "sad" := Suggestion(
      "You appear down \U{2014} consider checking in with a peer or asking for support. Use a private follow-up if you don't want to address publicly.",
      "empathetic-listener,office"),
    "angry" := Suggestion(
      "You look angry \U{2014} when possible, pause before responding. Use assertive, specific language to name the behavior, not the person.",
      "assertive-professional,office"),
    "fearful" := Suggestion(
      "You look surprised or unsettled. If you feel unsafe, prioritize removing yourself; otherwise ask for clarification or a timeout.",
      "calm-professional,office"),
    "surprised" := Suggestion(
      "You seem surprised. Clarify the comment: ask 'Can you say more about what you meant by that?' to prompt reflection.",
      "clarifying-question,office")
  ]

  /** The pick after the loop has seen `readings`: it starts from
      `neutral` at 0 and takes a later reading only when it is strictly
      greater than the current pick. */
  function TopOf(readings: seq<Reading>): Pick {
    if readings == [] then Pick("neutral", 0)
    else
      var p := TopOf(readings[..|readings| - 1]);
      var last := readings[|readings| - 1];
      if last.confidence > p.val then Pick(last.name, last.confidence) else p
  }

  /** The top-expression loop: one pass over the readings in key order. */
  method TopExpression(readings: seq<Reading>) returns (top: Pick)
    ensures top == TopOf(readings)
  {
    top := Pick("neutral", 0);
    for i := 0 to |readings|
      invariant top == TopOf(readings[..i])
    {
      assert readings[..i + 1][..i] == readings[..i];
      if readings[i].confidence > top.val {
        top := Pick(readings[i].name, readings[i].confidence);
      }
    }
    assert readings[..|readings|] == readings;
  }

  /** The pick is never below 0 and no reading exceeds it. */
  lemma {:induction false} TopIsUpperBound(readings: seq<Reading>)
    ensures TopOf(readings).val >= 0
    ensures forall i :: 0 <= i < |readings| ==> readings[i].confidence <= TopOf(readings).val
  {
    if readings != [] {
      TopIsUpperBound(readings[..|readings| - 1]);
    }
  }

  /** A pick above 0 is the first reading that reaches the maximum: it is
      reading `j`, and every earlier reading is strictly smaller, so ties go
      to the earliest key. */
  lemma {:induction false} TopIsEarliestMax(readings: seq<Reading>) returns (j: nat)
    requires TopOf(readings).val > 0
    ensures j < |readings|
    ensures TopOf(readings) == Pick(readings[j].name, readings[j].confidence)
    ensures forall i :: 0 <= i < j ==> readings[i].confidence < readings[j].confidence
  {
    var init := readings[..|readings| - 1];
    var last := readings[|readings| - 1];
    if last.confidence > TopOf(init).val {
      j := |readings| - 1;
      TopIsUpperBound(init);
      assert forall i :: 0 <= i < j ==> readings[i] == init[i];
    } else {
      j := TopIsEarliestMax(init);
    }
  }

  /** When no reading is above 0 the pick stays `neutral` at 0, and only then
      is its value 0. */
  lemma {:induction false} TopNeutralWhenNothingPositive(readings: seq<Reading>)
    ensures TopOf(readings).val == 0 <==> forall i :: 0 <= i < |readings| ==> readings[i].confidence <= 0
    ensures TopOf(readings).val == 0 ==> TopOf(readings).name == "neutral"
  {
    TopIsUpperBound(readings);
    if readings != [] {
      var init := readings[..|readings| - 1];
      TopNeutralWhenNothingPositive(init);
      assert forall i :: 0 <= i < |init| ==> readings[i] == init[i];
    }
  }

  /** The suggestion key for the top expression name: the name itself when
      it is one of the six keys, `neutral` otherwise (for instance for the
      detector's `disgusted`). */
  function MapExpression(name: string): (key: string)
    ensures key in SUGGESTION_KEYS
    ensures name in SUGGESTION_KEYS ==> key == name
    ensures name !in SUGGESTION_KEYS ==> key == "neutral"
  {
    if name == "happy" then "happy"
    else if name == "sad" then "sad"
    else if name == "angry" then "angry"
    else if name == "surprised" then "surprised"
    else if name == "fearful" then "fearful"
    else "neutral"
  }

  /** The suggestion shown for a key, falling back to `neutral` for a key
      the table does not hold. */
  function SuggestionFor(key: string): (s: Suggestion)
    ensures s in SUGGESTIONS.Values
    ensures key in SUGGESTIONS ==> s == SUGGESTIONS[key]
    ensures key !in SUGGESTIONS ==> s == SUGGESTIONS["neutral"]
  {
    if key in SUGGESTIONS then SUGGESTIONS[key] else SUGGESTIONS["neutral"]
  }

  /** The table's keys are exactly the six keys the mapping produces, so a
      key coming out of the mapping is always found without the fallback. */
  lemma MappedKeyIsInTable(name: string)
    ensures SUGGESTIONS.Keys == set k | k in SUGGESTION_KEYS
    ensures MapExpression(name) in SUGGESTIONS
    ensures SuggestionFor(MapExpression(name)) == SUGGESTIONS[MapExpression(name)]
  {
  }

  /** A key outside the table gets the `neutral` suggestion; `angry` gets its own. */
  lemma {:induction false} LookupExamples()
    ensures SuggestionFor("unknown-label") == SUGGESTIONS["neutral"]
    ensures SuggestionFor("angry") == SUGGESTIONS["angry"]
    ensures SuggestionFor("angry") != SuggestionFor("unknown-label")
  {
    assert "unknown-label" !in SUGGESTIONS;
  }
}
