/** The training session (app.js:237-321, app.js:373-392, app.js:428-435,
    app.js:456-467, app.js:482): the current scenario, the running score and
    the append-only event log, updated by the UI's event handlers and the
    auto-advance timer. Timestamps, snapshot image data and detector
    confidences arrive as opaque parameters. */
module Session {
  import opened Options
  import opened Scenarios
  import opened Navigation
  import opened Coaching
  import opened Expressions
  import opened ResponseText

  /** An ISO-8601 time as produced by `new Date().toISOString()`. */
  type Timestamp = string

  /** One record of the session log; `scenario` is the id of the scenario
      on screen when it was written. */
  datatype Event =
    | View(scenario: string, at: Timestamp)
    | ChoiceMade(scenario: string, choice: string, score: int, at: Timestamp)
    | Response(scenario: string, text: string, at: Timestamp)
    | ExpressionSeen(scenario: string, expression: string, confidence: int, at: Timestamp)
    | Snapshot(scenario: string, dataUrl: string, at: Timestamp)

  /** The exported document `{exportedAt, score, log}`. */
  datatype Export = Export(exportedAt: Timestamp, score: int, log: seq<Event>)

  /** The score a record contributes: its own for a choice, 0 otherwise. */
  function ChoiceScore(e: Event): int {
    if e.ChoiceMade? then e.score else 0
  }

  /** The sum of the scores of the choice records of `log`. */
  function ChoiceScoreTotal(log: seq<Event>): int {
    if log == [] then 0 else ChoiceScoreTotal(log[..|log| - 1]) + ChoiceScore(log[|log| - 1])
  }

  /** The number of choice records in `log`. */
  function ChoiceCount(log: seq<Event>): nat {
    if log == [] then 0 else ChoiceCount(log[..|log| - 1]) + (if log[|log| - 1].ChoiceMade? then 1 else 0)
  }

  /** Appending a record adds its score, and only its score, to the total. */
  lemma ChoiceScoreTotalAppend(log: seq<Event>, e: Event)
    ensures ChoiceScoreTotal(log + [e]) == ChoiceScoreTotal(log) + ChoiceScore(e)
    ensures ChoiceCount(log + [e]) == ChoiceCount(log) + (if e.ChoiceMade? then 1 else 0)
  {
    assert (log + [e])[..|log|] == log;
  }

  /** The total of a log is the total of any split of it into two parts. */
  lemma {:induction false} ChoiceScoreTotalConcat(a: seq<Event>, b: seq<Event>)
    ensures ChoiceScoreTotal(a + b) == ChoiceScoreTotal(a) + ChoiceScoreTotal(b)
  {
    if b != [] {
      var b' := b[..|b| - 1];
      assert a + b == (a + b') + [b[|b| - 1]];
      ChoiceScoreTotalConcat(a, b');
      ChoiceScoreTotalAppend(a + b', b[|b| - 1]);
    } else {
      assert a + b == a;
    }
  }

  /** Every choice record carries one of the table's option scores. */
  predicate ScoresFromTable(log: seq<Event>) {
    forall i :: 0 <= i < |log| && log[i].ChoiceMade? ==> IsOptionScore(log[i].score)
  }

  /** With table scores, the total lies between -1 and 2 per choice made. */
  lemma {:induction false} ScoreBounds(log: seq<Event>)
    requires ScoresFromTable(log)
    ensures -(ChoiceCount(log) as int) <= ChoiceScoreTotal(log) <= 2 * ChoiceCount(log)
  {
    if log != [] {
      var init := log[..|log| - 1];
      assert ScoresFromTable(init) by {
        forall i | 0 <= i < |init| && init[i].ChoiceMade?
          ensures IsOptionScore(init[i].score)
        {
          assert init[i] == log[i];
        }
      }
      ScoreBounds(init);
    }
  }

  /** The session: module-level `currentIndex`, `score` and `log`, the number
      of auto-advance timers scheduled but not yet fired, and the two pieces
      of page text the handlers write: the suggestion panel and the response
      text box. */
  class TrainingSession {
    var currentIndex: nat
    var score: int
    var log: seq<Event>
    var pendingAdvances: nat
    var suggestionText: string
    var responseDraft: string

    /** The index names a scenario, and the score is the sum of the logged
        choice scores, each one from the table. */
    ghost predicate Valid()
      reads this
    {
      currentIndex < |SCENARIOS| &&
      score == ChoiceScoreTotal(log) &&
      ScoresFromTable(log)
    }

    /** Page load: index 0, score 0, an empty log, then the first scenario
        is shown (app.js:237-239, app.js:482). */
    constructor (at: Timestamp)
      ensures Valid()
      ensures currentIndex == 0 && score == 0 && pendingAdvances == 0
      ensures log == [View(SCENARIOS[0].id, at)]
      ensures suggestionText == "" && responseDraft == ""
    {
      currentIndex, score, log, pendingAdvances := 0, 0, [], 0;
      suggestionText, responseDraft := "", "";
      new;
      ShowScenario(0, at);
    }

    /** `showScenario(i)`: clears the suggestion panel and logs a view of
        scenario `i`; score, index and timers are untouched. */
    method ShowScenario(i: nat, at: Timestamp)
      requires Valid() && i < |SCENARIOS|
      modifies this`log, this`suggestionText
      ensures Valid()
      ensures log == old(log) + [View(SCENARIOS[i].id, at)]
      ensures suggestionText == ""
    {
      suggestionText := "";
      ChoiceScoreTotalAppend(log, View(SCENARIOS[i].id, at));
      log := log + [View(SCENARIOS[i].id, at)];
    }

    /** `applyChoice(k)`: adds the option's score, shows the coach's
        feedback, logs the choice and schedules one more auto-advance. The
        index does not move until that advance fires. */
    method ApplyChoice(k: nat, at: Timestamp)
      requires Valid() && k < 3
      modifies this`score, this`log, this`suggestionText, this`pendingAdvances
      ensures Valid()
      ensures score == old(score) + ChoiceAt(currentIndex, k).score
      ensures log == old(log) + [ChoiceMade(SCENARIOS[currentIndex].id, ChoiceAt(currentIndex, k).caption,
                                            ChoiceAt(currentIndex, k).score, at)]
      ensures suggestionText == FeedbackText(ChoiceAt(currentIndex, k))
      ensures pendingAdvances == old(pendingAdvances) + 1
    {
      var sc := SCENARIOS[currentIndex];
      var ch := ChoiceAt(currentIndex, k);
      score := score + ch.score;
      suggestionText := FeedbackText(ch);
      var e := ChoiceMade(sc.id, ch.caption, ch.score, at);
      ChoiceScoreTotalAppend(log, e);
      log := log + [e];
      pendingAdvances := pendingAdvances + 1;
    }

    /** One scheduled auto-advance fires: it moves on from the scenario
        current AT FIRING TIME, not the one the choice was made in, and shows
        it (app.js:288-291). */
    method FireAutoAdvance(at: Timestamp)
      requires Valid() && pendingAdvances > 0
      modifies this`currentIndex, this`log, this`suggestionText, this`pendingAdvances
      ensures Valid()
      ensures currentIndex == NextIndex(old(currentIndex), |SCENARIOS|)
      ensures log == old(log) + [View(SCENARIOS[currentIndex].id, at)]
      ensures suggestionText == ""
      ensures pendingAdvances == old(pendingAdvances) - 1
    {
      pendingAdvances := pendingAdvances - 1;
      currentIndex := NextIndex(currentIndex, |SCENARIOS|);
      ShowScenario(currentIndex, at);
    }

    /** The Next button (app.js:305). */
    method Next(at: Timestamp)
      requires Valid()
      modifies this`currentIndex, this`log, this`suggestionText
      ensures Valid()
      ensures currentIndex == NextIndex(old(currentIndex), |SCENARIOS|)
      ensures log == old(log) + [View(SCENARIOS[currentIndex].id, at)]
      ensures suggestionText == ""
    {
      currentIndex := NextIndex(currentIndex, |SCENARIOS|);
      ShowScenario(currentIndex, at);
    }

    /** The Prev button (app.js:304). */
    method Prev(at: Timestamp)
      requires Valid()
      modifies this`currentIndex, this`log, this`suggestionText
      ensures Valid()
      ensures currentIndex == PrevIndex(old(currentIndex), |SCENARIOS|)
      ensures log == old(log) + [View(SCENARIOS[currentIndex].id, at)]
      ensures suggestionText == ""
    {
      currentIndex := PrevIndex(currentIndex, |SCENARIOS|);
      ShowScenario(currentIndex, at);
    }

    /** A key press: '1', '2' and '3' apply options 0, 1 and 2; any other
        key changes nothing (app.js:297-301). */
    method KeyDown(key: string, at: Timestamp)
      requires Valid()
      modifies this`score, this`log, this`suggestionText, this`pendingAdvances
      ensures Valid()
      ensures ChoiceForKey(key).None? ==>
        log == old(log) && score == old(score) && pendingAdvances == old(pendingAdvances) &&
        suggestionText == old(suggestionText)
      ensures ChoiceForKey(key).Some? ==>
        var ch := ChoiceAt(currentIndex, ChoiceForKey(key).value);
        score == old(score) + ch.score &&
        log == old(log) + [ChoiceMade(SCENARIOS[currentIndex].id, ch.caption, ch.score, at)] &&
        suggestionText == FeedbackText(ch) &&
        pendingAdvances == old(pendingAdvances) + 1
    {
      var k := ChoiceForKey(key);
      if k.Some? {
        ApplyChoice(k.value, at);
      }
    }

    /** A pointer press that hits the scenario panel, webcam plane or
        suggestion frame applies option 0 (app.js:462-466); a miss changes
        nothing. Whether the ray hits is decided by the renderer. */
    method PointerDown(hit: bool, at: Timestamp)
      requires Valid()
      modifies this`score, this`log, this`suggestionText, this`pendingAdvances
      ensures Valid()
      ensures !hit ==>
        log == old(log) && score == old(score) && pendingAdvances == old(pendingAdvances) &&
        suggestionText == old(suggestionText)
      ensures hit ==>
        score == old(score) + ChoiceAt(currentIndex, 0).score &&
        suggestionText == FeedbackText(ChoiceAt(currentIndex, 0)) &&
        pendingAdvances == old(pendingAdvances) + 1 &&
        log == old(log) + [ChoiceMade(SCENARIOS[currentIndex].id, ChoiceAt(currentIndex, 0).caption,
                                      ChoiceAt(currentIndex, 0).score, at)]
    {
      if hit {
        ApplyChoice(0, at);
      }
    }

    /** The user edits the response text box. */
    method EditResponse(text: string)
      modifies this`responseDraft
      ensures responseDraft == text
    {
      responseDraft := text;
    }

    /** The Clear button empties the response text box (app.js:321). */
    method ClearResponse()
      modifies this`responseDraft
      ensures responseDraft == ""
    {
      responseDraft := "";
    }

    /** The Submit button (app.js:314-320): the typed text is trimmed; blank
        text is refused with nothing recorded, otherwise one response record
        with the trimmed text is logged, echoed in the suggestion panel, and
        the text box is emptied. */
    method SubmitResponse(at: Timestamp) returns (saved: bool)
      requires Valid()
      modifies this`log, this`suggestionText, this`responseDraft
      ensures Valid()
      ensures saved <==> !AllTrimmable(old(responseDraft))
      ensures !saved ==> log == old(log) && suggestionText == old(suggestionText) && responseDraft == old(responseDraft)
      ensures saved ==>
        log == old(log) + [Response(SCENARIOS[currentIndex].id, Trim(old(responseDraft)), at)] &&
        suggestionText == "Saved response: \"" + Trim(old(responseDraft)) + "\"" &&
        responseDraft == ""
    {
      var txt := Trim(responseDraft);
      TrimEmptyIff(responseDraft);
      if txt == [] {
        saved := false;
        return;
      }
      var e := Response(SCENARIOS[currentIndex].id, txt, at);
      ChoiceScoreTotalAppend(log, e);
      log := log + [e];
      suggestionText := "Saved response: \"" + txt + "\"";
      responseDraft := "";
      saved := true;
    }

    /** One poll of the expression detector (app.js:373-392). With no face
        found nothing happens; otherwise the top expression is mapped onto a
        suggestion key, that suggestion's text is shown and an expression
        record with the key and the top confidence is logged. */
    method OnDetection(detected: Option<seq<Reading>>, at: Timestamp)
      requires Valid()
      modifies this`log, this`suggestionText
      ensures Valid()
      ensures detected.None? ==> log == old(log) && suggestionText == old(suggestionText)
      ensures detected.Some? ==>
        var top := TopOf(detected.value);
        var key := MapExpression(top.name);
        log == old(log) + [ExpressionSeen(SCENARIOS[currentIndex].id, key, top.val, at)] &&
        suggestionText == SuggestionFor(key).text
    {
      if detected.Some? {
        var top := TopExpression(detected.value);
        var key := MapExpression(top.name);
        suggestionText := SuggestionFor(key).text;
        var e := ExpressionSeen(SCENARIOS[currentIndex].id, key, top.val, at);
        ChoiceScoreTotalAppend(log, e);
        log := log + [e];
      }
    }

    /** The Snapshot button (app.js:428-435): refused while the camera has
        no picture (video width 0); otherwise the captured image data is
        logged as one snapshot record. */
    method TakeSnapshot(videoWidth: nat, dataUrl: string, at: Timestamp) returns (saved: bool)
      requires Valid()
      modifies this`log
      ensures Valid()
      ensures saved <==> videoWidth != 0
      ensures !saved ==> log == old(log)
      ensures saved ==> log == old(log) + [Snapshot(SCENARIOS[currentIndex].id, dataUrl, at)]
    {
      if videoWidth == 0 {
        saved := false;
        return;
      }
      var e := Snapshot(SCENARIOS[currentIndex].id, dataUrl, at);
      ChoiceScoreTotalAppend(log, e);
      log := log + [e];
      saved := true;
    }

    /** The Export button (app.js:306-307): the document holds the score and
        the whole log in insertion order, and its score is the total of its
        own choice records. Nothing in the session changes. */
    method ExportSession(at: Timestamp) returns (doc: Export)
      requires Valid()
      ensures doc.exportedAt == at && doc.log == log && doc.score == score
      ensures doc.score == ChoiceScoreTotal(doc.log)
      ensures -(ChoiceCount(doc.log) as int) <= doc.score <= 2 * ChoiceCount(doc.log)
    {
      ScoreBounds(log);
      doc := Export(at, score, log);
    }
  }
}
