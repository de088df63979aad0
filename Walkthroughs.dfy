/** Short sessions driven through the handlers, showing what a caller can
    conclude from the session's contracts alone. */
module Walkthroughs {
  import opened Scenarios
  import opened Session

  /** Two choices made before the first auto-advance fires both score
      against the first scenario, and both advances still fire, so the
      session ends two scenarios further on (the timers are not cancelled,
      app.js:288-291). */
  method TwoQuickChoices() returns (score: int, index: nat, pending: nat)
    ensures score == 4 && index == 2 && pending == 0
  {
    var s := new TrainingSession("t0");
    s.ApplyChoice(0, "t1");
    s.ApplyChoice(0, "t2");
    assert s.currentIndex == 0 && s.pendingAdvances == 2;
    s.FireAutoAdvance("t3");
    s.FireAutoAdvance("t4");
    score, index, pending := s.score, s.currentIndex, s.pendingAdvances;
  }

  /** Choosing the first option of the first two scenarios, letting the
      advance fire in between, scores 2 + 2. */
  method FirstOptionTwice() returns (score: int, index: nat, ids: seq<string>)
    ensures score == 4 && index == 2
    ensures ids == ["interrupted", "name"]
  {
    var s := new TrainingSession("t0");
    s.ApplyChoice(0, "t1");
    var first := s.log[|s.log| - 1].scenario;
    s.FireAutoAdvance("t2");
    s.ApplyChoice(0, "t3");
    var second := s.log[|s.log| - 1].scenario;
    s.FireAutoAdvance("t4");
    score, index, ids := s.score, s.currentIndex, [first, second];
  }

  /** Exporting after the initial view and one choice yields exactly those
      two records, in order, and the choice's score. */
  method ExportAfterOneChoice() returns (doc: Export)
    ensures doc.score == 2
    ensures doc.log == [View("interrupted", "t0"),
                        ChoiceMade("interrupted", "Set a calm boundary: 'Two more sentences.'", 2, "t1")]
  {
    var s := new TrainingSession("t0");
    s.ApplyChoice(0, "t1");
    doc := s.ExportSession("t2");
  }

  /** Prev after Next, from the last scenario, comes back to it, with one
      view record per move. */
  method WrapAroundAndBack() returns (index: nat, views: nat)
    ensures index == 9 && views == 4
  {
    var s := new TrainingSession("t0");
    s.Prev("t1");
    assert s.currentIndex == 9;
    s.Next("t2");
    assert s.currentIndex == 0;
    s.Prev("t3");
    index, views := s.currentIndex, |s.log|;
  }
}
