/** What a choice produces besides the score: the coach's verdict shown in
    the suggestion panel (app.js:285), and the keyboard binding that picks
    an option (app.js:297-301). */
module Coaching {
  import opened Options
  import opened Scenarios

  /** The three verdicts the coach can give. */
  datatype Tier = Constructive | Neutral | LessEffective

  /** The verdict for a chosen option, decided by the sign of its score. */
  function CoachTier(score: int): (t: Tier)
    ensures t == Constructive <==> score > 0
    ensures t == Neutral <==> score == 0
    ensures t == LessEffective <==> score < 0
  {
    if score > 0 then Constructive else if score == 0 then Neutral else LessEffective
  }

  /** The wording of a verdict in the feedback line; the wording alone
      tells which verdict was given. */
  function TierName(t: Tier): (name: string)
    ensures TierOfName(name) == Some(t)
  {
    match t
    case Constructive => "Constructive"
    case Neutral => "Neutral"
    case LessEffective => "Less effective"
  }

  /** The verdict a wording stands for, if any. */
  function TierOfName(name: string): Option<Tier> {
    if name == "Constructive" then Some(Constructive)
    else if name == "Neutral" then Some(Neutral)
    else if name == "Less effective" then Some(LessEffective)
    else None
  }

  /** The text before the option's label in the feedback line. */
  const FEEDBACK_PREFIX: string := "You chose: \""

  /** The text after the option's label in the feedback line. */
  function FeedbackSuffix(t: Tier): string {
    "\". Coach: " + TierName(t) + "."
  }

  /** `s` ends with `suffix`. */
  predicate EndsWith(s: string, suffix: string) {
    |suffix| <= |s| && s[|s| - |suffix|..] == suffix
  }

  /** The feedback line written into the suggestion panel after a choice,
      `You chose: "<label>". Coach: <verdict>.`; the label and the verdict
      can be read back from it. */
  function FeedbackText(ch: Choice): (msg: string)
    ensures ReadFeedback(msg) == Some((ch.caption, CoachTier(ch.score)))
  {
    var t := CoachTier(ch.score);
    ReadFeedbackOfWritten(ch.caption, t);
    FEEDBACK_PREFIX + ch.caption + FeedbackSuffix(t)
  }

  /** Reads a feedback line back into the label and the verdict. The
      verdicts are tried longest wording first. */
  function ReadFeedback(msg: string): Option<(string, Tier)> {
    var p := |FEEDBACK_PREFIX|;
    if |msg| < p || msg[..p] != FEEDBACK_PREFIX then None
    else
      var rest := msg[p..];
      if EndsWith(rest, FeedbackSuffix(LessEffective)) then
        Some((rest[..|rest| - |FeedbackSuffix(LessEffective)|], LessEffective))
      else if EndsWith(rest, FeedbackSuffix(Constructive)) then
        Some((rest[..|rest| - |FeedbackSuffix(Constructive)|], Constructive))
      else if EndsWith(rest, FeedbackSuffix(Neutral)) then
        Some((rest[..|rest| - |FeedbackSuffix(Neutral)|], Neutral))
      else None
  }

  /** Reading a written feedback line gives back its label and verdict:
      a shorter verdict's line never ends with a longer verdict's suffix. */
  lemma ReadFeedbackOfWritten(caption: string, t: Tier)
    ensures ReadFeedback(FEEDBACK_PREFIX + caption + FeedbackSuffix(t)) == Some((caption, t))
  {
    var msg := FEEDBACK_PREFIX + caption + FeedbackSuffix(t);
    var p := |FEEDBACK_PREFIX|;
    var rest := caption + FeedbackSuffix(t);
    assert msg[..p] == FEEDBACK_PREFIX && msg[p..] == rest;
    var sL, sC, sN := FeedbackSuffix(LessEffective), FeedbackSuffix(Constructive), FeedbackSuffix(Neutral);
    assert |sL| == 25 && |sC| == 23 && |sN| == 18;
    assert rest[|rest| - |FeedbackSuffix(t)|..] == FeedbackSuffix(t);
    assert rest[..|rest| - |FeedbackSuffix(t)|] == caption;
    if t != LessEffective {
      // where the shorter suffix starts, the longer one has another character
      var d := |sL| - |FeedbackSuffix(t)|;
      assert sL[d] != FeedbackSuffix(t)[0];
    }
    if t == Neutral {
      var d := |sC| - |sN|;
      assert sC[d] != sN[0];
    }
  }

  /** In every scenario the first option is rated Constructive, the second
      Neutral and the third Less effective. */
  lemma {:induction false} TiersFollowOptionOrder(i: nat)
    requires i < |SCENARIOS|
    ensures CoachTier(ChoiceAt(i, 0).score) == Constructive
    ensures CoachTier(ChoiceAt(i, 1).score) == Neutral
    ensures CoachTier(ChoiceAt(i, 2).score) == LessEffective
  {
    var a, b, c := ChoiceAt(i, 0), ChoiceAt(i, 1), ChoiceAt(i, 2);
    assert a.score == 2 && b.score == 0 && c.score == -1;
  }

  /** The option a key press selects: '1', '2' and '3' pick options 0, 1
      and 2; every other key selects nothing. */
  function ChoiceForKey(key: string): (k: Option<nat>)
    ensures k.Some? <==> key == "1" || key == "2" || key == "3"
    ensures k.Some? ==> k.value < 3 && KeyForChoice(k.value) == key
  {
    if key == "1" then Some(0)
    else if key == "2" then Some(1)
    else if key == "3" then Some(2)
    else None
  }

  /** The key that selects option `k`: the digit `k + 1`. */
  function KeyForChoice(k: nat): (key: string)
    requires k < 3
    ensures |key| == 1 && key[0] == ('1' as int + k) as char
  {
    [('1' as int + k) as char]
  }

  /** Every option has a key, and that key selects it. */
  lemma KeyRoundTrip(k: nat)
    requires k < 3
    ensures ChoiceForKey(KeyForChoice(k)) == Some(k)
  {
  }
}
