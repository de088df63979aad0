/** The static training content of the simulator: the ten scenarios, each
    with three ranked response options, and the image each one shows on
    the in-world monitor (app.js:19-83). The table is immutable. */
module Scenarios {

  /** One response option: its label (`caption`) and the score it is worth. */
  datatype Choice = Choice(caption: string, score: int)

  /** One workplace vignette. `image` is the stock-photo search URL the
      monitor panel loads (without the cache-busting suffix). */
  datatype Scenario = Scenario(id: string, title: string, image: string, prompt: string, choices: seq<Choice>)

  /** The scores of the three options of every scenario, in order. */
  const OPTION_SCORES: seq<int> := [2, 0, -1]

  const MEETING := "https://source.unsplash.com/1600x900/?meeting-room,office"
  const OPEN_OFFICE := "https://source.unsplash.com/1600x900/?open-office,workspace"
  const CONFERENCE := "https://source.unsplash.com/1600x900/?conference-room,office"
  const DESK := "https://source.unsplash.com/1600x900/?desk,workspace"
  const HALLWAY := "https://source.unsplash.com/1600x900/?office-hallway,building"
  const LOBBY := "https://source.unsplash.com/1600x900/?office-lobby,modern"
  const BREAKROOM := "https://source.unsplash.com/1600x900/?breakroom,office"
  const COWORK := "https://source.unsplash.com/1600x900/?coworking,office"
  const WINDOW := "https://source.unsplash.com/1600x900/?office-window,daylight"
  const TEAM := "https://source.unsplash.com/1600x900/?team-meeting,office"

  const SCENARIOS: seq<Scenario> := [
    Scenario("interrupted", "Meeting: Repeated Interruptions", MEETING,
      "You're presenting. A colleague keeps talking over you. What do you do?",
      [Choice("Set a calm boundary: 'Two more sentences.'", 2),
       Choice("Stay quiet and message later.", 0),
       Choice("Call them out loudly.", -1)]),
    Scenario("name", "Name mispronounced", OPEN_OFFICE,
      "A coworker keeps mispronouncing your name after corrections. How respond?",
      [Choice("Offer a short mnemonic and retry.", 2),
       Choice("Ignore it.", 0),
       Choice("Make a joke about it.", -1)]),
    Scenario("credit", "Idea attributed to someone else", CONFERENCE,
      "Someone repeats your idea and gets credit. What do you do?",
      [Choice("Bridge back to your idea with action.", 2),
       Choice("Message privately later.", 0),
       Choice("Call them a thief publicly.", -1)]),
    Scenario("origin", "\"Where are you really from?\"", DESK,
      "Teammate presses someone's 'real' origin. How do you intervene?",
      [Choice("Name impact + pivot.", 2),
       Choice("Change subject quietly.", 0),
       Choice("Label them racist loudly.", -1)]),
    Scenario("role", "Assumption about role", HALLWAY,
      "Someone assumes a colleague is the assistant not the manager. Response?",
      [Choice("Correct briefly with facts.", 2),
       Choice("Do nothing.", 0),
       Choice("Laugh it off.", -1)]),
    Scenario("accent", "Comment about accent", LOBBY,
      "A colleague says 'You speak English so well!' \U{2014} what's your call?",
      [Choice("Name the impact.", 2),
       Choice("Smile and accept.", 0),
       Choice("Joke about accent.", -1)]),
    Scenario("excluded", "Left out of social gathering", BREAKROOM,
      "A colleague wasn't invited to an offsite. What do you do?",
      [Choice("Check in privately.", 2),
       Choice("Assume oversight and do nothing.", 0),
       Choice("Call the group out publicly.", -1)]),
    Scenario("token", "Asked to speak for a group", COWORK,
      "Someone asks 'What do people like you think?'",
      [Choice("Refocus and ask for specifics.", 2),
       Choice("Offer a single view for the group.", 0),
       Choice("Agree to avoid conflict.", -1)]),
    Scenario("dress", "Dress-based comment", WINDOW,
      "Manager says 'That outfit doesn't look professional on you'. How respond?",
      [Choice("Ask for clarity on standards.", 2),
       Choice("Say sorry and change later.", 0),
       Choice("Snap back angrily.", -1)]),
    Scenario("feedback", "Feedback framed biasedly", TEAM,
      "Reviewer says 'You're coming off too aggressive'. What do you do?",
      [Choice("Ask for specifics & examples.", 2),
       Choice("Accept it without question.", 0),
       Choice("Call reviewer biased.", -1)])
  ]

  /** A scenario is well formed when it offers exactly three options whose
      scores are 2, 0 and -1, in that order. */
  predicate WellFormed(sc: Scenario) {
    |sc.choices| == 3 &&
    forall k :: 0 <= k < 3 ==> sc.choices[k].score == OPTION_SCORES[k]
  }

  /** The table holds ten well-formed scenarios with pairwise distinct ids. */
  lemma TableShape()
    ensures |SCENARIOS| == 10
    ensures forall i :: 0 <= i < |SCENARIOS| ==> WellFormed(SCENARIOS[i])
    ensures forall i, j :: 0 <= i < j < |SCENARIOS| ==> SCENARIOS[i].id != SCENARIOS[j].id
  {
  }

  /** The option `k` of the scenario at index `i`; defined for every index
      the session can hold and every key the keyboard maps. */
  function ChoiceAt(i: nat, k: nat): (ch: Choice)
    requires i < |SCENARIOS| && k < 3
    ensures ch.score == OPTION_SCORES[k]
    ensures ch in SCENARIOS[i].choices
  {
    TableShape();
    SCENARIOS[i].choices[k]
  }

  /** The scores any option of the table can carry. */
  predicate IsOptionScore(x: int) {
    x == 2 || x == 0 || x == -1
  }
}
