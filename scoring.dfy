/**
 * Response scoring of a practice trial (MR.py:877-897): the key list returned
 * by `event.waitKeys(keyList=["q","num_1","num_3","1","3"])` and the popped-out
 * class decide the score and the feedback text.
 */
module Scoring {
  import opened TrialDesign

  /** The keys `waitKeys` accepts at the response prompt. */
  const ResponseKeys: seq<string> := ["q", "num_1", "num_3", "1", "3"]

  /** What the response prompt produces: a quit, or a 0/1 score with its feedback text. */
  datatype ResponseOutcome = Quit | Scored(response: int, feedback: string)

  /** The class a key names: "1" (left) for real/flower, "3" (right) for nonsense/bird. */
  function KeyClass(key: string): (c: KeyMeaning)
  {
    if key == "1" || key == "num_1" then Named(RealOrFlower)
    else if key == "3" || key == "num_3" then Named(NonsenseOrBird)
    else Unnamed
  }

  /** Whether a key names a class. */
  datatype KeyMeaning = Unnamed | Named(cls: PopOut)

  /** The text shown after the trial (MR.py:894-897). */
  function Feedback(response: int): (text: string)
    ensures text == "Correct" <==> response == 1
  {
    if response == 1 then "Correct" else "Incorrect"
  }

  /** Some pressed key names the popped-out class. */
  predicate NamesPoppedClass(keys: seq<string>, popOut: PopOut)
  {
    exists i :: 0 <= i < |keys| && KeyClass(keys[i]) == Named(popOut)
  }

  /** MR.py:879-897, branch for branch; `popOut` stands for the `in popOutChoice` tests. */
  function ScoreResponse(keys: seq<string>, popOut: PopOut): (r: ResponseOutcome)
    ensures r.Quit? <==> "q" in keys
    ensures r.Scored? ==> (r.response == 1 || r.response == 0)
    ensures r.Scored? ==> (r.response == 1 <==> NamesPoppedClass(keys, popOut))
    ensures r.Scored? ==> (r.feedback == "Correct" <==> r.response == 1)
  {
    if "q" in keys then Quit
    else if ("num_1" in keys || "1" in keys) && popOut == RealOrFlower then
      Scored(1, Feedback(1))
    else if ("num_3" in keys || "3" in keys) && popOut == NonsenseOrBird then
      Scored(1, Feedback(1))
    else
      Scored(0, Feedback(0))
  }

  /** The key that is correct for a trial: the one naming the popped-out class. */
  function CorrectKey(popOut: PopOut): (key: string)
    ensures key in ResponseKeys && key != "q"
    ensures KeyClass(key) == Named(popOut)
  {
    match popOut
    case RealOrFlower => "1"
    case NonsenseOrBird => "3"
  }

  /**
   * A single accepted non-quit key scores 1 exactly when it names the popped-out
   * class; every other accepted key scores 0.
   */
  lemma SingleKeyScore(key: string, popOut: PopOut)
    requires key in ResponseKeys && key != "q"
    ensures ScoreResponse([key], popOut).Scored?
    ensures ScoreResponse([key], popOut).response == (if KeyClass(key) == Named(popOut) then 1 else 0)
  {
    var r := ScoreResponse([key], popOut);
    if KeyClass(key) == Named(popOut) {
      assert NamesPoppedClass([key], popOut) by { assert [key][0] == key; }
    } else {
      assert !NamesPoppedClass([key], popOut) by {
        forall i | 0 <= i < |[key]| ensures KeyClass([key][i]) != Named(popOut) {
          assert [key][i] == key;
        }
      }
    }
  }

  /** Pressing the correct key alone gives score 1 and "Correct"; pressing the other class's key gives 0. */
  lemma CorrectKeyScoresOne(popOut: PopOut)
    ensures ScoreResponse([CorrectKey(popOut)], popOut) == Scored(1, "Correct")
    ensures ScoreResponse([CorrectKey(if popOut == RealOrFlower then NonsenseOrBird else RealOrFlower)], popOut)
            == Scored(0, "Incorrect")
  {
    SingleKeyScore(CorrectKey(popOut), popOut);
    var other := if popOut == RealOrFlower then NonsenseOrBird else RealOrFlower;
    SingleKeyScore(CorrectKey(other), popOut);
  }
}
