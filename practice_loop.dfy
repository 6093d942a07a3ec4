/**
 * The practice session's trial loop (MR.py:648-897): `trialNum` starts at 0,
 * is raised by one at the top of every iteration, and the loop runs while
 * `trialNum <= numPracticeTrials`. A "q" at the fixation prompt or at the
 * response prompt sets `trialNum` to `numPracticeTrials + 1` and leaves the
 * loop without scoring that trial.
 */
module PracticeLoop {
  import opened TrialDesign
  import opened Scoring
  import opened Wrappers

  /** The practice budget set at MR.py:151. */
  const NumPracticeTrials: int := 100

  /** Uniform ranges of the practice draws: seconds for the duration, arcmin for the disparity. */
  datatype PracticeRanges = PracticeRanges(durLo: real, durHi: real, dispLo: real, dispHi: real)

  /** `durRange` and `dispRange` by difficulty (MR.py:648-653). */
  function RangesFor(easy: bool): (r: PracticeRanges)
    ensures r.durLo < r.durHi && r.dispLo < r.dispHi
  {
    if easy then PracticeRanges(0.5, 2.0, 0.0, 20.0) else PracticeRanges(0.25, 1.5, 15.0, 60.0)
  }

  /** "hard" allows shorter durations and larger disparities than "easy" (MR.py:6). */
  lemma HardIsHarder()
    ensures RangesFor(false).durLo < RangesFor(true).durLo
    ensures RangesFor(false).durHi < RangesFor(true).durHi
    ensures RangesFor(false).dispHi > RangesFor(true).dispHi
  {
  }

  /**
   * What one iteration consumes: the two design draws and the key lists
   * returned by the fixation prompt and by the response prompt.
   */
  datatype TrialEvents = TrialEvents(choice: SlotChoice, popOut: PopOut, fixationKeys: seq<string>, responseKeys: seq<string>)

  /** A scored practice trial: its 1-based number, its design and the score with its feedback. */
  datatype PracticeTrial = PracticeTrial(trialNum: int, offsets: Offsets, response: int, feedback: string)

  /** The iteration is cut short by "q" at the fixation prompt or at the response prompt. */
  predicate Quits(e: TrialEvents)
  {
    "q" in e.fixationKeys || "q" in e.responseKeys
  }

  /** The trial scored by iteration number `trialNum` when it is not quit. */
  function TrialOf(trialNum: int, e: TrialEvents, hDisparityMagnitude: int): (t: PracticeTrial)
    requires !Quits(e)
    ensures t.trialNum == trialNum
    ensures t.offsets == ShiftOnly(PoppedSlot(e.choice, e.popOut), ShiftMagnitude(hDisparityMagnitude))
    ensures ScoreResponse(e.responseKeys, e.popOut) == Scored(t.response, t.feedback)
  {
    var outcome := ScoreResponse(e.responseKeys, e.popOut);
    PracticeTrial(trialNum, HorizontalOffsets(e.choice, e.popOut, hDisparityMagnitude), outcome.response, outcome.feedback)
  }

  /**
   * Reference definition: the trials scored by `count` iterations starting at
   * 0-based iteration `from` (trial number `from + 1`), stopping at the first quit.
   */
  function Trials(events: nat -> TrialEvents, hDisparityMagnitude: int, from: nat, count: nat): seq<PracticeTrial>
    decreases count
  {
    if count == 0 || Quits(events(from)) then []
    else [TrialOf(from + 1, events(from), hDisparityMagnitude)] + Trials(events, hDisparityMagnitude, from + 1, count - 1)
  }

  /** Number of iterations the guard `trialNum <= numPracticeTrials` lets start. */
  function Budget(numPracticeTrials: int): nat
  {
    if numPracticeTrials >= 0 then numPracticeTrials + 1 else 0
  }

  /**
   * One iteration of the loop body (MR.py:676-897): `None` when "q" is pressed
   * at the fixation prompt or at the response prompt, otherwise the scored trial.
   */
  method RunTrial(trialNum: int, e: TrialEvents, hDisparityMagnitude: int) returns (trial: Option<PracticeTrial>)
    ensures trial.None? <==> Quits(e)
    ensures trial.Some? ==> !Quits(e) && trial.value == TrialOf(trialNum, e, hDisparityMagnitude)
  {
    if "q" in e.fixationKeys {
      return None;
    }
    var outcome := ScoreResponse(e.responseKeys, e.popOut);
    if outcome.Quit? {
      return None;
    }
    var offsets := HorizontalOffsets(e.choice, e.popOut, hDisparityMagnitude);
    trial := Some(PracticeTrial(trialNum, offsets, outcome.response, outcome.feedback));
  }

  /** The loop of MR.py:671-897 as written. */
  method RunPractice(numPracticeTrials: int, hDisparityMagnitude: int, events: nat -> TrialEvents)
    returns (trials: seq<PracticeTrial>, trialNum: int)
    ensures trials == Trials(events, hDisparityMagnitude, 0, Budget(numPracticeTrials))
    ensures trialNum == (if numPracticeTrials >= 0 then numPracticeTrials + 1 else 0)
  {
    ghost var budget := Budget(numPracticeTrials);
    trials, trialNum := [], 0;
    while trialNum <= numPracticeTrials
      invariant 0 <= trialNum <= budget
      invariant trialNum == |trials|
      invariant forall k :: 0 <= k < trialNum ==> !Quits(events(k))
      invariant trials == Trials(events, hDisparityMagnitude, 0, trialNum)
      decreases budget - trialNum
    {
      trialNum := trialNum + 1;
      var trial := RunTrial(trialNum, events(trialNum - 1), hDisparityMagnitude);
      TrialsExtend(events, hDisparityMagnitude, 0, trialNum - 1);
      if trial.None? {
        TrialsPrefix(events, hDisparityMagnitude, 0, trialNum - 1, budget);
        trialNum := numPracticeTrials + 1;
        return;
      }
      trials := trials + [trial.value];
    }
    TrialsPrefix(events, hDisparityMagnitude, 0, trialNum, budget);
  }

  /**
   * The loop with the guard `trialNum < numPracticeTrials`, which runs the
   * configured number of trials.
   */
  method RunPracticeIntended(numPracticeTrials: int, hDisparityMagnitude: int, events: nat -> TrialEvents)
    returns (trials: seq<PracticeTrial>, trialNum: int)
    ensures trials == Trials(events, hDisparityMagnitude, 0, if numPracticeTrials >= 0 then numPracticeTrials else 0)
    ensures |trials| <= numPracticeTrials || |trials| == 0
  {
    ghost var budget: nat := if numPracticeTrials >= 0 then numPracticeTrials else 0;
    trials, trialNum := [], 0;
    while trialNum < numPracticeTrials
      invariant 0 <= trialNum <= budget
      invariant trialNum == |trials|
      invariant forall k :: 0 <= k < trialNum ==> !Quits(events(k))
      invariant trials == Trials(events, hDisparityMagnitude, 0, trialNum)
      decreases budget - trialNum
    {
      trialNum := trialNum + 1;
      var trial := RunTrial(trialNum, events(trialNum - 1), hDisparityMagnitude);
      TrialsExtend(events, hDisparityMagnitude, 0, trialNum - 1);
      if trial.None? {
        TrialsPrefix(events, hDisparityMagnitude, 0, trialNum - 1, budget);
        trialNum := numPracticeTrials;
        return;
      }
      trials := trials + [trial.value];
    }
    TrialsPrefix(events, hDisparityMagnitude, 0, trialNum, budget);
  }

  /** One more iteration after `count` unquit ones appends its trial, or nothing when it quits. */
  lemma {:induction false} TrialsExtend(events: nat -> TrialEvents, hDisparityMagnitude: int, from: nat, count: nat)
    requires forall k :: from <= k < from + count ==> !Quits(events(k))
    ensures Trials(events, hDisparityMagnitude, from, count + 1)
            == Trials(events, hDisparityMagnitude, from, count)
               + (if Quits(events(from + count)) then [] else [TrialOf(from + count + 1, events(from + count), hDisparityMagnitude)])
    decreases count
  {
    if count > 0 {
      TrialsExtend(events, hDisparityMagnitude, from + 1, count - 1);
      assert from + 1 + (count - 1) == from + count;
    }
  }

  /**
   * Iterations past the first quit add nothing: when the first `k` iterations
   * are unquit and iteration `k` quits (or `k` is the whole budget), the budget
   * scores what the first `k` iterations score.
   */
  lemma {:induction false} TrialsPrefix(events: nat -> TrialEvents, hDisparityMagnitude: int, from: nat, k: nat, count: nat)
    requires k <= count
    requires forall i :: from <= i < from + k ==> !Quits(events(i))
    requires k == count || Quits(events(from + k))
    ensures Trials(events, hDisparityMagnitude, from, count) == Trials(events, hDisparityMagnitude, from, k)
    decreases k
  {
    if k > 0 {
      TrialsPrefix(events, hDisparityMagnitude, from + 1, k - 1, count - 1);
      assert from + 1 + (k - 1) == from + k;
    }
  }

  /** At most `count` trials are scored. */
  lemma {:induction false} TrialsLength(events: nat -> TrialEvents, hDisparityMagnitude: int, from: nat, count: nat)
    ensures |Trials(events, hDisparityMagnitude, from, count)| <= count
    decreases count
  {
    if count > 0 && !Quits(events(from)) {
      TrialsLength(events, hDisparityMagnitude, from + 1, count - 1);
    }
  }

  /**
   * Trial numbers are 1-based, gapless and increasing: the `j`-th scored trial is
   * trial `from + j + 1`, its iteration was not quit, and it is scored from its own events.
   */
  lemma {:induction false} TrialsNumbered(events: nat -> TrialEvents, hDisparityMagnitude: int, from: nat, count: nat, j: nat)
    requires j < |Trials(events, hDisparityMagnitude, from, count)|
    ensures var ts := Trials(events, hDisparityMagnitude, from, count);
            ts[j].trialNum == from + j + 1 && !Quits(events(from + j)) &&
            ts[j] == TrialOf(from + j + 1, events(from + j), hDisparityMagnitude)
    decreases j
  {
    if j > 0 {
      TrialsNumbered(events, hDisparityMagnitude, from + 1, count - 1, j - 1);
      assert from + 1 + (j - 1) == from + j;
    }
  }

  /** Without a quit, every iteration scores exactly one trial. */
  lemma {:induction false} TrialsWithoutQuit(events: nat -> TrialEvents, hDisparityMagnitude: int, from: nat, count: nat)
    requires forall i :: from <= i < from + count ==> !Quits(events(i))
    ensures |Trials(events, hDisparityMagnitude, from, count)| == count
    decreases count
  {
    if count > 0 {
      TrialsWithoutQuit(events, hDisparityMagnitude, from + 1, count - 1);
    }
  }

  /** A first quit at 0-based iteration `from + k` leaves exactly `k` scored trials. */
  lemma {:induction false} TrialsQuitAt(events: nat -> TrialEvents, hDisparityMagnitude: int, from: nat, count: nat, k: nat)
    requires k < count
    requires forall i :: from <= i < from + k ==> !Quits(events(i))
    requires Quits(events(from + k))
    ensures |Trials(events, hDisparityMagnitude, from, count)| == k
    decreases k
  {
    if k > 0 {
      TrialsQuitAt(events, hDisparityMagnitude, from + 1, count - 1, k - 1);
    }
  }

  /**
   * With the constant of MR.py:151 and no quit, the loop as written scores 101
   * practice trials, one more than `numPracticeTrials`.
   */
  lemma PracticeRunsOneExtraTrial(events: nat -> TrialEvents, hDisparityMagnitude: int)
    requires forall i :: 0 <= i <= NumPracticeTrials ==> !Quits(events(i))
    ensures |Trials(events, hDisparityMagnitude, 0, Budget(NumPracticeTrials))| == NumPracticeTrials + 1
  {
    TrialsWithoutQuit(events, hDisparityMagnitude, 0, Budget(NumPracticeTrials));
  }

  /** With the intended guard and no quit, exactly `NumPracticeTrials` trials are scored. */
  lemma IntendedRunsBudget(events: nat -> TrialEvents, hDisparityMagnitude: int)
    requires forall i :: 0 <= i < NumPracticeTrials ==> !Quits(events(i))
    ensures |Trials(events, hDisparityMagnitude, 0, NumPracticeTrials)| == NumPracticeTrials
  {
    TrialsWithoutQuit(events, hDisparityMagnitude, 0, NumPracticeTrials);
  }
}
