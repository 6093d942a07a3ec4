/**
 * Binocular offset resolution (MR.py:404-499): the offset comes from the
 * calibration table when the subject has a record; otherwise the participant
 * aligns a "+" inside a circle with the arrow keys, in steps of 0.1 degree,
 * and confirms with the space bar. Offsets are kept in integer tenths of a
 * degree so that the steps are exact.
 */
module ManualOffset {
  import opened Wrappers
  import opened CalibrationTable

  /** A horizontal and vertical offset in tenths of a degree. */
  datatype Tenths = Tenths(horizontal: int, vertical: int)

  /** `initialOffsetVertical = -1.8` (MR.py:432), in tenths. */
  const InitialOffsetVertical: int := -18

  /** `initialOffsetHorizontal = -1.1` (MR.py:433), in tenths. */
  const InitialOffsetHorizontal: int := -11

  /** A tenths value in degrees. */
  function Degrees(tenths: int): real
  {
    tenths as real / 10.0
  }

  /**
   * The seed of MR.py:434-435 as written. Each jitter is the draw
   * `round(uniform(-10, 10)/10, 1)` in tenths; both axes start from
   * `initialOffsetHorizontal`.
   */
  function InitialOffsets(jitterHorizontal: int, jitterVertical: int): (r: Tenths)
    ensures r.vertical - r.horizontal == jitterVertical - jitterHorizontal
  {
    Tenths(InitialOffsetHorizontal + jitterHorizontal, InitialOffsetHorizontal + jitterVertical)
  }

  /** The seed with the vertical axis started from `initialOffsetVertical`. */
  function IntendedInitialOffsets(jitterHorizontal: int, jitterVertical: int): (r: Tenths)
    ensures r.horizontal == InitialOffsets(jitterHorizontal, jitterVertical).horizontal
    ensures r.vertical == InitialOffsets(jitterHorizontal, jitterVertical).vertical + (InitialOffsetVertical - InitialOffsetHorizontal)
  {
    Tenths(InitialOffsetHorizontal + jitterHorizontal, InitialOffsetVertical + jitterVertical)
  }

  /**
   * As written, the vertical seed is the horizontal seed's formula: with no
   * jitter it is -1.1 rather than -1.8, and a jitter of +1.0 puts it 1.7
   * degrees from -1.8, outside the one-degree jitter window.
   */
  lemma VerticalSeedIgnoresVerticalDefault(jitterHorizontal: int, jitterVertical: int)
    ensures InitialOffsets(jitterHorizontal, jitterVertical).vertical == InitialOffsets(jitterVertical, jitterHorizontal).horizontal
    ensures InitialOffsets(jitterHorizontal, 0).vertical != InitialOffsetVertical
    ensures InitialOffsets(jitterHorizontal, 10).vertical - InitialOffsetVertical == 17
  {
  }

  /** With the intended seed, each axis starts within one degree of its own default. */
  lemma IntendedSeedNearDefaults(jitterHorizontal: int, jitterVertical: int)
    requires -10 <= jitterHorizontal <= 10 && -10 <= jitterVertical <= 10
    ensures var o := IntendedInitialOffsets(jitterHorizontal, jitterVertical);
            -10 <= o.horizontal - InitialOffsetHorizontal <= 10 &&
            -10 <= o.vertical - InitialOffsetVertical <= 10
  {
  }

  function Indicator(b: bool): int
  {
    if b then 1 else 0
  }

  /** The direction of a "right" press: reversed when the stimulus is mirrored. */
  function Sign(mirrorStimulus: bool): int
  {
    if mirrorStimulus then -1 else 1
  }

  /**
   * One poll of `event.getKeys()` (MR.py:475-492): every pressed arrow is
   * applied once, whatever else was pressed in the same poll.
   */
  function ApplyKeys(o: Tenths, keys: seq<string>, mirrorStimulus: bool): (r: Tenths)
    ensures r.vertical == o.vertical + Indicator("up" in keys) - Indicator("down" in keys)
    ensures r.horizontal == o.horizontal + Sign(mirrorStimulus) * (Indicator("right" in keys) - Indicator("left" in keys))
  {
    var v1 := if "up" in keys then o.vertical + 1 else o.vertical;
    var v2 := if "down" in keys then v1 - 1 else v1;
    var h1 := if "left" in keys && !mirrorStimulus then o.horizontal - 1 else o.horizontal;
    var h2 := if "left" in keys && mirrorStimulus then h1 + 1 else h1;
    var h3 := if "right" in keys && !mirrorStimulus then h2 + 1 else h2;
    var h4 := if "right" in keys && mirrorStimulus then h3 - 1 else h3;
    Tenths(h4, v2)
  }

  /** All polls applied in order, with no stop. */
  function ApplyPolls(o: Tenths, polls: seq<seq<string>>, mirrorStimulus: bool): Tenths
    decreases |polls|
  {
    if polls == [] then o else ApplyPolls(ApplyKeys(o, polls[0], mirrorStimulus), polls[1..], mirrorStimulus)
  }

  /**
   * Reference definition of the adjustment loop: polls are applied until one
   * holds "space" (its arrows still count); `None` when no poll does.
   */
  function Adjust(o: Tenths, polls: seq<seq<string>>, mirrorStimulus: bool): (r: Option<Tenths>)
    ensures r.Some? <==> exists i :: 0 <= i < |polls| && "space" in polls[i]
    decreases |polls|
  {
    if polls == [] then None
    else
      var next := ApplyKeys(o, polls[0], mirrorStimulus);
      if "space" in polls[0] then Some(next) else Adjust(next, polls[1..], mirrorStimulus)
  }

  /** Number of polls in which `key` was pressed. */
  function PressCount(polls: seq<seq<string>>, key: string): nat
  {
    if polls == [] then 0 else Indicator(key in polls[0]) + PressCount(polls[1..], key)
  }

  /**
   * Net effect of a run of polls: the vertical offset moves by the number of
   * "up" polls minus "down" polls, the horizontal one by "right" minus "left",
   * with the sign reversed when mirrored.
   */
  lemma {:induction false} NetEffect(o: Tenths, polls: seq<seq<string>>, mirrorStimulus: bool)
    ensures var r := ApplyPolls(o, polls, mirrorStimulus);
            r.vertical == o.vertical + PressCount(polls, "up") - PressCount(polls, "down") &&
            r.horizontal == o.horizontal + Sign(mirrorStimulus) * (PressCount(polls, "right") - PressCount(polls, "left"))
    decreases |polls|
  {
    if polls != [] {
      NetEffect(ApplyKeys(o, polls[0], mirrorStimulus), polls[1..], mirrorStimulus);
      var s := Sign(mirrorStimulus);
      var dr, dl := Indicator("right" in polls[0]), Indicator("left" in polls[0]);
      var rr, rl := PressCount(polls[1..], "right"), PressCount(polls[1..], "left");
      assert s * (dr - dl) + s * (rr - rl) == s * ((dr + rr) - (dl + rl));
    }
  }

  /** Mirroring reflects the horizontal movement and leaves the vertical one alone. */
  lemma MirrorReflectsHorizontal(o: Tenths, polls: seq<seq<string>>)
    ensures ApplyPolls(o, polls, true).horizontal - o.horizontal == -(ApplyPolls(o, polls, false).horizontal - o.horizontal)
    ensures ApplyPolls(o, polls, true).vertical == ApplyPolls(o, polls, false).vertical
  {
    NetEffect(o, polls, true);
    NetEffect(o, polls, false);
  }

  /**
   * The loop ends at the first poll holding "space", with every poll up to and
   * including it applied; it has not ended while no poll holds "space".
   */
  lemma {:induction false} AdjustStopsAtFirstSpace(o: Tenths, polls: seq<seq<string>>, mirrorStimulus: bool, k: nat)
    requires k < |polls| && "space" in polls[k]
    requires forall j :: 0 <= j < k ==> "space" !in polls[j]
    ensures Adjust(o, polls, mirrorStimulus) == Some(ApplyPolls(o, polls[..k + 1], mirrorStimulus))
    decreases k
  {
    if k > 0 {
      var next := ApplyKeys(o, polls[0], mirrorStimulus);
      AdjustStopsAtFirstSpace(next, polls[1..], mirrorStimulus, k - 1);
      assert polls[..k + 1][1..] == polls[1..][..k];
    }
  }

  lemma {:induction false} AdjustWithoutSpace(o: Tenths, polls: seq<seq<string>>, mirrorStimulus: bool)
    requires forall j :: 0 <= j < |polls| ==> "space" !in polls[j]
    ensures Adjust(o, polls, mirrorStimulus) == None
    decreases |polls|
  {
    if polls != [] {
      AdjustWithoutSpace(ApplyKeys(o, polls[0], mirrorStimulus), polls[1..], mirrorStimulus);
    }
  }

  /** The confirmed offset in degrees and in pixels (`offset * ppd`, MR.py:497-498). */
  datatype Calibration = Calibration(horizontalDeg: real, verticalDeg: real, horizontalPx: real, verticalPx: real)

  function Confirmed(o: Tenths, ppd: real): Calibration
  {
    Calibration(Degrees(o.horizontal), Degrees(o.vertical), Degrees(o.horizontal) * ppd, Degrees(o.vertical) * ppd)
  }

  /**
   * The loop `while finishedOffset == False` of MR.py:441-499 over the polls
   * given; `None` when none of them holds "space".
   */
  method AdjustOffset(initial: Tenths, mirrorStimulus: bool, ppd: real, polls: seq<seq<string>>)
    returns (r: Option<Calibration>)
    ensures Adjust(initial, polls, mirrorStimulus).None? ==> r == None
    ensures Adjust(initial, polls, mirrorStimulus).Some? ==> r == Some(Confirmed(Adjust(initial, polls, mirrorStimulus).value, ppd))
  {
    var offsetHorizontal, offsetVertical := initial.horizontal, initial.vertical;
    var finishedOffset := false;
    var i := 0;
    r := None;
    while !finishedOffset && i < |polls|
      invariant 0 <= i <= |polls|
      invariant !finishedOffset ==>
                  r == None && Adjust(initial, polls, mirrorStimulus) == Adjust(Tenths(offsetHorizontal, offsetVertical), polls[i..], mirrorStimulus)
      invariant finishedOffset ==>
                  Adjust(initial, polls, mirrorStimulus) == Some(Tenths(offsetHorizontal, offsetVertical)) &&
                  r == Some(Confirmed(Tenths(offsetHorizontal, offsetVertical), ppd))
      decreases |polls| - i
    {
      var keys := polls[i];
      ghost var before := Tenths(offsetHorizontal, offsetVertical);
      if "up" in keys {
        offsetVertical := offsetVertical + 1;
      }
      if "down" in keys {
        offsetVertical := offsetVertical - 1;
      }
      if "left" in keys && !mirrorStimulus {
        offsetHorizontal := offsetHorizontal - 1;
      }
      if "left" in keys && mirrorStimulus {
        offsetHorizontal := offsetHorizontal + 1;
      }
      if "right" in keys && !mirrorStimulus {
        offsetHorizontal := offsetHorizontal + 1;
      }
      if "right" in keys && mirrorStimulus {
        offsetHorizontal := offsetHorizontal - 1;
      }
      assert Tenths(offsetHorizontal, offsetVertical) == ApplyKeys(before, keys, mirrorStimulus);
      assert polls[i..][1..] == polls[i + 1..];
      if "space" in keys {
        finishedOffset := true;
        r := Some(Confirmed(Tenths(offsetHorizontal, offsetVertical), ppd));
      }
      i := i + 1;
    }
  }

  /** A table record in pixels, with its degrees recovered as `px / ppd` (MR.py:424-425). */
  function FromPixels(o: Offset, ppd: real): (c: Calibration)
    requires ppd > 0.0
    ensures c.horizontalPx == o.horizontal && c.verticalPx == o.vertical
    ensures c.horizontalDeg * ppd == c.horizontalPx && c.verticalDeg * ppd == c.verticalPx
  {
    Calibration(o.horizontal / ppd, o.vertical / ppd, o.horizontal, o.vertical)
  }

  /** Where the session's offset comes from. */
  datatype Resolution =
    | FromTable(calibration: Calibration)
    | FromManual(calibration: Calibration)
    | StillAdjusting
    | TableError(column: string)

  /**
   * MR.py:419-499 applied to the table lookup of MR.py:415 (the latest-session
   * record in pixels): a record is converted to degrees by `ppd`; a NaN record
   * starts the manual procedure, seeded with each axis's own default; a missing
   * column is the KeyError the script does not catch.
   */
  function Resolve(lookup: Lookup, ppd: real, mirrorStimulus: bool,
                   jitterHorizontal: int, jitterVertical: int, polls: seq<seq<string>>): (r: Resolution)
    requires ppd > 0.0
    ensures r.FromTable? || r.FromManual? ==>
              r.calibration.horizontalDeg * ppd == r.calibration.horizontalPx &&
              r.calibration.verticalDeg * ppd == r.calibration.verticalPx
    ensures r.FromTable? <==> lookup.Found?
    ensures r.FromTable? ==>
              r.calibration.horizontalPx == lookup.offset.horizontal &&
              r.calibration.verticalPx == lookup.offset.vertical
    ensures r.FromManual? || r.StillAdjusting? <==> lookup.NoRecord?
    ensures r.TableError? <==> lookup.MissingColumn?
  {
    match lookup
    case MissingColumn(c) => TableError(c)
    case Found(o) => FromTable(FromPixels(o, ppd))
    case NoRecord =>
      var manual := Adjust(IntendedInitialOffsets(jitterHorizontal, jitterVertical), polls, mirrorStimulus);
      if manual.None? then StillAdjusting else FromManual(Confirmed(manual.value, ppd))
  }

  /**
   * The session's offset for a subject: from the table when the subject has a
   * row, otherwise from the participant's first confirmation.
   */
  lemma ResolveForSubject(t: Table, subject: string, ppd: real, mirrorStimulus: bool,
                          jitterHorizontal: int, jitterVertical: int, polls: seq<seq<string>>, k: nat)
    requires WellFormed(t) && ppd > 0.0
    requires ColumnName("pix", Horizontal) in t.columns && ColumnName("pix", Vertical) in t.columns
    requires forall i :: 0 <= i < |t.rows| ==> t.rows[i].subjectName != subject
    requires k < |polls| && "space" in polls[k] && forall j :: 0 <= j < k ==> "space" !in polls[j]
    ensures Resolve(LatestSessionOffset(t, subject, "pix"), ppd, mirrorStimulus, jitterHorizontal, jitterVertical, polls)
            == FromManual(Confirmed(ApplyPolls(IntendedInitialOffsets(jitterHorizontal, jitterVertical), polls[..k + 1], mirrorStimulus), ppd))
  {
    LatestSessionOffsetMeaning(t, subject, "pix");
    AdjustStopsAtFirstSpace(IntendedInitialOffsets(jitterHorizontal, jitterVertical), polls, mirrorStimulus, k);
  }
}
