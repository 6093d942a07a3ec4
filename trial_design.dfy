/**
 * The per-trial design table of the practice session (MR.py:682-715):
 * two independent binary draws decide which slot holds the target-class item
 * (real word or flower) and which class pops out, and together they decide
 * which slot receives the horizontal micro-offset.
 */
module TrialDesign {

  /** The draw `choice(["A", "B"])`: under A slot 1 holds the real word / flower. */
  datatype SlotChoice = A | B

  /** The draw `choice(['real or flower', 'nonesense or bird'])`: the class that is nearer. */
  datatype PopOut = RealOrFlower | NonsenseOrBird

  /** The two stimulus positions: slot 1 is drawn at +stimSpacing/2, slot 2 at -stimSpacing/2. */
  datatype Slot = Slot1 | Slot2

  /** The horizontal micro-offsets `hpos1` and `hpos2`, in degrees. */
  datatype Offsets = Offsets(hpos1: real, hpos2: real)

  /** The offset given to the popped-out item: `(hDisparityMagnitude/2)/60` (arcmin to degrees). */
  function ShiftMagnitude(hDisparityMagnitude: int): (s: real)
    ensures s * 120.0 == hDisparityMagnitude as real
  {
    (hDisparityMagnitude as real / 2.0) / 60.0
  }

  /** The class whose item is placed in `slot` under `choice` (MR.py:684-697). */
  function ClassIn(choice: SlotChoice, slot: Slot): PopOut
  {
    if (choice == A) == (slot == Slot1) then RealOrFlower else NonsenseOrBird
  }

  /** The slot that holds the popped-out class. */
  function PoppedSlot(choice: SlotChoice, popOut: PopOut): (slot: Slot)
    ensures ClassIn(choice, slot) == popOut
    ensures ClassIn(choice, if slot == Slot1 then Slot2 else Slot1) != popOut
  {
    match (choice, popOut)
    case (A, RealOrFlower) => Slot1
    case (A, NonsenseOrBird) => Slot2
    case (B, RealOrFlower) => Slot2
    case (B, NonsenseOrBird) => Slot1
  }

  /** Offsets in which only `slot` is moved, by `s`. */
  function ShiftOnly(slot: Slot, s: real): Offsets
  {
    if slot == Slot1 then Offsets(s, 0.0) else Offsets(0.0, s)
  }

  /** The four-case table of MR.py:701-715, branch for branch. */
  function HorizontalOffsets(choice: SlotChoice, popOut: PopOut, hDisparityMagnitude: int): (r: Offsets)
    ensures r == ShiftOnly(PoppedSlot(choice, popOut), ShiftMagnitude(hDisparityMagnitude))
    ensures r.hpos1 == 0.0 || r.hpos2 == 0.0
    ensures r.hpos1 + r.hpos2 == ShiftMagnitude(hDisparityMagnitude)
  {
    var shift := ShiftMagnitude(hDisparityMagnitude);
    if popOut == RealOrFlower then
      if choice == A then Offsets(shift, 0.0) else Offsets(0.0, shift)
    else
      if choice == A then Offsets(0.0, shift) else Offsets(shift, 0.0)
  }

  /** Slot 1 is the shifted one exactly when (Choice == "A") == (popOutChoice == "real or flower"). */
  lemma ShiftedSlotIff(choice: SlotChoice, popOut: PopOut, hDisparityMagnitude: int)
    requires hDisparityMagnitude != 0
    ensures var r := HorizontalOffsets(choice, popOut, hDisparityMagnitude);
            (r.hpos1 != 0.0 && r.hpos2 == 0.0) <==> ((choice == A) == (popOut == RealOrFlower))
    ensures var r := HorizontalOffsets(choice, popOut, hDisparityMagnitude);
            (r.hpos2 != 0.0 && r.hpos1 == 0.0) <==> ((choice == A) != (popOut == RealOrFlower))
  {
    var s := ShiftMagnitude(hDisparityMagnitude);
    assert s != 0.0;
  }

  /**
   * The two draws are orthogonal: for either popped-out class, each slot is
   * the shifted one under exactly one value of `choice`.
   */
  lemma EachSlotShiftedUnderOneChoice(popOut: PopOut, slot: Slot)
    ensures PoppedSlot(A, popOut) != PoppedSlot(B, popOut)
    ensures PoppedSlot(A, popOut) == slot || PoppedSlot(B, popOut) == slot
  {
  }

  /** A directory of stimulus files; an item is `dir + files[i]`. */
  datatype Pool = Pool(dir: string, files: seq<string>)

  /** The items placed in slot 1 and slot 2 (`word1`/`word2` or `image1`/`image2`). */
  datatype ItemPair = ItemPair(item1: string, item2: string)

  /** The file drawn from `pool` by the draw `randrange(0, len(files))`, given as `i`. */
  function Draw(pool: Pool, i: nat): string
    requires i < |pool.files|
  {
    pool.dir + pool.files[i]
  }

  /**
   * Item selection of MR.py:683-697: `targetPool` is the real-word (flower)
   * directory and `foilPool` the nonsense-word (bird) directory; the two index
   * draws are parameters.
   */
  function PickItems(choice: SlotChoice, targetPool: Pool, foilPool: Pool, targetIndex: nat, foilIndex: nat): (r: ItemPair)
    requires targetIndex < |targetPool.files| && foilIndex < |foilPool.files|
    ensures ClassIn(choice, Slot1) == RealOrFlower ==>
              r.item1 == Draw(targetPool, targetIndex) && r.item2 == Draw(foilPool, foilIndex)
    ensures ClassIn(choice, Slot1) == NonsenseOrBird ==>
              r.item1 == Draw(foilPool, foilIndex) && r.item2 == Draw(targetPool, targetIndex)
  {
    if choice == A then
      ItemPair(targetPool.dir + targetPool.files[targetIndex], foilPool.dir + foilPool.files[foilIndex])
    else
      ItemPair(foilPool.dir + foilPool.files[foilIndex], targetPool.dir + targetPool.files[targetIndex])
  }
}
