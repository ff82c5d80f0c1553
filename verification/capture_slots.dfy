/** How the regex wrapper reads the capture groups of one match.

    The wrapper asks the C matcher for ten match slots. Slot 0 is the whole
    match; slot j (1 <= j <= 9) is the j-th capture group, and every slot
    after the last participating group is marked unused (a start offset of
    -1). The wrapper then reads slots 1, 2, ... until it meets an unused one.
    Only the start offsets matter for the control flow, so a slot is modelled
    by its start offset. */
module CaptureSlots {
  import opened Options

  /** The number of slots the wrapper allocates. */
  const SlotCount: nat := 10

  /** The offsets the matcher writes for a match in which `groups` capture groups
      participate: only the first `SlotCount - 1` groups fit, every later slot is
      unused. */
  function Slots(groups: nat): (s: seq<int>)
    ensures |s| == SlotCount
    ensures s[0] != -1
    ensures forall j | 1 <= j < SlotCount :: s[j] == -1 <==> groups < j
  {
    seq(SlotCount, j => if j <= groups then 0 else -1)
  }

  /** The slot loop as written: read slot `j`, stop at the first unused slot and
      report how many groups were read before it. Reading past the last slot is
      an out-of-range index, a trap, modelled as `None`. */
  function ReadGroups(slots: seq<int>, j: nat): (r: Option<nat>)
    requires 1 <= j <= |slots|
    ensures r.Some? <==> exists k | j <= k < |slots| :: slots[k] == -1
    ensures r.Some? ==> j <= r.value + 1 < |slots| && slots[r.value + 1] == -1
    ensures r.Some? ==> forall k | j <= k <= r.value :: slots[k] != -1
    decreases |slots| - j
  {
    if j == |slots| then None
    else if slots[j] == -1 then Some(j - 1)
    else ReadGroups(slots, j + 1)
  }

  /** The slot loop with the bound check it lacks: it also stops after the last
      slot, so it reads every slot in use and never indexes past the array. */
  function ReadGroupsBounded(slots: seq<int>, j: nat): (r: nat)
    requires 1 <= j <= |slots|
    ensures j - 1 <= r < |slots|
    ensures forall k | j <= k <= r :: slots[k] != -1
    ensures r + 1 < |slots| ==> slots[r + 1] == -1
    decreases |slots| - j
  {
    if j == |slots| || slots[j] == -1 then j - 1
    else ReadGroupsBounded(slots, j + 1)
  }

  /** As written, a match with at most eight groups is read in full, but a match
      in which nine or more groups participate fills every slot and makes the
      loop index the eleventh slot of a ten-slot array. */
  lemma ReadGroupsTrapsAtNine(groups: nat)
    ensures groups < SlotCount - 1 ==> ReadGroups(Slots(groups), 1) == Some(groups)
    ensures SlotCount - 1 <= groups ==> ReadGroups(Slots(groups), 1).None?
  {
    var s := Slots(groups);
    if groups < SlotCount - 1 {
      assert s[groups + 1] == -1;
      var r := ReadGroups(s, 1);
      assert r.Some?;
    } else {
      assert forall k | 1 <= k < |s| :: s[k] != -1;
    }
  }

  /** With the bound check, every participating group that fits in the slots is
      read: the nine groups of the largest pattern the routers accept included. */
  lemma ReadGroupsBoundedReadsAll(groups: nat)
    ensures ReadGroupsBounded(Slots(groups), 1) == if groups < SlotCount - 1 then groups else SlotCount - 1
  {
    var s := Slots(groups);
    var r := ReadGroupsBounded(s, 1);
    var expected := if groups < SlotCount - 1 then groups else SlotCount - 1;
    if groups < SlotCount - 1 {
      assert s[groups + 1] == -1;
    }
    if r + 1 < |s| {
      assert s[r + 1] == -1;
    }
  }
}
