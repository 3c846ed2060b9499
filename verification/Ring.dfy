/**
 * The DMA ring between the service loop and the audio hardware (kernel/src/hda.c:1007-1014,
 * 1072-1092). Periods are numbered from 0 in the order they are filled; the hardware plays
 * one after another at its own pace, also while a service is under way.
 */
module Rings {
  const PERIODS: nat := 32

  class Ring {
    /** Which fill each slot of the buffer holds. */
    const slots: array<nat>
    var nextFill: nat
    /** Fills made so far: the number the next one gets. */
    var fills: nat
    /** The period the hardware is playing, counted from the start. */
    var pos: nat
    /** The fills it has played, the current one last. */
    ghost var played: seq<nat>

    /** The number of the period `nextFill` stands for. */
    ghost function Base(): nat
      reads this
      requires fills >= PERIODS
    {
      fills - PERIODS
    }

    /**
     * The slots hold the 32 fills from `Base` on, and the hardware is playing one of them: it
     * has not come round to where the next fill goes.
     */
    ghost predicate Valid()
      reads this, slots
    {
      && slots.Length == PERIODS && fills >= PERIODS && nextFill == Base() % PERIODS
      && Base() <= pos < Base() + PERIODS
      && (forall j: nat :: Base() <= j < Base() + PERIODS ==> slots[j % PERIODS] == j)
      && |played| == pos + 1 && forall i :: 0 <= i < |played| ==> played[i] == i
    }

    /** hda_start's prefill: every period once, in order; then the hardware runs (hda.c:1007-1035). */
    constructor ()
      ensures Valid() && pos == 0 && fills == PERIODS && played == [0]
    {
      slots := new nat[PERIODS];
      nextFill, fills, pos, played := 0, 0, 0, [];
      new;
      var i := 0;
      while i < PERIODS
        invariant 0 <= i <= PERIODS && fills == i && slots.Length == PERIODS && forall j :: 0 <= j < i ==> slots[j] == j
        invariant nextFill == 0 && pos == 0 && played == []
      {
        slots[i] := fills;
        fills := fills + 1;
        i := i + 1;
      }
      played := [slots[0]];
    }

    /** The hardware plays on, no further than 31 periods past the next fill. */
    method Hardware()
      requires Valid()
      modifies this`pos, this`played
      ensures Valid() && pos >= old(pos) && old(played) <= played
    {
      var more: bool := *;
      while more && pos + 1 < fills
        invariant Valid() && pos >= old(pos) && old(played) <= played
        decreases fills - pos
      {
        pos := pos + 1;
        played := played + [slots[pos % PERIODS]];
        more := *;
      }
    }

    /**
     * hda_service (hda.c:1083-1092): refill up to the period the hardware was in when it was asked.
     * What was played is still 0, 1, 2, ..., and no fill goes where the hardware is.
     */
    method Service() returns (filled: nat)
      requires Valid()
      modifies this`nextFill, this`fills, this`pos, this`played, slots
      ensures Valid() && pos >= old(pos) && old(played) <= played
      ensures Base() == old(pos) && filled == old(pos) - old(Base()) && filled < PERIODS
    {
      ghost var at := pos;
      var hw := pos % PERIODS;
      filled := 0;
      while nextFill != hw && filled < PERIODS
        invariant Valid() && Base() <= at <= pos && old(played) <= played
        invariant filled == Base() - old(Base())
        decreases at - Base()
      {
        Hardware();
        FillOne(at);
        filled := filled + 1;
      }
      if Base() < at { Apart(Base(), at); }
    }

    /** One fill: never the period being played. */
    method FillOne(ghost at: nat)
      requires Valid() && Base() < at <= pos
      modifies this`nextFill, this`fills, slots
      ensures Valid() && fills == old(fills) + 1 && old(nextFill) != pos % PERIODS
    {
      Apart(Base(), pos);
      ghost var base := Base();
      slots[nextFill] := fills;
      assert fills % PERIODS == nextFill;
      forall j: nat | base < j < base + PERIODS ensures j % PERIODS != nextFill { Apart(base, j); }
      fills := fills + 1;
      nextFill := (nextFill + 1) % PERIODS;
    }

    static lemma Apart(a: nat, b: nat)
      requires a < b < a + PERIODS
      ensures a % PERIODS != b % PERIODS
    {
    }
  }
}
