/**
 * The rotating banner (src/components/Banner.tsx): a timer moves the active
 * slide one step forward, wrapping from the last image back to the first,
 * and the active slide is the only one drawn as such. Only the step taken
 * at each tick is modelled, not the timer.
 */
module Banner {
  import opened Catalog

  /** The number of slides. */
  function SlideCount(): (n: nat)
    ensures n == 3
  {
    |BannerImages|
  }

  /** The step taken at each tick: the last slide goes back to the first,
      any other moves to the next. Within range this is a rotation by one. */
  function NextSlide(current: int): (r: int)
    ensures 0 <= current < SlideCount() ==> 0 <= r < SlideCount() && r == (current + 1) % SlideCount()
  {
    if current == SlideCount() - 1 then 0 else current + 1
  }

  /** The active slide after `ticks` ticks. */
  function After(start: int, ticks: nat): int {
    if ticks == 0 then start else NextSlide(After(start, ticks - 1))
  }

  /** After any number of ticks the active slide is the start rotated by that
      many positions, so it never leaves the range of slides. */
  lemma {:induction false} AfterRotates(start: int, ticks: nat)
    requires 0 <= start < SlideCount()
    ensures After(start, ticks) == (start + ticks) % SlideCount()
    ensures 0 <= After(start, ticks) < SlideCount()
  {
    if ticks > 0 {
      AfterRotates(start, ticks - 1);
      RotateStep(start + ticks - 1);
    }
  }

  /** One step past a position taken modulo 3 is the next position modulo 3. */
  lemma RotateStep(x: nat)
    ensures (x % 3 + 1) % 3 == (x + 1) % 3
  {
  }

  /** As many ticks as there are slides bring the banner back to where it
      was. */
  lemma FullCycleReturns(start: int)
    requires 0 <= start < SlideCount()
    ensures After(start, SlideCount()) == start
  {
    AfterRotates(start, SlideCount());
  }

  /** The `active` class of each slide. */
  function ActiveMarks(active: int): (marks: seq<bool>)
    ensures |marks| == SlideCount()
    ensures forall i :: 0 <= i < SlideCount() ==> (marks[i] <==> i == active)
  {
    seq(SlideCount(), i requires 0 <= i < SlideCount() => i == active)
  }

  /** How many entries of `marks` are set. */
  function CountMarked(marks: seq<bool>): nat {
    if marks == [] then 0 else CountMarked(marks[..|marks| - 1]) + (if marks[|marks| - 1] then 1 else 0)
  }

  /** When exactly the entry `k` of a list is set, one entry is counted, and
      none when `k` lies beyond the list. */
  lemma {:induction false} CountSingleMark(marks: seq<bool>, k: int)
    requires forall i :: 0 <= i < |marks| ==> (marks[i] <==> i == k)
    ensures CountMarked(marks) == (if 0 <= k < |marks| then 1 else 0)
  {
    if marks != [] {
      CountSingleMark(marks[..|marks| - 1], k);
    }
  }

  /** Exactly one slide is drawn active whenever the active index is in
      range, which it always is. */
  lemma ExactlyOneActive(active: int)
    requires 0 <= active < SlideCount()
    ensures CountMarked(ActiveMarks(active)) == 1
  {
    CountSingleMark(ActiveMarks(active), active);
  }

  /** The banner starts on the first slide. */
  const InitialSlide := 0
}
