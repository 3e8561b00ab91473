/** The shared state of the pipeline: the raw capture buffer, the raw
    frequency history and the postprocessed history. In the program each is a
    `VecDeque` behind its own mutex. `WriteInputData` and `GetValues` are one
    locked section each. `PushFrequency` joins the push and the separate trim
    lock, `Postprocess` holds both history locks, and `Tick` is a whole loop
    iteration: only the analysis thread writes the two histories, and the only
    other reader sees the postprocessed history, which neither the push nor
    the trim touches, so no other thread can observe the steps in between. */
module Vocalize {
  import opened Collections
  import Pitch
  import Smoother

  /** Capacity of both frequency histories (`MAX_FREQUENCIES`). */
  const MaxFrequencies: nat := 500
  /** Capacity of the capture buffer, in samples. */
  const MaxRaw: nat := 200000

  /** A history of `n` entries, all "no pitch". */
  function Blank(n: nat): (h: seq<Option<real>>)
    ensures |h| == n
    ensures forall i :: 0 <= i < n ==> h[i] == None
  {
    seq(n, _ => None)
  }

  class Vocalize {
    var raw: seq<real>
    var frequencies: seq<Option<real>>
    var postprocessed: seq<Option<real>>

    /** The capacity invariant: the capture buffer never exceeds its cap and
        both histories hold exactly `MaxFrequencies` entries. It holds at
        every step, also between the push and the smoothing of a tick. */
    ghost predicate Sized()
      reads this
    {
      |raw| <= MaxRaw && |frequencies| == MaxFrequencies && |postprocessed| == MaxFrequencies
    }

    /** The invariant between ticks. Besides the capacities, the
        postprocessed history equals the raw one: both start blank, and the
        as-written smoother never rejects, so every tick appends the same
        entry to both. */
    ghost predicate Valid()
      reads this
    {
      Sized() && postprocessed == frequencies
    }

    /** `Vocalize::new`: an empty capture buffer and two histories of 500
        absent entries. */
    constructor ()
      ensures Valid()
      ensures raw == []
      ensures frequencies == Blank(MaxFrequencies) && postprocessed == Blank(MaxFrequencies)
    {
      raw := [];
      frequencies := Blank(MaxFrequencies);
      postprocessed := Blank(MaxFrequencies);
    }

    /** `get_values`: a copy of the postprocessed history; nothing changes.
        Between ticks it is also the raw history. */
    method GetValues() returns (values: seq<Option<real>>)
      requires Valid()
      ensures values == postprocessed
      ensures values == frequencies
      ensures |values| == MaxFrequencies
    {
      values := postprocessed;
    }

    /** `write_input_data`: append the delivered block, then pop from the
        front while more than `MaxRaw` samples are buffered. */
    method WriteInputData(input: seq<real>)
      requires Valid()
      modifies this`raw
      ensures Valid()
      ensures raw == Trim(old(raw) + input, MaxRaw)
      ensures |raw| <= MaxRaw
    {
      raw := raw + input;
      ghost var appended := raw;
      while |raw| > MaxRaw
        invariant Trim(raw, MaxRaw) == Trim(appended, MaxRaw)
        decreases |raw|
      {
        raw := raw[1..];
      }
    }

    /** `push_back` of one raw entry followed by the trim loop
        `while len > MAX_FREQUENCIES { pop_front() }`. */
    method PushFrequency(entry: Option<real>)
      requires Sized()
      modifies this`frequencies
      ensures Sized()
      ensures frequencies == Trim(old(frequencies) + [entry], MaxFrequencies)
      ensures frequencies == old(frequencies)[1..] + [entry]
    {
      frequencies := frequencies + [entry];
      ghost var pushed := frequencies;
      while |frequencies| > MaxFrequencies
        invariant Trim(frequencies, MaxFrequencies) == Trim(pushed, MaxFrequencies)
        decreases |frequencies|
      {
        frequencies := frequencies[1..];
      }
      TrimAfterPush(old(frequencies), entry, MaxFrequencies);
    }

    /** `postprocess(frequencies, frequencies_postprocessed)`: rotate the
        postprocessed history, write the newest raw entry into the last slot,
        and overwrite it with "no pitch" when the as-written test fires. */
    method Postprocess()
      requires Sized()
      modifies this`postprocessed
      ensures Sized()
      ensures postprocessed == Smoother.Postprocessed(frequencies, old(postprocessed))
      ensures postprocessed == old(postprocessed)[1..] + [frequencies[|frequencies| - 1]]
    {
      var rotated := postprocessed[1..] + [postprocessed[0]];
      rotated := rotated[|frequencies| - 1 := frequencies[|frequencies| - 1]];
      if Smoother.RejectsAsWritten(Smoother.Window(frequencies)) {
        rotated := rotated[|frequencies| - 1 := None];
      }
      postprocessed := rotated;
    }

    /** One iteration of the analysis loop: detect a pitch in the capture
        buffer, push it onto the raw history, trim, then smooth. The
        postprocessed history keeps mirroring the raw one. */
    method Tick(transform: seq<real> -> seq<real>)
      requires Valid()
      requires forall w :: |transform(w)| == |w|
      modifies this`frequencies, this`postprocessed
      ensures Valid()
      ensures frequencies == old(frequencies)[1..] + [Pitch.Detect(raw, transform)]
      ensures postprocessed == old(postprocessed)[1..] + [Pitch.Detect(raw, transform)]
    {
      var entry := Pitch.Detect(raw, transform);
      PushFrequency(entry);
      Postprocess();
    }
  }

  /** Two snapshots taken with no tick in between are identical, and each
      holds a full history. */
  method SnapshotTwice(v: Vocalize) returns (first: seq<Option<real>>, second: seq<Option<real>>)
    requires v.Valid()
    ensures first == second
    ensures |first| == MaxFrequencies
  {
    first := v.GetValues();
    second := v.GetValues();
  }
}
