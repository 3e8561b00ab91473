# vocalize pipeline core, modelled in Dafny

vocalize captures a microphone signal and turns it into a live pitch trace.
This project models the bookkeeping at the core of `src/lib.rs`:

- the **capture buffer**. Each audio block is appended, then the oldest
  samples are popped until at most 200000 remain.
- the **pitch estimator** of one analysis tick. It snapshots the newest
  153600 samples (`rev().take().rev()`), or reports "no pitch" when fewer are
  buffered. It hands the snapshot to the Fourier transform and picks the peak
  of the lower half-spectrum with `max_by_key` on the `u32`-truncated
  magnitude. A pitch of `bin * 2.5` Hz is reported when the peak's magnitude
  exceeds 5.0.
- the **raw frequency history**. It starts with 500 absent entries. Each
  tick pushes one entry and pops from the front until 500 remain.
- the **postprocess smoother**. It rotates the postprocessed history left by
  one and writes the newest raw entry into the last slot. When more than 3
  of the newest 5 raw entries are present, it may replace that slot with
  "no pitch" on a one-sided z-score test.

Layout:

- `collections.dfy` (module `Collections`) holds the `Option` entry and the
  iterator adaptors the source chains. It also holds `Trim`, the
  front-eviction loop shared by every bounded container.
- `pitch.dfy` (module `Pitch`) holds the snapshot, the cast, `max_by_key`,
  the gate and one tick's detection.
- `smoother.dfy` (module `Smoother`) holds the smoothing decision and the
  rotate-and-write of `postprocess`.
- `vocalize.dfy` (module `Vocalize`) holds class `Vocalize`. Its three
  `seq` fields stand for the three `VecDeque`s, each behind its own mutex in
  the program. `WriteInputData` and `GetValues` are one locked section each.
  `PushFrequency` joins the push (src/lib.rs:178-187) and the separate trim
  lock (190-193), `Postprocess` holds both history locks, and `Tick` is a
  whole loop iteration. Joining them is safe: only the analysis thread writes
  the two histories, and the only other reader (`get_values`) sees the
  postprocessed history, which the push and the trim do not touch.

Samples, magnitudes and frequencies are `f32` in the program. Here they are
reals. The Fourier transform and the per-bin norm are one function-valued
parameter, `transform`. It maps the snapshot to one magnitude per bin and
keeps its length.

Where the code differs from what the pipeline is meant to do, the model
follows the code:

- `max_by_key` returns the LAST of equal maxima, so ties go to the highest
  bin, not to the lowest as a first-maximum search would. The key is the truncated magnitude, so bins whose
  magnitudes differ by less than 1 can tie.
- For a zero standard deviation the code divides by zero; it has no
  "not an outlier" convention for that case. The as-written test (`ZScoreAbove`) keeps the
  code's meaning in exact arithmetic: a value above the mean rejects (+inf)
  and a value at the mean does not (NaN).
- The smoother is meant to drop a spike such as 250 Hz after 100, 102, 98
  and 101 Hz while keeping 103 Hz after the same values. As written, nothing
  is ever rejected (see Findings). The class follows the code: `Postprocess`
  and `Tick` use the as-written test, and the invariant `Valid()` records the
  consequence that the postprocessed history always equals the raw one. The
  intended test is `Smoother.NewestSlot`, and `Smoother.PostprocessedCorrected`
  is the smoothing step built on it.

## Model

| member | source | states |
|---|---|---|
| `Collections.RevTakeRevIsTail` | src/lib.rs:144-154 | with at least `n` samples buffered, `rev().take(n).rev()` is exactly the last `n` samples in arrival order |
| `Collections.RevTakeRev` | src/lib.rs:145-149 | the snapshot holds `min(n, len)` samples; `RevTakeRevIsTail` gives which ones |
| `Collections.Reverse` | src/lib.rs:146-147 | `rev()` keeps the number of elements |
| `Collections.Take` | src/lib.rs:148 | `take(n)` keeps the first `min(n, len)` elements, unchanged and in order |
| `Collections.ReverseAt` | src/lib.rs:145-149 | `rev()` puts the element `i` places from the back at position `i` |
| `Collections.Trim` | src/lib.rs:206-208 | the pop-front loop leaves the newest `min(cap, len)` elements, in order: the oldest are evicted first |
| `Collections.TrimAfterPush` | src/lib.rs:178-193 | a push onto a full container followed by the trim loop evicts exactly the oldest element and keeps the new one last |
| `Collections.Present` | src/lib.rs:61-66 | `filter(is_some).map(unwrap)` yields only values present in the window, at most one per entry, as many as entries when every entry is present and none when every entry is absent |
| `Collections.PresentAllSome` | src/lib.rs:61-66 | when every entry is present, the values come out all of them and in window order |
| `Collections.PresentConcat` | src/lib.rs:50-55 | the present values of `a ++ b` are those of `a` followed by those of `b`, which fixes their order and makes their number the count of present entries (`count`) |
| `Pitch.AsU32` | src/lib.rs:167 | `norm as u32` truncates toward zero and saturates at `u32::MAX` |
| `Pitch.MaxByKey` | src/lib.rs:167 | the chosen index has a largest key, and every later index has a strictly smaller key (the last of equal maxima wins) |
| `Pitch.Keys` | src/lib.rs:167 | the key of every bin is its magnitude cast with `as u32` |
| `Pitch.HalfSpectrum` | src/lib.rs:160-162 | `take(len / 2)` scans the first `len / 2` bins, unchanged |
| `Pitch.PeakBin` | src/lib.rs:160-167 | the chosen bin lies in the lower half, no bin of the lower half has a larger key, and every later bin of it has a strictly smaller key |
| `Pitch.Decide` | src/lib.rs:167-183 | a pitch is reported exactly when the chosen bin's untruncated magnitude exceeds 5.0; it is that bin's index times 2.5 Hz and lies in `[0, len / 2 * 2.5)` |
| `Pitch.Detect` | src/lib.rs:144-188 | with fewer than 153600 samples buffered the entry is "no pitch"; a reported pitch lies in [0, 192000) Hz |
| `Pitch.DecideGate` | src/lib.rs:160-183 | for the bin whose key no bin of the lower half beats and after which every key is smaller, the result is that bin's frequency `i * 2.5` exactly when its untruncated magnitude exceeds 5.0, and "no pitch" otherwise |
| `Pitch.PeakBinIsUnique` | src/lib.rs:167 | a bin whose key no bin of the lower half beats and after which every key is smaller is the bin `max_by_key` picks |
| `Pitch.DetectGate` | src/lib.rs:144-188 | on a full window, the tick reports the peak bin's frequency exactly when that bin of the transformed newest window has magnitude above 5.0, and "no pitch" otherwise |
| `Pitch.DecideBelowNyquist` | src/lib.rs:136-169 | on a full window the reported bin frequency `index * 2.5` is below the Nyquist frequency 192000 Hz |
| `Pitch.DetectReadsNewestWindow` | src/lib.rs:144-159 | the transform is fed exactly the newest 153600 samples, oldest first |
| `Pitch.ShortBufferIgnoresTransform` | src/lib.rs:184-188 | without a full window no transform is attempted: the result is "no pitch" whatever the transform |
| `Pitch.DecideReportsPeak` | src/lib.rs:160-183 | a reported pitch is `i * 2.5` for a bin `i` of the lower half whose magnitude exceeds 5.0, whose key no bin of that half beats, and after which every bin has a smaller key |
| `Pitch.LoudBinIsDetected` | src/lib.rs:167-170 | if some bin of the lower half has magnitude at least 6, a pitch is reported |
| `Pitch.TruncatedTieCanHideTone` | src/lib.rs:167-170 | the gate tests the bin `max_by_key` picks: with magnitudes 5.5 and 5.0 (both key 5) the later bin wins and no pitch is reported, although 5.5 exceeds the threshold |
| `Smoother.Window` | src/lib.rs:50-55 | the window holds the newest `min(5, len)` raw entries, the newest first: position `k` is the entry `k` places from the back |
| `Smoother.SumAtMost` | src/lib.rs:61-67 | the `sum()` of values that all lie at or below a bound `b` is at most their number times `b` |
| `Smoother.SumAtLeast` | src/lib.rs:61-67 | the `sum()` of values that all lie at or above a bound `b` is at least their number times `b` |
| `Smoother.MeanBetween` | src/lib.rs:68 | `sum / count` lies between any common lower bound and any common upper bound of the values |
| `Smoother.SumSqDev` | src/lib.rs:69-78 | the sum of squared deviations from the mean is never negative |
| `Smoother.Variance` | src/lib.rs:69-80 | the Bessel-corrected variance (divisor `count - 1`) is never negative |
| `Smoother.ZScoreAbove` | src/lib.rs:83-85 | `(x - mean) / std > 2.0`, stated as `x - mean > 0` and `(x - mean)^2 > 4 * variance`: a value it flags lies above the mean |
| `Smoother.RejectsAsWritten` | src/lib.rs:50-87 | as written, a rejection needs more than 3 present window entries and a present newest value above the mean of ALL present window values, itself included |
| `Smoother.Rejects` | src/lib.rs:50-87 | the corrected test rejects only a present newest value above the mean of the other present window values, when more than 3 entries are present and those others have a non-zero deviation |
| `Smoother.NewestSlotAsWritten` | src/lib.rs:57-87 | as written, the newest slot is the newest raw entry or "no pitch"; an absent raw entry stays absent, and with at most 3 present entries the raw entry is carried unchanged |
| `Smoother.NewestSlot` | src/lib.rs:50-87 | the smoothed newest entry is the newest raw entry or "no pitch", never a new value; an absent raw entry stays absent; with at most 3 present entries in the window the raw entry is carried unchanged; a present newest entry is dropped if and only if more than 3 window entries are present, the other present values have a non-zero deviation, and its z-score against them exceeds 2 |
| `Smoother.AsWrittenNeverRejects` | src/lib.rs:60-87 | as written, the z-score test never fires, so the newest raw entry is always carried unchanged |
| `Smoother.FirstNeverAboveLimit` | src/lib.rs:61-85 | among four or five values, the first is never more than two Bessel-corrected deviations above their mean |
| `Smoother.AsWrittenKeepsSpike` | src/lib.rs:82-87 | as written, 250 Hz after 100, 102, 98 and 101 Hz is kept |
| `Smoother.AsWrittenMirrorsRaw` | src/lib.rs:57-59 | as written, one smoothing step after a push reproduces the raw history, so the postprocessed history is a copy of the raw one |
| `Smoother.CorrectedRejectsSpike` | src/lib.rs:82-87 | the corrected test rejects 250 Hz after 100, 102, 98 and 101 Hz |
| `Smoother.CorrectedKeepsSteady` | src/lib.rs:82-87 | the corrected test keeps 103 Hz after the same four values |
| `Smoother.CorrectedKeepsLowValues` | src/lib.rs:85-87 | the test is one-sided: a value at or below the mean of the others is never rejected |
| `Smoother.Postprocessed` | src/lib.rs:46-87 | `postprocess` as written: the length is kept and the slot at the raw history's last index holds the newest raw entry; with equal lengths the result is `after[1..]` followed by the newest raw entry; with a shorter raw history the old front entry wraps to the back |
| `Smoother.RotateAndWrite` | src/lib.rs:57-59 | `rotate_left(1)` then one write: the written slot holds the new entry, every other entry comes from the next position, and the front entry wraps to the back unless the back is the written slot |
| `Smoother.PostprocessedCorrected` | src/lib.rs:57-87 | the smoothing step with the corrected test: with equal lengths the result is `after[1..]` followed by the corrected `NewestSlot` |
| `Vocalize.Blank` | src/lib.rs:36-38 | `vec![None; MAX_FREQUENCIES]` has 500 entries, all absent |
| `Vocalize.Vocalize.constructor` | src/lib.rs:33-44 | `new` leaves the capture buffer empty and both histories at 500 absent entries |
| `Vocalize.Vocalize.GetValues` | src/lib.rs:28-31 | returns the postprocessed history (500 entries) and changes nothing; between ticks it equals the raw history |
| `Vocalize.SnapshotTwice` | src/lib.rs:28-31 | two snapshots with no tick in between are identical |
| `Vocalize.Vocalize.WriteInputData` | src/lib.rs:202-209 | the buffer becomes the newest `min(200000, old.len() + input.len())` samples of `old ++ input`, so at most 200000 are buffered; the invariant `Valid()` is kept |
| `Vocalize.Vocalize.PushFrequency` | src/lib.rs:178-193 | push then trim leaves the newest 500 entries of `old ++ [entry]`: the front is evicted, the new entry is last and the length stays 500 |
| `Vocalize.Vocalize.Postprocess` | src/lib.rs:46-90 | the rotate, the write of the newest raw entry and the as-written rejection leave the postprocessed history as `Smoother.Postprocessed` of the raw history and its old value: its front is dropped and the newest raw entry is appended |
| `Vocalize.Vocalize.Tick` | src/lib.rs:141-196 | one loop iteration: both histories drop their front and gain the detected entry, both stay at 500, and the postprocessed history stays equal to the raw one |

## Left out

- Audio device selection, stream configuration and the input callback registration (src/lib.rs:93-135) are foreign audio I/O. `WriteInputData` takes the delivered block as a parameter.
- The spawned thread, the endless loop and its 1000/140 ms sleep, and the mutexes with their `unwrap` on poisoning are concurrency and timing. One loop iteration is `Tick`, and each locked section is one atomic method.
- The rustfft planning and transform and the per-bin norm are a foreign library. They are the length-preserving parameter `transform`.
- `f32` arithmetic (rounding, NaN, infinities) is not modelled; values are reals. The square root of the variance is avoided: `d / sqrt(v) > 2` is stated as `d > 0 && d*d > 4*v`.
- Logging (`println!`, `eprintln!`) has no effect on the state and is left out.
- src/main.rs, the desktop UI, is not part of this model. That includes its 60 Hz polling and the splitting of the snapshot into line segments.

## Findings

| source | as written | input that shows it | evidently intended | confidence | as-written member | corrected member |
|---|---|---|---|---|---|---|
| src/lib.rs:60-87 | The mean and the Bessel-corrected deviation include the newest value itself. With at most 5 values, `(x-mean)^2 <= sum of squared deviations <= 4 * variance`, so the z-score is at most `(n-1)/sqrt(n)` (about 1.79) and never exceeds 2.0. The filter never rejects anything. | raw entries 100, 102, 98, 101, 250 Hz: the z-score of 250 is about 1.79, so 250 is kept | judge the newest value against the mean and deviation of the other present entries in the window, and never reject when their deviation is zero; 250 is then rejected (z about 87.7) and 103 is kept | high; proved in exact arithmetic, not executed | `Smoother.AsWrittenNeverRejects` | `Smoother.NewestSlot` |

The as-written test is `Smoother.RejectsAsWritten`, and
`Smoother.NewestSlotAsWritten` is the slot it produces; `Vocalize.Postprocess`
and `Vocalize.Tick` use it, as the program does. The corrected test is
`Smoother.Rejects`, and `Smoother.PostprocessedCorrected` is the smoothing step
built on the corrected slot `Smoother.NewestSlot`.
