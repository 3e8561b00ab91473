/** The pitch estimator of one analysis tick: snapshot the newest samples,
    hand them to the (foreign) Fourier transform, pick the loudest bin of the
    lower half-spectrum and gate it on a magnitude threshold. Samples and
    magnitudes are `f32` in the program; here they are reals. */
module Pitch {
  import opened Collections

  /** Capture rate requested from the audio device, in Hz. */
  const SampleRate: nat := 384000
  /** `(384000.0 / 50.0) as usize * 20`: twenty windows of 1/50 s each. */
  const SampleSize: nat := (384000 / 50) * 20
  /** Width of one spectral bin, `sample_rate / sample_size` (2.5 Hz). */
  const FreqStep: real := SampleRate as real / SampleSize as real
  /** A peak must exceed this magnitude to count as a tone. */
  const Threshold: real := 5.0
  /** Largest value of a Rust `u32`. */
  const U32Max: nat := 0xFFFF_FFFF

  /** `norm as u32`: Rust's float-to-integer cast truncates toward zero and
      saturates at both ends of the `u32` range. */
  function AsU32(m: real): (k: nat)
    ensures k <= U32Max
    ensures 0.0 <= m < (U32Max + 1) as real ==> k as real <= m < k as real + 1.0
    ensures m >= (U32Max + 1) as real ==> k == U32Max
  {
    if m <= 0.0 then 0
    else if m >= (U32Max + 1) as real then U32Max
    else m.Floor
  }

  /** The cast never reverses the order of two magnitudes. */
  lemma AsU32Monotone(a: real, b: real)
    requires a <= b
    ensures AsU32(a) <= AsU32(b)
  {
  }

  /** The sort key of every bin. */
  function Keys(norms: seq<real>): (ks: seq<nat>)
    ensures |ks| == |norms|
    ensures forall j :: 0 <= j < |norms| ==> ks[j] == AsU32(norms[j])
  {
    seq(|norms|, j requires 0 <= j < |norms| => AsU32(norms[j]))
  }

  /** `max_by_key`: the index of a largest key; when several keys are equal
      and largest, the last of them wins. */
  function MaxByKey(keys: seq<nat>): (i: nat)
    requires |keys| > 0
    ensures i < |keys|
    ensures forall j :: 0 <= j < |keys| ==> keys[j] <= keys[i]
    ensures forall j :: i < j < |keys| ==> keys[j] < keys[i]
  {
    if |keys| == 1 then 0
    else
      var p := MaxByKey(keys[..|keys| - 1]);
      if keys[|keys| - 1] >= keys[p] then |keys| - 1 else p
  }

  /** The half-spectrum that is scanned: `take(buffer.len() / 2)`. */
  function HalfSpectrum(norms: seq<real>): (h: seq<real>)
    ensures |h| == |norms| / 2
    ensures forall j :: 0 <= j < |h| ==> h[j] == norms[j]
  {
    norms[..|norms| / 2]
  }

  /** The bin chosen as the peak of the half-spectrum. */
  function PeakBin(norms: seq<real>): (i: nat)
    requires |norms| >= 2
    ensures i < |norms| / 2
    ensures forall j :: 0 <= j < |norms| / 2 ==> AsU32(norms[j]) <= AsU32(norms[i])
    ensures forall j :: i < j < |norms| / 2 ==> AsU32(norms[j]) < AsU32(norms[i])
  {
    var ks := Keys(HalfSpectrum(norms));
    assert forall j :: 0 <= j < |norms| / 2 ==> ks[j] == AsU32(norms[j]);
    MaxByKey(ks)
  }

  /** The decision on the magnitudes of one transform: the peak's frequency
      when its untruncated magnitude exceeds the threshold, no pitch otherwise. */
  function Decide(norms: seq<real>): (r: Option<real>)
    requires |norms| >= 2
    ensures r.Some? <==> norms[PeakBin(norms)] > Threshold
    ensures r.Some? ==> r.value == PeakBin(norms) as real * FreqStep
    ensures r.Some? ==> 0.0 <= r.value < (|norms| / 2) as real * FreqStep
  {
    var i := PeakBin(norms);
    if norms[i] > Threshold then Some(i as real * FreqStep) else None
  }

  /** One analysis tick. `transform` stands for the foreign Fourier transform
      followed by the per-bin norm: it maps the snapshot (the real parts of the
      complex buffer) to one magnitude per bin and keeps the length, as an
      in-place transform must. With fewer than `SampleSize` samples buffered,
      no transform is attempted and no pitch is reported. */
  function Detect(raw: seq<real>, transform: seq<real> -> seq<real>): (r: Option<real>)
    requires forall w :: |transform(w)| == |w|
    ensures |raw| < SampleSize ==> r == None
    ensures r.Some? ==> 0.0 <= r.value < (SampleRate / 2) as real
  {
    if |raw| >= SampleSize then
      var norms := transform(RevTakeRev(raw, SampleSize));
      DecideBelowNyquist(norms);
      Decide(norms)
    else None
  }

  /** Every bin of the half-spectrum of a full window lies below the Nyquist
      frequency. */
  lemma DecideBelowNyquist(norms: seq<real>)
    requires |norms| == SampleSize
    ensures Decide(norms).Some? ==> 0.0 <= Decide(norms).value < (SampleRate / 2) as real
  {
    var i := PeakBin(norms);
    assert i < 76800;
    assert FreqStep == 2.5;
    assert i as real * 2.5 < 192000.0;
  }

  /** The transform is fed exactly the newest `SampleSize` samples, oldest first. */
  lemma DetectReadsNewestWindow(raw: seq<real>, transform: seq<real> -> seq<real>)
    requires forall w :: |transform(w)| == |w|
    requires |raw| >= SampleSize
    ensures Detect(raw, transform) == Decide(transform(raw[|raw| - SampleSize..]))
  {
    RevTakeRevIsTail(raw, SampleSize);
  }

  /** Without a full window, the result does not depend on the transform at all. */
  lemma ShortBufferIgnoresTransform(raw: seq<real>, t1: seq<real> -> seq<real>, t2: seq<real> -> seq<real>)
    requires forall w :: |t1(w)| == |w|
    requires forall w :: |t2(w)| == |w|
    requires |raw| < SampleSize
    ensures Detect(raw, t1) == Detect(raw, t2) == None
  {
  }

  /** A reported pitch is the frequency of a bin of the lower half-spectrum
      whose magnitude exceeds the threshold and whose key no other bin of that
      half beats; every later bin has a strictly smaller key. */
  lemma DecideReportsPeak(norms: seq<real>)
    requires |norms| >= 2
    requires Decide(norms).Some?
    ensures exists i :: (0 <= i < |norms| / 2 && norms[i] > Threshold
      && Decide(norms).value == i as real * FreqStep
      && (forall j :: 0 <= j < |norms| / 2 ==> AsU32(norms[j]) <= AsU32(norms[i]))
      && (forall j :: i < j < |norms| / 2 ==> AsU32(norms[j]) < AsU32(norms[i])))
  {
    var i := PeakBin(norms);
    var ks := Keys(HalfSpectrum(norms));
    assert forall j :: 0 <= j < |norms| / 2 ==> ks[j] == AsU32(norms[j]);
  }

  /** A bin of the half-spectrum whose magnitude is at least 6 forces a pitch:
      the chosen peak then has a key of at least 6, so its own magnitude is
      above the threshold. */
  lemma {:induction false} LoudBinIsDetected(norms: seq<real>, j: nat)
    requires |norms| >= 2
    requires j < |norms| / 2
    requires norms[j] >= 6.0
    ensures Decide(norms).Some?
  {
    var i := PeakBin(norms);
    var ks := Keys(HalfSpectrum(norms));
    AsU32Monotone(6.0, norms[j]);
    assert AsU32(6.0) == 6;
    assert ks[j] <= ks[i];
    assert AsU32(norms[i]) >= 6;
  }

  /** The threshold is tested on the bin `max_by_key` picks, not on the
      loudest one: two bins that truncate to the same key tie, the later one
      wins, and a louder earlier bin above the threshold can be passed over. */
  lemma TruncatedTieCanHideTone()
    ensures var norms := [5.5, 5.0, 0.0, 0.0];
      norms[0] > Threshold && Decide(norms) == None
  {
    var norms := [5.5, 5.0, 0.0, 0.0];
    var ks := Keys(HalfSpectrum(norms));
    assert AsU32(5.5) == 5 && AsU32(5.0) == 5;
    assert ks == [5, 5];
    assert MaxByKey(ks) == 1;
  }

  /** The bin `max_by_key` picks is the only one whose key no bin of the lower
      half beats and after which every key is strictly smaller; for that bin
      the gate reports its frequency exactly when its untruncated magnitude
      exceeds the threshold. */
  lemma DecideGate(norms: seq<real>, i: nat)
    requires |norms| >= 2
    requires i < |norms| / 2
    requires forall j :: 0 <= j < |norms| / 2 ==> AsU32(norms[j]) <= AsU32(norms[i])
    requires forall j :: i < j < |norms| / 2 ==> AsU32(norms[j]) < AsU32(norms[i])
    ensures Decide(norms) == if norms[i] > Threshold then Some(i as real * FreqStep) else None
  {
    PeakBinIsUnique(norms, i);
    DecideAtPeakBin(norms, i);
  }

  /** `max_by_key`'s two guarantees single out one bin. */
  lemma PeakBinIsUnique(norms: seq<real>, i: nat)
    requires |norms| >= 2
    requires i < |norms| / 2
    requires forall j :: 0 <= j < |norms| / 2 ==> AsU32(norms[j]) <= AsU32(norms[i])
    requires forall j :: i < j < |norms| / 2 ==> AsU32(norms[j]) < AsU32(norms[i])
    ensures PeakBin(norms) == i
  {
    var p := PeakBin(norms);
    var ks := Keys(HalfSpectrum(norms));
    assert ks[i] == AsU32(norms[i]) && ks[p] == AsU32(norms[p]);
    assert ks[p] >= ks[i] && ks[i] >= ks[p];
  }

  /** The gate applied to the chosen bin. */
  lemma DecideAtPeakBin(norms: seq<real>, i: nat)
    requires |norms| >= 2
    requires PeakBin(norms) == i
    ensures Decide(norms) == if norms[i] > Threshold then Some(i as real * FreqStep) else None
  {
    var r := Decide(norms);
    if norms[i] > Threshold {
      assert r.Some? && r.value == i as real * FreqStep;
    } else {
      assert r.None?;
    }
  }

  /** On a full window the tick reports a pitch exactly when the peak bin of
      the transformed newest window has a magnitude above 5.0, and then
      reports that bin's frequency. */
  lemma DetectGate(raw: seq<real>, transform: seq<real> -> seq<real>, i: nat)
    requires forall w :: |transform(w)| == |w|
    requires |raw| >= SampleSize
    requires i < SampleSize / 2
    requires var norms := transform(raw[|raw| - SampleSize..]);
      forall j :: 0 <= j < SampleSize / 2 ==> AsU32(norms[j]) <= AsU32(norms[i])
    requires var norms := transform(raw[|raw| - SampleSize..]);
      forall j :: i < j < SampleSize / 2 ==> AsU32(norms[j]) < AsU32(norms[i])
    ensures var norms := transform(raw[|raw| - SampleSize..]);
      Detect(raw, transform) == if norms[i] > Threshold then Some(i as real * FreqStep) else None
  {
    DetectReadsNewestWindow(raw, transform);
    DecideGate(transform(raw[|raw| - SampleSize..]), i);
  }
}
