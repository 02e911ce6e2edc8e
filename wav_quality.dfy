/** The integer statistics of the WAV quality analyzer (scripts/wav_quality_analyzer.py):
    the format guess from the header, the choice of PCM16 conversion, zero-crossing and
    clipping counts over the 16-bit samples, fixed-size frame slicing with its silence
    count, and the recommendation chosen by sample rate. The `audioop` computations (RMS,
    average, peak, μ-law decoding) are parameters. */
module WavQuality {
  import opened Wrappers
  import opened Text

  type byte = b: int | 0 <= b < 256

  // ===========================================================================
  // Header (_read_wav_header)

  /** The encoding guessed from the header. */
  datatype Format = Pcm16 | Mulaw | Unknown
  {
    /** The label the analyzer reports. */
    function Label(): string
    {
      match this
      case Pcm16 => "pcm16"
      case Mulaw => "mulaw"
      case Unknown => "unknown"
    }
  }

  /** The format guess: PCM16 for uncompressed 2-byte samples, μ-law for 1-byte samples. */
  function GuessFormat(sampwidth: int, comptype: string): (f: Format)
    ensures f == Pcm16 <==> sampwidth == 2 && comptype == "NONE"
    ensures f == Mulaw <==> sampwidth == 1
    ensures f == Unknown <==> !(sampwidth == 2 && comptype == "NONE") && sampwidth != 1
  {
    if sampwidth == 2 && comptype == "NONE" then Pcm16
    else if sampwidth == 1 then Mulaw
    else Unknown
  }

  /** The header fields the analysis uses. */
  datatype Header = Header(sampwidth: int, rate: int, comptype: string, formatGuess: Format)

  // ===========================================================================
  // Conversion to PCM16 (_to_pcm16)

  /** How the analyzed bytes were obtained. */
  datatype Mode = Empty | Pcm16Native | DecodedUlaw | DecodedUlawFallback | UnknownBytes
  {
    function Label(): string
    {
      match this
      case Empty => "empty"
      case Pcm16Native => "pcm16_native"
      case DecodedUlaw => "decoded_ulaw_to_pcm16"
      case DecodedUlawFallback => "decoded_ulaw_to_pcm16_fallback"
      case UnknownBytes => "unknown_bytes"
    }
  }

  /** Python `_to_pcm16`; `ulaw` is what `audioop.ulaw2lin(raw, 2)` returns, `None` when
      it raises. */
  function ToPcm16(header: Header, raw: seq<byte>, ulaw: Option<seq<byte>>): (r: (seq<byte>, Mode))
    ensures r.1 == Empty <==> raw == []
    ensures r.1 == Empty ==> r.0 == []
    ensures r.1 == Pcm16Native <==> raw != [] && header.sampwidth == 2
    ensures r.1 in {Pcm16Native, UnknownBytes} ==> r.0 == raw
    ensures r.1 in {DecodedUlaw, DecodedUlawFallback} ==> ulaw.Some? && r.0 == ulaw.value
    ensures r.1 == DecodedUlaw <==>
      raw != [] && header.sampwidth != 2 && (header.sampwidth == 1 || header.formatGuess == Mulaw) && ulaw.Some?
    ensures r.1 == UnknownBytes <==> raw != [] && header.sampwidth != 2 && ulaw.None?
  {
    if raw == [] then ([], Empty)
    else if header.sampwidth == 2 then (raw, Pcm16Native)
    else if (header.sampwidth == 1 || header.formatGuess == Mulaw) && ulaw.Some? then (ulaw.value, DecodedUlaw)
    else if ulaw.Some? then (ulaw.value, DecodedUlawFallback)
    else (raw, UnknownBytes)
  }

  // ===========================================================================
  // Samples (`struct.iter_unpack('<h', pcm16)`)

  /** A little-endian signed 16-bit sample. */
  function Sample(lo: byte, hi: byte): (s: int)
    ensures -32768 <= s < 32768
  {
    var u := lo + 256 * hi;
    if u >= 32768 then u - 65536 else u
  }

  /** The bytes of one sample, low byte first. */
  function SampleBytes(s: int): (b: seq<byte>)
    requires -32768 <= s < 32768
    ensures |b| == 2
  {
    var u := if s < 0 then s + 65536 else s;
    [u % 256, u / 256]
  }

  /** The samples of a buffer of whole samples. */
  function Samples(pcm: seq<byte>): (r: seq<int>)
    requires |pcm| % 2 == 0
    ensures |r| == |pcm| / 2
    ensures forall i | 0 <= i < |r| :: r[i] == Sample(pcm[2 * i], pcm[2 * i + 1])
    decreases |pcm|
  {
    if pcm == [] then [] else [Sample(pcm[0], pcm[1])] + Samples(pcm[2..])
  }

  /** The buffer holding the given samples. */
  function Encode(samples: seq<int>): (pcm: seq<byte>)
    requires forall i | 0 <= i < |samples| :: -32768 <= samples[i] < 32768
    ensures |pcm| == 2 * |samples|
    decreases |samples|
  {
    if samples == [] then [] else SampleBytes(samples[0]) + Encode(samples[1..])
  }

  /** Decoding the bytes of a sample gives the sample back. */
  lemma SampleRoundTrip(s: int)
    requires -32768 <= s < 32768
    ensures Sample(SampleBytes(s)[0], SampleBytes(s)[1]) == s
  {
  }

  /** Unpacking an encoded buffer gives the samples back. */
  lemma {:induction false} SamplesRoundTrip(samples: seq<int>)
    requires forall i | 0 <= i < |samples| :: -32768 <= samples[i] < 32768
    ensures |Encode(samples)| % 2 == 0 && Samples(Encode(samples)) == samples
    decreases |samples|
  {
    if samples != [] {
      var pcm := Encode(samples);
      SampleRoundTrip(samples[0]);
      SamplesRoundTrip(samples[1..]);
      assert pcm[2..] == Encode(samples[1..]);
    }
  }

  // ===========================================================================
  // Zero crossings and clipping (_analyze_base)

  /** Whether a sample counts as positive for the zero-crossing test: 0 does not. */
  predicate Positive(s: int)
  {
    s > 0
  }

  /** The number of adjacent pairs whose sign status differs. */
  function ZeroCrossings(s: seq<int>): (r: nat)
    ensures r <= if |s| == 0 then 0 else |s| - 1
    decreases |s|
  {
    if |s| <= 1 then 0
    else ZeroCrossings(s[..|s| - 1]) + (if Positive(s[|s| - 1]) != Positive(s[|s| - 2]) then 1 else 0)
  }

  /** Whether samples `i - 1` and `i` lie on different sides. */
  predicate CrossesAt(s: seq<int>, i: nat)
  {
    1 <= i < |s| && Positive(s[i]) != Positive(s[i - 1])
  }

  /** The indices where a crossing happens. */
  function Crossings(s: seq<int>): set<nat>
  {
    set i: nat | i < |s| && CrossesAt(s, i)
  }

  /** The count is the number of crossing positions. */
  lemma {:induction false} ZeroCrossingsCount(s: seq<int>)
    ensures ZeroCrossings(s) == |Crossings(s)|
    decreases |s|
  {
    if |s| <= 1 {
      assert Crossings(s) == {};
    } else {
      var init := s[..|s| - 1];
      ZeroCrossingsCount(init);
      var n := |s| - 1;
      forall i: nat | i < n ensures CrossesAt(s, i) == CrossesAt(init, i) {
        if 1 <= i {
          assert init[i] == s[i] && init[i - 1] == s[i - 1];
        }
      }
      if CrossesAt(s, n) {
        assert Crossings(s) == Crossings(init) + {n};
      } else {
        assert Crossings(s) == Crossings(init);
      }
    }
  }

  /** Whether a sample is at or beyond the clip threshold in either direction. */
  predicate Clipped(s: int, threshold: int)
  {
    s >= threshold || s <= -threshold
  }

  /** The number of clipped samples. */
  function Clips(s: seq<int>, threshold: int): (r: nat)
    ensures r <= |s|
    decreases |s|
  {
    if s == [] then 0
    else Clips(s[..|s| - 1], threshold) + (if Clipped(s[|s| - 1], threshold) then 1 else 0)
  }

  /** A higher threshold never finds more clipped samples. */
  lemma {:induction false} ClipsMonotone(s: seq<int>, low: int, high: int)
    requires 0 <= low <= high
    ensures Clips(s, high) <= Clips(s, low)
    decreases |s|
  {
    if s != [] {
      ClipsMonotone(s[..|s| - 1], low, high);
    }
  }

  /** Every sample is clipped at a non-positive threshold. */
  lemma {:induction false} ClipsAll(s: seq<int>, threshold: int)
    requires threshold <= 0
    ensures Clips(s, threshold) == |s|
    decreases |s|
  {
    if s != [] {
      ClipsAll(s[..|s| - 1], threshold);
    }
  }

  /** The zero-crossing loop of `_analyze_base`. */
  method CountZeroCrossings(samples: seq<int>) returns (zc: nat)
    ensures zc == ZeroCrossings(samples)
  {
    zc := 0;
    var prev: Option<int> := None;
    for i := 0 to |samples|
      invariant zc == ZeroCrossings(samples[..i])
      invariant prev == if i == 0 then None else Some(samples[i - 1])
    {
      var s := samples[i];
      assert samples[..i + 1][..i] == samples[..i];
      if prev.Some? && Positive(s) != Positive(prev.value) {
        zc := zc + 1;
      }
      prev := Some(s);
    }
    assert samples[..|samples|] == samples;
  }

  /** The clipping loop of `_analyze_base`. */
  method CountClips(samples: seq<int>, threshold: int) returns (clips: nat)
    ensures clips == Clips(samples, threshold)
  {
    clips := 0;
    for i := 0 to |samples|
      invariant clips == Clips(samples[..i], threshold)
    {
      assert samples[..i + 1][..i] == samples[..i];
      if samples[i] >= threshold || samples[i] <= -threshold {
        clips := clips + 1;
      }
    }
    assert samples[..|samples|] == samples;
  }

  /** The integer part of `BaseStats`: the rates are `zeroCrossings / max(1, samples)`
      and `clipCount / max(1, samples)`. */
  datatype BaseStats = BaseStats(rms: int, mean: int, peak: int, samples: nat, zeroCrossings: nat, clipCount: nat)

  /** Python `_analyze_base`; `rms`, `mean` and `peak` are what `audioop` computes for
      the buffer. */
  method AnalyzeBase(pcm: seq<byte>, clipThreshold: int, rms: int, mean: int, peak: int) returns (b: BaseStats)
    requires |pcm| % 2 == 0
    ensures pcm == [] ==> b == BaseStats(0, 0, 0, 0, 0, 0)
    ensures pcm != [] ==>
      && b.samples == |pcm| / 2 && b.rms == rms && b.mean == mean && b.peak == peak
      && b.zeroCrossings == ZeroCrossings(Samples(pcm)) < b.samples
      && b.clipCount == Clips(Samples(pcm), clipThreshold) <= b.samples
  {
    if pcm == [] {
      return BaseStats(0, 0, 0, 0, 0, 0);
    }
    var total := |pcm| / 2;
    var samples := Samples(pcm);
    var zc := CountZeroCrossings(samples);
    var clips := CountClips(samples, clipThreshold);
    b := BaseStats(rms, mean, peak, total, zc, clips);
  }

  // ===========================================================================
  // Frames (_analyze_frames)

  /** The frame size: the computed `bytes_per_frame`, or when that is not positive 320
      bytes at 8 kHz and otherwise 40 ms of samples (at least one sample). */
  function FrameBytes(rate: int, computed: int): (n: int)
    requires rate > 0
    ensures n > 0
    ensures computed > 0 ==> n == computed
    ensures computed <= 0 && rate == 8000 ==> n == 320
    ensures computed <= 0 && rate != 8000 ==> n >= 2 && n % 2 == 0
  {
    if computed > 0 then computed
    else if rate == 8000 then 320
    else if 2 >= rate / 25 * 2 then 2 else rate / 25 * 2
  }

  /** The RMS of each whole frame of `pcm`, in order. */
  function FrameRms(pcm: seq<byte>, size: nat, rms: seq<byte> -> nat): (r: seq<nat>)
    requires size > 0
    ensures |r| * size <= |pcm| < |r| * size + size
    decreases |pcm|
  {
    if |pcm| < size then []
    else
      var rest := FrameRms(pcm[size..], size, rms);
      assert (|rest| + 1) * size == |rest| * size + size;
      [rms(pcm[..size])] + rest
  }

  /** `n / size` is the `q` with `q * size <= n < q * size + size`. */
  lemma DivisionByBounds(n: nat, size: nat, q: nat)
    requires size > 0 && q * size <= n < q * size + size
    ensures n / size == q
  {
    var d, m := n / size, n % size;
    assert n == d * size + m;
    if d < q {
      MultiplyMonotone(d + 1, q, size);
    } else if d > q {
      MultiplyMonotone(q + 1, d, size);
    }
  }

  lemma MultiplyMonotone(a: nat, b: nat, c: nat)
    requires a <= b
    ensures a * c <= b * c
  {
  }

  /** The frame at index `i` is the slice starting at `i * size`. */
  lemma {:induction false} FrameRmsAt(pcm: seq<byte>, size: nat, rms: seq<byte> -> nat, i: nat)
    requires size > 0 && i < |FrameRms(pcm, size, rms)|
    ensures i * size + size <= |pcm|
    ensures FrameRms(pcm, size, rms)[i] == rms(pcm[i * size..i * size + size])
    decreases i
  {
    if i > 0 {
      var rest := pcm[size..];
      FrameRmsAt(rest, size, rms, i - 1);
      var k := (i - 1) * size;
      assert k + size == i * size;
      assert rest[k..k + size] == pcm[i * size..i * size + size];
    }
  }

  /** The number of values below `threshold`. */
  function CountBelow(values: seq<nat>, threshold: int): (r: nat)
    ensures r <= |values|
    decreases |values|
  {
    if values == [] then 0
    else CountBelow(values[..|values| - 1], threshold) + (if values[|values| - 1] < threshold then 1 else 0)
  }

  /** The least value. */
  function SeqMin(values: seq<nat>): (m: nat)
    requires values != []
    ensures m in values && forall i | 0 <= i < |values| :: m <= values[i]
    decreases |values|
  {
    if |values| == 1 then values[0]
    else
      var rest := SeqMin(values[..|values| - 1]);
      assert values[..|values| - 1][0] in values;
      if values[|values| - 1] < rest then values[|values| - 1] else rest
  }

  /** The greatest value. */
  function SeqMax(values: seq<nat>): (m: nat)
    requires values != []
    ensures m in values && forall i | 0 <= i < |values| :: values[i] <= m
    decreases |values|
  {
    if |values| == 1 then values[0]
    else
      var rest := SeqMax(values[..|values| - 1]);
      assert values[..|values| - 1][0] in values;
      if values[|values| - 1] > rest then values[|values| - 1] else rest
  }

  /** The integer part of `FrameStats`: the silence ratio is
      `silenceFrames / max(1, frameCount)`; the mean and deviation are not modelled. */
  datatype FrameStats = FrameStats(frameMs: int, frameCount: nat, rmsMin: nat, rmsMax: nat, silenceFrames: nat)

  /** `audioop.rms(frame, 2)` raises on a frame of an odd number of bytes; with an odd
      frame size this happens on the first frame, if there is one. */
  predicate OddFrameRaises(pcm: seq<byte>, rate: int, computed: int)
  {
    pcm != [] && rate > 0 && FrameBytes(rate, computed) % 2 == 1 && |pcm| >= FrameBytes(rate, computed)
  }

  /** Python `_analyze_frames`; `computed` is `int(rate * (frame_ms / 1000.0) * 2)` and
      `rms` is `audioop.rms(frame, 2)` on frames of an even size. The error is
      `audioop.error` for a frame of an odd size. */
  method AnalyzeFrames(pcm: seq<byte>, rate: int, frameMs: int, silenceRms: int, computed: int,
                       rms: seq<byte> -> nat) returns (r: Result<FrameStats, string>)
    ensures r.Failure? <==> OddFrameRaises(pcm, rate, computed)
    ensures r.Failure? ==> r.error == "not a whole number of frames"
    ensures pcm == [] || rate <= 0 ==> r == Success(FrameStats(frameMs, 0, 0, 0, 0))
    ensures pcm != [] && rate > 0 && r.Success? ==>
      var values := FrameRms(pcm, FrameBytes(rate, computed), rms);
      var f := r.value;
      && f.frameMs == frameMs
      && f.frameCount == |values| == |pcm| / FrameBytes(rate, computed)
      && f.silenceFrames == CountBelow(values, silenceRms) <= f.frameCount
      && (values == [] ==> f == FrameStats(frameMs, 0, 0, 0, 0))
      && (values != [] ==> f.rmsMin == SeqMin(values) <= f.rmsMax == SeqMax(values))
  {
    if pcm == [] || rate <= 0 {
      return Success(FrameStats(frameMs, 0, 0, 0, 0));
    }
    var size := computed;
    if size <= 0 {
      size := if rate == 8000 then 320 else if 2 >= rate / 25 * 2 then 2 else rate / 25 * 2;
    }
    if size % 2 == 1 && size <= |pcm| {
      return Failure("not a whole number of frames");
    }
    var values := SliceFrames(pcm, size, rms);
    DivisionByBounds(|pcm|, size, |values|);
    var silence := CountSilence(values, silenceRms);
    if values == [] {
      return Success(FrameStats(frameMs, 0, 0, 0, 0));
    }
    var low := SeqMin(values);
    var high := SeqMax(values);
    r := Success(FrameStats(frameMs, |values|, low, high, silence));
  }

  /** The `while offset + bytes_per_frame <= n` loop collecting each frame's RMS. */
  method SliceFrames(pcm: seq<byte>, size: nat, rms: seq<byte> -> nat) returns (values: seq<nat>)
    requires size > 0
    ensures values == FrameRms(pcm, size, rms)
  {
    values := [];
    var offset := 0;
    var n := |pcm|;
    while offset + size <= n
      invariant offset <= n
      invariant values + FrameRms(pcm[offset..], size, rms) == FrameRms(pcm, size, rms)
      decreases n - offset
    {
      var frame := pcm[offset..offset + size];
      assert pcm[offset..][..size] == frame;
      assert pcm[offset..][size..] == pcm[offset + size..];
      offset := offset + size;
      values := values + [rms(frame)];
    }
  }

  /** The silence count of the frame loop. */
  method CountSilence(values: seq<nat>, silenceRms: int) returns (silence: nat)
    ensures silence == CountBelow(values, silenceRms)
  {
    silence := 0;
    for i := 0 to |values|
      invariant silence == CountBelow(values[..i], silenceRms)
    {
      assert values[..i + 1][..i] == values[..i];
      if values[i] < silenceRms {
        silence := silence + 1;
      }
    }
    assert values[..|values|] == values;
  }

  /** Every frame counted silent has an RMS below the threshold, and every other frame
      does not: the count is over exactly the quiet frames. */
  lemma {:induction false} CountBelowAll(values: seq<nat>, threshold: int)
    ensures CountBelow(values, threshold) == |values| <==> forall i | 0 <= i < |values| :: values[i] < threshold
    ensures CountBelow(values, threshold) == 0 <==> forall i | 0 <= i < |values| :: values[i] >= threshold
    decreases |values|
  {
    if values != [] {
      var init := values[..|values| - 1];
      CountBelowAll(init, threshold);
      assert forall i | 0 <= i < |init| :: init[i] == values[i];
    }
  }

  // ===========================================================================
  // Recommendation (_recommendation)

  const TelephonyHead := "Detected telephony "
  const WidebandHead := "Detected PCM16-like "
  const GenericHead := "Rate "

  const TelephonyTail := "8 kHz. For minimal conversions, keep end-to-end μ-law @ 8000 Hz. "
    + "If provider emits PCM16@24k (typical), convert to μ-law at the final egress only."

  /** The rest of the advice for a wideband rate; `rate / 1000` prints exactly as
      Python's `f"{rate/1000:.0f}"` for the two rates it is used with. */
  function WidebandTail(rate: int): string
  {
    IntToString(rate / 1000) + " kHz. Align upstream to linear16@" + IntToString(rate)
    + " to avoid resampling, and only convert to μ-law@8k for PSTN egress, if needed."
  }

  function GenericTail(rate: int, format: Format): string
  {
    IntToString(rate) + " Hz (" + format.Label()
    + "). Verify upstream/downstream alignment. Prefer linear16@16k or μ-law@8k depending on path."
  }

  /** A text starting with `head` starts with no other head. */
  lemma Heads(head: string, tail: string)
    requires head == TelephonyHead || head == WidebandHead || head == GenericHead
    ensures StartsWith(head + tail, TelephonyHead) <==> head == TelephonyHead
    ensures StartsWith(head + tail, WidebandHead) <==> head == WidebandHead
    ensures StartsWith(head + tail, GenericHead) <==> head == GenericHead
  {
    var r := head + tail;
    assert r[..|head|] == head;
    assert r[0] == head[0];
    if head != GenericHead {
      assert r[9] == head[9];
    }
  }

  /** Python `_recommendation`: the advice text for the file's sample rate. */
  function Recommendation(header: Header): string
  {
    var rate := header.rate;
    if rate == 8000 then TelephonyHead + TelephonyTail
    else if rate in {16000, 24000} then WidebandHead + WidebandTail(rate)
    else GenericHead + GenericTail(rate, header.formatGuess)
  }

  /** The telephony text is given exactly at 8 kHz, the wideband text exactly at 16 or
      24 kHz, and the generic text for every other rate. */
  lemma RecommendationFamilies(header: Header)
    ensures StartsWith(Recommendation(header), TelephonyHead) <==> header.rate == 8000
    ensures StartsWith(Recommendation(header), WidebandHead) <==> header.rate in {16000, 24000}
    ensures StartsWith(Recommendation(header), GenericHead) <==> header.rate !in {8000, 16000, 24000}
  {
    var rate := header.rate;
    if rate == 8000 {
      Heads(TelephonyHead, TelephonyTail);
    } else if rate in {16000, 24000} {
      Heads(WidebandHead, WidebandTail(rate));
    } else {
      Heads(GenericHead, GenericTail(rate, header.formatGuess));
    }
  }
}
