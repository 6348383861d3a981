/** The per-block work of the BeamMaxx processor as functions of values: the
    integer delays, the two-case routing policy, the per-channel pass through
    the delay lines and the final sum-and-average into channel 0. */
module BeamformerEngine {
  import opened DelayLineBank

  datatype Option<T> = None | Some(value: T)

  /** Speed of sound in m/s (`c`), shared by both delay expressions. */
  const SpeedOfSound: int := 345

  /** One block's snapshot of the three host parameters. `cosDirection` is the
      value the math library returns for `cos(directionOfArrival)`; the
      direction is handed to it as a number of radians although it is a number
      of degrees, and the model keeps only the resulting value. */
  datatype Config = Config(numMicrophones: int, spacing: real, cosDirection: real)

  /** The registered parameter ranges: 2..64 microphones, 0.01..0.5 m spacing;
      a cosine lies in [-1, 1]. */
  predicate ValidConfig(cfg: Config)
  {
    2 <= cfg.numMicrophones <= 64 &&
    0.01 <= cfg.spacing <= 0.5 &&
    -1.0 <= cfg.cosDirection <= 1.0
  }

  function Abs(x: int): int { if x < 0 then -x else x }

  /** C's `round`: nearest integer, halfway cases away from zero. */
  function Round(y: real): (n: int)
    ensures y >= 0.0 ==> y - 0.5 < n as real <= y + 0.5
    ensures y < 0.0 ==> y - 0.5 <= n as real < y + 0.5
  {
    if y >= 0.0 then (y + 0.5).Floor else -((-y + 0.5).Floor)
  }

  /** Delay, in samples, per unit of the multiplier: `sampleRate * spacing * cos / c`. */
  function Factor(sampleRate: real, cfg: Config): (f: real)
    ensures sampleRate > 0.0 && cfg.spacing > 0.0 ==>
      (f > 0.0 <==> cfg.cosDirection > 0.0) && (f < 0.0 <==> cfg.cosDirection < 0.0)
  {
    sampleRate * cfg.spacing * cfg.cosDirection / SpeedOfSound as real
  }

  /** The rounded delay for multiplier `m`: `delSampleMax` is `Delay(N)` and the
      loop's `delSamples` is first `Delay(channel + 1)`. The same factor is used
      for both. */
  function Delay(m: int, sampleRate: real, cfg: Config): (d: int)
    ensures m as real * Factor(sampleRate, cfg) - 0.5 <= d as real <= m as real * Factor(sampleRate, cfg) + 0.5
  {
    Round(m as real * Factor(sampleRate, cfg))
  }

  /** When `delSampleMax` is positive, every delay `Delay(m)` with `m >= 0` is
      non-negative: the shared factor must be positive. */
  lemma DelayNonNegativeWhenMaxPositive(n: int, m: int, sampleRate: real, cfg: Config)
    requires 0 < n && 0 <= m
    requires Delay(n, sampleRate, cfg) > 0
    ensures Delay(m, sampleRate, cfg) >= 0
  {
    var x := Factor(sampleRate, cfg);
    assert x > 0.0;
    assert m as real * x >= 0.0;
  }

  /** What one iteration of the channel loop does: route a channel through its
      delay line with a given delay, or do nothing. */
  datatype Step = Skip | Route(channel: nat, delay: int)

  /** The loop iteration that handles channel `c`: iteration `c - 1` when
      `delSampleMax > 0`, otherwise iteration `c`. */
  function LoopIndex(c: int, sampleRate: real, cfg: Config): int
  {
    if Delay(cfg.numMicrophones, sampleRate, cfg) > 0 then c - 1 else c
  }

  /** The per-channel view of the two-case policy: the delay the block applies
      to channel `c`, or `None` when channel `c` does not pass through its delay
      line. With `delSampleMax > 0` channels 1..N-1 are delayed by `Delay(c)`,
      even when that is 0, and channel 0 never is. Otherwise channel `c` in
      0..N-2 is delayed by `|delSampleMax - Delay(c + 1)|` when that is not 0,
      and channel N-1 never is. */
  function ChannelDelay(c: int, sampleRate: real, cfg: Config): Option<int>
  {
    var n := cfg.numMicrophones;
    var maxDelay := Delay(n, sampleRate, cfg);
    if maxDelay > 0 then
      if 1 <= c < n then Some(Delay(c, sampleRate, cfg)) else None
    else
      var d := Abs(maxDelay - Delay(c + 1, sampleRate, cfg));
      if 0 <= c < n - 1 && d != 0 then Some(d) else None
  }

  /** Iteration `k` of the channel loop, as the source branches on the sign of
      `delSampleMax`. Whatever it routes is the channel it handles, with the
      delay of the per-channel view, and that delay is never negative. */
  function Plan(k: nat, sampleRate: real, cfg: Config): (st: Step)
    requires k < cfg.numMicrophones - 1
    ensures st.Route? ==> st.delay >= 0
    ensures st.Route? ==> LoopIndex(st.channel, sampleRate, cfg) == k
    ensures st.Route? ==> ChannelDelay(st.channel, sampleRate, cfg) == Some(st.delay)
    ensures st.Skip? ==> ChannelDelay(k, sampleRate, cfg).None? && Delay(cfg.numMicrophones, sampleRate, cfg) <= 0
  {
    var n := cfg.numMicrophones;
    var maxDelay := Delay(n, sampleRate, cfg);
    var d := Delay(k + 1, sampleRate, cfg);
    if maxDelay > 0 then
      DelayNonNegativeWhenMaxPositive(n, k + 1, sampleRate, cfg);
      Route(k + 1, d)
    else if Abs(maxDelay - d) > 0 then
      Route(k, Abs(maxDelay - d))
    else
      Skip
  }

  /** Conversely, a channel the per-channel view delays is routed by the loop
      iteration `LoopIndex(c)`, with the same delay. */
  lemma PlanRoutesDelayedChannel(c: int, sampleRate: real, cfg: Config)
    requires cfg.numMicrophones >= 2
    requires ChannelDelay(c, sampleRate, cfg).Some?
    ensures 0 <= LoopIndex(c, sampleRate, cfg) < cfg.numMicrophones - 1
    ensures Plan(LoopIndex(c, sampleRate, cfg), sampleRate, cfg)
            == Route(c, ChannelDelay(c, sampleRate, cfg).value)
  {
  }

  /** Four microphones 5 cm apart at 48 kHz, a source straight along the array
      (cosine 1): the factor is 160/23 samples, `delSampleMax` is 28, and
      channels 1, 2 and 3 are delayed by 7, 14 and 21 samples. */
  lemma EndfireExample()
    ensures var cfg := Config(4, 0.05, 1.0);
      Delay(4, 48000.0, cfg) == 28 &&
      ChannelDelay(0, 48000.0, cfg) == None &&
      ChannelDelay(1, 48000.0, cfg) == Some(7) &&
      ChannelDelay(2, 48000.0, cfg) == Some(14) &&
      ChannelDelay(3, 48000.0, cfg) == Some(21)
  {
  }

  /** The same array with the source from the other end (cosine -1):
      `delSampleMax` is -28, channels 0, 1 and 2 are delayed by 21, 14 and 7
      samples, and channel 3 is not delayed. */
  lemma ReverseEndfireExample()
    ensures var cfg := Config(4, 0.05, -1.0);
      Delay(4, 48000.0, cfg) == -28 &&
      ChannelDelay(0, 48000.0, cfg) == Some(21) &&
      ChannelDelay(1, 48000.0, cfg) == Some(14) &&
      ChannelDelay(2, 48000.0, cfg) == Some(7) &&
      ChannelDelay(3, 48000.0, cfg) == None
  {
  }

  /** Every delay the block applies fits in a delay line: a larger one would
      leave the read cursor negative after the single wraparound. */
  predicate RoutesFit(sampleRate: real, cfg: Config)
  {
    forall c :: 0 <= c < cfg.numMicrophones ==>
      ChannelDelay(c, sampleRate, cfg).Some? ==> ChannelDelay(c, sampleRate, cfg).value <= DelayBufferSize
  }

  /** A registered configuration whose delays do not fit: 64 microphones 5 cm
      apart at 48 kHz with cosine 1 give channel 63 a delay of 438 samples,
      so its read cursor stays negative after the single wraparound and the
      block reads outside the line. */
  lemma DelayOverflowExample()
    ensures var cfg := Config(64, 0.05, 1.0);
      ValidConfig(cfg) &&
      ChannelDelay(63, 48000.0, cfg) == Some(438) &&
      !RoutesFit(48000.0, cfg) &&
      WrapReadIndex(0, 438) < 0
  {
    var cfg := Config(64, 0.05, 1.0);
    assert ChannelDelay(63, 48000.0, cfg).value > DelayBufferSize;
  }

  /** The bank and the audio channels between the steps of a block. */
  datatype Snapshot = Snapshot(bank: Bank, audio: seq<seq<real>>)

  /** The bank is sized for `n` microphones and the audio has at least `n` channels. */
  predicate Fits(s: Snapshot, n: int)
  {
    Sized(s.bank, n) && n <= |s.audio|
  }

  /** Every channel holds the same number of samples. */
  predicate Rectangular(audio: seq<seq<real>>)
  {
    forall c :: 0 <= c < |audio| ==> |audio[c]| == |audio[0]|
  }

  /** One loop step on a snapshot: a routed channel goes through `DelayLane`,
      with its read cursor, line and samples replaced; nothing else changes. */
  function Apply(st: Step, s: Snapshot, n: int): (r: Snapshot)
    requires Fits(s, n)
    requires st.Route? ==> st.channel < n && 0 <= st.delay <= DelayBufferSize
    ensures Fits(r, n) && |r.audio| == |s.audio|
    ensures forall c :: 0 <= c < |s.audio| ==> |r.audio[c]| == |s.audio[c]|
    ensures r.bank.writeIndices == s.bank.writeIndices
  {
    match st
    case Skip => s
    case Route(ch, d) =>
      var lane := DelayLane(s.bank.delayBuffer[ch], s.bank.writeIndices[ch], d, s.audio[ch]);
      Snapshot(Bank(s.bank.delayBuffer[ch := lane.line],
                    s.bank.readIndices[ch := lane.readIndex],
                    s.bank.writeIndices),
               s.audio[ch := lane.samples])
  }

  /** A loop step changes only the channel it routes, and that one by `DelayLane`. */
  lemma ApplyEffect(st: Step, s: Snapshot, n: int, c: nat)
    requires Fits(s, n)
    requires st.Route? ==> st.channel < n && 0 <= st.delay <= DelayBufferSize
    requires c < |s.audio|
    ensures var r := Apply(st, s, n);
      if st.Route? && st.channel == c then
        var lane := DelayLane(s.bank.delayBuffer[c], s.bank.writeIndices[c], st.delay, s.audio[c]);
        r.audio[c] == lane.samples && r.bank.delayBuffer[c] == lane.line &&
        r.bank.readIndices[c] == lane.readIndex
      else
        r.audio[c] == s.audio[c] &&
        (c < n ==> r.bank.delayBuffer[c] == s.bank.delayBuffer[c] && r.bank.readIndices[c] == s.bank.readIndices[c])
  {
  }

  /** The channel loop from iteration `k` to its end. */
  function AlignFrom(k: nat, sampleRate: real, cfg: Config, s: Snapshot): (r: Snapshot)
    requires ValidConfig(cfg) && RoutesFit(sampleRate, cfg)
    requires Fits(s, cfg.numMicrophones)
    decreases cfg.numMicrophones - k
    ensures Fits(r, cfg.numMicrophones) && |r.audio| == |s.audio|
    ensures forall c :: 0 <= c < |s.audio| ==> |r.audio[c]| == |s.audio[c]|
    ensures r.bank.writeIndices == s.bank.writeIndices
  {
    if k >= cfg.numMicrophones - 1 then s
    else
      var st := Plan(k, sampleRate, cfg);
      AlignFrom(k + 1, sampleRate, cfg, Apply(st, s, cfg.numMicrophones))
  }

  /** The effect of the channel loop from iteration `k` on one channel `c`: a
      channel the per-channel view delays, whose iteration is still to come, is
      replaced by `DelayLane` of its state at that point; every other channel,
      its line and its read cursor are left as they are. */
  lemma {:induction false} AlignFromEffect(k: nat, sampleRate: real, cfg: Config, s: Snapshot, c: nat)
    requires ValidConfig(cfg) && RoutesFit(sampleRate, cfg)
    requires Fits(s, cfg.numMicrophones)
    requires c < |s.audio|
    decreases cfg.numMicrophones - k
    ensures var r := AlignFrom(k, sampleRate, cfg, s);
      var cd := ChannelDelay(c, sampleRate, cfg);
      if c < cfg.numMicrophones && cd.Some? && LoopIndex(c, sampleRate, cfg) >= k then
        var lane := DelayLane(s.bank.delayBuffer[c], s.bank.writeIndices[c], cd.value, s.audio[c]);
        r.audio[c] == lane.samples && r.bank.delayBuffer[c] == lane.line &&
        r.bank.readIndices[c] == lane.readIndex
      else
        r.audio[c] == s.audio[c] &&
        (c < cfg.numMicrophones ==>
          r.bank.delayBuffer[c] == s.bank.delayBuffer[c] && r.bank.readIndices[c] == s.bank.readIndices[c])
  {
    var n := cfg.numMicrophones;
    var cd := ChannelDelay(c, sampleRate, cfg);
    if c < n && cd.Some? {
      PlanRoutesDelayedChannel(c, sampleRate, cfg);
    }
    if k < n - 1 {
      var st := Plan(k, sampleRate, cfg);
      var s' := Apply(st, s, n);
      assert AlignFrom(k, sampleRate, cfg, s) == AlignFrom(k + 1, sampleRate, cfg, s');
      ApplyEffect(st, s, n, c);
      AlignFromEffect(k + 1, sampleRate, cfg, s', c);
      if st.Route? && st.channel == c {
        assert LoopIndex(c, sampleRate, cfg) == k;
      }
    }
  }

  /** Case `delSampleMax > 0`: channel 0 never passes through its delay line;
      every channel `c` in 1..N-1 does, with delay `Delay(c)`, even when that
      delay is 0. */
  lemma PositiveCaseRouting(sampleRate: real, cfg: Config, s: Snapshot, c: nat)
    requires ValidConfig(cfg) && RoutesFit(sampleRate, cfg)
    requires Fits(s, cfg.numMicrophones)
    requires Delay(cfg.numMicrophones, sampleRate, cfg) > 0
    requires c < cfg.numMicrophones
    ensures var r := AlignFrom(0, sampleRate, cfg, s);
      if c == 0 then
        r.audio[0] == s.audio[0] && r.bank.delayBuffer[0] == s.bank.delayBuffer[0] &&
        r.bank.readIndices[0] == s.bank.readIndices[0]
      else
        0 <= Delay(c, sampleRate, cfg) <= DelayBufferSize &&
        var lane := DelayLane(s.bank.delayBuffer[c], s.bank.writeIndices[c], Delay(c, sampleRate, cfg), s.audio[c]);
        r.audio[c] == lane.samples && r.bank.delayBuffer[c] == lane.line &&
        r.bank.readIndices[c] == lane.readIndex
  {
    AlignFromEffect(0, sampleRate, cfg, s, c);
    if c > 0 {
      DelayNonNegativeWhenMaxPositive(cfg.numMicrophones, c, sampleRate, cfg);
    }
  }

  /** Case `delSampleMax <= 0`: channel `c` in 0..N-2 is delayed by
      `|delSampleMax - Delay(c + 1)|` and left alone when that is 0; channel
      N-1 is never delayed. */
  lemma NonPositiveCaseRouting(sampleRate: real, cfg: Config, s: Snapshot, c: nat)
    requires ValidConfig(cfg) && RoutesFit(sampleRate, cfg)
    requires Fits(s, cfg.numMicrophones)
    requires Delay(cfg.numMicrophones, sampleRate, cfg) <= 0
    requires c < cfg.numMicrophones
    ensures var r := AlignFrom(0, sampleRate, cfg, s);
      var d := Abs(Delay(cfg.numMicrophones, sampleRate, cfg) - Delay(c + 1, sampleRate, cfg));
      if c == cfg.numMicrophones - 1 || d == 0 then
        r.audio[c] == s.audio[c] && r.bank.delayBuffer[c] == s.bank.delayBuffer[c] &&
        r.bank.readIndices[c] == s.bank.readIndices[c]
      else
        d <= DelayBufferSize &&
        var lane := DelayLane(s.bank.delayBuffer[c], s.bank.writeIndices[c], d, s.audio[c]);
        r.audio[c] == lane.samples && r.bank.delayBuffer[c] == lane.line &&
        r.bank.readIndices[c] == lane.readIndex
  {
    AlignFromEffect(0, sampleRate, cfg, s, c);
  }

  /** Over the channel loop, a channel whose line is all zero keeps it all
      zero, and outputs only zeros when it is delayed. */
  lemma AlignFromKeepsZeroLine(sampleRate: real, cfg: Config, s: Snapshot, c: nat)
    requires ValidConfig(cfg) && RoutesFit(sampleRate, cfg)
    requires Fits(s, cfg.numMicrophones)
    requires c < cfg.numMicrophones
    requires forall j :: 0 <= j < |s.bank.delayBuffer[c]| ==> s.bank.delayBuffer[c][j] == 0.0
    ensures var r := AlignFrom(0, sampleRate, cfg, s);
      (forall j :: 0 <= j < |r.bank.delayBuffer[c]| ==> r.bank.delayBuffer[c][j] == 0.0) &&
      (ChannelDelay(c, sampleRate, cfg).Some? ==> forall j :: 0 <= j < |r.audio[c]| ==> r.audio[c][j] == 0.0)
  {
    AlignFromEffect(0, sampleRate, cfg, s, c);
    var cd := ChannelDelay(c, sampleRate, cfg);
    if cd.Some? {
      PlanRoutesDelayedChannel(c, sampleRate, cfg);
      DelayLaneOfZeroLine(s.bank.delayBuffer[c], s.bank.writeIndices[c], cd.value, s.audio[c]);
    }
  }

  /** The channel loop keeps an all-zero bank all zero, and every channel it
      delays then carries only zeros. */
  lemma AlignFromKeepsZeroBank(sampleRate: real, cfg: Config, s: Snapshot)
    requires ValidConfig(cfg) && RoutesFit(sampleRate, cfg)
    requires Fits(s, cfg.numMicrophones)
    requires AllZero(s.bank.delayBuffer)
    ensures var r := AlignFrom(0, sampleRate, cfg, s);
      AllZero(r.bank.delayBuffer) &&
      forall c, j ::
        0 <= c < cfg.numMicrophones && ChannelDelay(c, sampleRate, cfg).Some? && 0 <= j < |r.audio[c]|
        ==> r.audio[c][j] == 0.0
  {
    forall c | 0 <= c < cfg.numMicrophones {
      AlignFromKeepsZeroLine(sampleRate, cfg, s, c);
    }
  }

  /** `Σ_{c=0}^{n-1} audio[c][j]`, added in channel order as the mix loop does. */
  function ChannelSum(audio: seq<seq<real>>, n: nat, j: nat): real
    requires n <= |audio|
    requires forall c :: 0 <= c < n ==> j < |audio[c]|
  {
    if n == 0 then 0.0 else ChannelSum(audio, n - 1, j) + audio[n - 1][j]
  }

  /** The sum of `n` equal values `v` is `n * v`. */
  lemma {:induction false} ChannelSumOfEqual(audio: seq<seq<real>>, n: nat, j: nat, v: real)
    requires n <= |audio|
    requires forall c :: 0 <= c < n ==> j < |audio[c]| && audio[c][j] == v
    ensures ChannelSum(audio, n, j) == n as real * v
  {
    if n > 0 {
      ChannelSumOfEqual(audio, n - 1, j, v);
    }
  }

  /** A positive factor common to both sides of an equation cancels. */
  lemma CancelFactor(x: real, y: real, k: real)
    requires k > 0.0 && x * k == k * y
    ensures x == y
  {
    assert x == (x * k) / k;
  }

  /** The mean of channels 0..n-1 at sample `j`: `n` times it is their sum. */
  function Mean(audio: seq<seq<real>>, n: nat, j: nat): (m: real)
    requires 1 <= n <= |audio|
    requires forall c :: 0 <= c < n ==> j < |audio[c]|
    ensures m * n as real == ChannelSum(audio, n, j)
  {
    ChannelSum(audio, n, j) / n as real
  }

  /** The final mix: channel 0 becomes, sample by sample, the mean of channels
      0..n-1; every other channel keeps its contents. */
  function Mix(audio: seq<seq<real>>, n: nat): (r: seq<seq<real>>)
    requires 1 <= n <= |audio| && Rectangular(audio)
    ensures |r| == |audio| && Rectangular(r) && |r[0]| == |audio[0]|
    ensures forall c :: 1 <= c < |audio| ==> r[c] == audio[c]
    ensures forall j :: 0 <= j < |audio[0]| ==> r[0][j] == Mean(audio, n, j)
  {
    audio[0 := seq(|audio[0]|, j requires 0 <= j < |audio[0]| => Mean(audio, n, j))]
  }

  /** When the `n` mixed channels hold the same value `v` at a sample, channel 0
      holds `v` there after the mix. */
  lemma MixOfEqualChannels(audio: seq<seq<real>>, n: nat, j: nat, v: real)
    requires 1 <= n <= |audio| && Rectangular(audio)
    requires j < |audio[0]|
    requires forall c :: 0 <= c < n ==> audio[c][j] == v
    ensures Mix(audio, n)[0][j] == v
  {
    ChannelSumOfEqual(audio, n, j, v);
    var m := Mean(audio, n, j);
    CancelFactor(m, v, n as real);
    assert Mix(audio, n)[0][j] == m;
  }

  /** When channels 1..n-1 are silent at a sample, the sum there is channel 0's sample. */
  lemma {:induction false} ChannelSumOfSilentRest(audio: seq<seq<real>>, n: nat, j: nat)
    requires 1 <= n <= |audio|
    requires forall c :: 0 <= c < n ==> j < |audio[c]|
    requires forall c :: 1 <= c < n ==> audio[c][j] == 0.0
    ensures ChannelSum(audio, n, j) == audio[0][j]
  {
    if n > 1 {
      ChannelSumOfSilentRest(audio, n - 1, j);
    }
  }

  /** Zero-filling the output channels `from..to-1` that have no input. */
  function ClearChannels(audio: seq<seq<real>>, from: int, to: int): (r: seq<seq<real>>)
    ensures |r| == |audio|
    ensures forall c :: 0 <= c < |audio| ==> |r[c]| == |audio[c]|
    ensures forall c, j :: 0 <= c < |audio| && from <= c < to && 0 <= j < |audio[c]| ==> r[c][j] == 0.0
    ensures forall c :: 0 <= c < |audio| && !(from <= c < to) ==> r[c] == audio[c]
  {
    seq(|audio|, c requires 0 <= c < |audio| =>
      if from <= c < to then seq(|audio[c]|, _ => 0.0) else audio[c])
  }

  /** The bank as the block finds it after its first statement: reset exactly
      when the configured count differs from the count the bank was sized for. */
  function PreparedBank(b: Bank, prev: int, n: nat): Bank
  {
    if prev != n then ResetBank(b, n) else b
  }

  /** The bank is left as it is exactly when the microphone count did not
      change; spacing and direction play no part. */
  lemma PreparedBankIffSameCount(b: Bank, prev: int, n: nat)
    requires Sized(b, prev)
    ensures (PreparedBank(b, prev, n) == b) <==> prev == n
    ensures Sized(PreparedBank(b, prev, n), n)
  {
    if prev != n {
      assert |PreparedBank(b, prev, n).delayBuffer| == n;
    }
  }

  /** A block up to its mix: reset on a count change, zero-fill of the unused
      outputs, then the channel loop. */
  function AlignedBlock(b: Bank, prev: int, sampleRate: real, cfg: Config,
                        totalIn: int, totalOut: int, audio: seq<seq<real>>): (r: Snapshot)
    requires ValidConfig(cfg) && RoutesFit(sampleRate, cfg)
    requires Sized(b, prev)
    requires cfg.numMicrophones <= |audio| && Rectangular(audio)
    ensures Fits(r, cfg.numMicrophones) && |r.audio| == |audio|
    ensures Rectangular(r.audio) && |r.audio[0]| == |audio[0]|
    ensures r.bank.writeIndices == PreparedBank(b, prev, cfg.numMicrophones).writeIndices
  {
    PreparedBankIffSameCount(b, prev, cfg.numMicrophones);
    AlignFrom(0, sampleRate, cfg,
              Snapshot(PreparedBank(b, prev, cfg.numMicrophones), ClearChannels(audio, totalIn, totalOut)))
  }

  /** A whole block: the aligned block, then the mix into channel 0. */
  function Block(b: Bank, prev: int, sampleRate: real, cfg: Config,
                 totalIn: int, totalOut: int, audio: seq<seq<real>>): Snapshot
    requires ValidConfig(cfg) && RoutesFit(sampleRate, cfg)
    requires Sized(b, prev)
    requires cfg.numMicrophones <= |audio| && Rectangular(audio)
  {
    var aligned := AlignedBlock(b, prev, sampleRate, cfg, totalIn, totalOut, audio);
    Snapshot(aligned.bank, Mix(aligned.audio, cfg.numMicrophones))
  }

  /** The value iteration `k` of the channel loop leaves in `delSamples`:
      `Delay(k + 1)`, replaced by `|delSampleMax - Delay(k + 1)|` when
      `delSampleMax <= 0`. */
  function LoopDelSamples(k: int, sampleRate: real, cfg: Config): int
  {
    var maxDelay := Delay(cfg.numMicrophones, sampleRate, cfg);
    var d := Delay(k + 1, sampleRate, cfg);
    if maxDelay > 0 then d else Abs(maxDelay - d)
  }

  /** `delSamples` after iteration `k` is the delay that iteration applies,
      and 0 when it routes nothing. */
  lemma LoopDelSamplesIsPlannedDelay(k: nat, sampleRate: real, cfg: Config)
    requires k < cfg.numMicrophones - 1
    ensures var st := Plan(k, sampleRate, cfg);
      (st.Route? ==> st.delay == LoopDelSamples(k, sampleRate, cfg)) &&
      (st.Skip? ==> LoopDelSamples(k, sampleRate, cfg) == 0)
  {
  }

  /** Across a block the bank comes out sized for N, and the channel loop
      leaves the write cursors as the reset step left them. */
  lemma BlockBank(b: Bank, prev: int, sampleRate: real, cfg: Config,
                  totalIn: int, totalOut: int, audio: seq<seq<real>>)
    requires ValidConfig(cfg) && RoutesFit(sampleRate, cfg)
    requires Sized(b, prev)
    requires cfg.numMicrophones <= |audio| && Rectangular(audio)
    ensures var r := Block(b, prev, sampleRate, cfg, totalIn, totalOut, audio);
      Sized(r.bank, cfg.numMicrophones) &&
      r.bank.writeIndices == PreparedBank(b, prev, cfg.numMicrophones).writeIndices
  {
    PreparedBankIffSameCount(b, prev, cfg.numMicrophones);
  }

  /** Write cursors that start at slot 0 are still at slot 0 after a block:
      the reset adds only zero cursors and the loop never moves one. */
  lemma BlockKeepsWriteCursorsAtStart(b: Bank, prev: int, sampleRate: real, cfg: Config,
                                      totalIn: int, totalOut: int, audio: seq<seq<real>>)
    requires ValidConfig(cfg) && RoutesFit(sampleRate, cfg)
    requires Sized(b, prev)
    requires cfg.numMicrophones <= |audio| && Rectangular(audio)
    requires WriteCursorsAtStart(b)
    ensures WriteCursorsAtStart(Block(b, prev, sampleRate, cfg, totalIn, totalOut, audio).bank)
  {
    if prev != cfg.numMicrophones {
      ResetKeepsWriteCursorsAtStart(b, cfg.numMicrophones);
    }
  }

  /** Across a block channels 1..N-1 hold their aligned contents, and the
      beamformer leaves every channel from N on as the zero-fill left it. */
  lemma BlockOtherChannels(b: Bank, prev: int, sampleRate: real, cfg: Config,
                           totalIn: int, totalOut: int, audio: seq<seq<real>>)
    requires ValidConfig(cfg) && RoutesFit(sampleRate, cfg)
    requires Sized(b, prev)
    requires cfg.numMicrophones <= |audio| && Rectangular(audio)
    ensures var n := cfg.numMicrophones;
      var aligned := AlignedBlock(b, prev, sampleRate, cfg, totalIn, totalOut, audio).audio;
      var r := Block(b, prev, sampleRate, cfg, totalIn, totalOut, audio).audio;
      |r| == |audio| &&
      (forall c :: 1 <= c < n ==> r[c] == aligned[c]) &&
      (forall c :: n <= c < |audio| ==> r[c] == ClearChannels(audio, totalIn, totalOut)[c])
  {
    var n := cfg.numMicrophones;
    PreparedBankIffSameCount(b, prev, n);
    var s := Snapshot(PreparedBank(b, prev, n), ClearChannels(audio, totalIn, totalOut));
    var aligned := AlignFrom(0, sampleRate, cfg, s);
    assert Block(b, prev, sampleRate, cfg, totalIn, totalOut, audio).audio == Mix(aligned.audio, n);
    forall c | n <= c < |audio|
      ensures aligned.audio[c] == s.audio[c]
    {
      AlignFromEffect(0, sampleRate, cfg, s, c);
    }
  }

  /** An all-zero bank stays all zero across a block. */
  lemma BlockKeepsZeroBank(b: Bank, prev: int, sampleRate: real, cfg: Config,
                           totalIn: int, totalOut: int, audio: seq<seq<real>>)
    requires ValidConfig(cfg) && RoutesFit(sampleRate, cfg)
    requires Sized(b, prev)
    requires cfg.numMicrophones <= |audio| && Rectangular(audio)
    requires AllZero(b.delayBuffer)
    ensures AllZero(Block(b, prev, sampleRate, cfg, totalIn, totalOut, audio).bank.delayBuffer)
  {
    var n := cfg.numMicrophones;
    PreparedBankIffSameCount(b, prev, n);
    if prev != n {
      ResetKeepsZero(b, n);
    }
    AlignFromKeepsZeroBank(sampleRate, cfg, Snapshot(PreparedBank(b, prev, n), ClearChannels(audio, totalIn, totalOut)));
  }

  /** When channels 1..n-1 are silent at a sample, the mix leaves channel 0's
      own sample there divided by `n`. */
  lemma MixOfSilentRest(audio: seq<seq<real>>, n: nat, j: nat)
    requires 1 <= n <= |audio| && Rectangular(audio)
    requires j < |audio[0]|
    requires forall c :: 1 <= c < n ==> audio[c][j] == 0.0
    ensures Mix(audio, n)[0][j] == audio[0][j] / n as real
  {
    ChannelSumOfSilentRest(audio, n, j);
    var m := Mean(audio, n, j);
    assert m * n as real == audio[0][j];
  }

  /** With an all-zero bank and `delSampleMax > 0`, the channel loop leaves
      channel 0 as it is and silences every channel in 1..N-1. */
  lemma PositiveCaseAlignedSilence(sampleRate: real, cfg: Config, s: Snapshot, j: nat)
    requires ValidConfig(cfg) && RoutesFit(sampleRate, cfg)
    requires Fits(s, cfg.numMicrophones) && Rectangular(s.audio)
    requires AllZero(s.bank.delayBuffer)
    requires Delay(cfg.numMicrophones, sampleRate, cfg) > 0
    requires j < |s.audio[0]|
    ensures var r := AlignFrom(0, sampleRate, cfg, s);
      Rectangular(r.audio) && r.audio[0][j] == s.audio[0][j] &&
      forall c :: 1 <= c < cfg.numMicrophones ==> r.audio[c][j] == 0.0
  {
    AlignFromKeepsZeroBank(sampleRate, cfg, s);
    PositiveCaseRouting(sampleRate, cfg, s, 0);
    forall c | 1 <= c < cfg.numMicrophones
      ensures ChannelDelay(c, sampleRate, cfg).Some?
    {
    }
  }

  /** With an all-zero bank and `delSampleMax > 0`, every channel from 1 on is
      delayed into silence, so the block's output in channel 0 is channel 0's
      input divided by N: a signal on any other microphone never reaches the
      output, however many samples later. */
  lemma PositiveCaseOutputIsChannelZero(b: Bank, prev: int, sampleRate: real, cfg: Config,
                                        totalIn: int, totalOut: int, audio: seq<seq<real>>, j: nat)
    requires ValidConfig(cfg) && RoutesFit(sampleRate, cfg)
    requires Sized(b, prev)
    requires cfg.numMicrophones <= |audio| && Rectangular(audio)
    requires AllZero(b.delayBuffer)
    requires Delay(cfg.numMicrophones, sampleRate, cfg) > 0
    requires j < |audio[0]|
    ensures Block(b, prev, sampleRate, cfg, totalIn, totalOut, audio).audio[0][j]
            == ClearChannels(audio, totalIn, totalOut)[0][j] / cfg.numMicrophones as real
  {
    var n := cfg.numMicrophones;
    PreparedBankIffSameCount(b, prev, n);
    if prev != n {
      ResetKeepsZero(b, n);
    }
    var s := Snapshot(PreparedBank(b, prev, n), ClearChannels(audio, totalIn, totalOut));
    var aligned := AlignedBlock(b, prev, sampleRate, cfg, totalIn, totalOut, audio);
    assert aligned == AlignFrom(0, sampleRate, cfg, s);
    PositiveCaseAlignedSilence(sampleRate, cfg, s, j);
    MixOfSilentRest(aligned.audio, n, j);
  }
}
