/** The BeamMaxx audio processor: the state it keeps between audio callbacks
    and the methods that update it, each proved against the functions of
    `BeamformerEngine` and `DelayLineBank`. */
module PluginProcessor {
  import opened DelayLineBank
  import opened BeamformerEngine

  /** The host's audio buffer (channels by samples) holds exactly `audio`. */
  ghost predicate Holds(buffer: array2<real>, audio: seq<seq<real>>)
    reads buffer
  {
    buffer.Length0 == |audio| &&
    (forall c :: 0 <= c < |audio| ==> |audio[c]| == buffer.Length1) &&
    (forall c, j :: 0 <= c < buffer.Length0 && 0 <= j < buffer.Length1 ==> buffer[c, j] == audio[c][j])
  }

  /** Zero-fills the output channels `totalIn..totalOut-1`, which carry no input. */
  method ClearUnusedOutputs(buffer: array2<real>, totalIn: int, totalOut: int, ghost audio: seq<seq<real>>)
    requires 0 <= totalIn && totalOut <= buffer.Length0
    requires Holds(buffer, audio)
    modifies buffer
    ensures Holds(buffer, ClearChannels(audio, totalIn, totalOut))
  {
    var i := totalIn;
    while i < totalOut
      invariant totalIn <= i && (i <= totalOut || i == totalIn)
      invariant forall c, j :: 0 <= c < buffer.Length0 && 0 <= j < buffer.Length1 ==>
        buffer[c, j] == if totalIn <= c < i then 0.0 else audio[c][j]
    {
      forall j | 0 <= j < buffer.Length1 {
        buffer[i, j] := 0.0;
      }
      i := i + 1;
    }
  }

  /** The final mix: adds channels 1..n-1 into channel 0, sample by sample,
      then divides channel 0 by n. */
  method MixDown(buffer: array2<real>, n: int, ghost audio: seq<seq<real>>)
    requires 1 <= n <= buffer.Length0
    requires Holds(buffer, audio)
    modifies buffer
    ensures Rectangular(audio) && Holds(buffer, Mix(audio, n))
  {
    var channel := 1;
    while channel < n
      invariant 1 <= channel <= n
      invariant forall j :: 0 <= j < buffer.Length1 ==> buffer[0, j] == ChannelSum(audio, channel, j)
      invariant forall c, j :: 1 <= c < buffer.Length0 && 0 <= j < buffer.Length1 ==> buffer[c, j] == audio[c][j]
    {
      var sample := 0;
      while sample < buffer.Length1
        invariant 0 <= sample <= buffer.Length1
        invariant forall j :: 0 <= j < sample ==> buffer[0, j] == ChannelSum(audio, channel + 1, j)
        invariant forall j :: sample <= j < buffer.Length1 ==> buffer[0, j] == ChannelSum(audio, channel, j)
        invariant forall c, j :: 1 <= c < buffer.Length0 && 0 <= j < buffer.Length1 ==> buffer[c, j] == audio[c][j]
      {
        buffer[0, sample] := buffer[0, sample] + buffer[channel, sample];
        sample := sample + 1;
      }
      channel := channel + 1;
    }
    var sample := 0;
    while sample < buffer.Length1
      invariant 0 <= sample <= buffer.Length1
      invariant forall j :: 0 <= j < sample ==> buffer[0, j] == Mean(audio, n, j)
      invariant forall j :: sample <= j < buffer.Length1 ==> buffer[0, j] == ChannelSum(audio, n, j)
      invariant forall c, j :: 1 <= c < buffer.Length0 && 0 <= j < buffer.Length1 ==> buffer[c, j] == audio[c][j]
    {
      buffer[0, sample] := buffer[0, sample] / n as real;
      sample := sample + 1;
    }
  }

  class BeamMaxxAudioProcessor {
    /** One delay line per microphone. */
    var delayBuffer: seq<seq<real>>
    /** Per-channel read cursors, parallel to `delayBuffer`. */
    var readIndices: seq<int>
    /** Per-channel write cursors, parallel to `delayBuffer`; nothing advances them. */
    var writeIndices: seq<int>
    /** The microphone count the bank was last sized for (no initializer). */
    var prevNumMicrophones: int
    /** The rounded delay for the whole array, recomputed every block. */
    var delSampleMax: int
    /** The rounded delay of the channel being handled, recomputed every iteration. */
    var delSamples: int
    /** The sample rate handed over by `prepareToPlay`. */
    var sampleRate: real

    /** The bank as a value. */
    function State(): Bank
      reads this
    {
      Bank(delayBuffer, readIndices, writeIndices)
    }

    /** The three vectors are parallel and every line is full-length, whatever
        count they were sized for; every write cursor is at slot 0, since
        nothing ever moves one. */
    ghost predicate Consistent()
      reads this
    {
      Sized(State(), |delayBuffer|) && WriteCursorsAtStart(State())
    }

    /** The bank is sized for `prevNumMicrophones`, with every write cursor at
        slot 0; this holds from the first `prepareToPlay` on. */
    ghost predicate Valid()
      reads this
    {
      Sized(State(), prevNumMicrophones) && WriteCursorsAtStart(State())
    }

    /** A new processor: the three vectors are empty; the other fields have no
        initial value. */
    constructor ()
      ensures delayBuffer == [] && readIndices == [] && writeIndices == []
      ensures Consistent() && AllZero(delayBuffer)
    {
      delayBuffer := [];
      readIndices := [];
      writeIndices := [];
    }

    /** `resetDelays`: resizes the vector of lines to the microphone count,
        resizes every line to `DelayBufferSize` with zeros, resizes both cursor
        vectors with zeros, and records the count. */
    method ResetDelays(numMicrophones: nat)
      requires Consistent()
      modifies this
      ensures State() == ResetBank(old(State()), numMicrophones)
      ensures prevNumMicrophones == numMicrophones && Valid()
      ensures AllZero(old(delayBuffer)) ==> AllZero(delayBuffer)
      ensures delSampleMax == old(delSampleMax) && delSamples == old(delSamples) && sampleRate == old(sampleRate)
    {
      ghost var b := State();
      delayBuffer := Resize(delayBuffer, numMicrophones, []);
      ghost var lines := delayBuffer;
      var i := 0;
      while i < numMicrophones
        invariant 0 <= i <= numMicrophones && |delayBuffer| == numMicrophones
        invariant forall k :: 0 <= k < i ==> delayBuffer[k] == Resize(lines[k], DelayBufferSize, 0.0)
        invariant forall k :: i <= k < numMicrophones ==> delayBuffer[k] == lines[k]
        invariant readIndices == b.readIndices && writeIndices == b.writeIndices
        invariant delSampleMax == old(delSampleMax) && delSamples == old(delSamples) && sampleRate == old(sampleRate)
      {
        delayBuffer := delayBuffer[i := Resize(delayBuffer[i], DelayBufferSize, 0.0)];
        i := i + 1;
      }
      readIndices := Resize(readIndices, numMicrophones, 0);
      writeIndices := Resize(writeIndices, numMicrophones, 0);
      prevNumMicrophones := numMicrophones;
      assert delayBuffer == ResetBank(b, numMicrophones).delayBuffer;
      ResetKeepsWriteCursorsAtStart(b, numMicrophones);
      if AllZero(b.delayBuffer) {
        ResetKeepsZero(b, numMicrophones);
      }
    }

    /** `prepareToPlay`: records the sample rate and resets the bank for the
        configured microphone count. */
    method PrepareToPlay(newSampleRate: real, samplesPerBlock: int, numMicrophones: int)
      requires Consistent()
      requires 2 <= numMicrophones <= 64
      modifies this
      ensures sampleRate == newSampleRate
      ensures State() == ResetBank(old(State()), numMicrophones)
      ensures prevNumMicrophones == numMicrophones && Valid()
      ensures AllZero(old(delayBuffer)) ==> AllZero(delayBuffer)
      ensures delSampleMax == old(delSampleMax) && delSamples == old(delSamples)
    {
      sampleRate := newSampleRate;
      ResetDelays(numMicrophones);
    }

    /** One delayed channel for one block: the read cursor becomes the write
        cursor minus the delay, wrapped once; then, sample by sample, the output
        sample is taken from the line at the read cursor and the (now
        overwritten) buffer sample is stored at the write cursor. */
    method DelayChannel(buffer: array2<real>, ch: nat, d: int, ghost audio: seq<seq<real>>)
      requires Sized(State(), |delayBuffer|) && ch < |delayBuffer| && ch < buffer.Length0
      requires 0 <= d <= DelayBufferSize
      requires Holds(buffer, audio)
      modifies this, buffer
      ensures var lane := DelayLane(old(delayBuffer[ch]), old(writeIndices[ch]), d, audio[ch]);
        delayBuffer == old(delayBuffer)[ch := lane.line] &&
        readIndices == old(readIndices)[ch := lane.readIndex] &&
        Holds(buffer, audio[ch := lane.samples])
      ensures writeIndices == old(writeIndices) && prevNumMicrophones == old(prevNumMicrophones)
      ensures delSampleMax == old(delSampleMax) && delSamples == old(delSamples) && sampleRate == old(sampleRate)
    {
      readIndices := readIndices[ch := writeIndices[ch] - d];
      if readIndices[ch] < 0 {
        readIndices := readIndices[ch := DelayBufferSize + readIndices[ch]];
      }
      ghost var line := delayBuffer[ch];
      ghost var r := readIndices[ch];
      ghost var w := writeIndices[ch];
      assert r == WrapReadIndex(w, d);
      var sample := 0;
      while sample < buffer.Length1
        invariant 0 <= sample <= buffer.Length1
        invariant delayBuffer == if sample == 0 then old(delayBuffer) else old(delayBuffer)[ch := line[w := line[r]]]
        invariant readIndices == old(readIndices)[ch := r] && writeIndices == old(writeIndices)
        invariant prevNumMicrophones == old(prevNumMicrophones)
        invariant delSampleMax == old(delSampleMax) && delSamples == old(delSamples) && sampleRate == old(sampleRate)
        invariant forall j :: 0 <= j < sample ==> buffer[ch, j] == line[r]
        invariant forall c, j :: 0 <= c < buffer.Length0 && 0 <= j < buffer.Length1 && (c != ch || sample <= j) ==>
          buffer[c, j] == audio[c][j]
      {
        buffer[ch, sample] := delayBuffer[ch][readIndices[ch]];
        assert buffer[ch, sample] == line[r];
        delayBuffer := delayBuffer[ch := delayBuffer[ch][writeIndices[ch] := buffer[ch, sample]]];
        assert delayBuffer[ch] == line[w := line[r]];
        sample := sample + 1;
      }
      ghost var lane := DelayLane(line, w, d, audio[ch]);
      assert |audio[ch]| == buffer.Length1;
      assert delayBuffer == old(delayBuffer)[ch := lane.line];
    }

    /** Iteration `channel` of the channel loop: `delSamples` is recomputed,
        then the channel the two-case policy picks, if any, goes through its
        delay line. */
    method ChannelIteration(buffer: array2<real>, channel: nat, cfg: Config, ghost cur: Snapshot)
      requires ValidConfig(cfg) && RoutesFit(sampleRate, cfg) && channel < cfg.numMicrophones - 1
      requires delSampleMax == Delay(cfg.numMicrophones, sampleRate, cfg)
      requires Fits(cur, cfg.numMicrophones) && State() == cur.bank && Holds(buffer, cur.audio)
      modifies this, buffer
      ensures sampleRate == old(sampleRate)
      ensures var next := Apply(Plan(channel, sampleRate, cfg), cur, cfg.numMicrophones);
        State() == next.bank && Holds(buffer, next.audio)
      ensures delSamples == LoopDelSamples(channel, sampleRate, cfg)
      ensures prevNumMicrophones == old(prevNumMicrophones) && delSampleMax == old(delSampleMax)
    {
      var st := Plan(channel, sampleRate, cfg);
      delSamples := Delay(channel + 1, sampleRate, cfg);
      if delSampleMax > 0 {
        assert st == Route(channel + 1, delSamples);
        DelayChannel(buffer, channel + 1, delSamples, cur.audio);
      } else {
        delSamples := Abs(delSampleMax - delSamples);
        if delSamples > 0 {
          assert st == Route(channel, delSamples);
          DelayChannel(buffer, channel, delSamples, cur.audio);
        } else {
          assert st == Skip;
        }
      }
    }

    /** The channel loop: iterations 0..N-2, each handled by `ChannelIteration`. */
    method AlignChannels(buffer: array2<real>, cfg: Config, ghost start: Snapshot)
      requires ValidConfig(cfg) && RoutesFit(sampleRate, cfg)
      requires delSampleMax == Delay(cfg.numMicrophones, sampleRate, cfg)
      requires Fits(start, cfg.numMicrophones) && State() == start.bank && Holds(buffer, start.audio)
      modifies this, buffer
      ensures sampleRate == old(sampleRate)
      ensures var r := AlignFrom(0, sampleRate, cfg, start);
        State() == r.bank && Holds(buffer, r.audio)
      ensures delSamples == LoopDelSamples(cfg.numMicrophones - 2, sampleRate, cfg)
      ensures prevNumMicrophones == old(prevNumMicrophones) && delSampleMax == old(delSampleMax)
    {
      var n := cfg.numMicrophones;
      ghost var cur := start;
      var channel := 0;
      while channel < n - 1
        invariant 0 <= channel <= n - 1
        invariant prevNumMicrophones == old(prevNumMicrophones) && sampleRate == old(sampleRate)
        invariant delSampleMax == Delay(n, sampleRate, cfg)
        invariant Fits(cur, n) && State() == cur.bank && Holds(buffer, cur.audio)
        invariant AlignFrom(channel, sampleRate, cfg, cur) == AlignFrom(0, sampleRate, cfg, start)
        invariant channel > 0 ==> delSamples == LoopDelSamples(channel - 1, sampleRate, cfg)
      {
        ChannelIteration(buffer, channel, cfg, cur);
        cur := Apply(Plan(channel, sampleRate, cfg), cur, n);
        channel := channel + 1;
      }
    }

    /** `processBlock`: resets the bank when the configured count changed,
        zero-fills the unused outputs, computes `delSampleMax`, runs the channel
        loop with its two-case policy and mixes the aligned channels into
        channel 0. The parameters are one block's snapshot. */
    method ProcessBlock(buffer: array2<real>, cfg: Config, totalIn: int, totalOut: int,
                        ghost audio: seq<seq<real>>)
      requires Valid() && ValidConfig(cfg) && RoutesFit(sampleRate, cfg)
      requires cfg.numMicrophones <= buffer.Length0
      requires 0 <= totalIn && totalOut <= buffer.Length0
      requires Holds(buffer, audio)
      modifies this, buffer
      ensures Valid() && prevNumMicrophones == cfg.numMicrophones && sampleRate == old(sampleRate)
      ensures Rectangular(audio) &&
        var r := Block(old(State()), old(prevNumMicrophones), sampleRate, cfg, totalIn, totalOut, audio);
        State() == r.bank && Holds(buffer, r.audio)
      ensures delSampleMax == Delay(cfg.numMicrophones, sampleRate, cfg)
      ensures delSamples == LoopDelSamples(cfg.numMicrophones - 2, sampleRate, cfg)
      ensures AllZero(old(delayBuffer)) ==> AllZero(delayBuffer)
    {
      var n := cfg.numMicrophones;
      ghost var b := State();
      ghost var prev := prevNumMicrophones;
      if prevNumMicrophones != n {
        ResetDelays(n);
      }
      PreparedBankIffSameCount(b, prev, n);
      assert State() == PreparedBank(b, prev, n);
      ClearUnusedOutputs(buffer, totalIn, totalOut, audio);
      ghost var start := Snapshot(State(), ClearChannels(audio, totalIn, totalOut));
      delSampleMax := Delay(n, sampleRate, cfg);
      AlignChannels(buffer, cfg, start);
      ghost var aligned := AlignedBlock(b, prev, sampleRate, cfg, totalIn, totalOut, audio);
      assert aligned == AlignFrom(0, sampleRate, cfg, start);
      MixDown(buffer, n, aligned.audio);
      BlockKeepsWriteCursorsAtStart(b, prev, sampleRate, cfg, totalIn, totalOut, audio);
      if AllZero(b.delayBuffer) {
        BlockKeepsZeroBank(b, prev, sampleRate, cfg, totalIn, totalOut, audio);
      }
    }
  }
}
