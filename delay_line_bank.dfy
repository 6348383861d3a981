/** The delay-line bank of the BeamMaxx processor: one fixed-capacity line of
    samples per microphone, with a read cursor and a write cursor per line held
    in two vectors parallel to the lines. */
module DelayLineBank {

  /** Capacity of every delay line (`delayBufferSize`). It is a constant: it does
      not depend on the microphone count, the spacing or the sample rate. */
  const DelayBufferSize: nat := 256

  /** The three parallel vectors `delayBuffer`, `readIndices` and `writeIndices`. */
  datatype Bank = Bank(delayBuffer: seq<seq<real>>, readIndices: seq<int>, writeIndices: seq<int>)

  /** The bank has exactly `n` lines and `n` cursors of each kind, and every line
      holds `DelayBufferSize` samples. */
  predicate Shaped(b: Bank, n: int)
  {
    |b.delayBuffer| == n && |b.readIndices| == n && |b.writeIndices| == n &&
    forall i :: 0 <= i < n ==> |b.delayBuffer[i]| == DelayBufferSize
  }

  /** A shaped bank whose cursors all point inside their line. */
  predicate Sized(b: Bank, n: int)
  {
    Shaped(b, n) &&
    (forall i :: 0 <= i < n ==> 0 <= b.readIndices[i] < DelayBufferSize) &&
    (forall i :: 0 <= i < n ==> 0 <= b.writeIndices[i] < DelayBufferSize)
  }

  /** Every sample of every line is zero. */
  predicate AllZero(lines: seq<seq<real>>)
  {
    forall i, j :: 0 <= i < |lines| && 0 <= j < |lines[i]| ==> lines[i][j] == 0.0
  }

  /** Every write cursor is at slot 0. */
  predicate WriteCursorsAtStart(b: Bank)
  {
    forall i :: 0 <= i < |b.writeIndices| ==> b.writeIndices[i] == 0
  }

  /** `std::vector::resize(n, fill)`: keeps the first `n` elements and appends
      copies of `fill` when the vector grows. */
  function Resize<T>(s: seq<T>, n: nat, fill: T): (r: seq<T>)
    ensures |r| == n
    ensures forall i :: 0 <= i < n && i < |s| ==> r[i] == s[i]
    ensures forall i :: |s| <= i < n ==> r[i] == fill
  {
    if n <= |s| then s[..n] else s + seq(n - |s|, _ => fill)
  }

  /** The bank after `resetDelays` for `n` microphones: the vector of lines is
      resized to `n`, every line is resized to `DelayBufferSize` with zeros, and
      both cursor vectors are resized to `n` with zeros. Nothing that already
      existed is cleared. */
  function ResetBank(b: Bank, n: nat): (r: Bank)
    ensures Shaped(r, n)
    ensures forall i, j :: 0 <= i < n && 0 <= j < DelayBufferSize ==>
      r.delayBuffer[i][j] ==
        if i < |b.delayBuffer| && j < |b.delayBuffer[i]| then b.delayBuffer[i][j] else 0.0
    ensures forall i :: 0 <= i < n && i < |b.delayBuffer| && |b.delayBuffer[i]| == DelayBufferSize ==>
      r.delayBuffer[i] == b.delayBuffer[i]
    ensures forall i :: 0 <= i < n ==> r.readIndices[i] == if i < |b.readIndices| then b.readIndices[i] else 0
    ensures forall i :: 0 <= i < n ==> r.writeIndices[i] == if i < |b.writeIndices| then b.writeIndices[i] else 0
    ensures Sized(b, |b.delayBuffer|) ==> Sized(r, n)
  {
    var lines := Resize(b.delayBuffer, n, []);
    Bank(seq(n, i requires 0 <= i < n => Resize(lines[i], DelayBufferSize, 0.0)),
         Resize(b.readIndices, n, 0),
         Resize(b.writeIndices, n, 0))
  }

  /** Resetting a bank that is already shaped for `n` microphones changes nothing. */
  lemma ResetShapedIsIdentity(b: Bank, n: nat)
    requires Shaped(b, n)
    ensures ResetBank(b, n) == b
  {
    var r := ResetBank(b, n);
    forall i | 0 <= i < n
      ensures r.delayBuffer[i] == b.delayBuffer[i]
    {
    }
    assert r.delayBuffer == b.delayBuffer;
    assert r.readIndices == b.readIndices;
    assert r.writeIndices == b.writeIndices;
  }

  /** Calling `resetDelays` twice with the same count leaves the state of one call. */
  lemma ResetIdempotent(b: Bank, n: nat)
    ensures ResetBank(ResetBank(b, n), n) == ResetBank(b, n)
  {
    ResetShapedIsIdentity(ResetBank(b, n), n);
  }

  /** Resetting never puts a non-zero sample into an all-zero bank. */
  lemma ResetKeepsZero(b: Bank, n: nat)
    requires AllZero(b.delayBuffer)
    ensures AllZero(ResetBank(b, n).delayBuffer)
  {
    var r := ResetBank(b, n);
    forall i, j | 0 <= i < |r.delayBuffer| && 0 <= j < |r.delayBuffer[i]|
      ensures r.delayBuffer[i][j] == 0.0
    {
    }
  }

  /** Resetting only ever adds write cursors at slot 0. */
  lemma ResetKeepsWriteCursorsAtStart(b: Bank, n: nat)
    requires WriteCursorsAtStart(b)
    ensures WriteCursorsAtStart(ResetBank(b, n))
  {
    var r := ResetBank(b, n);
    forall i | 0 <= i < |r.writeIndices|
      ensures r.writeIndices[i] == 0
    {
    }
  }

  /** The read cursor `writeIndex - delay`, with the capacity added once when it
      is negative. */
  function WrapReadIndex(w: int, d: int): (r: int)
    ensures w - d >= 0 ==> r == w - d
    ensures w - d < 0 ==> r == w - d + DelayBufferSize
    ensures 0 <= w < DelayBufferSize && 0 <= d <= DelayBufferSize ==> 0 <= r < DelayBufferSize
    ensures 0 <= r < DelayBufferSize ==> r == (w - d) % DelayBufferSize
    ensures w - d < -(DelayBufferSize as int) ==> r < 0
  {
    var r := w - d;
    if r < 0 then DelayBufferSize + r else r
  }

  /** What one block does to one delayed channel: its new line, its new read
      cursor and its new samples. */
  datatype Lane = Lane(line: seq<real>, readIndex: int, samples: seq<real>)

  /** One delayed channel over one block when the cursors stay put: the read
      cursor is `WrapReadIndex(w, d)`, every output sample is the line's sample
      at that cursor as it was at block start, and the only slot written is the
      one under the write cursor, which receives that same value (nothing is
      written when the block is empty). */
  function DelayLane(line: seq<real>, w: int, d: int, samples: seq<real>): (lane: Lane)
    requires |line| == DelayBufferSize && 0 <= w < DelayBufferSize && 0 <= d <= DelayBufferSize
    ensures 0 <= lane.readIndex < DelayBufferSize && lane.readIndex == WrapReadIndex(w, d)
    ensures |lane.samples| == |samples| && |lane.line| == DelayBufferSize
    ensures forall j :: 0 <= j < |samples| ==> lane.samples[j] == line[lane.readIndex]
    ensures forall j :: 0 <= j < DelayBufferSize && j != w ==> lane.line[j] == line[j]
    ensures lane.line[w] == if |samples| == 0 then line[w] else line[lane.readIndex]
  {
    var r := WrapReadIndex(w, d);
    var v := line[r];
    Lane(if |samples| == 0 then line else line[w := v], r, seq(|samples|, _ => v))
  }

  /** A delayed channel whose line is all zero keeps it all zero and outputs
      silence. */
  lemma DelayLaneOfZeroLine(line: seq<real>, w: int, d: int, samples: seq<real>)
    requires |line| == DelayBufferSize && 0 <= w < DelayBufferSize && 0 <= d <= DelayBufferSize
    requires forall j :: 0 <= j < |line| ==> line[j] == 0.0
    ensures var lane := DelayLane(line, w, d, samples);
      (forall j :: 0 <= j < |lane.line| ==> lane.line[j] == 0.0) &&
      (forall j :: 0 <= j < |lane.samples| ==> lane.samples[j] == 0.0)
  {
    var lane := DelayLane(line, w, d, samples);
    assert line[lane.readIndex] == 0.0;
  }
}
