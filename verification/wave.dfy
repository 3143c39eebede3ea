/**
 * `WaveUtil.kt`: `parseWavFile`, the walk over the chunks of a RIFF/WAVE
 * file ("Waveform Audio File Format", Multimedia Programming Interface and
 * Data Specifications 1.0), and the catch of `getSamples` that turns a
 * failed parse into no samples.
 *
 * The file's bytes are a parameter (reading the file is I/O). Samples are
 * the signed 16-bit values; their scaling to floats by `Short.MAX_VALUE`
 * is left out.
 */
module Wave {
  import opened Bytes
  import opened Outcomes

  /** The four-byte identifiers, in ASCII: "RIFF", "WAVE", "fmt ", "data".
      `String(bytes)` equals one of these names exactly when the bytes are
      its ASCII codes. */
  const RiffId: seq<byte> := [0x52, 0x49, 0x46, 0x46]
  const WaveId: seq<byte> := [0x57, 0x41, 0x56, 0x45]
  const FmtId: seq<byte> := [0x66, 0x6D, 0x74, 0x20]
  const DataId: seq<byte> := [0x64, 0x61, 0x74, 0x61]

  /** The size of the RIFF header and the "fmt " and "data" chunk headers
      of a canonical file: anything shorter is refused outright. */
  const MinimumSize: nat := 44

  /** A JVM byte array holds at most `Int.MAX_VALUE` bytes. */
  predicate IsByteArray(bs: seq<byte>) {
    |bs| < TwoTo31
  }

  /** What `parseWavFile` ends with: the samples it returns, or an exception
      from the buffer (`BufferUnderflowException` when a field runs past the
      end, `IllegalArgumentException` when a chunk size moves the position
      outside the buffer). */
  datatype Wav = Samples(values: seq<int>) | Faulted

  /** One turn of the chunk loop: go on at a new position, return samples,
      or throw. */
  datatype Step = Next(pos: int) | Found(values: seq<int>) | Fault

  /** `chunkSize / 2`, rounded toward zero as Kotlin does; a count that is
      not positive reads nothing. */
  function SampleCount(size: int): nat {
    if size < 0 then 0 else size / 2
  }

  /** The samples of a "data" chunk whose bytes start at `q`: as many
      little-endian 16-bit values as the size announces, or fewer when the
      buffer ends first. */
  function DataSamples(bs: seq<byte>, q: nat, size: int): (v: seq<int>)
    requires q <= |bs|
    ensures |v| <= SampleCount(size) && q + 2 * |v| <= |bs|
    ensures |v| < SampleCount(size) ==> q + 2 * |v| + 2 > |bs|
    ensures forall i :: 0 <= i < |v| ==> v[i] == Int16At(bs, q + 2 * i) && IsInt16(v[i])
  {
    var available := (|bs| - q) / 2;
    var count := if SampleCount(size) < available then SampleCount(size) else available;
    seq(count, i requires 0 <= i < count => Int16At(bs, q + 2 * i))
  }

  /** `buffer.position(target)` on a buffer of `limit` bytes: accepted only
      within the buffer. */
  function MoveTo(limit: nat, target: int): (s: Step)
    ensures s.Next? <==> 0 <= target <= limit
    ensures s.Next? ==> s.pos == target
    ensures !s.Next? ==> s.Fault?
  {
    if 0 <= target <= limit then Next(target) else Fault
  }

  /** The turn decided by a chunk header: its identifier `id` and `size`,
      the position `q` just after them in a buffer of `limit` bytes, and the
      `samples` a "data" chunk there holds. "fmt " reads its six fields
      (16 bytes) and passes over any extra format bytes, "data" returns its
      samples, and any other chunk is skipped by its size. The position
      arithmetic is Kotlin `Int` arithmetic. */
  function Turn(id: seq<byte>, size: int, q: nat, limit: nat, samples: seq<int>): Step
    requires q <= limit
  {
    if id == FmtId then
      if limit - q < 16 then Fault
      else
        var extra := WrapInt32(size - 16);
        if extra > 0 then MoveTo(limit, WrapInt32(q + 16 + extra)) else Next(q + 16)
    else if id == DataId then Found(samples)
    else MoveTo(limit, WrapInt32(q + size))
  }

  /** One chunk at `pos`, as `parseWavFile` handles it. */
  function ChunkStep(bs: seq<byte>, pos: nat): Step
    requires pos + 8 <= |bs|
  {
    var size := Int32At(bs, pos + 4);
    Turn(bs[pos..pos + 4], size, pos + 8, |bs|, DataSamples(bs, pos + 8, size))
  }

  /** The chunk loop as written, given `fuel` turns: `None` when the turns
      run out before the loop ends. */
  function WalkAsWritten(bs: seq<byte>, pos: nat, fuel: nat): Option<Wav>
    requires pos <= |bs|
    decreases fuel
  {
    if fuel == 0 then None
    else if |bs| - pos < 8 then Some(Samples([]))
    else match ChunkStep(bs, pos)
      case Next(p) => if 0 <= p <= |bs| then WalkAsWritten(bs, p, fuel - 1) else None
      case Found(v) => Some(Samples(v))
      case Fault => Some(Faulted)
  }

  /** Whether the chunk at `pos` is one the loop skips by a negative size. */
  predicate SkipsBack(bs: seq<byte>, pos: nat)
    requires pos + 8 <= |bs|
  {
    bs[pos..pos + 4] != FmtId && bs[pos..pos + 4] != DataId && Int32At(bs, pos + 4) < 0
  }

  /** The chunk step with a negative skip refused: every turn that goes on
      moves the position forward by at least the eight header bytes. */
  function CheckedStep(bs: seq<byte>, pos: nat): (s: Step)
    requires IsByteArray(bs) && pos + 8 <= |bs|
    ensures s.Next? ==> pos + 8 <= s.pos <= |bs|
    ensures !SkipsBack(bs, pos) ==> s == ChunkStep(bs, pos)
    ensures SkipsBack(bs, pos) ==> s == Fault
  {
    if SkipsBack(bs, pos) then Fault else ChunkStep(bs, pos)
  }

  /** The chunk loop from `pos`, with negative skips refused. */
  function Walk(bs: seq<byte>, pos: nat): Wav
    requires IsByteArray(bs) && pos <= |bs|
    decreases |bs| - pos
  {
    if |bs| - pos < 8 then Samples([])
    else match CheckedStep(bs, pos)
      case Next(p) => Walk(bs, p)
      case Found(v) => Samples(v)
      case Fault => Faulted
  }

  /** `parseWavFile`: too short, or a header that is not "RIFF" ... "WAVE",
      gives no samples; bytes 4 to 7 (the RIFF size) are read and ignored;
      the chunks are walked from byte 12. */
  function ParseWav(bs: seq<byte>): Wav
    requires IsByteArray(bs)
  {
    if |bs| < MinimumSize then Samples([])
    else if bs[0..4] != RiffId then Samples([])
    else if bs[8..12] != WaveId then Samples([])
    else Walk(bs, 12)
  }

  /** The samples `getSamples` hands on: any exception of the parse is
      caught and gives none. */
  function Extracted(bs: seq<byte>): seq<int>
    requires IsByteArray(bs)
  {
    match ParseWav(bs)
    case Samples(v) => v
    case Faulted => []
  }

  // ---------------------------------------------------------------------
  // The loop as written never ends on a chunk of size -8
  // ---------------------------------------------------------------------

  /** A 44-byte file whose first chunk after the header is an unknown
      chunk "junk" of size -8, followed by zero bytes. */
  const Stuck: seq<byte> :=
    RiffId + [0, 0, 0, 0] + WaveId + [0x6A, 0x75, 0x6E, 0x6B] + [0xF8, 0xFF, 0xFF, 0xFF]
    + seq(24, _ => 0 as byte)

  /** As written, the skip by -8 brings the position back to the chunk it
      just read, whatever the number of turns: the loop never ends. The
      checked walk refuses the chunk instead. */
  lemma {:induction false} StuckNeverEndsAsWritten(fuel: nat)
    ensures |Stuck| == MinimumSize && Stuck[0..4] == RiffId && Stuck[8..12] == WaveId
    ensures WalkAsWritten(Stuck, 12, fuel) == None
    ensures Extracted(Stuck) == []
  {
    assert Stuck[12..16] == [0x6A, 0x75, 0x6E, 0x6B];
    assert Stuck[16..20] == Int32Bytes(-8);
    Int32AtBytes(Stuck, 16, 20, -8);
    assert ChunkStep(Stuck, 12) == Next(12);
    if fuel > 0 {
      StuckNeverEndsAsWritten(fuel - 1);
    }
  }

  /** A walk that meets no negative skip, from `pos` on. */
  predicate Forward(bs: seq<byte>, pos: nat)
    requires IsByteArray(bs) && pos <= |bs|
    decreases |bs| - pos
  {
    |bs| - pos < 8
    || (!SkipsBack(bs, pos) && match CheckedStep(bs, pos) case Next(p) => Forward(bs, p) case _ => true)
  }

  /** Where no chunk is skipped by a negative size, refusing negative skips
      changes nothing: the loop as written ends, within one turn per byte,
      with the checked walk's result. */
  lemma {:induction false} AsWrittenAgrees(bs: seq<byte>, pos: nat, fuel: nat)
    requires IsByteArray(bs) && pos <= |bs| && Forward(bs, pos)
    requires fuel > |bs| - pos
    ensures WalkAsWritten(bs, pos, fuel) == Some(Walk(bs, pos))
    decreases |bs| - pos
  {
    if |bs| - pos >= 8 {
      var s := CheckedStep(bs, pos);
      assert s == ChunkStep(bs, pos);
      if s.Next? {
        assert Forward(bs, s.pos);
        AsWrittenAgrees(bs, s.pos, fuel - 1);
      }
    }
  }

  // ---------------------------------------------------------------------
  // What the walk reads
  // ---------------------------------------------------------------------

  /** The samples of a "data" chunk depend only on the bytes from `q` on. */
  lemma DataSamplesSame(bs: seq<byte>, bs': seq<byte>, q: nat, size: int)
    requires q <= |bs| && |bs'| == |bs|
    requires forall k :: q <= k < |bs| ==> bs[k] == bs'[k]
    ensures DataSamples(bs, q, size) == DataSamples(bs', q, size)
  {
    var v, v' := DataSamples(bs, q, size), DataSamples(bs', q, size);
    forall i | 0 <= i < |v|
      ensures v[i] == v'[i]
    {
      ValueAtSame(bs, bs', q + 2 * i, 2);
    }
  }

  /** A chunk step reads only the bytes from its own position on. */
  lemma StepSameAfter(bs: seq<byte>, bs': seq<byte>, pos: nat)
    requires IsByteArray(bs) && |bs'| == |bs| && pos + 8 <= |bs|
    requires forall k :: pos <= k < |bs| ==> bs[k] == bs'[k]
    ensures CheckedStep(bs, pos) == CheckedStep(bs', pos)
  {
    assert bs[pos..pos + 4] == bs'[pos..pos + 4];
    ValueAtSame(bs, bs', pos + 4, 4);
    DataSamplesSame(bs, bs', pos + 8, Int32At(bs, pos + 4));
  }

  /** The walk from `pos` reads only the bytes from `from` on, for any
      `from` up to `pos`: it never moves back. */
  lemma {:induction false} WalkSameAfter(bs: seq<byte>, bs': seq<byte>, from: nat, pos: nat)
    requires IsByteArray(bs) && |bs'| == |bs| && from <= pos <= |bs|
    requires forall k :: from <= k < |bs| ==> bs[k] == bs'[k]
    ensures Walk(bs, pos) == Walk(bs', pos)
    decreases |bs| - pos
  {
    if |bs| - pos >= 8 {
      StepSameAfter(bs, bs', pos);
      match CheckedStep(bs, pos)
      case Next(p) =>
        WalkSameAfter(bs, bs', from, p);
      case _ =>
    }
  }

  /** Bytes 4 to 7, the RIFF size, do not matter: any four bytes there give
      the same result. */
  lemma RiffSizeIgnored(bs: seq<byte>, riffSize: seq<byte>)
    requires IsByteArray(bs) && |bs| >= 8 && |riffSize| == 4
    ensures IsByteArray(bs[..4] + riffSize + bs[8..])
    ensures ParseWav(bs[..4] + riffSize + bs[8..]) == ParseWav(bs)
  {
    var bs' := bs[..4] + riffSize + bs[8..];
    assert forall k :: 8 <= k < |bs| ==> bs'[k] == bs[k];
    if |bs| >= MinimumSize {
      assert bs'[0..4] == bs[0..4] && bs'[8..12] == bs[8..12];
      WalkSameAfter(bs, bs', 8, 12);
    }
  }

  // ---------------------------------------------------------------------
  // The canonical file the parser is written for
  // ---------------------------------------------------------------------

  /** The samples one after the other, two little-endian bytes each. */
  function EncodeShorts(values: seq<int>): (bs: seq<byte>)
    requires forall i :: 0 <= i < |values| ==> IsInt16(values[i])
    ensures |bs| == 2 * |values|
  {
    seq(2 * |values|, j requires 0 <= j < 2 * |values| => Int16Bytes(values[j / 2])[j % 2])
  }

  /** Whether samples fit a file a byte array can hold. */
  predicate Writable(format: seq<byte>, samples: seq<int>) {
    && |format| == 16 && MinimumSize + 2 * |samples| < TwoTo31
    && forall i :: 0 <= i < |samples| ==> IsInt16(samples[i])
  }

  /** A canonical file: the RIFF header, a 16-byte "fmt " chunk holding
      `format`, and a "data" chunk holding the samples. */
  function WavFile(format: seq<byte>, samples: seq<int>): (bs: seq<byte>)
    requires Writable(format, samples)
    ensures |bs| == MinimumSize + 2 * |samples|
  {
    var n := 2 * |samples|;
    RiffId + Int32Bytes(36 + n) + WaveId + FmtId + Int32Bytes(16) + format + DataId + Int32Bytes(n)
    + EncodeShorts(samples)
  }

  /** Where the parser looks in a canonical file. */
  predicate WavLayout(bs: seq<byte>, samples: seq<int>)
    requires forall i :: 0 <= i < |samples| ==> IsInt16(samples[i])
  {
    var n := 2 * |samples|;
    && |bs| == MinimumSize + n && IsByteArray(bs)
    && bs[0..4] == RiffId && bs[8..12] == WaveId
    && bs[12..16] == FmtId && bs[16..20] == Int32Bytes(16)
    && bs[36..40] == DataId && bs[40..44] == Int32Bytes(n)
    && forall i :: 0 <= i < n ==> bs[MinimumSize + i] == EncodeShorts(samples)[i]
  }

  lemma WavFileLayout(format: seq<byte>, samples: seq<int>)
    requires Writable(format, samples)
    ensures WavLayout(WavFile(format, samples), samples)
  {
    var n := 2 * |samples|;
    var header := RiffId + Int32Bytes(36 + n) + WaveId + FmtId + Int32Bytes(16) + format + DataId + Int32Bytes(n);
    var bs := WavFile(format, samples);
    assert bs == header + EncodeShorts(samples);
    assert bs[..MinimumSize] == header;
    assert header[12..16] == FmtId && header[16..20] == Int32Bytes(16);
    assert header[36..40] == DataId && header[40..44] == Int32Bytes(n);
  }

  /** The sample at index `i` of an encoded run, read back. */
  lemma EncodedShortAt(values: seq<int>, bs: seq<byte>, p: nat, i: nat)
    requires forall j :: 0 <= j < |values| ==> IsInt16(values[j])
    requires i < |values| && p + 2 * |values| <= |bs|
    requires forall j :: 0 <= j < 2 * |values| ==> bs[p + j] == EncodeShorts(values)[j]
    ensures Int16At(bs, p + 2 * i) == values[i]
  {
    var x := Int16Bytes(values[i]);
    assert (2 * i) / 2 == i && (2 * i) % 2 == 0;
    assert (2 * i + 1) / 2 == i && (2 * i + 1) % 2 == 1;
    var e := EncodeShorts(values);
    assert bs[p + 2 * i] == e[2 * i] == x[0];
    assert bs[p + (2 * i + 1)] == e[2 * i + 1] == x[1];
    assert bs[p + 2 * i..p + 2 * i + 2] == x;
    Int16AtBytes(bs, p + 2 * i, p + 2 * i + 2, values[i]);
  }

  /** The walk over a canonical file: the "fmt " chunk is passed over, and
      the "data" chunk gives back every sample. */
  lemma WavLayoutParses(bs: seq<byte>, samples: seq<int>)
    requires forall i :: 0 <= i < |samples| ==> IsInt16(samples[i])
    requires WavLayout(bs, samples)
    ensures ParseWav(bs) == Samples(samples)
  {
    var n := 2 * |samples|;
    Int32AtBytes(bs, 16, 20, 16);
    assert CheckedStep(bs, 12) == Next(36);
    Int32AtBytes(bs, 40, 44, n);
    var v := DataSamples(bs, MinimumSize, n);
    assert |v| == |samples|;
    forall i | 0 <= i < |v|
      ensures v[i] == samples[i]
    {
      EncodedShortAt(samples, bs, MinimumSize, i);
    }
    assert v == samples;
    assert CheckedStep(bs, 36) == Found(samples);
    assert Walk(bs, 12) == Walk(bs, 36) == Samples(samples);
  }

  /** Writing samples to a canonical file and reading it back gives the
      samples, whatever the format fields say. */
  lemma WavRoundTrip(format: seq<byte>, samples: seq<int>)
    requires Writable(format, samples)
    ensures Extracted(WavFile(format, samples)) == samples
  {
    WavFileLayout(format, samples);
    WavLayoutParses(WavFile(format, samples), samples);
  }

  // ---------------------------------------------------------------------
  // The loop
  // ---------------------------------------------------------------------

  /** The samples of a "data" chunk, read two bytes at a time while the
      announced count lasts and at least two bytes remain. */
  method ReadData(bytes: seq<byte>, start: nat, size: int) returns (samples: seq<int>)
    requires start <= |bytes|
    ensures samples == DataSamples(bytes, start, size)
  {
    var numSamples := SampleCount(size);
    var position := start;
    samples := [];
    var i := 0;
    while i < numSamples
      invariant i <= numSamples && |samples| == i && position == start + 2 * i <= |bytes|
      invariant forall k :: 0 <= k < i ==> samples[k] == Int16At(bytes, start + 2 * k)
    {
      if |bytes| - position < 2 {
        break;
      }
      samples := samples + [Int16At(bytes, position)];
      position := position + 2;
      i := i + 1;
    }
    var v := DataSamples(bytes, start, size);
    assert |samples| == |v|;
  }

  /** One turn of the chunk loop, at the position of a chunk header; a
      chunk that would be skipped by a negative size is refused. */
  method ReadChunk(bytes: seq<byte>, position: nat) returns (s: Step)
    requires IsByteArray(bytes) && position + 8 <= |bytes|
    ensures s == CheckedStep(bytes, position)
  {
    var chunkId := bytes[position..position + 4];
    var chunkSize := Int32At(bytes, position + 4);
    var cursor := position + 8;
    ghost var turn := Turn(chunkId, chunkSize, cursor, |bytes|, DataSamples(bytes, cursor, chunkSize));
    assert CheckedStep(bytes, position) == if SkipsBack(bytes, position) then Fault else turn;
    if chunkId == FmtId {
      if |bytes| - cursor < 16 {
        return Fault;
      }
      cursor := cursor + 16;
      var remainingFmtBytes := WrapInt32(chunkSize - 16);
      if remainingFmtBytes > 0 {
        return MoveTo(|bytes|, WrapInt32(cursor + remainingFmtBytes));
      }
      return Next(cursor);
    } else if chunkId == DataId {
      var samples := ReadData(bytes, cursor, chunkSize);
      return Found(samples);
    } else if chunkSize < 0 {
      return Fault;
    }
    return MoveTo(|bytes|, WrapInt32(cursor + chunkSize));
  }

  /** `parseWavFile`, with a position cursor over the bytes. */
  method ParseWavFile(bytes: seq<byte>) returns (r: Wav)
    requires IsByteArray(bytes)
    ensures r == ParseWav(bytes)
  {
    if |bytes| < MinimumSize {
      return Samples([]);
    }
    if bytes[0..4] != RiffId {
      return Samples([]);
    }
    if bytes[8..12] != WaveId {
      return Samples([]);
    }
    var position: nat := 12;
    while |bytes| - position >= 8
      invariant 12 <= position <= |bytes|
      invariant Walk(bytes, position) == Walk(bytes, 12)
      decreases |bytes| - position
    {
      var step := ReadChunk(bytes, position);
      match step {
        case Next(p) =>
          position := p;
        case Found(samples) =>
          return Samples(samples);
        case Fault =>
          return Faulted;
      }
    }
    return Samples([]);
  }
}
