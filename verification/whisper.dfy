/**
 * `TFLiteEngine.cpp`: the vocabulary blob embedded in the Whisper engine
 * ("WSPR" magic, mel-filter header, length-prefixed vocabulary words), the
 * labels synthesised for the ids the blob does not cover, the decoding of
 * the model's output ids into text, the 30-second chunking of a recording,
 * and the initialised flag that `freeModel` clears.
 *
 * The spectrogram, the TensorFlow Lite interpreter and the model file are
 * foreign: what the interpreter outputs for a chunk of samples is the
 * parameter `infer` (`None` when the spectrogram or the invocation fails),
 * and whether the model file opens is the parameter `modelFileOpens`.
 */
module Whisper {
  import opened Text
  import opened Outcomes
  import opened Bytes

  /** "WSPR" read as a little-endian `int`. */
  const Magic: int := 0x57535052

  const SampleRate: nat := 16000
  const ChunkSeconds: nat := 30
  /** Samples in one chunk given to the model. */
  const ChunkSize: nat := SampleRate * ChunkSeconds

  const VocabularyEnglish: int := 51864
  const VocabularyMultilingual: int := 51865

  /** The special token ids of the vocabulary structure. */
  datatype SpecialIds = SpecialIds(eot: int, sot: int, prev: int, solm: int, not: int, beg: int)

  /** Their initial values (those of the English vocabulary). */
  const DefaultIds: SpecialIds := SpecialIds(50256, 50257, 50360, 50361, 50362, 50363)

  /** Every special id one higher: the multilingual vocabulary. */
  function Shifted(ids: SpecialIds): (r: SpecialIds)
    ensures r.eot == ids.eot + 1 && r.sot == ids.sot + 1 && r.prev == ids.prev + 1
    ensures r.solm == ids.solm + 1 && r.not == ids.not + 1 && r.beg == ids.beg + 1
  {
    SpecialIds(ids.eot + 1, ids.sot + 1, ids.prev + 1, ids.solm + 1, ids.not + 1, ids.beg + 1)
  }

  // ---------------------------------------------------------------------
  // The vocabulary blob
  // ---------------------------------------------------------------------

  /** What the blob holds after its magic word. */
  datatype Header = Header(nMel: int, nFft: int, filters: seq<int>, nVocab: int, words: seq<string>)

  /** Reading the blob: its contents, a wrong magic word (`loadModel`
      returns -1), or a read past its end or a negative length, which the
      C++ code does not check and whose behaviour is undefined. */
  datatype Parse = Parsed(header: Header) | BadMagic | Unreadable

  datatype Entries = Entries(words: seq<string>, end: nat)

  /** `count` little-endian `int`s from `pos` (the mel filters, copied as raw
      32-bit words). */
  function ReadInts(blob: seq<byte>, pos: nat, count: nat): (r: seq<int>)
    requires pos + 4 * count <= |blob|
    ensures |r| == count
    ensures forall i :: 0 <= i < count ==> r[i] == Int32At(blob, pos + 4 * i)
  {
    seq(count, i requires 0 <= i < count => Int32At(blob, pos + 4 * i))
  }

  /** `count` vocabulary words from `pos`, each an `int` length followed by
      that many bytes; also the position after the last one. */
  function ReadEntries(blob: seq<byte>, pos: nat, count: nat): (r: Option<Entries>)
    ensures r.Some? ==> |r.value.words| == count
    decreases count
  {
    if count == 0 then Some(Entries([], pos))
    else if pos + 4 > |blob| then None
    else
      var len := Int32At(blob, pos);
      if len < 0 || pos + 4 + len > |blob| then None
      else
        match ReadEntries(blob, pos + 4 + len, count - 1)
        case None => None
        case Some(rest) => Some(Entries([Chars(blob[pos + 4..pos + 4 + len])] + rest.words, rest.end))
  }

  /** The blob, read in the order `loadModel` reads it: magic, `n_mel`,
      `n_fft`, `n_mel * n_fft` filter values, `n_vocab`, then `n_vocab`
      words (none when `n_vocab` is negative). */
  function ParseBlob(blob: seq<byte>): Parse {
    if |blob| < 4 then Unreadable
    else if Int32At(blob, 0) != Magic then BadMagic
    else if |blob| < 12 then Unreadable
    else ParseDimensions(blob, Int32At(blob, 4), Int32At(blob, 8))
  }

  /** The rest of the blob once its dimensions `nMel` and `nFft` are read. */
  function ParseDimensions(blob: seq<byte>, nMel: int, nFft: int): Parse {
    var count := nMel * nFft;
    if count < 0 || 12 + 4 * count + 4 > |blob| then Unreadable
    else
      var nVocab := Int32At(blob, 12 + 4 * count);
      match ReadEntries(blob, 16 + 4 * count, if nVocab < 0 then 0 else nVocab)
      case None => Unreadable
      case Some(e) => Parsed(Header(nMel, nFft, ReadInts(blob, 12, count), nVocab, e.words))
  }

  // ---- the writer the blob's layout implies ----

  predicate StorableWord(w: string) {
    IsInt32(|w|) && forall i :: 0 <= i < |w| ==> w[i] as int < 256
  }

  predicate StorableWords(words: seq<string>) {
    forall i :: 0 <= i < |words| ==> StorableWord(words[i])
  }

  /** The values one after the other, four little-endian bytes each. */
  function EncodeInts(values: seq<int>): (bs: seq<byte>)
    requires forall i :: 0 <= i < |values| ==> IsInt32(values[i])
    ensures |bs| == 4 * |values|
  {
    seq(4 * |values|, j requires 0 <= j < 4 * |values| => Int32Bytes(values[j / 4])[j % 4])
  }

  function EncodeEntries(words: seq<string>): (bs: seq<byte>)
    requires StorableWords(words)
  {
    if words == [] then []
    else
      var w := words[0];
      assert StorableWord(w);
      Int32Bytes(|w|) + BytesOf(w) + EncodeEntries(words[1..])
  }

  /** A header that can be written: every number fits in an `int`, the
      filter count is `n_mel * n_fft`, and `n_vocab` counts the words. */
  predicate Storable(h: Header) {
    && IsInt32(h.nMel) && IsInt32(h.nFft) && h.nMel * h.nFft == |h.filters|
    && (forall i :: 0 <= i < |h.filters| ==> IsInt32(h.filters[i]))
    && h.nVocab == |h.words| && IsInt32(h.nVocab)
    && StorableWords(h.words)
  }

  function EncodeBlob(h: Header): seq<byte>
    requires Storable(h)
  {
    Int32Bytes(Magic) + Int32Bytes(h.nMel) + Int32Bytes(h.nFft) + EncodeInts(h.filters)
    + Int32Bytes(h.nVocab) + EncodeEntries(h.words)
  }

  lemma EncodedIntAt(values: seq<int>, bs: seq<byte>, p: nat, i: nat)
    requires forall j :: 0 <= j < |values| ==> IsInt32(values[j])
    requires i < |values|
    requires p + 4 * |values| <= |bs| && bs[p..p + 4 * |values|] == EncodeInts(values)
    ensures bs[p + 4 * i..p + 4 * i + 4] == Int32Bytes(values[i])
  {
    var x := Int32Bytes(values[i]);
    forall m | 0 <= m < 4
      ensures bs[p + 4 * i + m] == x[m]
    {
      assert (4 * i + m) / 4 == i && (4 * i + m) % 4 == m;
      assert bs[p + 4 * i + m] == bs[p..p + 4 * |values|][4 * i + m];
    }
  }

  lemma ReadIntAt(values: seq<int>, bs: seq<byte>, p: nat, i: nat)
    requires forall j :: 0 <= j < |values| ==> IsInt32(values[j])
    requires i < |values|
    requires p + 4 * |values| <= |bs| && bs[p..p + 4 * |values|] == EncodeInts(values)
    ensures Int32At(bs, p + 4 * i) == values[i]
  {
    EncodedIntAt(values, bs, p, i);
    Int32AtBytes(bs, p + 4 * i, p + 4 * i + 4, values[i]);
  }

  lemma ReadIntsRoundTrip(values: seq<int>, bs: seq<byte>, p: nat)
    requires forall j :: 0 <= j < |values| ==> IsInt32(values[j])
    requires p + 4 * |values| <= |bs| && bs[p..p + 4 * |values|] == EncodeInts(values)
    ensures ReadInts(bs, p, |values|) == values
  {
    var r := ReadInts(bs, p, |values|);
    forall i | 0 <= i < |values|
      ensures r[i] == values[i]
    {
      ReadIntAt(values, bs, p, i);
    }
  }

  /** Reading one more word in front of words already read. */
  lemma ReadEntriesStep(bs: seq<byte>, p: nat, words: seq<string>, q: nat, end: nat)
    requires words != [] && q == p + 4 + |words[0]| && q <= |bs|
    requires Int32At(bs, p) == |words[0]|
    requires Chars(bs[p + 4..q]) == words[0]
    requires ReadEntries(bs, q, |words[1..]|) == Some(Entries(words[1..], end))
    ensures ReadEntries(bs, p, |words|) == Some(Entries(words, end))
  {
    assert [words[0]] + words[1..] == words;
  }

  /** What is left to read, put after the words already read. */
  function Resume(words: seq<string>, r: Option<Entries>): Option<Entries> {
    match r
    case None => None
    case Some(e) => Some(Entries(words + e.words, e.end))
  }

  /** Reading the next word moves it from what is left to what was read. */
  lemma ResumeStep(blob: seq<byte>, words: seq<string>, pos: nat, left: nat,
                   words': seq<string>, pos': nat, left': nat)
    requires 0 < left && left' == left - 1 && pos + 4 <= |blob|
    requires pos' == pos + 4 + Int32At(blob, pos) && pos + 4 <= pos' <= |blob|
    requires words' == words + [Chars(blob[pos + 4..pos'])]
    ensures Resume(words, ReadEntries(blob, pos, left)) == Resume(words', ReadEntries(blob, pos', left'))
  {
    match ReadEntries(blob, pos', left')
    case None =>
    case Some(e) =>
      assert words + ([Chars(blob[pos + 4..pos'])] + e.words) == words' + e.words;
  }

  /** Reading `count` words from `start` is reading `left` more words
      from `pos` after `words`. */
  predicate Pending(blob: seq<byte>, start: nat, count: nat, words: seq<string>, pos: nat, left: nat) {
    ReadEntries(blob, start, count) == Resume(words, ReadEntries(blob, pos, left))
  }

  /** The same, for the loop that reads the words. */
  lemma PendingStep(blob: seq<byte>, start: nat, count: nat, words: seq<string>, pos: nat, left: nat,
                    words': seq<string>, pos': nat, left': nat)
    requires Pending(blob, start, count, words, pos, left)
    requires 0 < left && left' == left - 1 && pos + 4 <= |blob|
    requires pos' == pos + 4 + Int32At(blob, pos) && pos + 4 <= pos' <= |blob|
    requires words' == words + [Chars(blob[pos + 4..pos'])]
    ensures Pending(blob, start, count, words', pos', left')
  {
    ResumeStep(blob, words, pos, left, words', pos', left');
  }

  lemma ResumeEnds(blob: seq<byte>, pos: nat, words: seq<string>)
    ensures Resume(words, ReadEntries(blob, pos, 0)) == Some(Entries(words, pos))
  {
    assert words + [] == words;
  }

  lemma ResumeStarts(r: Option<Entries>)
    ensures Resume([], r) == r
  {
    match r
    case None =>
    case Some(e) => assert [] + e.words == e.words;
  }

  /** The entries of `words` written at `p` of `bs`. */
  predicate EntriesAt(bs: seq<byte>, p: nat, words: seq<string>)
    requires StorableWords(words)
  {
    var e := EncodeEntries(words);
    p + |e| <= |bs| && forall i :: 0 <= i < |e| ==> bs[p + i] == e[i]
  }

  /** The first written entry found at `p`: its length, then its bytes. */
  lemma EntryHead(bs: seq<byte>, p: nat, words: seq<string>)
    requires words != [] && StorableWords(words)
    requires EntriesAt(bs, p, words)
    ensures |EncodeEntries(words)| == 4 + |words[0]| + |EncodeEntries(words[1..])|
    ensures Int32At(bs, p) == |words[0]|
    ensures Chars(bs[p + 4..p + 4 + |words[0]|]) == words[0]
  {
    var w := words[0];
    assert StorableWord(w);
    var x, b, rest := Int32Bytes(|w|), BytesOf(w), EncodeEntries(words[1..]);
    assert EncodeEntries(words) == x + b + rest;
    ThreePartsAt(bs, p, x, b, rest, p + 4 + |w|);
    Int32AtBytes(bs, p, p + |x|, |w|);
  }

  /** The entries after the first one follow it. */
  lemma EntryTail(bs: seq<byte>, p: nat, words: seq<string>)
    requires words != [] && StorableWords(words)
    requires EntriesAt(bs, p, words)
    ensures StorableWords(words[1..]) && EntriesAt(bs, p + 4 + |words[0]|, words[1..])
  {
    forall i | 0 <= i < |words| - 1
      ensures StorableWord(words[1..][i])
    {
      assert words[1..][i] == words[i + 1];
    }
    var w := words[0];
    assert StorableWord(w);
    var x, b, rest := Int32Bytes(|w|), BytesOf(w), EncodeEntries(words[1..]);
    assert EncodeEntries(words) == x + b + rest;
    ThreePartsAt(bs, p, x, b, rest, p + 4 + |w|);
  }

  lemma {:induction false} EntriesRoundTrip(words: seq<string>, bs: seq<byte>, p: nat)
    requires StorableWords(words)
    requires EntriesAt(bs, p, words)
    ensures ReadEntries(bs, p, |words|) == Some(Entries(words, p + |EncodeEntries(words)|))
    decreases |words|
  {
    if words != [] {
      EntryHead(bs, p, words);
      EntryTail(bs, p, words);
      var q := p + 4 + |words[0]|;
      EntriesRoundTrip(words[1..], bs, q);
      ReadEntriesStep(bs, p, words, q, p + |EncodeEntries(words)|);
    }
  }

  /** Where each part of a written blob sits in bytes that start with it. */
  predicate Layout(bs: seq<byte>, h: Header)
    requires Storable(h)
  {
    var n := 4 * |h.filters|;
    var e := EncodeEntries(h.words);
    && 16 + n + |e| <= |bs|
    && bs[0..4] == Int32Bytes(Magic) && bs[4..8] == Int32Bytes(h.nMel) && bs[8..12] == Int32Bytes(h.nFft)
    && bs[12..12 + n] == EncodeInts(h.filters)
    && bs[12 + n..16 + n] == Int32Bytes(h.nVocab)
    && EntriesAt(bs, 16 + n, h.words)
  }

  /** The six parts of a blob, each found at its offset in bytes that start
      with them. */
  lemma PartsAt(bs: seq<byte>, m: seq<byte>, mel: seq<byte>, fft: seq<byte>, ints: seq<byte>, voc: seq<byte>,
                e: seq<byte>, n: nat)
    requires |m| == 4 && |mel| == 4 && |fft| == 4 && |voc| == 4 && n == |ints|
    requires 16 + n + |e| <= |bs| && bs[0..16 + n + |e|] == m + mel + fft + ints + voc + e
    ensures bs[0..4] == m && bs[4..8] == mel && bs[8..12] == fft
    ensures bs[12..12 + n] == ints && bs[12 + n..16 + n] == voc
    ensures forall i :: 0 <= i < |e| ==> bs[16 + n + i] == e[i]
  {
    PrefixParts(bs, m + mel + fft + ints + voc, e);
    PrefixParts(bs, m + mel + fft + ints, voc);
    PrefixParts(bs, m + mel + fft, ints);
    PrefixParts(bs, m + mel, fft);
    PrefixParts(bs, m, mel);
    SliceElements(bs, 16 + n, e);
  }

  lemma BlobSlices(h: Header, bs: seq<byte>)
    requires Storable(h)
    requires |EncodeBlob(h)| <= |bs| && bs[0..|EncodeBlob(h)|] == EncodeBlob(h)
    ensures Layout(bs, h)
  {
    PartsAt(bs, Int32Bytes(Magic), Int32Bytes(h.nMel), Int32Bytes(h.nFft), EncodeInts(h.filters),
            Int32Bytes(h.nVocab), EncodeEntries(h.words), 4 * |h.filters|);
  }

  /** The numbers `ParseBlob` reads from bytes holding the header `h`: the
      magic number, the mel filter dimensions, the filters and the
      vocabulary size. */
  predicate NumbersAt(bs: seq<byte>, h: Header) {
    var k := |h.filters|;
    && h.nMel * h.nFft == k && 16 + 4 * k <= |bs|
    && Int32At(bs, 0) == Magic && Int32At(bs, 4) == h.nMel && Int32At(bs, 8) == h.nFft
    && ReadInts(bs, 12, k) == h.filters
    && Int32At(bs, 12 + 4 * k) == h.nVocab
  }

  /** The numbers of a written blob read back at their offsets. */
  lemma BlobNumbers(h: Header, bs: seq<byte>)
    requires Storable(h) && Layout(bs, h)
    ensures NumbersAt(bs, h)
  {
    var n := 4 * |h.filters|;
    Int32AtBytes(bs, 0, 4, Magic);
    Int32AtBytes(bs, 4, 8, h.nMel);
    Int32AtBytes(bs, 8, 12, h.nFft);
    ReadIntsRoundTrip(h.filters, bs, 12);
    Int32AtBytes(bs, 12 + n, 16 + n, h.nVocab);
  }

  /** What `ParseBlob` finds in bytes that hold the header `h`: its numbers,
      then as many entries as it has words, spelling those words. */
  predicate HeaderAt(bs: seq<byte>, h: Header) {
    && NumbersAt(bs, h) && h.nVocab == |h.words|
    && match ReadEntries(bs, 16 + 4 * |h.filters|, |h.words|)
       case Some(e) => e.words == h.words
       case None => false
  }

  lemma HeaderAtParses(bs: seq<byte>, h: Header)
    requires HeaderAt(bs, h)
    ensures ParseBlob(bs) == Parsed(h)
  {
  }

  /** Bytes laid out as a written blob parse to the header written. */
  lemma LayoutParses(h: Header, bs: seq<byte>)
    requires Storable(h) && Layout(bs, h)
    ensures ParseBlob(bs) == Parsed(h)
  {
    BlobNumbers(h, bs);
    EntriesRoundTrip(h.words, bs, 16 + 4 * |h.filters|);
    HeaderAtParses(bs, h);
  }

  /** Reading bytes that start with a written blob gives back the header it
      was written from, whatever follows it. */
  lemma BlobRoundTrip(h: Header, bs: seq<byte>)
    requires Storable(h)
    requires |EncodeBlob(h)| <= |bs| && bs[0..|EncodeBlob(h)|] == EncodeBlob(h)
    ensures ParseBlob(bs) == Parsed(h)
  {
    BlobSlices(h, bs);
    LayoutParses(h, bs);
  }

  // ---------------------------------------------------------------------
  // The vocabulary
  // ---------------------------------------------------------------------

  /** The label given to an id the blob does not cover. The start-of-LM id
      has no branch of its own and is labelled as an extra token. */
  function Label(i: int, ids: SpecialIds): string {
    if i > ids.beg then "[_TT_" + IntToDecimal(i - ids.beg) + "]"
    else if i == ids.eot then "[_EOT_]"
    else if i == ids.sot then "[_SOT_]"
    else if i == ids.prev then "[_PREV_]"
    else if i == ids.not then "[_NOT_]"
    else if i == ids.beg then "[_BEG_]"
    else "[_extra_token_" + IntToDecimal(i) + "]"
  }

  /** The vocabulary with the blob's words at ids 0, 1, ... in order. */
  function WithWords(vocab: map<int, string>, words: seq<string>): map<int, string> {
    vocab + map i | 0 <= i < |words| :: words[i]
  }

  /** The vocabulary with the ids from `lo` (inclusive) to `hi` (exclusive)
      labelled. */
  function WithLabels(vocab: map<int, string>, lo: int, hi: int, ids: SpecialIds): map<int, string> {
    vocab + map i | lo <= i < hi :: Label(i, ids)
  }

  lemma WithWordsStep(vocab: map<int, string>, words: seq<string>, w: string)
    ensures WithWords(vocab, words + [w]) == WithWords(vocab, words)[|words| := w]
  {
  }

  lemma WithLabelsStep(vocab: map<int, string>, lo: int, hi: int, ids: SpecialIds)
    requires lo <= hi
    ensures WithLabels(vocab, lo, hi + 1, ids) == WithLabels(vocab, lo, hi, ids)[hi := Label(hi, ids)]
  {
  }

  /** The engine's state: the initialised flag, the filter header and the
      vocabulary structure. */
  datatype EngineState = EngineState(initialized: bool, nMel: int, nFft: int, filters: seq<int>,
                                     vocab: map<int, string>, ids: SpecialIds)

  /** `loadModel`'s return value, or undefined behaviour. */
  datatype Load = Returned(code: int) | Undefined

  function Additional(isMultilingual: bool): int {
    if isMultilingual then VocabularyMultilingual else VocabularyEnglish
  }

  /** `loadModel` as written: an initialised engine is left alone and
      reports success; otherwise the blob is read, the special ids are
      incremented in multilingual mode, the missing ids are labelled, and
      the model file decides between -1 and an initialised engine. */
  function LoadedAsWritten(s: EngineState, blob: seq<byte>, isMultilingual: bool, modelFileOpens: bool)
    : (EngineState, Load)
  {
    if s.initialized then (s, Returned(0))
    else
      match ParseBlob(blob)
      case BadMagic => (s, Returned(-1))
      case Unreadable => (s, Undefined)
      case Parsed(h) =>
        var ids := if isMultilingual then Shifted(s.ids) else s.ids;
        var vocab := WithLabels(WithWords(s.vocab, h.words), h.nVocab, Additional(isMultilingual), ids);
        (EngineState(modelFileOpens, h.nMel, h.nFft, h.filters, vocab, ids),
         Returned(if modelFileOpens then 0 else -1))
  }

  /** `loadModel` with the special ids set from the mode rather than
      incremented. */
  function Loaded(s: EngineState, blob: seq<byte>, isMultilingual: bool, modelFileOpens: bool)
    : (EngineState, Load)
  {
    if s.initialized then (s, Returned(0))
    else
      match ParseBlob(blob)
      case BadMagic => (s, Returned(-1))
      case Unreadable => (s, Undefined)
      case Parsed(h) =>
        var ids := if isMultilingual then Shifted(DefaultIds) else DefaultIds;
        var vocab := WithLabels(WithWords(s.vocab, h.words), h.nVocab, Additional(isMultilingual), ids);
        (EngineState(modelFileOpens, h.nMel, h.nFft, h.filters, vocab, ids),
         Returned(if modelFileOpens then 0 else -1))
  }

  /** `freeModel`: not initialised, the vocabulary structure back to its
      initial contents. */
  function Freed(s: EngineState): EngineState {
    s.(initialized := false, vocab := map[], ids := DefaultIds)
  }

  /** A successful load leaves every id of the vocabulary range labelled:
      the blob's words at their ids, the special ids with their markers,
      timestamps above the begin id. */
  lemma LoadLabelsVocabulary(s: EngineState, blob: seq<byte>, isMultilingual: bool)
    requires !s.initialized && ParseBlob(blob).Parsed?
    ensures var (t, status) := Loaded(s, blob, isMultilingual, true);
      var h := ParseBlob(blob).header;
      && status == Returned(0) && t.initialized
      && (forall i :: 0 <= i < |h.words| ==> i in t.vocab && t.vocab[i] == h.words[i])
      && (forall i :: h.nVocab <= i < Additional(isMultilingual) ==> i in t.vocab && t.vocab[i] == Label(i, t.ids))
      && t.ids.eot == (if isMultilingual then 50257 else 50256)
  {
    var h := ParseBlob(blob).header;
    var t := Loaded(s, blob, isMultilingual, true).0;
    assert h.nVocab < 0 ==> h.words == [];
    forall i | 0 <= i < |h.words|
      ensures i in t.vocab && t.vocab[i] == h.words[i]
    {
      assert !(h.nVocab <= i < Additional(isMultilingual)) || h.nVocab > i;
    }
  }

  /** An initialised engine does not read the blob again; after
      `freeModel` it does. */
  lemma FreeThenLoadReads(s: EngineState, blob: seq<byte>, isMultilingual: bool, modelFileOpens: bool)
    requires s.initialized
    ensures LoadedAsWritten(s, blob, isMultilingual, modelFileOpens) == (s, Returned(0))
    ensures ParseBlob(blob) == BadMagic ==> LoadedAsWritten(Freed(s), blob, isMultilingual, modelFileOpens).1 == Returned(-1)
    ensures ParseBlob(blob).Parsed? ==>
              LoadedAsWritten(Freed(s), blob, isMultilingual, modelFileOpens)
              == Loaded(Freed(s), blob, isMultilingual, modelFileOpens)
  {
  }

  /** As written, a multilingual load that fails on the model file and is
      attempted again increments the special ids twice: the end-of-text id
      becomes 50258 instead of 50257, and the real end-of-text id gets an
      extra-token label. */
  lemma RetryShiftsIdsTwice(s: EngineState, blob: seq<byte>)
    requires !s.initialized && s.ids == DefaultIds
    requires ParseBlob(blob).Parsed? && ParseBlob(blob).header.nVocab <= 50257
    ensures var (first, status) := LoadedAsWritten(s, blob, true, false);
      var (second, _) := LoadedAsWritten(first, blob, true, true);
      && status == Returned(-1)
      && second.ids.eot == 50258
      && 50257 in second.vocab && second.vocab[50257] == "[_extra_token_" + IntToDecimal(50257) + "]"
  {
    var h := ParseBlob(blob).header;
    var first := LoadedAsWritten(s, blob, true, false).0;
    assert first.ids == Shifted(DefaultIds) && !first.initialized;
    var twice := Shifted(Shifted(DefaultIds));
    var second := LoadedAsWritten(first, blob, true, true).0;
    assert second.ids == twice;
    assert second.vocab == WithLabels(WithWords(first.vocab, h.words), h.nVocab, VocabularyMultilingual, twice);
    assert Label(50257, twice) == "[_extra_token_" + IntToDecimal(50257) + "]";
  }

  /** With the ids set from the mode, a failed load and another attempt
      end with the multilingual ids, whatever the state before. */
  lemma RetryKeepsIds(s: EngineState, blob: seq<byte>)
    requires !s.initialized && ParseBlob(blob).Parsed?
    ensures var (first, _) := Loaded(s, blob, true, false);
      var (second, status) := Loaded(first, blob, true, true);
      && status == Returned(0)
      && second.ids == Shifted(DefaultIds)
      && second.ids.eot == 50257
  {
  }

  // ---------------------------------------------------------------------
  // Decoding
  // ---------------------------------------------------------------------

  /** The text of the output ids: the words of the ids below end-of-text
      that the vocabulary has, in order, up to the first end-of-text id. */
  function Decoded(output: seq<int>, vocab: map<int, string>, eot: int): string
    decreases |output|
  {
    if output == [] || output[0] == eot then ""
    else (if output[0] < eot && output[0] in vocab then vocab[output[0]] else "") + Decoded(output[1..], vocab, eot)
  }

  /** Decoding is word by word: the text of two runs of ids is the text of
      the first followed by that of the second, when the first has no
      end-of-text id. */
  lemma {:induction false} DecodedAppend(a: seq<int>, b: seq<int>, vocab: map<int, string>, eot: int)
    requires forall i :: 0 <= i < |a| ==> a[i] != eot
    ensures Decoded(a + b, vocab, eot) == Decoded(a, vocab, eot) + Decoded(b, vocab, eot)
    decreases |a|
  {
    if a == [] {
      assert a + b == b;
    } else {
      assert (a + b)[0] == a[0];
      assert (a + b)[1..] == a[1..] + b;
      DecodedAppend(a[1..], b, vocab, eot);
    }
  }

  /** Nothing after the first end-of-text id is decoded. */
  lemma DecodedStopsAtEot(a: seq<int>, b: seq<int>, vocab: map<int, string>, eot: int)
    requires forall i :: 0 <= i < |a| ==> a[i] != eot
    ensures Decoded(a + [eot] + b, vocab, eot) == Decoded(a, vocab, eot)
  {
    DecodedAppend(a, [eot] + b, vocab, eot);
    assert a + [eot] + b == a + ([eot] + b);
  }

  /** Special ids (above end-of-text) and ids missing from the vocabulary
      add nothing. */
  lemma DecodedSkips(a: seq<int>, vocab: map<int, string>, eot: int)
    requires forall i :: 0 <= i < |a| ==> a[i] > eot || a[i] !in vocab
    ensures Decoded(a, vocab, eot) == ""
  {
    if a != [] {
      DecodedSkips(a[1..], vocab, eot);
    }
  }

  /** After a retried multilingual load the real end-of-text id no longer
      ends the text: it is decoded as its extra-token label. */
  lemma RetryDecodesEndOfText(s: EngineState, blob: seq<byte>)
    requires !s.initialized && s.ids == DefaultIds
    requires ParseBlob(blob).Parsed? && ParseBlob(blob).header.nVocab <= 50257
    ensures var second := LoadedAsWritten(LoadedAsWritten(s, blob, true, false).0, blob, true, true).0;
      Decoded([50257], second.vocab, second.ids.eot) != ""
  {
    RetryShiftsIdsTwice(s, blob);
  }

  /** `samples.resize(ChunkSize, 0)`: cut to the chunk size or padded with
      zeros up to it. */
  function Fit(samples: seq<real>): (r: seq<real>)
    ensures |r| == ChunkSize
    ensures forall i :: 0 <= i < ChunkSize && i < |samples| ==> r[i] == samples[i]
    ensures forall i :: |samples| <= i < ChunkSize ==> r[i] == 0.0
  {
    if |samples| >= ChunkSize then samples[..ChunkSize] else samples + seq(ChunkSize - |samples|, _ => 0.0)
  }

  /** What `transcribeBuffer` returns for what the interpreter gave: empty
      when the spectrogram or the invocation failed. */
  function Transcript(output: Option<seq<int>>, vocab: map<int, string>, eot: int): string {
    match output
    case None => ""
    case Some(ids) => Decoded(ids, vocab, eot)
  }

  // ---------------------------------------------------------------------
  // Chunking a recording
  // ---------------------------------------------------------------------

  /** `ceil(n / ChunkSize)`. */
  function ChunkCount(n: nat): nat {
    (n + ChunkSize - 1) / ChunkSize
  }

  /** The `k`-th chunk: its samples, zero-padded to the chunk size. */
  function Chunk(pcm: seq<real>, k: nat): seq<real>
    requires k < ChunkCount(|pcm|)
  {
    var start := k * ChunkSize;
    var end := if start + ChunkSize < |pcm| then start + ChunkSize else |pcm|;
    Fit(pcm[start..end])
  }

  /** The chunks are just enough to hold the recording, each has the chunk
      size, and every sample sits in its chunk at its offset. */
  lemma ChunksCover(pcm: seq<real>, j: nat)
    requires j < |pcm|
    ensures ChunkCount(|pcm|) * ChunkSize >= |pcm| > (ChunkCount(|pcm|) - 1) * ChunkSize
    ensures j / ChunkSize < ChunkCount(|pcm|)
    ensures |Chunk(pcm, j / ChunkSize)| == ChunkSize
    ensures Chunk(pcm, j / ChunkSize)[j % ChunkSize] == pcm[j]
  {
  }

  /** What follows the recording in the last chunk is silence. */
  lemma ChunkPadding(pcm: seq<real>, k: nat, i: nat)
    requires k < ChunkCount(|pcm|)
    requires i < ChunkSize && k * ChunkSize + i >= |pcm|
    ensures Chunk(pcm, k)[i] == 0.0
  {
  }

  /** A chunk is already of the chunk size, so `transcribeBuffer`'s resize
      does not change it. */
  lemma FitChunk(pcm: seq<real>, k: nat)
    requires k < ChunkCount(|pcm|)
    ensures Fit(Chunk(pcm, k)) == Chunk(pcm, k)
  {
  }

  /** The text of the first `k` chunks, in order. */
  function FileTranscript(pcm: seq<real>, k: nat, infer: seq<real> -> Option<seq<int>>,
                          vocab: map<int, string>, eot: int): string
    requires k <= ChunkCount(|pcm|)
  {
    if k == 0 then ""
    else FileTranscript(pcm, k - 1, infer, vocab, eot) + Transcript(infer(Chunk(pcm, k - 1)), vocab, eot)
  }

  // ---------------------------------------------------------------------
  // The model buffer
  // ---------------------------------------------------------------------

  /** `g_whisper_tflite.buffer`: null, an array the engine owns, or an
      array already deleted that the pointer still refers to. */
  datatype ModelBuffer = NoBuffer | Owned | Deleted

  /** The buffer after a load that returned: it is replaced by the model
      file's contents once the file opens, and only then. */
  function BufferAfterLoad(b: ModelBuffer, s: EngineState, blob: seq<byte>, modelFileOpens: bool): ModelBuffer {
    if !s.initialized && ParseBlob(blob).Parsed? && modelFileOpens then Owned else b
  }

  /** `freeModel` deletes a buffer that is not null and leaves the pointer
      as it is. Deleting it a second time is undefined behaviour. */
  predicate FreeDefined(b: ModelBuffer) {
    b != Deleted
  }

  function BufferAfterFree(b: ModelBuffer): ModelBuffer {
    if b == NoBuffer then NoBuffer else Deleted
  }

  /** A free, then a load that fails at the model file, then a second free:
      the second free deletes the same array again. A load that opens the
      model file in between makes the second free well defined. */
  lemma FreeAfterFailedLoad(s: EngineState, b: ModelBuffer, blob: seq<byte>, modelFileOpens: bool)
    requires b != NoBuffer
    ensures var b' := BufferAfterLoad(BufferAfterFree(b), Freed(s), blob, modelFileOpens);
      FreeDefined(b') <==> ParseBlob(blob).Parsed? && modelFileOpens
  {
  }

  // ---------------------------------------------------------------------
  // The engine
  // ---------------------------------------------------------------------

  class TFLiteEngine {
    /** The two vocabulary blobs compiled into the engine. */
    const blobEnglish: seq<byte>
    const blobMultilingual: seq<byte>

    var initialized: bool
    var nMel: int
    var nFft: int
    var filters: seq<int>
    var idToToken: map<int, string>
    var ids: SpecialIds
    var buffer: ModelBuffer

    function State(): EngineState
      reads this
    {
      EngineState(initialized, nMel, nFft, filters, idToToken, ids)
    }

    constructor (blobEnglish: seq<byte>, blobMultilingual: seq<byte>)
      ensures this.blobEnglish == blobEnglish && this.blobMultilingual == blobMultilingual
      ensures State() == EngineState(false, 0, 0, [], map[], DefaultIds) && buffer == NoBuffer
    {
      this.blobEnglish := blobEnglish;
      this.blobMultilingual := blobMultilingual;
      initialized := false;
      nMel := 0;
      nFft := 0;
      filters := [];
      idToToken := map[];
      ids := DefaultIds;
      buffer := NoBuffer;
    }

    /** The vocabulary words, read with a cursor into the blob and stored
        at ids 0, 1, ... as they are read. */
    method ReadWords(blob: seq<byte>, start: nat, nVocab: int) returns (ok: bool, words: seq<string>)
      modifies this
      ensures ok <==> ReadEntries(blob, start, if nVocab < 0 then 0 else nVocab).Some?
      ensures ok ==> words == ReadEntries(blob, start, if nVocab < 0 then 0 else nVocab).value.words
                     && idToToken == WithWords(old(idToToken), words)
      ensures initialized == old(initialized) && ids == old(ids) && buffer == old(buffer)
      ensures nMel == old(nMel) && nFft == old(nFft) && filters == old(filters)
    {
      var count: nat := if nVocab < 0 then 0 else nVocab;
      var pos: nat := start;
      var vocab := idToToken;
      words := [];
      var left: nat := count;
      ResumeStarts(ReadEntries(blob, start, count));
      ok := true;
      while left > 0
        invariant |words| + left == count
        invariant Pending(blob, start, count, words, pos, left)
        invariant vocab == WithWords(idToToken, words)
        invariant ok
        modifies {}
      {
        if pos + 4 > |blob| {
          ok := false;
          break;
        }
        var len := Int32At(blob, pos);
        if len < 0 || pos + 4 + len > |blob| {
          ok := false;
          break;
        }
        var word := Chars(blob[pos + 4..pos + 4 + len]);
        WithWordsStep(idToToken, words, word);
        vocab := vocab[|words| := word];
        ghost var before, from, more := words, pos, left;
        words := words + [word];
        pos := pos + 4 + len;
        left := left - 1;
        PendingStep(blob, start, count, before, from, more, words, pos, left);
      }
      if ok {
        ResumeEnds(blob, pos, words);
      }
      idToToken := vocab;
    }

    /** The blob up to and including the vocabulary words. */
    method ReadBlob(blob: seq<byte>) returns (r: Parse)
      modifies this
      ensures r == ParseBlob(blob)
      ensures r.BadMagic? ==> State() == old(State())
      ensures r.Parsed? ==> State() == old(State()).(nMel := r.header.nMel, nFft := r.header.nFft,
                                                     filters := r.header.filters,
                                                     vocab := WithWords(old(idToToken), r.header.words))
      ensures initialized == old(initialized) && ids == old(ids) && buffer == old(buffer)
    {
      if |blob| < 4 {
        return Unreadable;
      }
      var magic := Int32At(blob, 0);
      if magic != Magic {
        return BadMagic;
      }
      if |blob| < 12 {
        return Unreadable;
      }
      nMel := Int32At(blob, 4);
      nFft := Int32At(blob, 8);
      r := ReadDimensions(blob);
    }

    /** The blob after its dimensions, which are already stored. */
    method ReadDimensions(blob: seq<byte>) returns (r: Parse)
      modifies this
      ensures r == ParseDimensions(blob, old(nMel), old(nFft))
      ensures r.Parsed? ==> State() == old(State()).(filters := r.header.filters,
                                                     vocab := WithWords(old(idToToken), r.header.words))
                            && r.header.nMel == nMel && r.header.nFft == nFft
      ensures initialized == old(initialized) && ids == old(ids) && buffer == old(buffer)
    {
      var count := nMel * nFft;
      if count < 0 || 12 + 4 * count + 4 > |blob| {
        return Unreadable;
      }
      filters := ReadInts(blob, 12, count);
      var nVocab := Int32At(blob, 12 + 4 * count);
      var ok, words := ReadWords(blob, 16 + 4 * count, nVocab);
      if !ok {
        return Unreadable;
      }
      return Parsed(Header(nMel, nFft, filters, nVocab, words));
    }

    /** Labels for the ids from `lo` up to `hi`, exclusive. */
    method AddLabels(lo: int, hi: int)
      modifies this
      ensures idToToken == WithLabels(old(idToToken), lo, hi, ids)
      ensures initialized == old(initialized) && ids == old(ids) && buffer == old(buffer)
      ensures nMel == old(nMel) && nFft == old(nFft) && filters == old(filters)
    {
      if hi <= lo {
        assert WithLabels(idToToken, lo, hi, ids) == idToToken;
        return;
      }
      var vocab := idToToken;
      var i := lo;
      assert WithLabels(idToToken, lo, lo, ids) == idToToken;
      while i < hi
        invariant lo <= i <= hi
        invariant vocab == WithLabels(idToToken, lo, i, ids)
        modifies {}
      {
        WithLabelsStep(idToToken, lo, i, ids);
        vocab := vocab[i := Label(i, ids)];
        i := i + 1;
      }
      idToToken := vocab;
    }

    /** `loadModel` as written: the special ids are incremented in
        multilingual mode on every load that reads the blob. */
    method LoadModelAsWritten(isMultilingual: bool, modelFileOpens: bool) returns (status: Load)
      modifies this
      ensures var blob := if isMultilingual then blobMultilingual else blobEnglish;
        && status == LoadedAsWritten(old(State()), blob, isMultilingual, modelFileOpens).1
        && (status.Returned? ==> State() == LoadedAsWritten(old(State()), blob, isMultilingual, modelFileOpens).0
                                 && buffer == BufferAfterLoad(old(buffer), old(State()), blob, modelFileOpens))
    {
      if initialized {
        return Returned(0);
      }
      var blob := if isMultilingual then blobMultilingual else blobEnglish;
      var parsed := ReadBlob(blob);
      if parsed.BadMagic? {
        return Returned(-1);
      }
      if parsed.Unreadable? {
        return Undefined;
      }
      var additional := VocabularyEnglish;
      if isMultilingual {
        additional := VocabularyMultilingual;
        ids := Shifted(ids);
      }
      AddLabels(parsed.header.nVocab, additional);
      if !modelFileOpens {
        return Returned(-1);
      }
      buffer := Owned;
      initialized := true;
      return Returned(0);
    }

    /** `loadModel` with the special ids set from the mode. */
    method LoadModel(isMultilingual: bool, modelFileOpens: bool) returns (status: Load)
      modifies this
      ensures var blob := if isMultilingual then blobMultilingual else blobEnglish;
        && status == Loaded(old(State()), blob, isMultilingual, modelFileOpens).1
        && (status.Returned? ==> State() == Loaded(old(State()), blob, isMultilingual, modelFileOpens).0
                                 && buffer == BufferAfterLoad(old(buffer), old(State()), blob, modelFileOpens))
    {
      if initialized {
        return Returned(0);
      }
      var blob := if isMultilingual then blobMultilingual else blobEnglish;
      var parsed := ReadBlob(blob);
      if parsed.BadMagic? {
        return Returned(-1);
      }
      if parsed.Unreadable? {
        return Undefined;
      }
      var additional := VocabularyEnglish;
      ids := DefaultIds;
      if isMultilingual {
        additional := VocabularyMultilingual;
        ids := Shifted(DefaultIds);
      }
      AddLabels(parsed.header.nVocab, additional);
      if !modelFileOpens {
        return Returned(-1);
      }
      buffer := Owned;
      initialized := true;
      return Returned(0);
    }

    /** The decoding loop of `transcribeBuffer`. */
    method DecodeOutput(output: seq<int>) returns (text: string)
      ensures text == Decoded(output, idToToken, ids.eot)
    {
      text := "";
      var i := 0;
      while i < |output|
        invariant 0 <= i <= |output|
        invariant text + Decoded(output[i..], idToToken, ids.eot) == Decoded(output, idToToken, ids.eot)
      {
        var tokenId := output[i];
        if tokenId == ids.eot {
          break;
        }
        assert output[i..][1..] == output[i + 1..];
        if tokenId < ids.eot && tokenId in idToToken {
          text := text + idToToken[tokenId];
        }
        i := i + 1;
      }
    }

    /** `transcribeBuffer`: the samples fitted to one chunk, run through
        the interpreter, and the output decoded. The engine must have been
        loaded: without a model the input buffer and the interpreter are
        null pointers, and using them is undefined behaviour. */
    method TranscribeBuffer(samples: seq<real>, infer: seq<real> -> Option<seq<int>>) returns (text: string)
      requires initialized
      ensures text == Transcript(infer(Fit(samples)), idToToken, ids.eot)
    {
      var fitted := Fit(samples);
      var output := infer(fitted);
      if output.None? {
        return "";
      }
      text := DecodeOutput(output.value);
    }

    /** `transcribeFile`: the transcripts of the chunks, concatenated in
        order. */
    method TranscribeFile(pcm: seq<real>, infer: seq<real> -> Option<seq<int>>) returns (text: string)
      requires initialized
      ensures text == FileTranscript(pcm, ChunkCount(|pcm|), infer, idToToken, ids.eot)
    {
      var totalChunks := (|pcm| + ChunkSize - 1) / ChunkSize;
      text := "";
      for chunkIndex := 0 to totalChunks
        invariant text == FileTranscript(pcm, chunkIndex, infer, idToToken, ids.eot)
      {
        var startSample := chunkIndex * ChunkSize;
        var endSample := if startSample + ChunkSize < |pcm| then startSample + ChunkSize else |pcm|;
        var chunk := pcm[startSample..endSample];
        if |chunk| < ChunkSize {
          chunk := chunk + seq(ChunkSize - |chunk|, _ => 0.0);
        }
        assert chunk == Chunk(pcm, chunkIndex);
        FitChunk(pcm, chunkIndex);
        var chunkText := TranscribeBuffer(chunk, infer);
        text := text + chunkText;
      }
    }

    /** `freeModel`: `defined` is false when the buffer was already
        deleted, and the second `delete[]` is undefined behaviour. */
    method FreeModel() returns (defined: bool)
      modifies this
      ensures defined <==> FreeDefined(old(buffer))
      ensures defined ==> State() == Freed(old(State())) && buffer == BufferAfterFree(old(buffer))
    {
      if !FreeDefined(buffer) {
        return false;
      }
      if buffer == Owned {
        buffer := Deleted;
      }
      initialized := false;
      idToToken := map[];
      ids := DefaultIds;
      return true;
    }
  }
}
