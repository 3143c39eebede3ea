/**
 * `CustomMultilingualEmbedder.kt`: the fixed-length token layout fed to the
 * embedding model, the allocation of its output buffers by shape, the choice
 * of the 512-dimensional embedding among the outputs, and the single and
 * batched embedding entry points.
 *
 * The WordPiece tokenizer and the TensorFlow Lite interpreter are foreign:
 * the tokenizer is a function from text to token ids (`None` when it
 * throws) and the interpreter a function from the input ids and the
 * allocated buffers to the filled buffers (`None` when it throws).
 */
module Embedder {
  import opened Outcomes
  import opened Bytes

  const MaxSequenceLength: nat := 128
  const EmbeddingDimension: nat := 512
  const MaxVocabSize: nat := 30522
  const HiddenSize: nat := 768

  const ClsId: int := 101
  const SepId: int := 102
  const UnkId: int := 100
  const PadId: int := 0

  // ---------------------------------------------------------------------
  // tokenizeWithMatureBERT
  // ---------------------------------------------------------------------

  /** An id outside the vocabulary range becomes the unknown-token id. */
  function ClampId(id: int): (r: int)
    ensures 0 <= r < MaxVocabSize
    ensures 0 <= id < MaxVocabSize ==> r == id
    ensures !(0 <= id < MaxVocabSize) ==> r == UnkId
  {
    if id >= MaxVocabSize then UnkId
    else if id < 0 then UnkId
    else id
  }

  /** Clamping twice is clamping once. */
  lemma ClampIdempotent(id: int)
    ensures ClampId(ClampId(id)) == ClampId(id)
  {
  }

  /** The number of content tokens that fit between [CLS] and [SEP]. */
  const MaxContentTokens: nat := MaxSequenceLength - 2

  function Min(a: int, b: int): int {
    if a <= b then a else b
  }

  /** The model input for a text: [CLS], the first 126 clamped ids, [SEP],
      then padding, always 128 ids long. When the tokenizer throws, the
      input is [CLS] [SEP] followed by padding. Every id is inside the
      vocabulary, and the content is the tokenizer's in-vocabulary ids,
      unchanged and in order. */
  method TokenizeWithMatureBert(tokenIds: Option<seq<int>>) returns (r: seq<int>)
    ensures |r| == MaxSequenceLength
    ensures r[0] == ClsId
    ensures forall j :: 0 <= j < |r| ==> 0 <= r[j] < MaxVocabSize
    ensures tokenIds.Some? ==>
              var n := Min(|tokenIds.value|, MaxContentTokens);
              && (forall i :: 0 <= i < n ==> r[i + 1] == ClampId(tokenIds.value[i]))
              && r[n + 1] == SepId
              && (forall j :: n + 1 < j < |r| ==> r[j] == PadId)
    ensures tokenIds.None? ==> r[1] == SepId && forall j :: 1 < j < |r| ==> r[j] == PadId
  {
    var result := new int[MaxSequenceLength](_ => PadId);
    match tokenIds {
      case None =>
        result[0] := ClsId;
        result[1] := SepId;
      case Some(ids) =>
        result[0] := ClsId;
        var contentCount := Min(|ids|, MaxContentTokens);
        for i := 0 to contentCount
          invariant result[0] == ClsId
          invariant forall k :: 0 <= k < i ==> result[k + 1] == ClampId(ids[k])
          invariant forall j :: i < j < result.Length ==> result[j] == PadId
          invariant forall j :: 0 <= j < result.Length ==> 0 <= result[j] < MaxVocabSize
        {
          result[i + 1] := ClampId(ids[i]);
        }
        var sepPosition := Min(contentCount + 1, MaxSequenceLength - 1);
        result[sepPosition] := SepId;
    }
    r := result[..];
  }

  // ---------------------------------------------------------------------
  // runEmbeddingInference: output buffers
  // ---------------------------------------------------------------------

  /** A TensorFlow Lite output buffer: a `FloatArray`, or an array of
      buffers one dimension down. */
  datatype Tensor = Floats(values: seq<real>) | Nested(items: seq<Tensor>)

  /** The buffer has exactly the given dimensions. */
  predicate HasShape(t: Tensor, shape: seq<int>)
    decreases shape
  {
    if |shape| == 1 then t.Floats? && |t.values| == shape[0]
    else if |shape| > 1 then
      t.Nested? && |t.items| == shape[0]
      && forall i :: 0 <= i < |t.items| ==> HasShape(t.items[i], shape[1..])
    else false
  }

  function ZeroFloats(n: nat): seq<real> {
    seq(n, _ => 0.0)
  }

  /** `FloatArray(n)`: a negative size throws. */
  function NewFloats(n: int): Option<Tensor> {
    if n < 0 then None else Some(Floats(ZeroFloats(n)))
  }

  /** `Array(n) { element }`: a negative size throws; the element is built
      only when n > 0, so its own failure matters only then. */
  function NewArray(n: int, element: Option<Tensor>): Option<Tensor> {
    if n < 0 then None
    else if n == 0 then Some(Nested([]))
    else if element.None? then None
    else Some(Nested(seq(n, _ => element.value)))
  }

  /** `shape.fold(1) { acc, dim -> acc * dim }` with `Int` overflow. */
  function ShapeProduct(shape: seq<int>): int {
    if shape == [] then 1 else WrapInt32(ShapeProduct(shape[..|shape| - 1]) * shape[|shape| - 1])
  }

  /** The buffer prepared for an output of the given shape, `None` when
      allocating it throws. */
  function Allocate(shape: seq<int>): Option<Tensor> {
    if shape == [1, EmbeddingDimension as int] then
      NewArray(1, NewFloats(EmbeddingDimension))
    else if shape == [1, MaxSequenceLength as int, HiddenSize as int] then
      NewArray(1, NewArray(MaxSequenceLength, NewFloats(HiddenSize)))
    else if |shape| == 3 && shape[0] == 1 && shape[2] == HiddenSize then
      NewArray(1, NewArray(shape[1], NewFloats(HiddenSize)))
    else if |shape| == 1 then NewFloats(shape[0])
    else if |shape| == 2 then NewArray(shape[0], NewFloats(shape[1]))
    else if |shape| == 3 then NewArray(shape[0], NewArray(shape[1], NewFloats(shape[2])))
    else NewFloats(ShapeProduct(shape))
  }

  lemma NewArrayShape(n: nat, element: Option<Tensor>, inner: seq<int>)
    requires element.Some? && HasShape(element.value, inner) && inner != []
    ensures NewArray(n, element).Some? && HasShape(NewArray(n, element).value, [n as int] + inner)
  {
    var s := [n as int] + inner;
    assert s[1..] == inner;
  }

  /** Up to three dimensions, none negative, the buffer is allocated with
      exactly the output's shape; above three (or none), as one flat array
      of the wrapped product of the dimensions. */
  lemma AllocateHasShape(shape: seq<int>)
    requires forall i :: 0 <= i < |shape| ==> shape[i] >= 0
    ensures 1 <= |shape| <= 3 ==> Allocate(shape).Some? && HasShape(Allocate(shape).value, shape)
    ensures (|shape| == 0 || |shape| > 3) && ShapeProduct(shape) >= 0 ==>
              Allocate(shape) == Some(Floats(ZeroFloats(ShapeProduct(shape))))
  {
    if |shape| == 2 {
      MatrixShape(shape);
    } else if |shape| == 3 {
      CubeShape(shape);
    }
  }

  lemma MatrixShape(shape: seq<int>)
    requires |shape| == 2 && shape[0] >= 0 && shape[1] >= 0
    ensures Allocate(shape) == NewArray(shape[0], NewFloats(shape[1]))
    ensures Allocate(shape).Some? && HasShape(Allocate(shape).value, shape)
  {
    NewArrayShape(shape[0], NewFloats(shape[1]), shape[1..]);
    assert [shape[0]] + shape[1..] == shape;
  }

  lemma CubeShape(shape: seq<int>)
    requires |shape| == 3 && shape[0] >= 0 && shape[1] >= 0 && shape[2] >= 0
    ensures Allocate(shape).Some? && HasShape(Allocate(shape).value, shape)
  {
    var inner := NewArray(shape[1], NewFloats(shape[2]));
    NewArrayShape(shape[1], NewFloats(shape[2]), shape[2..]);
    assert [shape[1]] + shape[2..] == shape[1..];
    NewArrayShape(shape[0], inner, shape[1..]);
    assert [shape[0]] + shape[1..] == shape;
    assert Allocate(shape) == NewArray(shape[0], inner);
  }

  /** A negative first dimension makes the allocation throw, and so does a
      negative second dimension behind a positive first one. */
  lemma AllocateNegative(shape: seq<int>)
    requires 1 <= |shape| <= 3
    requires shape[0] < 0 || (|shape| >= 2 && shape[0] > 0 && shape[1] < 0)
    ensures Allocate(shape).None?
  {
  }

  /** The pooled-embedding buffer is selected by the first scan once filled. */
  lemma PooledShapeAllocation()
    ensures Allocate([1, 512]) == Some(Nested([Floats(ZeroFloats(512))]))
  {
    assert NewArray(1, NewFloats(512)).value.items == [Floats(ZeroFloats(512))];
  }

  // ---------------------------------------------------------------------
  // runEmbeddingInference: choosing the embedding
  // ---------------------------------------------------------------------

  /** Outcome of one scan over the outputs: an embedding, nothing suitable,
      or an exception (reading element 0 of an empty array, or a buffer of
      the wrong kind). */
  datatype Pick = Picked(embedding: seq<real>) | Missing | Threw

  /** The first scan from output i: the first output that is an array whose
      element 0 is a `FloatArray` of 512 values. */
  function FirstPooled(outputs: seq<Tensor>, i: nat): (p: Pick)
    requires i <= |outputs|
    ensures p.Picked? ==> |p.embedding| == EmbeddingDimension
    decreases |outputs| - i
  {
    if i == |outputs| then Missing
    else match outputs[i]
      case Floats(_) => FirstPooled(outputs, i + 1)
      case Nested(items) =>
        if items == [] then Threw
        else if items[0].Floats? && |items[0].values| == EmbeddingDimension then Picked(items[0].values)
        else FirstPooled(outputs, i + 1)
  }

  /** The second scan from output i: the first output whose element 0 is a
      non-empty array of `FloatArray`s, the first of them holding 768
      values; the embedding is that first row cut to 512 values. */
  function FirstSequence(outputs: seq<Tensor>, i: nat): (p: Pick)
    requires i <= |outputs|
    ensures p.Picked? ==> |p.embedding| == EmbeddingDimension
    decreases |outputs| - i
  {
    if i == |outputs| then Missing
    else match outputs[i]
      case Floats(_) => FirstSequence(outputs, i + 1)
      case Nested(items) =>
        if items == [] then Threw
        else if items[0].Floats? then FirstSequence(outputs, i + 1)
        else
          var rows := items[0].items;
          if rows == [] then FirstSequence(outputs, i + 1)
          else if rows[0].Nested? then Threw
          else if |rows[0].values| == HiddenSize then Picked(rows[0].values[..EmbeddingDimension])
          else FirstSequence(outputs, i + 1)
  }

  /** The embedding chosen from the filled outputs (`None`: the
      interpreter threw): the pooled output, else the sequence output's
      first row, else 512 zeros; any exception gives 512 zeros too. */
  function ChooseEmbedding(filled: Option<seq<Tensor>>): seq<real> {
    if filled.None? then ZeroFloats(EmbeddingDimension)
    else match FirstPooled(filled.value, 0)
      case Picked(e) => e
      case Threw => ZeroFloats(EmbeddingDimension)
      case Missing =>
        match FirstSequence(filled.value, 0)
        case Picked(e) => e
        case _ => ZeroFloats(EmbeddingDimension)
  }

  /** The buffers for all outputs, `None` when one allocation throws. */
  function AllocateAll(shapes: seq<seq<int>>): (r: Option<seq<Tensor>>)
    ensures r.Some? ==> |r.value| == |shapes|
    ensures r.Some? <==> forall i :: 0 <= i < |shapes| ==> Allocate(shapes[i]).Some?
    ensures r.Some? ==> forall i :: 0 <= i < |shapes| ==> r.value[i] == Allocate(shapes[i]).value
  {
    if shapes == [] then Some([])
    else
      var front := AllocateAll(shapes[..|shapes| - 1]);
      var last := Allocate(shapes[|shapes| - 1]);
      if front.None? then
        assert !Allocate(shapes[..|shapes| - 1][IndexOfNone(shapes[..|shapes| - 1])]).Some?;
        None
      else if last.None? then None
      else Some(front.value + [last.value])
  }

  /** Index of an output whose allocation throws, given that one does. */
  function IndexOfNone(shapes: seq<seq<int>>): (i: nat)
    requires exists i :: 0 <= i < |shapes| && Allocate(shapes[i]).None?
    ensures i < |shapes| && Allocate(shapes[i]).None?
  {
    if Allocate(shapes[0]).None? then 0
    else
      assert exists i :: 0 <= i < |shapes[1..]| && Allocate(shapes[1..][i]).None? by {
        var i :| 0 <= i < |shapes| && Allocate(shapes[i]).None?;
        assert shapes[1..][i - 1] == shapes[i];
      }
      1 + IndexOfNone(shapes[1..])
  }

  type Interpreter = (seq<int>, seq<Tensor>) -> Option<seq<Tensor>>

  /** `runEmbeddingInference` for the given input ids, output shapes and
      interpreter. */
  function Inference(tokenIds: seq<int>, shapes: seq<seq<int>>, interpreter: Interpreter): seq<real> {
    var buffers := AllocateAll(shapes);
    if buffers.None? then ZeroFloats(EmbeddingDimension)
    else ChooseEmbedding(interpreter(tokenIds, buffers.value))
  }

  /** The embedding always has 512 values, whatever the outputs are and
      whatever throws. */
  lemma InferenceDimension(tokenIds: seq<int>, shapes: seq<seq<int>>, interpreter: Interpreter)
    ensures |Inference(tokenIds, shapes, interpreter)| == EmbeddingDimension
  {
  }

  /** A candidate for the first scan: an array whose element 0 is a
      `FloatArray` of 512 values. */
  predicate IsPooled(t: Tensor) {
    t.Nested? && |t.items| > 0 && t.items[0].Floats? && |t.items[0].values| == EmbeddingDimension
  }

  /** An output on which the first scan throws. */
  predicate IsEmptyArray(t: Tensor) {
    t.Nested? && t.items == []
  }

  lemma {:induction false} FirstPooledFinds(outputs: seq<Tensor>, i: nat, k: nat)
    requires i <= k < |outputs| && IsPooled(outputs[k])
    requires forall j :: i <= j < k ==> !IsPooled(outputs[j]) && !IsEmptyArray(outputs[j])
    ensures FirstPooled(outputs, i) == Picked(outputs[k].items[0].values)
    decreases k - i
  {
    if i < k {
      FirstPooledFinds(outputs, i + 1, k);
    }
  }

  lemma {:induction false} FirstPooledMissing(outputs: seq<Tensor>, i: nat)
    requires i <= |outputs|
    requires forall j :: i <= j < |outputs| ==> !IsPooled(outputs[j]) && !IsEmptyArray(outputs[j])
    ensures FirstPooled(outputs, i) == Missing
    decreases |outputs| - i
  {
    if i < |outputs| {
      FirstPooledMissing(outputs, i + 1);
    }
  }

  /** The pooled output is preferred: the first output that is a 512-value
      pooled embedding is returned, provided no output before it is an
      empty array. */
  lemma PooledPreferred(filled: seq<Tensor>, k: nat)
    requires k < |filled| && IsPooled(filled[k])
    requires forall j :: 0 <= j < k ==> !IsPooled(filled[j]) && !IsEmptyArray(filled[j])
    ensures ChooseEmbedding(Some(filled)) == filled[k].items[0].values
  {
    FirstPooledFinds(filled, 0, k);
  }

  /** A candidate for the second scan: an array whose element 0 is a
      non-empty array of `FloatArray`s, the first of 768 values. */
  predicate IsSequence(t: Tensor) {
    t.Nested? && |t.items| > 0 && t.items[0].Nested? && |t.items[0].items| > 0
    && t.items[0].items[0].Floats? && |t.items[0].items[0].values| == HiddenSize
  }

  /** An output on which the second scan throws. */
  predicate IsMalformedSequence(t: Tensor) {
    t.Nested? && |t.items| > 0 && t.items[0].Nested? && |t.items[0].items| > 0 && t.items[0].items[0].Nested?
  }

  lemma {:induction false} FirstSequenceFinds(outputs: seq<Tensor>, i: nat, k: nat)
    requires i <= k < |outputs| && IsSequence(outputs[k])
    requires forall j :: i <= j < k ==>
               !IsSequence(outputs[j]) && !IsEmptyArray(outputs[j]) && !IsMalformedSequence(outputs[j])
    ensures FirstSequence(outputs, i) == Picked(outputs[k].items[0].items[0].values[..EmbeddingDimension])
    decreases k - i
  {
    if i < k {
      FirstSequenceFinds(outputs, i + 1, k);
    }
  }

  /** Without a pooled output, the first row of the first 768-wide
      sequence output, cut to its first 512 values, is the embedding. */
  lemma SequenceFallback(filled: seq<Tensor>, k: nat)
    requires k < |filled| && IsSequence(filled[k])
    requires forall j :: 0 <= j < |filled| ==> !IsPooled(filled[j]) && !IsEmptyArray(filled[j])
    requires forall j :: 0 <= j < k ==> !IsSequence(filled[j]) && !IsMalformedSequence(filled[j])
    ensures ChooseEmbedding(Some(filled)) == filled[k].items[0].items[0].values[..EmbeddingDimension]
  {
    FirstPooledMissing(filled, 0);
    FirstSequenceFinds(filled, 0, k);
  }

  /** An empty array among the outputs before any pooled one makes the
      first scan throw, and the embedding is all zeros. */
  lemma EmptyOutputGivesZeros(filled: seq<Tensor>, k: nat)
    requires k < |filled| && IsEmptyArray(filled[k])
    requires forall j :: 0 <= j < k ==> !IsPooled(filled[j]) && !IsEmptyArray(filled[j])
    ensures ChooseEmbedding(Some(filled)) == ZeroFloats(EmbeddingDimension)
  {
    assert FirstPooled(filled, 0) == Threw by {
      FirstPooledThrows(filled, 0, k);
    }
  }

  lemma {:induction false} FirstPooledThrows(outputs: seq<Tensor>, i: nat, k: nat)
    requires i <= k < |outputs| && IsEmptyArray(outputs[k])
    requires forall j :: i <= j < k ==> !IsPooled(outputs[j]) && !IsEmptyArray(outputs[j])
    ensures FirstPooled(outputs, i) == Threw
    decreases k - i
  {
    if i < k {
      FirstPooledThrows(outputs, i + 1, k);
    }
  }

  /** The scans over the outputs, as `runEmbeddingInference` runs them after
      the interpreter returned. */
  method SelectEmbedding(outputs: seq<Tensor>) returns (embedding: seq<real>)
    ensures embedding == ChooseEmbedding(Some(outputs))
  {
    // Try to find the 512-value pooled embedding.
    for i := 0 to |outputs|
      invariant FirstPooled(outputs, 0) == FirstPooled(outputs, i)
    {
      match outputs[i] {
        case Floats(_) =>
        case Nested(items) =>
          if items == [] {
            return ZeroFloats(EmbeddingDimension);
          }
          if items[0].Floats? && |items[0].values| == EmbeddingDimension {
            return items[0].values;
          }
      }
    }
    // Otherwise take the first row of a 768-wide sequence output.
    for i := 0 to |outputs|
      invariant FirstSequence(outputs, 0) == FirstSequence(outputs, i)
    {
      match outputs[i] {
        case Floats(_) =>
        case Nested(items) =>
          if items == [] {
            return ZeroFloats(EmbeddingDimension);
          }
          if items[0].Nested? {
            var rows := items[0].items;
            if rows != [] {
              if rows[0].Nested? {
                return ZeroFloats(EmbeddingDimension);
              }
              if |rows[0].values| == HiddenSize {
                var pooled := new real[EmbeddingDimension];
                for j := 0 to EmbeddingDimension
                  invariant forall m :: 0 <= m < j ==> pooled[m] == rows[0].values[m]
                {
                  pooled[j] := rows[0].values[j];
                }
                return pooled[..];
              }
            }
          }
      }
    }
    embedding := ZeroFloats(EmbeddingDimension);
  }

  /** `runEmbeddingInference`: allocate a buffer per output shape, run the
      interpreter, then choose the embedding; any exception gives zeros. */
  method RunEmbeddingInference(tokenIds: seq<int>, shapes: seq<seq<int>>, interpreter: Interpreter)
    returns (embedding: seq<real>)
    ensures embedding == Inference(tokenIds, shapes, interpreter)
    ensures |embedding| == EmbeddingDimension
  {
    var buffers: seq<Tensor> := [];
    for i := 0 to |shapes|
      invariant AllocateAll(shapes[..i]) == Some(buffers)
    {
      assert shapes[..i + 1][..i] == shapes[..i];
      var buffer := Allocate(shapes[i]);
      if buffer.None? {
        assert AllocateAll(shapes).None? by {
          assert shapes[..i + 1][i] == shapes[i];
          assert !(forall k :: 0 <= k < |shapes| ==> Allocate(shapes[k]).Some?);
        }
        return ZeroFloats(EmbeddingDimension);
      }
      buffers := buffers + [buffer.value];
    }
    assert shapes[..|shapes|] == shapes;
    var filled := interpreter(tokenIds, buffers);
    if filled.None? {
      return ZeroFloats(EmbeddingDimension);
    }
    embedding := SelectEmbedding(filled.value);
  }

  // ---------------------------------------------------------------------
  // computeEmbedding, getEmbeddings, getBatchEmbeddings
  // ---------------------------------------------------------------------

  /** The foreign parts of one embedder: the tokenizer (`None` when it
      throws), the output shapes of the loaded model and its interpreter. */
  datatype Backend = Backend(tokenizer: string -> Option<seq<int>>, shapes: seq<seq<int>>, interpreter: Interpreter)

  /** The model input `TokenizeWithMatureBert` builds, as a value. */
  function ModelInput(tokenIds: Option<seq<int>>): seq<int> {
    var n := if tokenIds.Some? then Min(|tokenIds.value|, MaxContentTokens) else 0;
    seq(MaxSequenceLength, j requires 0 <= j < MaxSequenceLength =>
      if j == 0 then ClsId
      else if j <= n then ClampId(tokenIds.value[j - 1])
      else if j == n + 1 then SepId
      else PadId)
  }

  /** `TokenizeWithMatureBert` builds exactly `ModelInput`. */
  lemma ModelInputMatches(tokenIds: Option<seq<int>>, r: seq<int>)
    requires |r| == MaxSequenceLength && r[0] == ClsId
    requires tokenIds.Some? ==>
              var n := Min(|tokenIds.value|, MaxContentTokens);
              && (forall i :: 0 <= i < n ==> r[i + 1] == ClampId(tokenIds.value[i]))
              && r[n + 1] == SepId
              && (forall j :: n + 1 < j < |r| ==> r[j] == PadId)
    requires tokenIds.None? ==> r[1] == SepId && forall j :: 1 < j < |r| ==> r[j] == PadId
    ensures r == ModelInput(tokenIds)
  {
    var m := ModelInput(tokenIds);
    forall j | 0 <= j < MaxSequenceLength ensures r[j] == m[j] {
      if tokenIds.Some? && 0 < j <= Min(|tokenIds.value|, MaxContentTokens) {
        assert r[(j - 1) + 1] == ClampId(tokenIds.value[j - 1]);
      }
    }
  }

  /** `computeEmbedding`: tokenize, then run the model. Both stages absorb
      their own exceptions, so the embedding always has 512 values. */
  function Embedding(backend: Backend, text: string): (e: seq<real>)
    ensures |e| == EmbeddingDimension
  {
    Inference(ModelInput(backend.tokenizer(text)), backend.shapes, backend.interpreter)
  }

  method ComputeEmbedding(backend: Backend, text: string) returns (e: seq<real>)
    ensures e == Embedding(backend, text)
  {
    var tokenIds := TokenizeWithMatureBert(backend.tokenizer(text));
    ModelInputMatches(backend.tokenizer(text), tokenIds);
    e := RunEmbeddingInference(tokenIds, backend.shapes, backend.interpreter);
  }

  /** `getEmbeddings`: the embedding of the first item, or an empty list
      when the request has no items. */
  function GetEmbeddings(backend: Backend, items: seq<string>): (e: seq<real>)
    ensures items == [] <==> e == []
    ensures items != [] ==> e == Embedding(backend, items[0])
  {
    if items == [] then [] else Embedding(backend, items[0])
  }

  /** `getBatchEmbeddings`: one embedding per item, in order; the first is
      what `getEmbeddings` gives for the same request. */
  method GetBatchEmbeddings(backend: Backend, items: seq<string>) returns (results: seq<seq<real>>)
    ensures |results| == |items|
    ensures forall i :: 0 <= i < |items| ==> results[i] == Embedding(backend, items[i])
    ensures items != [] ==> results[0] == GetEmbeddings(backend, items)
  {
    results := [];
    for i := 0 to |items|
      invariant |results| == i
      invariant forall k :: 0 <= k < i ==> results[k] == Embedding(backend, items[k])
    {
      var embedding := ComputeEmbedding(backend, items[i]);
      results := results + [embedding];
    }
  }
}
