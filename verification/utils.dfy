/** Helpers of pkg/utils/utils.go: the serialized size of documents and the
    one-call-per-batch boundary to the search-index service. */
module Utils {

  /** One byte of a JSON encoding. */
  newtype byte = b: int | 0 <= b < 256

  /** A decoded JSON document, identified with the bytes of its canonical
      encoding (what json.Marshal produces for it). The encoding of an object,
      or of a JSON null, is never empty. */
  type Doc = s: seq<byte> | |s| > 0 witness [0x7B, 0x7D]

  /** The serialized size of one document: the length of its encoding. */
  function Size(d: Doc): (n: nat)
    ensures n >= 1
  {
    |d|
  }

  /** The sum of the serialized sizes of `objects`: the reference definition
      that CalculateBatchSize computes with a loop. */
  function SumSizes(objects: seq<Doc>): (n: nat)
    ensures n >= |objects|
    decreases |objects|
  {
    if |objects| == 0 then 0
    else SumSizes(objects[..|objects| - 1]) + Size(objects[|objects| - 1])
  }

  /** Sums the serialized size of each object in turn. */
  method CalculateBatchSize(objects: seq<Doc>) returns (size: nat)
    ensures size == SumSizes(objects)
    ensures |objects| == 0 ==> size == 0
  {
    size := 0;
    for i := 0 to |objects|
      invariant size == SumSizes(objects[..i])
    {
      assert objects[..i + 1][..i] == objects[..i];
      size := size + Size(objects[i]);
    }
    assert objects[..|objects|] == objects;
  }

  /** Summing sizes is additive over concatenation. */
  lemma {:induction false} SumSizesConcat(a: seq<Doc>, b: seq<Doc>)
    ensures SumSizes(a + b) == SumSizes(a) + SumSizes(b)
    decreases |b|
  {
    if |b| == 0 {
      assert a + b == a;
    } else {
      var b' := b[..|b| - 1];
      assert (a + b)[..|a + b| - 1] == a + b';
      SumSizesConcat(a, b');
    }
  }

  /** Appending documents never makes the summed size smaller. */
  lemma SumSizesMonotone(a: seq<Doc>, b: seq<Doc>)
    ensures SumSizes(a) <= SumSizes(a + b)
    ensures SumSizes(b) <= SumSizes(a + b)
  {
    SumSizesConcat(a, b);
  }

  /** Documents that all have size `m` sum to `m` per document. */
  lemma {:induction false} SumSizesUniform(objects: seq<Doc>, m: nat)
    requires forall i :: 0 <= i < |objects| ==> Size(objects[i]) == m
    ensures SumSizes(objects) == |objects| * m
    decreases |objects|
  {
    if |objects| > 0 {
      SumSizesUniform(objects[..|objects| - 1], m);
    }
  }

  /** Documents that all have size at least `m` sum to at least `m` per document. */
  lemma {:induction false} SumSizesLowerBound(objects: seq<Doc>, m: nat)
    requires forall i :: 0 <= i < |objects| ==> Size(objects[i]) >= m
    ensures SumSizes(objects) >= |objects| * m
    decreases |objects|
  {
    if |objects| > 0 {
      SumSizesLowerBound(objects[..|objects| - 1], m);
    }
  }

  const OpenBracket: byte := 0x5B
  const Comma: byte := 0x2C
  const CloseBracket: byte := 0x5D

  /** The encodings of `objects` separated by commas, as json.Marshal writes
      the elements of a slice. */
  function Join(objects: seq<Doc>): seq<byte>
    decreases |objects|
  {
    if |objects| == 0 then []
    else if |objects| == 1 then objects[0]
    else Join(objects[..|objects| - 1]) + [Comma] + objects[|objects| - 1]
  }

  /** The request body SendBatch builds for one batch: a JSON array holding
      the batch's documents. An empty (non-nil) slice encodes as `[]`. */
  function Payload(batch: seq<Doc>): (body: seq<byte>)
    ensures |body| >= 2 && body[0] == OpenBracket && body[|body| - 1] == CloseBracket
    ensures |batch| == 1 ==> body[1..|body| - 1] == batch[0]
  {
    [OpenBracket] + Join(batch) + [CloseBracket]
  }

  lemma {:induction false} JoinLength(objects: seq<Doc>)
    ensures |Join(objects)| == SumSizes(objects) + (if |objects| == 0 then 0 else |objects| - 1)
    decreases |objects|
  {
    if |objects| > 1 {
      JoinLength(objects[..|objects| - 1]);
    } else if |objects| == 1 {
      assert objects[..0] == [];
    }
  }

  /** The bytes on the wire exceed the summed document sizes by the brackets
      and the separating commas, so a batch whose summed size meets the budget
      can still be a larger request. */
  lemma {:induction false} PayloadLength(batch: seq<Doc>)
    ensures |Payload(batch)| == SumSizes(batch) + (if |batch| == 0 then 2 else |batch| + 1)
    ensures |Payload(batch)| > SumSizes(batch)
    ensures Payload(batch)[0] == OpenBracket && Payload(batch)[|Payload(batch)| - 1] == CloseBracket
  {
    JoinLength(batch);
  }

  /** The search-index service as SendBatch sees it. It accepts every update
      call except, possibly, the one numbered `call` (counting from 0). Only the
      first rejection can matter, because the importer stops there. */
  datatype Service = AcceptsAll | RejectsCall(call: nat) {

    predicate Accepts(k: nat) {
      AcceptsAll? || call != k
    }

    /** The calls numbered 0 to n - 1 all succeed. */
    predicate AcceptsFirst(n: nat) {
      AcceptsAll? || call >= n
    }
  }

  /** One SendBatch call: the whole batch is serialized once into `body` and
      handed to the service in exactly one update call, numbered |sent|, also
      when the batch is empty. The call fails exactly when the service rejects
      it. */
  method SendBatch(service: Service, sent: seq<seq<Doc>>, objects: seq<Doc>)
    returns (sent': seq<seq<Doc>>, body: seq<byte>, ok: bool)
    ensures |sent'| == |sent| + 1 && sent <= sent' && sent'[|sent|] == objects
    ensures body == Payload(objects)
    ensures |body| == SumSizes(objects) + (if |objects| == 0 then 2 else |objects| + 1)
    ensures ok <==> service.Accepts(|sent|)
  {
    body := Payload(objects);
    PayloadLength(objects);
    sent' := sent + [objects];
    ok := service.Accepts(|sent|);
  }
}
