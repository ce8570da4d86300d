/** HandleImport of pkg/importer/importer.go: the batch-size bounds check, the
    fixed sample used to estimate object size, the greedy batching loop and the
    final flush. The JSON decoder is a list of already decoded entries and the
    search-index service is a `Service` value; file access, logging and
    command-line wiring are not part of this model. */
module Importer {
  import opened Utils
  import opened Batching

  const MiB: int := 1024 * 1024
  const MinBatchSize: int := 1 * MiB
  const MaxBatchSize: int := 95 * MiB
  /** Number of leading documents decoded to estimate the average object size. */
  const SampleSize: nat := 50

  /** One element of the top-level JSON array as the decoder delivers it: a
      decoded object, or one whose decoding fails (invalid or truncated JSON,
      or a value that is not an object). */
  datatype Entry = Object(doc: Doc) | Malformed

  /** The input file as the decoder sees it: whether the first token reads
      without a syntax error, then the values that follow it. The token is
      discarded unchecked, so `{` or a scalar passes as well as `[`; a file
      that is not an array then typically fails at its first decode. The values
      end either at a closing bracket or at the end of the file; the decoder
      reports no more values in both cases. */
  datatype Source = Source(firstTokenReads: bool, entries: seq<Entry>)

  datatype Error =
    | BatchSizeTooSmall
    | BatchSizeTooLarge
      /** The first token could not be read (syntax error or empty file). */
    | StartTokenFailed
      /** Decoding failed at element `index` (index |entries| is the end of the array). */
    | DecodeFailed(index: nat)
      /** Update call number `call` was rejected by the service. */
    | UploadFailed(call: nat)

  datatype Status = Success | Failure(error: Error)

  datatype Result<T> = Ok(value: T) | Err(error: Error)

  /** The documents the decoder delivers before its first failure. */
  function DecodedPrefix(entries: seq<Entry>): (docs: seq<Doc>)
    ensures |docs| <= |entries|
    ensures forall j :: 0 <= j < |docs| ==> entries[j] == Object(docs[j])
    ensures |docs| < |entries| ==> entries[|docs|].Malformed?
    decreases |entries|
  {
    if |entries| == 0 || entries[0].Malformed? then []
    else [entries[0].doc] + DecodedPrefix(entries[1..])
  }

  /** Skipping `n` successfully decoded entries skips the same documents. */
  lemma DecodedPrefixDrop(entries: seq<Entry>, n: nat)
    requires n <= |DecodedPrefix(entries)|
    ensures DecodedPrefix(entries[n..]) == DecodedPrefix(entries)[n..]
  {
  }

  /** The decoder stops delivering documents exactly at the first malformed entry. */
  lemma DecodedAt(entries: seq<Entry>, i: nat)
    requires i <= |DecodedPrefix(entries)| && i < |entries|
    ensures entries[i].Malformed? ==> i == |DecodedPrefix(entries)|
    ensures entries[i].Object? ==> i < |DecodedPrefix(entries)| && DecodedPrefix(entries)[i] == entries[i].doc
  {
  }

  /** The bounds check on the configured batch size: both bounds inclusive. */
  function CheckBatchSize(batchSize: int): (r: Result<int>)
    ensures r.Ok? <==> 1048576 <= batchSize <= 99614720
    ensures r.Ok? ==> r.value == batchSize
    ensures batchSize < 1048576 ==> r == Err(BatchSizeTooSmall)
    ensures batchSize > 99614720 ==> r == Err(BatchSizeTooLarge)
  {
    if batchSize < MinBatchSize then Err(BatchSizeTooSmall)
    else if batchSize > MaxBatchSize then Err(BatchSizeTooLarge)
    else Ok(batchSize)
  }

  /** The sampling loop: decode the first SampleSize elements, failing at the
      first one that does not decode or is missing. */
  method ReadSample(entries: seq<Entry>) returns (r: Result<seq<Doc>>)
    ensures r.Ok? <==> |DecodedPrefix(entries)| >= SampleSize
    ensures r.Ok? ==> |r.value| == SampleSize && r.value == DecodedPrefix(entries)[..SampleSize]
    ensures r.Ok? ==> forall j :: 0 <= j < SampleSize ==> entries[j] == Object(r.value[j])
    ensures r.Err? ==> r.error == DecodeFailed(|DecodedPrefix(entries)|)
  {
    var objects: seq<Doc> := [];
    var i := 0;
    while i < SampleSize
      invariant i <= SampleSize && i <= |DecodedPrefix(entries)|
      invariant objects == DecodedPrefix(entries)[..i]
    {
      if i >= |entries| || entries[i].Malformed? {
        return Err(DecodeFailed(i));
      }
      objects := objects + [entries[i].doc];
      i := i + 1;
    }
    return Ok(objects);
  }

  /** The integer average object size of the sample. Every document is at least
      one byte, so it is never zero and the division that follows is defined. */
  function AverageObjectSize(sample: seq<Doc>): (avg: nat)
    requires |sample| == SampleSize
    ensures avg >= 1
    ensures avg * SampleSize <= SumSizes(sample) < (avg + 1) * SampleSize
  {
    SumSizes(sample) / SampleSize
  }

  /** The expected number of objects per batch, used only as a slice capacity.
      It is never raised to at least one. */
  function ObjectsPerBatchHint(batchSize: int, avg: nat): (hint: nat)
    requires batchSize >= 0 && avg >= 1
    ensures hint * avg <= batchSize < (hint + 1) * avg
  {
    batchSize / avg
  }

  /** When every sampled document is larger than the budget the hint is zero. */
  lemma HintHasNoFloor(sample: seq<Doc>, batchSize: int)
    requires |sample| == SampleSize && batchSize >= 0
    requires forall j :: 0 <= j < |sample| ==> Size(sample[j]) > batchSize
    ensures ObjectsPerBatchHint(batchSize, AverageObjectSize(sample)) == 0
  {
    SumSizesLowerBound(sample, batchSize + 1);
  }

  /** Fifty sampled documents of 1 KiB each give a hint of 1024 objects for a
      1 MiB budget. */
  lemma HintForKiBDocuments(sample: seq<Doc>)
    requires |sample| == SampleSize
    requires forall j :: 0 <= j < |sample| ==> Size(sample[j]) == 1024
    ensures AverageObjectSize(sample) == 1024
    ensures ObjectsPerBatchHint(MiB, AverageObjectSize(sample)) == 1024
  {
    SumSizesUniform(sample, 1024);
  }

  /** The loop body for one decoded document: when the document would push
      the running size over the budget, the pending batch is sent first (even
      if it is empty); then the document joins the pending batch. Agrees with
      the reference `Step` unless the send is rejected. */
  method AddDocument(service: Service, sent: seq<seq<Doc>>, objects: seq<Doc>, currentBatchSize: nat,
                     obj: Doc, batchSize: int)
    returns (sent': seq<seq<Doc>>, objects': seq<Doc>, currentBatchSize': nat, ok: bool)
    requires service.AcceptsFirst(|sent|)
    ensures ok ==> Acc(sent', objects', currentBatchSize') == Step(Acc(sent, objects, currentBatchSize), obj, batchSize)
    ensures ok ==> service.AcceptsFirst(|sent'|)
    ensures !ok ==> sent' == Step(Acc(sent, objects, currentBatchSize), obj, batchSize).flushed
    ensures !ok ==> service == RejectsCall(|sent|) && |sent'| == |sent| + 1
  {
    sent', objects', currentBatchSize', ok := sent, objects, currentBatchSize, true;
    var objSize := Size(obj);
    if currentBatchSize + objSize > batchSize {
      var body;
      sent', body, ok := SendBatch(service, sent, objects);
      if !ok {
        return;
      }
      objects' := [];
      currentBatchSize' := 0;
    }
    objects' := objects' + [obj];
    currentBatchSize' := currentBatchSize' + objSize;
  }

  /** The processing loop over the elements after the sample, stopping at the
      first decoding or upload failure. */
  method ProcessEntries(entries: seq<Entry>, batchSize: int, service: Service, offset: nat)
    returns (sent: seq<seq<Doc>>, objects: seq<Doc>, currentBatchSize: nat, status: Status)
    ensures status.Success? ==>
      && |DecodedPrefix(entries)| == |entries|
      && Run(DecodedPrefix(entries), batchSize) == Acc(sent, objects, currentBatchSize)
      && service.AcceptsFirst(|sent|)
    ensures status.Failure? ==> status.error.DecodeFailed? || status.error.UploadFailed?
    ensures status.Failure? && status.error.DecodeFailed? ==>
      |DecodedPrefix(entries)| < |entries|
      && status.error.index == offset + |DecodedPrefix(entries)|
      && sent == Run(DecodedPrefix(entries), batchSize).flushed
      && service.AcceptsFirst(|sent|)
    ensures status.Failure? && status.error.UploadFailed? ==>
      && service == RejectsCall(status.error.call) && |sent| == status.error.call + 1
      && sent <= Run(DecodedPrefix(entries), batchSize).flushed
  {
    ghost var docs := DecodedPrefix(entries);
    sent := [];
    objects := [];
    currentBatchSize := 0;
    var i := 0;
    while i < |entries|
      invariant i <= |entries| && i <= |docs|
      invariant Run(docs[..i], batchSize) == Acc(sent, objects, currentBatchSize)
      invariant service.AcceptsFirst(|sent|)
    {
      DecodedAt(entries, i);
      if entries[i].Malformed? {
        assert docs[..i] == docs;
        return sent, objects, currentBatchSize, Failure(DecodeFailed(offset + i));
      }
      RunSnoc(docs, i, batchSize);
      var call := |sent|;
      var ok;
      sent, objects, currentBatchSize, ok := AddDocument(service, sent, objects, currentBatchSize, entries[i].doc, batchSize);
      if !ok {
        FlushedGrows(docs, i + 1, batchSize);
        return sent, objects, currentBatchSize, Failure(UploadFailed(call));
      }
      i := i + 1;
    }
    assert docs[..i] == docs;
    return sent, objects, currentBatchSize, Success;
  }

  /** The processing loop followed by the final flush. `capacity` is the slice
      capacity hint: it takes no part in the result. `offset` is the array index
      of `entries[0]`, used to report where decoding failed. */
  method SendInBatches(entries: seq<Entry>, batchSize: int, capacity: int, service: Service, offset: nat)
    returns (sent: seq<seq<Doc>>, status: Status)
    ensures sent <= Batches(DecodedPrefix(entries), batchSize)
    ensures status.Success? <==>
      |DecodedPrefix(entries)| == |entries| && service.AcceptsFirst(|Batches(DecodedPrefix(entries), batchSize)|)
    ensures status.Success? ==> sent == Batches(DecodedPrefix(entries), batchSize)
    ensures status.Failure? ==> status.error.DecodeFailed? || status.error.UploadFailed?
    ensures status.Failure? && status.error.DecodeFailed? ==>
      |DecodedPrefix(entries)| < |entries|
      && status.error.index == offset + |DecodedPrefix(entries)|
      && sent == Run(DecodedPrefix(entries), batchSize).flushed
      && service.AcceptsFirst(|sent|)
    ensures status.Failure? && status.error.UploadFailed? ==>
      service == RejectsCall(status.error.call) && |sent| == status.error.call + 1
    ensures |DecodedPrefix(entries)| < |entries| ==> sent <= Run(DecodedPrefix(entries), batchSize).flushed
  {
    ghost var docs := DecodedPrefix(entries);
    var objects, currentBatchSize;
    sent, objects, currentBatchSize, status := ProcessEntries(entries, batchSize, service, offset);
    assert Run(docs, batchSize).flushed <= Batches(docs, batchSize);
    if status.Failure? {
      return;
    }
    assert Batches(docs, batchSize) == if |objects| > 0 then sent + [objects] else sent;
    if |objects| > 0 {
      var ok;
      var body;
      sent, body, ok := SendBatch(service, sent, objects);
      if !ok {
        return sent, Failure(UploadFailed(|sent| - 1));
      }
    }
    return sent, Success;
  }

  /** The steps before batching: the bounds check, reading the first token, the
      sample, its average object size and the capacity hint derived from it.
      Yields the hint, or the first error in that order. */
  method PrepareImport(batchSize: int, source: Source) returns (r: Result<nat>)
    ensures r.Ok? <==>
      MinBatchSize <= batchSize <= MaxBatchSize && source.firstTokenReads && |DecodedPrefix(source.entries)| >= SampleSize
    ensures batchSize < MinBatchSize ==> r == Err(BatchSizeTooSmall)
    ensures batchSize > MaxBatchSize ==> r == Err(BatchSizeTooLarge)
    ensures MinBatchSize <= batchSize <= MaxBatchSize && !source.firstTokenReads ==> r == Err(StartTokenFailed)
    ensures MinBatchSize <= batchSize <= MaxBatchSize && source.firstTokenReads && |DecodedPrefix(source.entries)| < SampleSize ==>
      r == Err(DecodeFailed(|DecodedPrefix(source.entries)|))
    ensures r.Ok? ==> r.value == ObjectsPerBatchHint(batchSize, AverageObjectSize(DecodedPrefix(source.entries)[..SampleSize]))
  {
    var checked := CheckBatchSize(batchSize);
    if checked.Err? {
      return Err(checked.error);
    }
    if !source.firstTokenReads {
      return Err(StartTokenFailed);
    }
    var sample := ReadSample(source.entries);
    if sample.Err? {
      return Err(sample.error);
    }
    var total := CalculateBatchSize(sample.value);
    var averageObjSize := total / SampleSize;
    assert averageObjSize == AverageObjectSize(sample.value);
    return Ok(ObjectsPerBatchHint(batchSize, averageObjSize));
  }

  /** The whole import as written: bounds check, first token, sample, then
      batching of the elements after the sample only. The sample documents are
      never uploaded. */
  method HandleImport(batchSize: int, source: Source, service: Service)
    returns (sent: seq<seq<Doc>>, status: Status)
    ensures batchSize < MinBatchSize ==> sent == [] && status == Failure(BatchSizeTooSmall)
    ensures batchSize > MaxBatchSize ==> sent == [] && status == Failure(BatchSizeTooLarge)
    ensures MinBatchSize <= batchSize <= MaxBatchSize && !source.firstTokenReads ==>
      sent == [] && status == Failure(StartTokenFailed)
    ensures MinBatchSize <= batchSize <= MaxBatchSize && source.firstTokenReads && |DecodedPrefix(source.entries)| < SampleSize ==>
      sent == [] && status == Failure(DecodeFailed(|DecodedPrefix(source.entries)|))
    ensures |DecodedPrefix(source.entries)| >= SampleSize ==>
      sent <= Batches(DecodedPrefix(source.entries)[SampleSize..], batchSize)
    ensures status.Success? <==>
      && MinBatchSize <= batchSize <= MaxBatchSize
      && source.firstTokenReads
      && SampleSize <= |DecodedPrefix(source.entries)| == |source.entries|
      && service.AcceptsFirst(|Batches(DecodedPrefix(source.entries)[SampleSize..], batchSize)|)
    ensures status.Success? ==>
      && sent == Batches(DecodedPrefix(source.entries)[SampleSize..], batchSize)
      && Flatten(sent) == DecodedPrefix(source.entries)[SampleSize..]
    ensures status.Failure? && status.error.DecodeFailed? ==>
      && status.error.index == |DecodedPrefix(source.entries)|
      && (status.error.index >= SampleSize ==> status.error.index < |source.entries|)
      && service.AcceptsFirst(|sent|)
    ensures status.Failure? && status.error.DecodeFailed? && status.error.index >= SampleSize ==>
      sent == Run(DecodedPrefix(source.entries)[SampleSize..], batchSize).flushed
    ensures status.Failure? && status.error.UploadFailed? ==>
      service == RejectsCall(status.error.call) && |sent| == status.error.call + 1
    ensures SampleSize <= |DecodedPrefix(source.entries)| < |source.entries| ==>
      sent <= Run(DecodedPrefix(source.entries)[SampleSize..], batchSize).flushed
    ensures MinBatchSize <= batchSize <= MaxBatchSize && source.firstTokenReads && |DecodedPrefix(source.entries)| >= SampleSize ==>
      status.Success? || status.error.DecodeFailed? || status.error.UploadFailed?
  {
    var prepared := PrepareImport(batchSize, source);
    if prepared.Err? {
      return [], Failure(prepared.error);
    }
    var rest := source.entries[SampleSize..];
    DecodedPrefixDrop(source.entries, SampleSize);
    sent, status := SendInBatches(rest, batchSize, prepared.value, service, SampleSize);
    if status.Success? {
      BatchesPartition(DecodedPrefix(rest), batchSize);
    }
  }

  /** A file holding exactly the fifty sample documents imports successfully
      while uploading nothing. */
  method SampleOnlyFileUploadsNothing(batchSize: int, doc: Doc, service: Service)
    returns (sent: seq<seq<Doc>>, status: Status)
    requires MinBatchSize <= batchSize <= MaxBatchSize
    ensures status == Success && sent == []
  {
    var entries := seq(SampleSize, _ => Object(doc));
    assert |DecodedPrefix(entries)| == SampleSize;
    assert DecodedPrefix(entries)[SampleSize..] == [];
    sent, status := HandleImport(batchSize, Source(true, entries), service);
  }

  /** A valid file whose only upload, the final flush, is rejected reports
      that upload failure, not a decoding error. */
  method RejectedFinalFlushIsReported(doc: Doc) returns (sent: seq<seq<Doc>>, status: Status)
    requires Size(doc) <= MiB
    ensures sent == [[doc]] && status == Failure(UploadFailed(0))
  {
    var entries := seq(SampleSize + 1, _ => Object(doc));
    assert |DecodedPrefix(entries)| == SampleSize + 1;
    assert DecodedPrefix(entries)[SampleSize..] == [doc];
    assert [doc][..0] == [];
    assert Run([doc], MiB) == Acc([], [doc], Size(doc));
    assert Batches([doc], MiB) == [[doc]];
    sent, status := HandleImport(MiB, Source(true, entries), RejectsCall(0));
  }

  /** A malformed element after a pending document stops the run with the
      decoding error: the pending document is never flushed. */
  method DecodeErrorStopsUploads(doc: Doc) returns (sent: seq<seq<Doc>>, status: Status)
    requires Size(doc) <= MiB
    ensures sent == [] && status == Failure(DecodeFailed(1))
  {
    var entries := [Object(doc), Malformed];
    assert DecodedPrefix(entries) == [doc];
    assert [doc][..0] == [];
    assert Run([doc], MiB).flushed == [];
    sent, status := SendInBatches(entries, MiB, 0, RejectsCall(0), 0);
  }

  /** The import with the sample delivered too: the sample only feeds the size
      estimate, and every decoded document, the sample included, goes through
      the batching loop. */
  method HandleImportWholeStream(batchSize: int, source: Source, service: Service)
    returns (sent: seq<seq<Doc>>, status: Status)
    ensures !(MinBatchSize <= batchSize <= MaxBatchSize && source.firstTokenReads) ==> sent == [] && status.Failure?
    ensures |DecodedPrefix(source.entries)| < SampleSize ==> sent == [] && status.Failure?
    ensures sent <= Batches(DecodedPrefix(source.entries), batchSize)
    ensures status.Success? <==>
      && MinBatchSize <= batchSize <= MaxBatchSize
      && source.firstTokenReads
      && SampleSize <= |DecodedPrefix(source.entries)| == |source.entries|
      && service.AcceptsFirst(|Batches(DecodedPrefix(source.entries), batchSize)|)
    ensures status.Success? ==>
      && sent == Batches(DecodedPrefix(source.entries), batchSize)
      && Flatten(sent) == DecodedPrefix(source.entries)
      && |Flatten(sent)| == |source.entries|
    ensures |DecodedPrefix(source.entries)| < |source.entries| ==>
      sent <= Run(DecodedPrefix(source.entries), batchSize).flushed
    ensures MinBatchSize <= batchSize <= MaxBatchSize && source.firstTokenReads && |DecodedPrefix(source.entries)| >= SampleSize ==>
      status.Success? || status.error.DecodeFailed? || status.error.UploadFailed?
    ensures status.Failure? && status.error.DecodeFailed? ==>
      && status.error.index == |DecodedPrefix(source.entries)|
      && (status.error.index >= SampleSize ==> status.error.index < |source.entries|)
  {
    var prepared := PrepareImport(batchSize, source);
    if prepared.Err? {
      return [], Failure(prepared.error);
    }
    sent, status := SendInBatches(source.entries, batchSize, prepared.value, service, 0);
    if status.Success? {
      BatchesPartition(DecodedPrefix(source.entries), batchSize);
    }
  }
}
