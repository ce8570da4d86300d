# MeiliJSONImporter batching core, in Dafny

MeiliJSONImporter streams a JSON array of documents from a file and pushes
them to a MeiliSearch index in batches bounded by a byte budget (the
`batch-size` option). This project models the core of `HandleImport`
(`pkg/importer/importer.go`) and the helpers it uses from `pkg/utils/utils.go`:

1. the bounds check on the budget (1 MiB to 95 MiB, both inclusive);
2. the sample: the first 50 array elements are decoded, their summed
   serialized size gives an integer average object size, and
   `budget / average` gives a count hint used only as a slice capacity;
3. the processing loop: each following document is serialized; when the
   running sum of sizes plus the new document's size exceeds the budget, the
   pending batch is sent first; then the document joins the pending batch;
4. the final flush of a non-empty pending batch.

Files and modules:

- `utils.dfy`, module `Utils`: a document (`Doc`) is identified with the bytes
  of its canonical JSON encoding, so its size is the length of that encoding
  (never zero). `SumSizes` is the reference sum of sizes and
  `CalculateBatchSize` the loop that computes it. `Payload` is the request
  body `SendBatch` builds (its `body` out-parameter). `Service` stands for the search-index service: it
  accepts every update call except possibly one numbered call.
- `batching.dfy`, module `Batching`: the processing loop as a pure fold
  (`Step`, `Run`, `Batches`) and the properties it guarantees: partition in
  order, the budget bound with its single-document exception, greediness, and
  where an empty batch can appear.
- `importer.dfy`, module `Importer`: the decoder as a list of entries
  (`Object(doc)` or `Malformed`), the budget check, the sampling loop, the
  hint, the loop body (`AddDocument`), the loop (`ProcessEntries`), the loop
  plus final flush (`SendInBatches`) and the whole run (`HandleImport`).

Every run returns the trace `sent` of batches handed to `SendBatch`, in call
order (a rejected call is the last element of the trace), and a `Status`.

Behaviour of the code that the model keeps, where the code differs from what
its comments and error messages suggest:

- The first token of the file is read and discarded without checking that it
  is `[` (importer.go:91-94). Only a syntax error or an empty file fails there
  (`StartTokenFailed`). A file holding one top-level object passes this step
  and then fails at the first sample decode; a file holding a scalar followed
  by 51 top-level objects takes the next 50 objects as the sample, imports the
  51st and succeeds. The model keeps this: its `Source` records only whether
  the first token reads, and the values after it are the entries.

- The 50 sample documents are never uploaded: `objects` is replaced by an
  empty slice after the average is computed (importer.go:111). Only the
  documents after the sample are batched. See "## Findings".
- Fewer than 50 decodable elements is a decoding error (the decoder hits the
  end of the array), reported before any upload. There is no separate
  "insufficient data" error.
- The hint `batchSize / averageObjSize` is not raised to at least 1; it can be
  0 when sampled documents are larger than the budget. It only sets slice
  capacities and takes no part in which document goes in which batch.
- When the first document after the sample alone exceeds the budget, the
  loop sends an empty batch (the pending batch is empty at that point). This
  is the only empty batch that can be sent; the final flush never sends one.
- The budget bounds the sum of the documents' serialized sizes. The request
  body adds the array brackets and one comma between documents, so it is
  exactly `n + 1` bytes larger for a batch of `n >= 1` documents, and 2 bytes
  for the empty batch (`[]`).
- The upper bound check is inclusive (95 MiB is accepted), although the error
  message says "less than 95 MiB".
- The loop stops when the decoder reports no more elements, which happens both
  at the closing bracket and at the end of the file, so a file truncated just
  after a complete element is imported without error. The model's entry list
  ends at either point.

## Model

| member | source | states |
|---|---|---|
| `Utils.Size` | pkg/importer/importer.go:121-125 | a document's size is the byte length of its encoding, at least one byte |
| `Utils.SumSizes` | pkg/utils/utils.go:24-34 | the summed size of a list of documents is at least its number of documents |
| `Utils.CalculateBatchSize` | pkg/utils/utils.go:24-34 | the loop returns the sum of the individual serialized sizes; 0 for an empty list |
| `Utils.SumSizesConcat` | pkg/utils/utils.go:25-33 | the summed size of a concatenation is the sum of the summed sizes |
| `Utils.SumSizesMonotone` | pkg/utils/utils.go:25-33 | appending documents never decreases the summed size |
| `Utils.SumSizesUniform` | pkg/utils/utils.go:25-33 | n documents of size m sum to n * m |
| `Utils.SumSizesLowerBound` | pkg/utils/utils.go:25-33 | n documents of size at least m sum to at least n * m |
| `Utils.JoinLength` | pkg/utils/utils.go:12 | the comma-separated element encodings are as long as the summed sizes plus one comma between neighbours |
| `Utils.PayloadLength` | pkg/utils/utils.go:12 | the request body is an array, longer than the summed sizes by n + 1 bytes (2 for an empty batch) |
| `Utils.Payload` | pkg/utils/utils.go:12 | the request body is a JSON array: it opens with `[`, closes with `]`, and for one document holds exactly that document's encoding |
| `Utils.SendBatch` | pkg/utils/utils.go:11-20 | each call adds exactly one update call with the whole batch, also for an empty batch, with the batch's array encoding as body, and fails exactly when the service rejects that call |
| `Batching.Step` | pkg/importer/importer.go:127-138 | one iteration: the new document ends the pending batch, which is never empty afterwards; the flushed batches grow by exactly one when the running size plus the document's size exceeds the budget, and otherwise stay as they were |
| `Batching.Batches` | pkg/importer/importer.go:115-146 | the batches sent are the loop's flushes followed by at most one more, the final flush, which is the non-empty pending batch |
| `Batching.RunPendingSize` | pkg/importer/importer.go:112-138 | loop invariant: `currentBatchSize` is the summed size of the pending batch, which is empty only before the first document |
| `Batching.RunCovers` | pkg/importer/importer.go:115-139 | loop invariant: flushed batches followed by the pending batch are exactly the documents read so far |
| `Batching.BatchesPartition` | pkg/importer/importer.go:115-146 | concatenating the sent batches in call order gives back the documents: nothing lost, duplicated, reordered or split |
| `Batching.RunWithinBudget` | pkg/importer/importer.go:127-138 | loop invariant: pending and flushed batches are within the budget or a single document |
| `Batching.BatchesWithinBudget` | pkg/importer/importer.go:127-138 | every sent batch has summed size at most the budget or consists of exactly one document |
| `Batching.RunGreedy` | pkg/importer/importer.go:127-134 | loop invariant: each flushed batch plus the first document of the next one exceeds the budget |
| `Batching.BatchesGreedy` | pkg/importer/importer.go:127-134 | a batch is sent only when the next document does not fit beside it: each batch but the last plus the next batch's first document exceeds the budget |
| `Batching.RunEmptyFlush` | pkg/importer/importer.go:127-134 | loop invariant: the first flushed batch is empty exactly when the first document alone exceeds the budget; no later flushed batch is empty |
| `Batching.BatchesEmptyOnlyFirst` | pkg/importer/importer.go:127-146 | no batches for no documents; only the first batch can be empty, exactly when the first document exceeds the budget; the final flush is never empty |
| `Batching.FlushedGrows` | pkg/importer/importer.go:115-146 | uploads only extend: the batches flushed after a prefix of the documents are a prefix of the batches of the whole run |
| `Importer.DecodedPrefix` | pkg/importer/importer.go:115-119 | the decoder delivers the documents of the entries up to, not including, the first malformed one |
| `Importer.CheckBatchSize` | pkg/importer/importer.go:59-65 | a budget is accepted iff 1048576 <= budget <= 99614720; below is "too small", above is "too large" |
| `Importer.ReadSample` | pkg/importer/importer.go:96-105 | succeeds iff the first 50 entries decode, returning those documents; otherwise fails at the first missing or malformed entry |
| `Importer.AverageObjectSize` | pkg/importer/importer.go:106 | the average is the sample's summed size divided by 50, rounded down, and never 0 |
| `Importer.ObjectsPerBatchHint` | pkg/importer/importer.go:107 | the hint is the budget divided by the average, rounded down |
| `Importer.HintHasNoFloor` | pkg/importer/importer.go:107-111 | when every sample document exceeds the budget the hint is 0 |
| `Importer.HintForKiBDocuments` | pkg/importer/importer.go:106-107 | 50 sample documents of 1 KiB give an average of 1024 and a hint of 1024 for a 1 MiB budget |
| `Importer.AddDocument` | pkg/importer/importer.go:121-138 | one loop iteration agrees with the reference step; when the flush is rejected it stops with that batch as the last call |
| `Importer.ProcessEntries` | pkg/importer/importer.go:111-139 | the loop reaches the reference state for all documents, or stops at the first malformed entry (every call so far accepted) or at a rejected call, with only the reference flushes made so far |
| `Importer.PrepareImport` | pkg/importer/importer.go:59-110 | the steps before batching fail in order (budget too small or too large, first token, sample with the index where decoding stopped) and otherwise yield the hint computed from the first 50 documents |
| `Importer.SendInBatches` | pkg/importer/importer.go:111-146 | sends exactly the reference batches on success, a prefix of them otherwise; succeeds iff every entry decodes and the service accepts every call; after a malformed entry no batch beyond the loop's reference flushes is sent, so the final flush is skipped; the hint does not enter the result |
| `Importer.HandleImport` | pkg/importer/importer.go:50-150 | budget errors and a first token that does not read come first with no uploads; fewer than 50 decodable elements fail with no uploads; on success the uploaded documents are exactly those after the first 50; past the sample, a decoding error needs a malformed element and comes after accepted calls only; after a malformed element no batch beyond the loop's flushes is sent; once the checks and the sample pass, only decoding and upload errors remain |
| `Importer.RejectedFinalFlushIsReported` | pkg/importer/importer.go:142-145 | 51 valid documents whose final flush is rejected give exactly one call and the upload error, not a decoding error |
| `Importer.DecodeErrorStopsUploads` | pkg/importer/importer.go:115-119 | a document followed by a malformed element ends with the decoding error at index 1 and no call, the pending document never flushed |
| `Importer.SampleOnlyFileUploadsNothing` | pkg/importer/importer.go:96-115 | an array of exactly 50 valid documents imports successfully with zero uploads |
| `Importer.HandleImportWholeStream` | pkg/importer/importer.go:96-146 | corrected run: on success the uploaded documents are all the decoded documents, sample included; after a malformed element only the loop's flushes are sent |

## Left out

- File open and stat (pkg/importer/importer.go:73-86): I/O; their errors are not modelled.
- The MeiliSearch client and its HTTP update call (pkg/importer/importer.go:67-71, pkg/utils/utils.go:16): an external service, stood for by `Service`, which may reject one numbered call. Only the first rejection matters because the import stops there.
- The JSON tokenizer and decoder (pkg/importer/importer.go:88-94, 101, 117): library code; whether the first token reads without error is the flag `firstTokenReads` (whatever that token is), and the values after it are already-decoded entries.
- Marshal errors (pkg/importer/importer.go:121-124, pkg/utils/utils.go:12-15, 27-30 including the `log.Fatalf` exit): encoding an object that was just decoded from JSON does not fail, so `Size` and `Payload` are total.
- Logging and printing, including the floating-point MiB and KiB lines (pkg/importer/importer.go:51, 79, 86, 108-109, 148; pkg/utils/utils.go:19): side effects only.
- Command-line flags and wiring (pkg/importer/importer.go:15-57, cmd/main.go): configuration plumbing; host, key and index name do not affect batching.
- Go's 64-bit `int`: sizes and sums are unbounded integers; with a budget of at most 95 MiB the running sum cannot approach 2^63.
- Error messages: errors are constructors. `DecodeFailed` carries the element index, which the Go message does not.

## Findings

| source | as written | input that shows it | evidently intended | confidence | as-written member | corrected member |
|---|---|---|---|---|---|---|
| pkg/importer/importer.go:111 | after the sample is measured, `objects` is replaced by a new empty slice, so the 50 sample documents are never uploaded | an array of exactly 50 valid documents: the import reports success after zero update calls | the sample only estimates sizes (comment at line 96) and its documents are uploaded with the rest | high, not executed | `Importer.SampleOnlyFileUploadsNothing` | `Importer.HandleImportWholeStream` |
