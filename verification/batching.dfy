/** The greedy partition performed by the processing loop of HandleImport
    (pkg/importer/importer.go), stated as a pure fold over the post-sample
    documents, with the properties the loop guarantees. */
module Batching {
  import opened Utils

  /** The loop's state: the batches already handed to the service, the
      pending batch, and the running size `currentBatchSize`. */
  datatype Acc = Acc(flushed: seq<seq<Doc>>, pending: seq<Doc>, pendingSize: nat)

  /** One iteration: flush the pending batch when the next document would push
      the running size over the budget, then add the document. */
  function Step(acc: Acc, d: Doc, budget: int): (r: Acc)
    ensures acc.flushed <= r.flushed && |r.flushed| <= |acc.flushed| + 1
    ensures |r.pending| > 0 && r.pending[|r.pending| - 1] == d
    ensures |r.flushed| == |acc.flushed| + 1 <==> acc.pendingSize + Size(d) > budget
  {
    if acc.pendingSize + Size(d) > budget then
      Acc(acc.flushed + [acc.pending], [d], Size(d))
    else
      Acc(acc.flushed, acc.pending + [d], acc.pendingSize + Size(d))
  }

  /** The state after the loop has consumed `docs`, starting from an empty batch. */
  function Run(docs: seq<Doc>, budget: int): Acc
    decreases |docs|
  {
    if |docs| == 0 then Acc([], [], 0)
    else Step(Run(docs[..|docs| - 1], budget), docs[|docs| - 1], budget)
  }

  /** Every batch uploaded for `docs`: the in-loop flushes, then the pending
      batch if it is not empty (the final flush). */
  function Batches(docs: seq<Doc>, budget: int): (batches: seq<seq<Doc>>)
    ensures Run(docs, budget).flushed <= batches
    ensures |batches| <= |Run(docs, budget).flushed| + 1
    ensures |batches| == |Run(docs, budget).flushed| + 1 ==> batches[|batches| - 1] == Run(docs, budget).pending != []
  {
    var acc := Run(docs, budget);
    if |acc.pending| > 0 then acc.flushed + [acc.pending] else acc.flushed
  }

  /** Concatenation of batches in order. */
  function Flatten(batches: seq<seq<Doc>>): seq<Doc>
    decreases |batches|
  {
    if |batches| == 0 then []
    else Flatten(batches[..|batches| - 1]) + batches[|batches| - 1]
  }

  /** A batch respects the budget, or is a single document that alone exceeds it. */
  predicate WithinBudget(batch: seq<Doc>, budget: int)
  {
    SumSizes(batch) <= budget || |batch| == 1
  }

  /** Each batch but the last was flushed only because the first document of
      the next batch did not fit beside it. */
  predicate Greedy(batches: seq<seq<Doc>>, budget: int)
  {
    forall j :: 0 < j < |batches| ==> Overflows(batches[j - 1], batches[j], budget)
  }

  /** `next` is not empty and its first document does not fit beside `batch`. */
  predicate Overflows(batch: seq<Doc>, next: seq<Doc>, budget: int)
  {
    |next| > 0 && SumSizes(batch) + Size(next[0]) > budget
  }

  lemma FlattenSnoc(batches: seq<seq<Doc>>, b: seq<Doc>)
    ensures Flatten(batches + [b]) == Flatten(batches) + b
  {
  }

  lemma RunSnoc(docs: seq<Doc>, n: nat, budget: int)
    requires n < |docs|
    ensures Run(docs[..n + 1], budget) == Step(Run(docs[..n], budget), docs[n], budget)
  {
    assert docs[..n + 1][..n] == docs[..n];
  }

  /** Loop invariant: the running size is the summed size of the pending batch,
      and the pending batch is empty only before the first document. */
  lemma {:induction false} RunPendingSize(docs: seq<Doc>, budget: int)
    ensures Run(docs, budget).pendingSize == SumSizes(Run(docs, budget).pending)
    ensures |docs| > 0 <==> |Run(docs, budget).pending| > 0
    ensures |Run(docs, budget).flushed| > 0 ==> |docs| > 0
    decreases |docs|
  {
    if |docs| > 0 {
      var init := docs[..|docs| - 1];
      var d := docs[|docs| - 1];
      RunPendingSize(init, budget);
      var a := Run(init, budget);
      if a.pendingSize + Size(d) > budget {
        assert [d][..0] == [];
      } else {
        assert (a.pending + [d])[..|a.pending|] == a.pending;
      }
    }
  }

  /** Loop invariant: the flushed batches followed by the pending batch are the
      documents consumed so far. */
  lemma {:induction false} RunCovers(docs: seq<Doc>, budget: int)
    ensures Flatten(Run(docs, budget).flushed) + Run(docs, budget).pending == docs
    decreases |docs|
  {
    if |docs| > 0 {
      var init := docs[..|docs| - 1];
      var d := docs[|docs| - 1];
      RunCovers(init, budget);
      var a := Run(init, budget);
      assert docs == init + [d];
      if a.pendingSize + Size(d) > budget {
        FlattenSnoc(a.flushed, a.pending);
      }
    }
  }

  /** Concatenating the uploaded batches in call order gives back the documents:
      nothing is lost, duplicated, reordered or split. */
  lemma BatchesPartition(docs: seq<Doc>, budget: int)
    ensures Flatten(Batches(docs, budget)) == docs
  {
    RunCovers(docs, budget);
    var a := Run(docs, budget);
    if |a.pending| > 0 {
      FlattenSnoc(a.flushed, a.pending);
    } else {
      assert a.pending == [];
    }
  }

  lemma {:induction false} RunWithinBudget(docs: seq<Doc>, budget: int)
    requires budget >= 0
    ensures WithinBudget(Run(docs, budget).pending, budget)
    ensures forall j :: 0 <= j < |Run(docs, budget).flushed| ==> WithinBudget(Run(docs, budget).flushed[j], budget)
    decreases |docs|
  {
    if |docs| > 0 {
      var init := docs[..|docs| - 1];
      var d := docs[|docs| - 1];
      RunWithinBudget(init, budget);
      RunPendingSize(init, budget);
      RunPendingSize(docs, budget);
      var a := Run(init, budget);
      if a.pendingSize + Size(d) <= budget {
        assert (a.pending + [d])[..|a.pending|] == a.pending;
      }
    }
  }

  /** Every uploaded batch has summed size at most the budget, or consists of
      exactly one document (never dropped, never split). */
  lemma BatchesWithinBudget(docs: seq<Doc>, budget: int)
    requires budget >= 0
    ensures forall j :: 0 <= j < |Batches(docs, budget)| ==> WithinBudget(Batches(docs, budget)[j], budget)
  {
    RunWithinBudget(docs, budget);
  }

  lemma {:induction false} RunGreedy(docs: seq<Doc>, budget: int)
    ensures Greedy(Run(docs, budget).flushed + [Run(docs, budget).pending], budget)
    decreases |docs|
  {
    if |docs| > 0 {
      var init := docs[..|docs| - 1];
      var d := docs[|docs| - 1];
      RunGreedy(init, budget);
      RunPendingSize(init, budget);
      var a := Run(init, budget);
      var c := a.flushed + [a.pending];
      var c' := Run(docs, budget).flushed + [Run(docs, budget).pending];
      if a.pendingSize + Size(d) > budget {
        assert c' == c + [[d]];
        forall j | 0 < j < |c'|
          ensures Overflows(c'[j - 1], c'[j], budget)
        {
          if j < |c| {
            assert c'[j - 1] == c[j - 1] && c'[j] == c[j];
          }
        }
      } else {
        assert c' == a.flushed + [a.pending + [d]];
        forall j | 0 < j < |c'|
          ensures Overflows(c'[j - 1], c'[j], budget)
        {
          assert c'[j - 1] == c[j - 1];
          if j < |a.flushed| {
            assert c'[j] == c[j];
          } else {
            assert |a.pending| > 0;
            assert c'[j][0] == c[j][0];
          }
        }
      }
    }
  }

  /** A flush happens exactly when the next document does not fit: every batch
      but the last, together with the first document of the batch after it,
      exceeds the budget. */
  lemma BatchesGreedy(docs: seq<Doc>, budget: int)
    ensures Greedy(Batches(docs, budget), budget)
  {
    RunGreedy(docs, budget);
    RunPendingSize(docs, budget);
  }

  lemma {:induction false} RunEmptyFlush(docs: seq<Doc>, budget: int)
    requires |docs| > 0
    ensures (|Run(docs, budget).flushed| > 0 && Run(docs, budget).flushed[0] == []) <==> Size(docs[0]) > budget
    ensures forall j :: 0 < j < |Run(docs, budget).flushed| ==> Run(docs, budget).flushed[j] != []
    decreases |docs|
  {
    var init := docs[..|docs| - 1];
    if |init| > 0 {
      RunEmptyFlush(init, budget);
      RunPendingSize(init, budget);
      assert init[0] == docs[0];
    } else {
      assert docs[|docs| - 1] == docs[0];
    }
  }

  /** The only batch that can be empty is the first one, and it is empty exactly
      when the first document alone exceeds the budget. The last batch (the
      final flush) is never empty, and no batch is uploaded for no documents. */
  lemma BatchesEmptyOnlyFirst(docs: seq<Doc>, budget: int)
    ensures Batches(docs, budget) == [] <==> docs == []
    ensures forall j :: 0 <= j < |Batches(docs, budget)| ==>
      (Batches(docs, budget)[j] == [] <==> |docs| > 0 && j == 0 && Size(docs[0]) > budget)
    ensures |Batches(docs, budget)| > 0 ==> |Batches(docs, budget)[|Batches(docs, budget)| - 1]| > 0
  {
    RunPendingSize(docs, budget);
    if |docs| > 0 {
      RunEmptyFlush(docs, budget);
    }
  }

  /** Uploads only ever extend: what was flushed after a prefix of the
      documents is a prefix of what is flushed after all of them. */
  lemma {:induction false} FlushedGrows(docs: seq<Doc>, n: nat, budget: int)
    requires n <= |docs|
    ensures Run(docs[..n], budget).flushed <= Run(docs, budget).flushed
    ensures Run(docs[..n], budget).flushed <= Batches(docs, budget)
    decreases |docs| - n
  {
    if n == |docs| {
      assert docs[..n] == docs;
    } else {
      var init := docs[..|docs| - 1];
      assert init[..n] == docs[..n];
      FlushedGrows(init, n, budget);
    }
  }
}
