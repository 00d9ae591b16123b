/**
 * The upload queue of the upload page (src/components/files/FileUploader.tsx).
 *
 * The queue is an ordered list of items, each with a status and a progress percentage.
 * Every React state update `setUploadQueue(prev => ...)` is a function from the old
 * queue to the new one; those functions are defined here on values, and the class
 * `UploadQueue` applies them to its `items` field, one method per event: a drop, a
 * removal, a clear, the start of `uploadFiles`, one firing of the 200 ms progress
 * interval, the arrival of the upload's results, its failure, and the 3000 ms sweep.
 */
module FileUploader {
  import opened Common
  import opened Api

  datatype Status = Pending | Uploading | Success | Error

  datatype UploadItem = UploadItem(
    file: FileHandle,
    status: Status,
    progress: int,
    response: Option<FileUploadResponse>,
    error: Option<string>)

  /** What a `catch` receives: an Error object, or any other thrown value. */
  datatype Thrown = ErrorObject(message: string) | OtherValue

  /** What each status allows of an item's other fields. */
  predicate WellFormed(it: UploadItem)
  {
    match it.status
    case Pending => it.progress == 0 && it.response.None? && it.error.None?
    case Uploading => 10 <= it.progress <= 90 && it.response.None? && it.error.None?
    case Success => it.progress == 100 && it.error.None?
    case Error => 10 <= it.progress <= 90 && it.response.None? && it.error.Some?
  }

  predicate AllWellFormed(q: seq<UploadItem>)
  {
    forall i :: 0 <= i < |q| ==> WellFormed(q[i])
  }

  /** The number of items in `q` with status `st`. */
  function CountStatus(q: seq<UploadItem>, st: Status): (n: nat)
    ensures n <= |q|
  {
    if q == [] then 0
    else CountStatus(q[..|q| - 1], st) + (if q[|q| - 1].status == st then 1 else 0)
  }

  lemma {:induction false} CountStatusZero(q: seq<UploadItem>, st: Status)
    ensures CountStatus(q, st) == 0 <==> forall i :: 0 <= i < |q| ==> q[i].status != st
  {
    if q != [] {
      var init := q[..|q| - 1];
      CountStatusZero(init, st);
      assert forall i :: 0 <= i < |init| ==> init[i] == q[i];
    }
  }

  /**
   * The status moves allowed to one item, and progress never going back while uploading.
   */
  predicate StepsForward(before: UploadItem, after: UploadItem)
  {
    && before.file == after.file
    && (|| before.status == after.status
        || (before.status == Pending && after.status == Uploading)
        || (before.status == Uploading && after.status == Success)
        || (before.status == Uploading && after.status == Error))
    && (before.status == Uploading && after.status == Uploading ==> before.progress <= after.progress)
  }

  /** A queue-wide update that keeps positions and moves each item forward. */
  predicate PointwiseForward(before: seq<UploadItem>, after: seq<UploadItem>)
  {
    |before| == |after| && forall i :: 0 <= i < |before| ==> StepsForward(before[i], after[i])
  }

  // ----- onDrop -----

  function NewItem(f: FileHandle): UploadItem
  {
    UploadItem(f, Pending, 0, None, None)
  }

  /** `[...prev, ...newUploads]` when files were accepted. */
  function Enqueued(q: seq<UploadItem>, accepted: seq<FileHandle>): (r: seq<UploadItem>)
    ensures |r| == |q| + |accepted|
    ensures r[..|q|] == q
    ensures forall k :: 0 <= k < |accepted| ==>
              r[|q| + k].file == accepted[k] && r[|q| + k].status == Pending && r[|q| + k].progress == 0
    ensures AllWellFormed(q) ==> AllWellFormed(r)
  {
    if |accepted| > 0 then q + seq(|accepted|, k requires 0 <= k < |accepted| => NewItem(accepted[k]))
    else q
  }

  lemma {:induction false} EnqueuedKeepsUploadingCount(q: seq<UploadItem>, accepted: seq<FileHandle>)
    ensures CountStatus(Enqueued(q, accepted), Uploading) == CountStatus(q, Uploading)
  {
    var r := Enqueued(q, accepted);
    CountStatusZeroSuffix(q, r[|q|..], Uploading);
    assert r == q + r[|q|..];
  }

  /** Appending items none of which has status `st` leaves the count of `st` unchanged. */
  lemma {:induction false} CountStatusZeroSuffix(q: seq<UploadItem>, tail: seq<UploadItem>, st: Status)
    requires forall i :: 0 <= i < |tail| ==> tail[i].status != st
    ensures CountStatus(q + tail, st) == CountStatus(q, st)
    decreases |tail|
  {
    if tail != [] {
      var init := tail[..|tail| - 1];
      assert (q + tail)[..|q + tail| - 1] == q + init;
      assert (q + tail)[|q + tail| - 1] == tail[|tail| - 1];
      CountStatusZeroSuffix(q, init, st);
    } else {
      assert q + tail == q;
    }
  }

  // ----- removeFromQueue -----

  /** `prev.filter((_, i) => i !== index)`; there is no status check. */
  function RemovedAt(q: seq<UploadItem>, index: int): seq<UploadItem>
  {
    if q == [] then []
    else if index == |q| - 1 then RemovedAt(q[..|q| - 1], index)
    else RemovedAt(q[..|q| - 1], index) + [q[|q| - 1]]
  }

  /** Exactly the item at `index` goes; an index outside the queue changes nothing. */
  lemma {:induction false} RemovedAtSpec(q: seq<UploadItem>, index: int)
    ensures RemovedAt(q, index) == if 0 <= index < |q| then q[..index] + q[index + 1..] else q
  {
    if q != [] {
      var init := q[..|q| - 1];
      RemovedAtSpec(init, index);
      if 0 <= index < |q| - 1 {
        assert init[..index] == q[..index];
        assert init[index + 1..] + [q[|q| - 1]] == q[index + 1..];
      } else if index == |q| - 1 {
        assert q[..index] + q[index + 1..] == init;
      } else {
        assert init + [q[|q| - 1]] == q;
      }
    }
  }

  lemma RemovedAtKeepsInvariants(q: seq<UploadItem>, index: int)
    ensures AllWellFormed(q) ==> AllWellFormed(RemovedAt(q, index))
    ensures CountStatus(q, Uploading) == 0 ==> CountStatus(RemovedAt(q, index), Uploading) == 0
  {
    RemovedAtSpec(q, index);
    var r := RemovedAt(q, index);
    assert forall i :: 0 <= i < |r| ==> r[i] in q;
    CountStatusZero(q, Uploading);
    CountStatusZero(r, Uploading);
  }

  // ----- status filters: clearQueue and the delayed sweep -----

  /** The items whose status is in `keep`, in queue order. */
  function KeepWhere(q: seq<UploadItem>, keep: set<Status>): (r: seq<UploadItem>)
    ensures |r| <= |q|
    ensures forall x :: x in r ==> x in q && x.status in keep
  {
    if q == [] then []
    else (if q[0].status in keep then [q[0]] else []) + KeepWhere(q[1..], keep)
  }

  /** Filtering keeps order: it distributes over concatenation. */
  lemma {:induction false} KeepWhereAppend(a: seq<UploadItem>, b: seq<UploadItem>, keep: set<Status>)
    ensures KeepWhere(a + b, keep) == KeepWhere(a, keep) + KeepWhere(b, keep)
    decreases |a|
  {
    if a != [] {
      assert (a + b)[1..] == a[1..] + b;
      KeepWhereAppend(a[1..], b, keep);
    } else {
      assert a + b == b;
    }
  }

  /** Every kept item is there as often as in the queue; every other item is gone. */
  lemma {:induction false} KeepWhereCounts(q: seq<UploadItem>, keep: set<Status>, x: UploadItem)
    ensures multiset(KeepWhere(q, keep))[x] == if x.status in keep then multiset(q)[x] else 0
    decreases |q|
  {
    if q != [] {
      KeepWhereCounts(q[1..], keep, x);
      assert q == [q[0]] + q[1..];
    }
  }

  lemma KeepWhereKeepsInvariants(q: seq<UploadItem>, keep: set<Status>)
    ensures AllWellFormed(q) ==> AllWellFormed(KeepWhere(q, keep))
    ensures CountStatus(q, Uploading) == 0 ==> CountStatus(KeepWhere(q, keep), Uploading) == 0
  {
    var r := KeepWhere(q, keep);
    CountStatusZero(q, Uploading);
    CountStatusZero(r, Uploading);
    assert forall i :: 0 <= i < |r| ==> r[i] in r;
  }

  const NotSuccess: set<Status> := {Pending, Uploading, Error}

  /** The 3000 ms timeout: `prev.filter(item => item.status !== "success")`. */
  function Swept(q: seq<UploadItem>): seq<UploadItem>
  {
    KeepWhere(q, NotSuccess)
  }

  /** clearQueue: `prev.filter(item => item.status === "uploading")`. */
  function Cleared(q: seq<UploadItem>): seq<UploadItem>
  {
    KeepWhere(q, {Uploading})
  }

  lemma SweptSpec(q: seq<UploadItem>)
    ensures forall x :: x in Swept(q) ==> x.status != Success
    ensures forall x: UploadItem :: x.status != Success ==> multiset(Swept(q))[x] == multiset(q)[x]
    ensures |Swept(q)| == |q| - CountStatus(q, Success)
  {
    forall x: UploadItem | x.status != Success ensures multiset(Swept(q))[x] == multiset(q)[x] {
      KeepWhereCounts(q, NotSuccess, x);
    }
    KeepWhereSize(q, NotSuccess, Success);
  }

  lemma ClearedSpec(q: seq<UploadItem>)
    ensures forall x :: x in Cleared(q) ==> x.status == Uploading
    ensures forall x: UploadItem :: x.status == Uploading ==> multiset(Cleared(q))[x] == multiset(q)[x]
    ensures |Cleared(q)| == CountStatus(q, Uploading)
  {
    forall x: UploadItem | x.status == Uploading ensures multiset(Cleared(q))[x] == multiset(q)[x] {
      KeepWhereCounts(q, {Uploading}, x);
    }
    KeepWhereOnly(q, Uploading);
  }

  /** Dropping one status removes exactly the items that have it. */
  lemma {:induction false} KeepWhereSize(q: seq<UploadItem>, keep: set<Status>, dropped: Status)
    requires keep == {Pending, Uploading, Success, Error} - {dropped}
    ensures |KeepWhere(q, keep)| == |q| - CountStatus(q, dropped)
    decreases |q|
  {
    if q != [] {
      var init := q[..|q| - 1];
      KeepWhereSize(init, keep, dropped);
      KeepWhereAppend(init, [q[|q| - 1]], keep);
      assert init + [q[|q| - 1]] == q;
    }
  }

  /** Keeping one status keeps exactly the items that have it. */
  lemma {:induction false} KeepWhereOnly(q: seq<UploadItem>, kept: Status)
    ensures |KeepWhere(q, {kept})| == CountStatus(q, kept)
    decreases |q|
  {
    if q != [] {
      var init := q[..|q| - 1];
      KeepWhereOnly(init, kept);
      KeepWhereAppend(init, [q[|q| - 1]], {kept});
      assert init + [q[|q| - 1]] == q;
    }
  }

  // ----- uploadFiles, step 1: every pending item starts uploading -----

  function StartItem(it: UploadItem): UploadItem
  {
    if it.status == Pending then it.(status := Uploading, progress := 10) else it
  }

  function Started(q: seq<UploadItem>): seq<UploadItem>
  {
    seq(|q|, i requires 0 <= i < |q| => StartItem(q[i]))
  }

  /** `uploadQueue.filter(item => item.status === "pending")`: the files sent, in queue order. */
  function Batch(q: seq<UploadItem>): (b: seq<FileHandle>)
    ensures |b| == CountStatus(q, Pending)
  {
    if q == [] then []
    else Batch(q[..|q| - 1]) + (if q[|q| - 1].status == Pending then [q[|q| - 1].file] else [])
  }

  /** The files of the uploading items, in queue order. */
  function UploadingFiles(q: seq<UploadItem>): (b: seq<FileHandle>)
    ensures |b| == CountStatus(q, Uploading)
  {
    if q == [] then []
    else UploadingFiles(q[..|q| - 1]) + (if q[|q| - 1].status == Uploading then [q[|q| - 1].file] else [])
  }

  lemma StartedSpec(q: seq<UploadItem>)
    ensures PointwiseForward(q, Started(q))
    ensures AllWellFormed(q) ==> AllWellFormed(Started(q))
    ensures forall i :: 0 <= i < |q| ==>
              (q[i].status == Pending <==> Started(q)[i].status == Uploading && q[i].status != Uploading)
    ensures forall i :: 0 <= i < |q| && q[i].status == Pending ==> Started(q)[i].progress == 10
    ensures forall i :: 0 <= i < |q| && q[i].status != Pending ==> Started(q)[i] == q[i]
    ensures CountStatus(Started(q), Pending) == 0
  {
    CountStatusZero(Started(q), Pending);
  }

  /**
   * When nothing was uploading, the uploading items after the start are exactly the batch
   * that is sent, in the same order.
   */
  lemma {:induction false} StartedUploadsTheBatch(q: seq<UploadItem>)
    requires CountStatus(q, Uploading) == 0
    ensures UploadingFiles(Started(q)) == Batch(q)
    decreases |q|
  {
    if q != [] {
      var init := q[..|q| - 1];
      CountStatusZero(q, Uploading);
      CountStatusZero(init, Uploading);
      assert Started(q)[..|q| - 1] == Started(init);
      StartedUploadsTheBatch(init);
    }
  }

  // ----- the 200 ms progress interval -----

  function TickItem(it: UploadItem): UploadItem
  {
    if it.status == Uploading && it.progress < 90 then it.(progress := Min(90, it.progress + 10)) else it
  }

  function Ticked(q: seq<UploadItem>): seq<UploadItem>
  {
    seq(|q|, i requires 0 <= i < |q| => TickItem(q[i]))
  }

  lemma TickedSpec(q: seq<UploadItem>)
    ensures PointwiseForward(q, Ticked(q))
    ensures AllWellFormed(q) ==> AllWellFormed(Ticked(q))
    ensures forall i :: 0 <= i < |q| ==> Ticked(q)[i].status == q[i].status
    ensures forall i :: 0 <= i < |q| && q[i].status != Uploading ==> Ticked(q)[i] == q[i]
    ensures forall i :: 0 <= i < |q| && q[i].status == Uploading && q[i].progress < 90 ==>
              q[i].progress < Ticked(q)[i].progress <= 90
    ensures forall i :: 0 <= i < |q| && q[i].status == Uploading && q[i].progress >= 90 ==>
              Ticked(q)[i] == q[i]
  {
  }

  /** Eight ticks take a freshly started item from 10 to 90, where it stays. */
  lemma EightTicksReachNinety(it: UploadItem)
    requires it.status == Uploading && it.progress == 10
    ensures TickItem(TickItem(TickItem(TickItem(TickItem(TickItem(TickItem(TickItem(it)))))))).progress == 90
    ensures TickItem(it.(progress := 90)) == it.(progress := 90)
  {
  }

  // ----- uploadFiles, success: the k-th uploading item gets results[k] -----

  /** `results[k]`, which is undefined past the end of the array. */
  function ResultAt(results: seq<FileUploadResponse>, k: nat): Option<FileUploadResponse>
  {
    if k < |results| then Some(results[k]) else None
  }

  function SucceedItem(it: UploadItem, r: Option<FileUploadResponse>): UploadItem
  {
    it.(status := Success, progress := 100, response := r)
  }

  /**
   * The queue after the results arrive: the uploading item with k uploading items before
   * it becomes a success carrying `results[k]`; every other item is unchanged.
   */
  function Completed(q: seq<UploadItem>, results: seq<FileUploadResponse>): seq<UploadItem>
  {
    seq(|q|, i requires 0 <= i < |q| =>
      if q[i].status == Uploading then SucceedItem(q[i], ResultAt(results, CountStatus(q[..i], Uploading)))
      else q[i])
  }

  /** The updater at the source's `setUploadQueue(prev => {...})` with its `resultIndex` loop. */
  method ApplyResults(prev: seq<UploadItem>, results: seq<FileUploadResponse>) returns (updated: seq<UploadItem>)
    ensures updated == Completed(prev, results)
  {
    updated := prev;
    var resultIndex := 0;
    for i := 0 to |updated|
      invariant |updated| == |prev|
      invariant resultIndex == CountStatus(prev[..i], Uploading)
      invariant forall j :: 0 <= j < i ==> updated[j] == Completed(prev, results)[j]
      invariant forall j :: i <= j < |prev| ==> updated[j] == prev[j]
    {
      assert prev[..i + 1][..i] == prev[..i];
      if updated[i].status == Uploading {
        var result := ResultAt(results, resultIndex);
        updated := updated[i := SucceedItem(updated[i], result)];
        resultIndex := resultIndex + 1;
      }
    }
  }

  lemma CompletedSpec(q: seq<UploadItem>, results: seq<FileUploadResponse>)
    ensures PointwiseForward(q, Completed(q, results))
    ensures AllWellFormed(q) ==> AllWellFormed(Completed(q, results))
    ensures forall i :: 0 <= i < |q| && q[i].status != Uploading ==> Completed(q, results)[i] == q[i]
    ensures forall i :: 0 <= i < |q| && q[i].status == Uploading ==>
              Completed(q, results)[i].status == Success && Completed(q, results)[i].progress == 100
    ensures CountStatus(Completed(q, results), Uploading) == 0
  {
    CountStatusZero(Completed(q, results), Uploading);
  }

  /** Ticks during the request leave no trace once the results are applied. */
  lemma TicksThenCompleted(q: seq<UploadItem>, results: seq<FileUploadResponse>)
    ensures Completed(Ticked(q), results) == Completed(q, results)
  {
    forall i | 0 <= i < |q| ensures CountStatus(Ticked(q)[..i], Uploading) == CountStatus(q[..i], Uploading) {
      TickedKeepsCounts(q[..i], Uploading);
      assert Ticked(q)[..i] == Ticked(q[..i]);
    }
  }

  lemma {:induction false} TickedKeepsCounts(q: seq<UploadItem>, st: Status)
    ensures CountStatus(Ticked(q), st) == CountStatus(q, st)
    decreases |q|
  {
    if q != [] {
      assert Ticked(q)[..|q| - 1] == Ticked(q[..|q| - 1]);
      TickedKeepsCounts(q[..|q| - 1], st);
    }
  }

  /**
   * Positional correlation, end to end: starting from a queue where nothing is uploading,
   * the pending item at position i is the k-th file of the batch sent, where k is the
   * number of pending items before it, and it ends as a success carrying `results[k]`.
   */
  lemma StartThenCompleteCorrelates(q: seq<UploadItem>, results: seq<FileUploadResponse>, i: int)
    requires CountStatus(q, Uploading) == 0
    requires 0 <= i < |q| && q[i].status == Pending
    ensures CountStatus(q[..i], Pending) < |Batch(q)|
    ensures Batch(q)[CountStatus(q[..i], Pending)] == q[i].file
    ensures Completed(Started(q), results)[i] ==
              SucceedItem(StartItem(q[i]), ResultAt(results, CountStatus(q[..i], Pending)))
  {
    var s := Started(q);
    assert s[..i] == Started(q[..i]);
    CountStatusZero(q, Uploading);
    CountStatusZero(q[..i], Uploading);
    StartedCounts(q[..i]);
    BatchAt(q, i);
  }

  /** Starting turns the pending count of a queue without uploads into its uploading count. */
  lemma {:induction false} StartedCounts(q: seq<UploadItem>)
    requires CountStatus(q, Uploading) == 0
    ensures CountStatus(Started(q), Uploading) == CountStatus(q, Pending)
    decreases |q|
  {
    if q != [] {
      var init := q[..|q| - 1];
      CountStatusZero(q, Uploading);
      CountStatusZero(init, Uploading);
      assert Started(q)[..|q| - 1] == Started(init);
      StartedCounts(init);
    }
  }

  /** The pending item at i is batch element number "pending items before i". */
  lemma {:induction false} BatchAt(q: seq<UploadItem>, i: int)
    requires 0 <= i < |q| && q[i].status == Pending
    ensures CountStatus(q[..i], Pending) < |Batch(q)|
    ensures Batch(q)[CountStatus(q[..i], Pending)] == q[i].file
    decreases |q|
  {
    var init := q[..|q| - 1];
    if i == |q| - 1 {
      assert q[..i] == init;
    } else {
      assert init[..i] == q[..i];
      BatchAt(init, i);
    }
  }

  /** Two files, the second deduplicated, matched strictly by position. */
  lemma TwoFileBatchExample(a: FileHandle, b: FileHandle, r0: FileUploadResponse, r1: FileUploadResponse)
    requires !r0.deduplicated && r1.deduplicated
    ensures var done := Completed(Started([NewItem(a), NewItem(b)]), [r0, r1]);
            && done[0].status == Success && done[0].response == Some(r0) && !done[0].response.value.deduplicated
            && done[1].status == Success && done[1].response == Some(r1) && done[1].response.value.deduplicated
  {
    var s := Started([NewItem(a), NewItem(b)]);
    assert s[..0] == [];
    assert s[..1] == [s[0]];
  }

  // ----- uploadFiles, failure -----

  /** `error instanceof Error ? error.message : "Upload failed"` */
  function FailureMessage(e: Thrown): (m: string)
    ensures e.OtherValue? ==> m == "Upload failed"
    ensures e.ErrorObject? ==> m == e.message
  {
    match e
    case ErrorObject(message) => message
    case OtherValue => "Upload failed"
  }

  function FailItem(it: UploadItem, message: string): UploadItem
  {
    if it.status == Uploading then it.(status := Error, error := Some(message)) else it
  }

  function Failed(q: seq<UploadItem>, message: string): seq<UploadItem>
  {
    seq(|q|, i requires 0 <= i < |q| => FailItem(q[i], message))
  }

  lemma FailedSpec(q: seq<UploadItem>, message: string)
    ensures PointwiseForward(q, Failed(q, message))
    ensures AllWellFormed(q) ==> AllWellFormed(Failed(q, message))
    ensures forall i :: 0 <= i < |q| && q[i].status == Uploading ==>
              Failed(q, message)[i].status == Error && Failed(q, message)[i].error == Some(message)
    ensures forall i :: 0 <= i < |q| && q[i].status != Uploading ==> Failed(q, message)[i] == q[i]
    ensures forall i :: 0 <= i < |q| && Failed(q, message)[i].status == Success ==> q[i].status == Success
    ensures CountStatus(Failed(q, message), Uploading) == 0
  {
    CountStatusZero(Failed(q, message), Uploading);
  }

  // ----- the completion notice -----

  function DedupCount(results: seq<FileUploadResponse>): (n: nat)
    ensures n <= |results|
  {
    if results == [] then 0
    else (if results[0].deduplicated then 1 else 0) + DedupCount(results[1..])
  }

  /** The first part of the "Upload completed!" description: "N file[s] uploaded successfully". */
  function UploadHeadline(n: nat): string
  {
    IntToString(n) + (if n > 1 then " files" else " file") + " uploaded successfully"
  }

  /** The optional second part: " (D deduplicated)" when D > 0. */
  function DedupNote(d: nat): (s: string)
    ensures s == "" <==> d == 0
  {
    if d > 0 then " (" + IntToString(d) + " deduplicated)" else ""
  }

  /** The description of the "Upload completed!" toast. */
  function UploadSummary(results: seq<FileUploadResponse>): string
  {
    UploadHeadline(|results|) + DedupNote(DedupCount(results))
  }

  lemma UploadHeadlineOne()
    ensures UploadHeadline(1) == "1 file uploaded successfully"
  {
    var digits, word, tail := IntToString(1), " file", " uploaded successfully";
    assert UploadHeadline(1) == (digits + word) + tail;
    SingleDigit(1);
    assert digits + word == "1 file";
    assert "1 file" + tail == "1 file uploaded successfully";
  }

  lemma UploadHeadlineTwo()
    ensures UploadHeadline(2) == "2 files uploaded successfully"
  {
    var digits, word, tail := IntToString(2), " files", " uploaded successfully";
    assert UploadHeadline(2) == (digits + word) + tail;
    SingleDigit(2);
    assert digits + word == "2 files";
    assert "2 files" + tail == "2 files uploaded successfully";
  }

  lemma DedupNoteOne()
    ensures DedupNote(1) == " (1 deduplicated)"
  {
    var digits, tail := IntToString(1), " deduplicated)";
    assert DedupNote(1) == (" (" + digits) + tail;
    SingleDigit(1);
    assert " (" + digits == " (1";
    assert " (1" + tail == " (1 deduplicated)";
  }

  lemma UploadSummarySingle(plain: FileUploadResponse)
    requires !plain.deduplicated
    ensures UploadSummary([plain]) == "1 file uploaded successfully"
  {
    assert [plain][1..] == [];
    UploadHeadlineOne();
  }

  lemma UploadSummaryPair(plain: FileUploadResponse, dedup: FileUploadResponse)
    requires !plain.deduplicated && dedup.deduplicated
    ensures UploadSummary([plain, dedup]) == "2 files uploaded successfully (1 deduplicated)"
  {
    assert [plain, dedup][1..] == [dedup];
    assert [dedup][1..] == [];
    assert DedupCount([plain, dedup]) == 1;
    UploadHeadlineTwo();
    DedupNoteOne();
  }

  /** The headline says "files" exactly when more than one file was uploaded. */
  lemma UploadHeadlinePlural(n: nat)
    ensures UploadHeadline(n)[|IntToString(n)|..][..6] == " files" <==> n > 1
  {
    var digits := IntToString(n);
    var word := if n > 1 then " files" else " file";
    var rest := word + " uploaded successfully";
    assert UploadHeadline(n) == digits + rest;
    assert (digits + rest)[|digits|..] == rest;
    if n > 1 {
      assert rest[..6] == word;
    } else {
      assert rest[5] == ' ' && " files"[5] == 's';
    }
  }

  lemma {:induction false} DedupCountAll(results: seq<FileUploadResponse>)
    ensures DedupCount(results) == |results| <==> forall i :: 0 <= i < |results| ==> results[i].deduplicated
    ensures DedupCount(results) == 0 <==> forall i :: 0 <= i < |results| ==> !results[i].deduplicated
  {
    if results != [] {
      DedupCountAll(results[1..]);
      assert forall i :: 1 <= i < |results| ==> results[i] == results[1..][i - 1];
    }
  }

  // ----- uploadFiles as written: `new FileList()` -----

  /** Queues whose items agree, position by position, on having status `st` count it alike. */
  lemma {:induction false} CountStatusPointwise(a: seq<UploadItem>, b: seq<UploadItem>, st: Status)
    requires |a| == |b|
    requires forall i :: 0 <= i < |a| ==> (a[i].status == st <==> b[i].status == st)
    ensures CountStatus(a, st) == CountStatus(b, st)
  {
    if a != [] {
      var ia, ib := a[..|a| - 1], b[..|b| - 1];
      assert forall i :: 0 <= i < |ia| ==> ia[i] == a[i] && ib[i] == b[i];
      CountStatusPointwise(ia, ib, st);
    }
  }

  /**
   * As written, `new FileList()` throws a TypeError right after the pending items are marked
   * uploading and before the interval and the request exist: the catch turns every started
   * item into an error carrying the TypeError's message, and no item ever succeeds.
   */
  lemma StartFailsEveryUploadAsWritten(q: seq<UploadItem>, thrown: string)
    ensures var r := Failed(Started(q), thrown);
            && |r| == |q|
            && (forall i :: 0 <= i < |q| && (q[i].status == Pending || q[i].status == Uploading) ==>
                  r[i].status == Error && r[i].error == Some(thrown))
            && (forall i :: 0 <= i < |q| && q[i].status == Pending ==> r[i].progress == 10)
            && (forall i :: 0 <= i < |q| && q[i].status != Pending && q[i].status != Uploading ==> r[i] == q[i])
            && CountStatus(r, Success) == CountStatus(q, Success)
            && CountStatus(r, Pending) == 0 && CountStatus(r, Uploading) == 0
  {
    var r := Failed(Started(q), thrown);
    CountStatusPointwise(r, q, Success);
    CountStatusZero(r, Pending);
    CountStatusZero(r, Uploading);
  }

  /**
   * The failure toast's description, `error instanceof Error ? error.message : "Unknown
   * error occurred"`: it agrees with the items' error text exactly for Error objects.
   */
  function FailureToastText(e: Thrown): (m: string)
    ensures e.ErrorObject? ==> m == FailureMessage(e)
    ensures e.OtherValue? ==> m == "Unknown error occurred" && m != FailureMessage(e)
  {
    match e
    case ErrorObject(message) => message
    case OtherValue => "Unknown error occurred"
  }

  // ----- the component's state -----

  class UploadQueue {
    var items: seq<UploadItem>
    var isUploading: bool
    /** Running 200 ms progress intervals. */
    var progressTimers: nat
    /** Scheduled 3000 ms sweeps. */
    var pendingSweeps: nat

    /**
     * Every item is well formed; nothing is uploading outside an upload; an upload in
     * flight has its progress interval running.
     */
    ghost predicate Valid()
      reads this
    {
      && AllWellFormed(items)
      && (!isUploading ==> CountStatus(items, Uploading) == 0)
      && (isUploading ==> progressTimers > 0)
    }

    /** A progress interval runs exactly while an upload is in flight. */
    ghost predicate TimersMatch()
      reads this
    {
      progressTimers == if isUploading then 1 else 0
    }

    constructor ()
      ensures Valid() && TimersMatch()
      ensures items == [] && !isUploading && progressTimers == 0 && pendingSweeps == 0
    {
      items := [];
      isUploading := false;
      progressTimers := 0;
      pendingSweeps := 0;
    }

    /** onDrop with the files the dropzone accepted. */
    method OnDrop(accepted: seq<FileHandle>)
      requires Valid()
      modifies this
      ensures Valid()
      ensures items == Enqueued(old(items), accepted)
      ensures isUploading == old(isUploading) && progressTimers == old(progressTimers)
      ensures pendingSweeps == old(pendingSweeps)
    {
      EnqueuedKeepsUploadingCount(items, accepted);
      items := Enqueued(items, accepted);
    }

    method RemoveFromQueue(index: int)
      requires Valid()
      modifies this
      ensures Valid()
      ensures items == RemovedAt(old(items), index)
      ensures isUploading == old(isUploading) && progressTimers == old(progressTimers)
      ensures pendingSweeps == old(pendingSweeps)
    {
      RemovedAtKeepsInvariants(items, index);
      items := RemovedAt(items, index);
    }

    method ClearQueue()
      requires Valid()
      modifies this
      ensures Valid()
      ensures items == Cleared(old(items))
      ensures !isUploading ==> items == []
      ensures isUploading == old(isUploading) && progressTimers == old(progressTimers)
      ensures pendingSweeps == old(pendingSweeps)
    {
      KeepWhereKeepsInvariants(items, {Uploading});
      ClearedSpec(items);
      items := Cleared(items);
    }

    /**
     * uploadFiles up to the request as written: aborts on an empty queue; otherwise marks
     * the pending items as uploading, and then `new FileList()` throws the TypeError whose
     * message is `thrown`, so the catch fails every started item and the finally ends the
     * upload. No interval is started and no request is sent.
     */
    method StartUploadAsWritten(thrown: string) returns (started: bool, toast: Option<Toast>)
      requires Valid() && !isUploading
      modifies this
      ensures Valid()
      ensures started <==> |old(items)| > 0
      ensures items == if started then Failed(Started(old(items)), thrown) else old(items)
      ensures toast == if started then Some(Toast("Upload failed", thrown)) else None
      ensures !isUploading && progressTimers == old(progressTimers)
      ensures pendingSweeps == old(pendingSweeps)
    {
      if |items| == 0 {
        return false, None;
      }
      started := true;
      isUploading := true;
      StartedSpec(items);
      items := Started(items);
      var e := ErrorObject(thrown);
      toast := Some(Toast("Upload failed", FailureToastText(e)));
      FailedSpec(items, FailureMessage(e));
      items := Failed(items, FailureMessage(e));
      isUploading := false;
    }

    /**
     * uploadFiles up to the request with the `new FileList()` line removed: aborts on an
     * empty queue, otherwise marks the pending items as uploading, starts the progress
     * interval and returns the batch to send.
     */
    method StartUpload() returns (started: bool, batch: seq<FileHandle>)
      requires Valid() && !isUploading
      modifies this
      ensures Valid()
      ensures started <==> |old(items)| > 0
      ensures !started ==> items == old(items) && !isUploading && batch == []
      ensures !started ==> progressTimers == old(progressTimers)
      ensures started ==> items == Started(old(items)) && isUploading && batch == Batch(old(items))
      ensures started ==> UploadingFiles(items) == batch && progressTimers == old(progressTimers) + 1
      ensures old(TimersMatch()) ==> TimersMatch()
      ensures pendingSweeps == old(pendingSweeps)
    {
      if |items| == 0 {
        return false, [];
      }
      started := true;
      isUploading := true;
      batch := Batch(items);
      StartedSpec(items);
      StartedUploadsTheBatch(items);
      items := Started(items);
      progressTimers := progressTimers + 1;
    }

    /** One firing of a progress interval; on an idle queue it changes nothing. */
    method Tick()
      requires Valid() && progressTimers > 0
      modifies this
      ensures Valid()
      ensures items == Ticked(old(items))
      ensures !isUploading ==> items == old(items)
      ensures isUploading == old(isUploading) && progressTimers == old(progressTimers)
      ensures pendingSweeps == old(pendingSweeps)
    {
      TickedSpec(items);
      if !isUploading {
        CountStatusZero(items, Uploading);
        assert Ticked(items) == items;
      }
      items := Ticked(items);
    }

    /**
     * The upload returned `results`: apply them, stop the interval, show the summary, tell
     * the parent (onUploadComplete) and schedule the sweep.
     */
    method CompleteUpload(results: seq<FileUploadResponse>) returns (toast: Toast, notifyParent: bool)
      requires Valid() && isUploading
      modifies this
      ensures Valid()
      ensures items == Completed(old(items), results)
      ensures !isUploading && progressTimers == old(progressTimers) - 1
      ensures old(TimersMatch()) ==> TimersMatch()
      ensures pendingSweeps == old(pendingSweeps) + 1
      ensures toast == Toast("Upload completed!", UploadSummary(results)) && notifyParent
    {
      CompletedSpec(items, results);
      items := ApplyResults(items, results);
      progressTimers := progressTimers - 1;
      toast := Toast("Upload completed!", UploadSummary(results));
      notifyParent := true;
      pendingSweeps := pendingSweeps + 1;
      isUploading := false;
    }

    /**
     * The upload threw `e`, with the catch as written: every uploading item fails with its
     * message and the upload ends, but nothing clears the progress interval.
     */
    method FailUploadAsWritten(e: Thrown) returns (toast: Toast)
      requires Valid() && isUploading
      modifies this
      ensures Valid()
      ensures items == Failed(old(items), FailureMessage(e))
      ensures !isUploading && progressTimers == old(progressTimers)
      ensures old(TimersMatch()) ==> !TimersMatch()
      ensures pendingSweeps == old(pendingSweeps)
      ensures toast == Toast("Upload failed", FailureToastText(e))
    {
      FailedSpec(items, FailureMessage(e));
      toast := Toast("Upload failed", FailureToastText(e));
      items := Failed(items, FailureMessage(e));
      isUploading := false;
    }

    /**
     * The upload threw `e`, corrected: as FailUploadAsWritten, and the progress interval is
     * cleared too. The parent is not told.
     */
    method FailUpload(e: Thrown) returns (toast: Toast)
      requires Valid() && isUploading
      modifies this
      ensures Valid()
      ensures items == Failed(old(items), FailureMessage(e))
      ensures !isUploading && progressTimers == old(progressTimers) - 1
      ensures old(TimersMatch()) ==> TimersMatch()
      ensures pendingSweeps == old(pendingSweeps)
      ensures toast == Toast("Upload failed", FailureToastText(e))
    {
      FailedSpec(items, FailureMessage(e));
      toast := Toast("Upload failed", FailureToastText(e));
      items := Failed(items, FailureMessage(e));
      progressTimers := progressTimers - 1;
      isUploading := false;
    }

    /** A scheduled 3000 ms timeout fires. */
    method Sweep()
      requires Valid() && pendingSweeps > 0
      modifies this
      ensures Valid()
      ensures items == Swept(old(items))
      ensures isUploading == old(isUploading) && progressTimers == old(progressTimers)
      ensures pendingSweeps == old(pendingSweeps) - 1
    {
      KeepWhereKeepsInvariants(items, NotSuccess);
      items := Swept(items);
      pendingSweeps := pendingSweeps - 1;
    }
  }

  /**
   * n uploads in a row whose request fails, with `new FileList()` removed and the catch as
   * written: each leaves its interval running, so n intervals go on firing on an idle queue,
   * where a firing changes nothing.
   */
  method FailedUploadsLeakTimers(files: seq<FileHandle>, e: Thrown, n: nat)
    returns (timers: nat, uploading: bool, ticked: bool, tickChanged: bool)
    requires files != []
    ensures timers == n && !uploading
    ensures ticked <==> n > 0
    ensures !tickChanged
  {
    var q := new UploadQueue();
    var i := 0;
    while i < n
      invariant 0 <= i <= n
      invariant q.Valid() && !q.isUploading && q.progressTimers == i
    {
      q.OnDrop(files);
      var started, batch := q.StartUpload();
      var toast := q.FailUploadAsWritten(e);
      i := i + 1;
    }
    timers, uploading := q.progressTimers, q.isUploading;
    ticked, tickChanged := false, false;
    if q.progressTimers > 0 {
      var before := q.items;
      q.Tick();
      ticked, tickChanged := true, q.items != before;
    }
  }

  /** The same n failed uploads with the interval cleared on failure: none is left running. */
  method FailedUploadsStopTimers(files: seq<FileHandle>, e: Thrown, n: nat)
    returns (timers: nat, uploading: bool)
    requires files != []
    ensures timers == 0 && !uploading
  {
    var q := new UploadQueue();
    var i := 0;
    while i < n
      invariant 0 <= i <= n
      invariant q.Valid() && q.TimersMatch() && !q.isUploading
    {
      q.OnDrop(files);
      var started, batch := q.StartUpload();
      var toast := q.FailUpload(e);
      i := i + 1;
    }
    timers, uploading := q.progressTimers, q.isUploading;
  }
}
