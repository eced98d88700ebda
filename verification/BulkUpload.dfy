/** upload_images: a batch is read under a byte budget and processed concurrently, and every
    file's result lands in the file's own slot. */
module BulkUpload {
  import opened Records
  import opened Streams

  datatype Code = BatchTooLarge | ImageTooLarge | ProcessingFailed | InvalidImage | StorageUnavailable

  /** What reading one file came to. */
  datatype Slot = Data(bytes: Bytes) | Refused(code: Code)

  /** One entry of the response. */
  datatype Item = Success(id: Id) | Error(code: Code)

  /** All slots, or those read before the client was seen to have gone. */
  datatype BulkRead = Slots(slots: seq<Slot>) | Abort(slots: seq<Slot>)

  /** Bytes accepted so far. */
  ghost function Accepted(slots: seq<Slot>): nat {
    if slots == [] then 0
    else Accepted(slots[..|slots| - 1]) + match slots[|slots| - 1] case Data(bytes) => |bytes| case Refused(_) => 0
  }

  lemma AcceptedNext(slots: seq<Slot>, i: nat)
    requires i < |slots|
    ensures Accepted(slots[..i + 1]) == Accepted(slots[..i]) +
              match slots[i] case Data(bytes) => |bytes| case Refused(_) => 0
  {
    assert slots[..i + 1][..i] == slots[..i];
  }

  lemma {:induction false} AcceptedGrows(slots: seq<Slot>, i: nat, j: nat)
    requires i <= j <= |slots|
    ensures Accepted(slots[..i]) <= Accepted(slots[..j])
    decreases j - i
  {
    if i < j {
      AcceptedNext(slots, i);
      AcceptedGrows(slots, i + 1, j);
    }
  }

  /** The client is seen to have gone while this file is read. */
  ghost predicate GoesAway(body: Body, cap: int)
    requires ProperBody(body)
  {
    OwnStop(body, cap, Disconnected)
  }

  /** What a slot says about its own file, once that is read. */
  ghost predicate AboutBody(body: Body, slot: Slot, cap: int)
    requires ProperBody(body)
  {
    match slot
    case Data(bytes) => bytes == Concat(body.chunks) && Fits(body, cap) && StaysConnected(body) && !body.raises
    case Refused(code) =>
      || (code == ImageTooLarge && OwnStop(body, cap, TooLarge))
      || (code == ProcessingFailed && Fits(body, cap) && StaysConnected(body) && body.raises)
  }

  /** Slot `i` is refused for the batch's size exactly when the budget was used up by the
      files before it; otherwise it says what reading the file came to. */
  ghost predicate Aligned(files: seq<Body>, slots: seq<Slot>, i: nat, budget: int, cap: int)
    requires i < |slots| && i < |files| && ProperBody(files[i])
  {
    if Accepted(slots[..i]) >= budget then slots[i] == Refused(BatchTooLarge)
    else AboutBody(files[i], slots[i], cap)
  }

  ghost predicate ReadAligned(files: seq<Body>, slots: seq<Slot>, budget: int, cap: int)
    requires |slots| <= |files| && forall i :: 0 <= i < |files| ==> ProperBody(files[i])
  {
    forall i :: 0 <= i < |slots| ==> Aligned(files, slots, i, budget, cap)
  }

  /** A readable file in a slot before the budget is used up is there with its bytes. */
  lemma ReadableIsThere(files: seq<Body>, slots: seq<Slot>, i: nat, budget: int, cap: int)
    requires |slots| <= |files| && (forall k :: 0 <= k < |files| ==> ProperBody(files[k])) && i < |slots|
    requires ReadAligned(files, slots, budget, cap) && Accepted(slots[..i]) < budget
    requires Fits(files[i], cap) && StaysConnected(files[i]) && !files[i].raises
    ensures slots[i] == Data(Concat(files[i].chunks))
  {
    assert Aligned(files, slots, i, budget, cap);
    if slots[i] == Refused(ImageTooLarge) {
      var j :| StopsAt(files[i], cap, j);
      StopIsFinal(files[i], cap, j);
    }
  }

  /** _read_bulk_files. */
  method ReadBulkFiles(files: seq<Body>, budget: int, cap: int) returns (r: BulkRead)
    requires forall i :: 0 <= i < |files| ==> ProperBody(files[i])
    ensures |r.slots| <= |files| && ReadAligned(files, r.slots, budget, cap)
    ensures r.Slots? ==> |r.slots| == |files|
    ensures r.Abort? ==> |r.slots| < |files| && Accepted(r.slots) < budget && GoesAway(files[|r.slots|], cap)
  {
    var results: seq<Slot> := [];
    var totalBytes := 0;
    for i := 0 to |files|
      invariant |results| == i && totalBytes == Accepted(results)
      invariant forall j :: 0 <= j < i ==> Aligned(files, results, j, budget, cap)
    {
      var slot := Refused(BatchTooLarge);
      if totalBytes < budget {
        var data := ReadCapped(files[i], cap);
        match data {
          case Content(bytes) => slot := Data(bytes); totalBytes := totalBytes + |bytes|;
          case Stopped(TooLarge) => slot := Refused(ImageTooLarge);
          case Stopped(Disconnected) => return Abort(results);
          case Stopped(_) => slot := Refused(ProcessingFailed);
        }
      }
      ghost var before := results;
      results := results + [slot];
      assert results[..i] == before;
      AcceptedNext(results, i);
      assert results[..i + 1] == results;
      forall j | 0 <= j < i ensures Aligned(files, results, j, budget, cap) {
        assert Aligned(files, before, j, budget, cap) && results[..j] == before[..j];
      }
    }
    r := Slots(results);
  }

  /** Once the budget is used up it stays used up. */
  lemma BudgetNeverClears(files: seq<Body>, slots: seq<Slot>, budget: int, cap: int, i: nat, j: nat)
    requires |slots| == |files| && forall k :: 0 <= k < |files| ==> ProperBody(files[k])
    requires ReadAligned(files, slots, budget, cap)
    requires i <= j < |slots| && slots[i] == Refused(BatchTooLarge)
    ensures slots[j] == Refused(BatchTooLarge)
  {
    AcceptedGrows(slots, i, j);
    assert Aligned(files, slots, i, budget, cap) && Aligned(files, slots, j, budget, cap);
  }

  /** The batch overshoots its budget by less than one file. */
  lemma {:induction false} BudgetOvershoot(files: seq<Body>, slots: seq<Slot>, budget: int, cap: int, n: nat)
    requires |slots| == |files| && forall k :: 0 <= k < |files| ==> ProperBody(files[k])
    requires ReadAligned(files, slots, budget, cap)
    requires budget > 0 && cap >= 0 && n <= |slots|
    ensures Accepted(slots[..n]) == 0 || Accepted(slots[..n]) <= budget + cap - 1
  {
    if n > 0 {
      BudgetOvershoot(files, slots, budget, cap, n - 1);
      AcceptedNext(slots, n - 1);
      assert Aligned(files, slots, n - 1, budget, cap);
      if slots[n - 1].Data? {
        assert |slots[n - 1].bytes| <= cap by {
          if files[n - 1].chunks == [] { assert slots[n - 1].bytes == []; }
        }
      }
    }
  }

  // ----- Concurrent processing ---------------------------------------------------------------------

  function Indices(n: nat): (s: set<nat>)
    ensures |s| == n && forall j: nat :: j in s <==> j < n
  {
    if n == 0 then {} else Indices(n - 1) + {n - 1}
  }

  /** asyncio.gather: tasks complete in any order, and the results come back in task order.
      `outcome(j, k)` is what task `j` returns when it completes as the `k`-th; `at[j]` is
      when it did. */
  method Gather(tasks: seq<Bytes>, process: (Bytes, nat) -> Item) returns (results: seq<Item>, at: map<nat, nat>)
    ensures |results| == |tasks|
    ensures forall j :: 0 <= j < |tasks| ==> j in at && at[j] < |tasks| && results[j] == process(tasks[j], at[j])
    ensures forall i, j :: i in at && j in at && i != j ==> at[i] != at[j]
  {
    var done := new Item[|tasks|](_ => Error(ProcessingFailed));
    var running := Indices(|tasks|);
    var k := 0;
    at := map[];
    while running != {}
      invariant forall j :: j in running ==> 0 <= j < |tasks|
      invariant k + |running| == |tasks|
      invariant forall j :: 0 <= j < |tasks| ==> (j in at <==> j !in running)
      invariant forall j :: j in at ==> 0 <= j < |tasks| && at[j] < k && done[j] == process(tasks[j], at[j])
      invariant forall i, j :: i in at && j in at && i != j ==> at[i] != at[j]
      decreases running
    {
      var j :| j in running;
      done[j] := process(tasks[j], k);
      at := at[j := k];
      running := running - {j};
      k := k + 1;
    }
    results := done[..];
  }

  /** The task that processes slot `i`: tasks are numbered along the readable slots. */
  ghost function TaskOf(slots: seq<Slot>, i: nat): nat
    requires i <= |slots|
  {
    if i == 0 then 0 else TaskOf(slots, i - 1) + if slots[i - 1].Data? then 1 else 0
  }

  /** `tasks` process the readable slots in order, `taskIndices` being where they come from. */
  ghost predicate FannedOut(slots: seq<Slot>, n: nat, tasks: seq<Bytes>, taskIndices: seq<nat>)
    requires n <= |slots|
  {
    && |tasks| == |taskIndices| == TaskOf(slots, n)
    && (forall j :: 0 <= j < |tasks| ==> taskIndices[j] < n && slots[taskIndices[j]] == Data(tasks[j]))
    && (forall j, l :: 0 <= j < l < |tasks| ==> taskIndices[j] < taskIndices[l])
    && (forall i :: 0 <= i < n && slots[i].Data? ==> TaskOf(slots, i) < |tasks| && taskIndices[TaskOf(slots, i)] == i)
  }

  method FanOut(slots: seq<Slot>) returns (tasks: seq<Bytes>, taskIndices: seq<nat>)
    ensures FannedOut(slots, |slots|, tasks, taskIndices)
  {
    tasks, taskIndices := [], [];
    for i := 0 to |slots|
      invariant FannedOut(slots, i, tasks, taskIndices)
    {
      if slots[i].Data? {
        tasks := tasks + [slots[i].bytes];
        taskIndices := taskIndices + [i];
      }
    }
  }

  /** dict(zip(task_indices, processed_results)) */
  method ZipToMap(taskIndices: seq<nat>, results: seq<Item>) returns (taskMap: map<nat, Item>)
    requires |taskIndices| == |results| && forall j, l :: 0 <= j < l < |taskIndices| ==> taskIndices[j] < taskIndices[l]
    ensures forall j :: 0 <= j < |taskIndices| ==> taskIndices[j] in taskMap && taskMap[taskIndices[j]] == results[j]
    ensures forall i :: i in taskMap ==> i in taskIndices
  {
    taskMap := map[];
    for j := 0 to |taskIndices|
      invariant forall l :: 0 <= l < j ==> taskIndices[l] in taskMap && taskMap[taskIndices[l]] == results[l]
      invariant forall i :: i in taskMap ==> i in taskIndices
    {
      taskMap := taskMap[taskIndices[j] := results[j]];
    }
  }

  /** Slot `i` of the response is about file `i`: its own read error, or what its own task
      returned, whenever that was. */
  ghost predicate AboutFile(slots: seq<Slot>, items: seq<Item>, process: (Bytes, nat) -> Item, at: map<nat, nat>,
                            i: nat)
    requires i < |slots| && i < |items|
  {
    match slots[i]
    case Refused(code) => items[i] == Error(code)
    case Data(bytes) => TaskOf(slots, i) in at && items[i] == process(bytes, at[TaskOf(slots, i)])
  }

  /** Fan out over the readable slots, gather, and put every result back into its slot. */
  method ProcessSlots(slots: seq<Slot>, process: (Bytes, nat) -> Item) returns (items: seq<Item>, at: map<nat, nat>)
    ensures |items| == |slots| && forall i :: 0 <= i < |slots| ==> AboutFile(slots, items, process, at, i)
    ensures forall i, j :: i in at && j in at && i != j ==> at[i] != at[j]
  {
    var tasks, taskIndices := FanOut(slots);
    var results;
    results, at := Gather(tasks, process);
    var taskMap := ZipToMap(taskIndices, results);
    items := [];
    for i := 0 to |slots|
      invariant |items| == i
      invariant forall l :: 0 <= l < i ==> AboutFile(slots, items, process, at, l)
    {
      ghost var before := items;
      if slots[i].Data? { assert taskIndices[TaskOf(slots, i)] == i; }
      if i in taskMap {
        items := items + [taskMap[i]];
      } else {
        items := items + [Error(slots[i].code)];
      }
      forall l | 0 <= l < i ensures AboutFile(slots, items, process, at, l) {
        assert AboutFile(slots, before, process, at, l);
      }
    }
  }

  // ----- The route ------------------------------------------------------------------------------

  datatype Response = Response(succeeded: nat, failed: nat, total: nat, items: seq<Item>) | BadRequest | ClientClosed

  /** How many entries are successes, counted independently of the route's own loop. */
  ghost function SuccessSlots(items: seq<Item>): set<nat> {
    set i | 0 <= i < |items| && items[i].Success?
  }

  ghost function ErrorSlots(items: seq<Item>): set<nat> {
    set i | 0 <= i < |items| && items[i].Error?
  }

  method CountItems(items: seq<Item>) returns (succeeded: nat, failed: nat)
    ensures succeeded == |SuccessSlots(items)| && failed == |ErrorSlots(items)| && succeeded + failed == |items|
  {
    succeeded, failed := 0, 0;
    for i := 0 to |items|
      invariant succeeded == |SuccessSlots(items[..i])| && failed == |ErrorSlots(items[..i])| && succeeded + failed == i
    {
      var next := items[..i + 1];
      if items[i].Success? {
        succeeded := succeeded + 1;
        assert SuccessSlots(next) == SuccessSlots(items[..i]) + {i} && ErrorSlots(next) == ErrorSlots(items[..i]);
      } else {
        failed := failed + 1;
        assert ErrorSlots(next) == ErrorSlots(items[..i]) + {i} && SuccessSlots(next) == SuccessSlots(items[..i]);
      }
    }
    assert items[..|items|] == items;
  }

  /** upload_images: one entry per file, in the files' order whatever order the tasks
      complete in, and every entry is counted once. */
  method UploadImages(files: seq<Body>, budget: int, cap: int, process: (Bytes, nat) -> Item)
    returns (r: Response, slots: seq<Slot>, at: map<nat, nat>)
    requires forall i :: 0 <= i < |files| ==> ProperBody(files[i])
    ensures r.BadRequest? <==> !(1 <= |files| <= 10)
    ensures r.ClientClosed? ==>
              && |slots| < |files| && ReadAligned(files, slots, budget, cap)
              && Accepted(slots) < budget && GoesAway(files[|slots|], cap)
    ensures r.Response? ==>
              && |slots| == |files| == |r.items| == r.total && r.succeeded + r.failed == r.total
              && r.succeeded == |SuccessSlots(r.items)|
              && ReadAligned(files, slots, budget, cap)
              && forall i :: 0 <= i < |files| ==> AboutFile(slots, r.items, process, at, i)
  {
    slots, at := [], map[];
    if !(1 <= |files| <= 10) { return BadRequest, slots, at; }
    var read := ReadBulkFiles(files, budget, cap);
    slots := read.slots;
    if read.Abort? { return ClientClosed, slots, at; }
    var items;
    items, at := ProcessSlots(read.slots, process);
    var succeeded, failed := CountItems(items);
    r := Response(succeeded, failed, |items|, items);
  }
}
