/**
 * `Job::query_process_id_list` (src/query.rs): one `QueryInformationJobObject` call into a
 * zeroed fixed-size buffer, then a copy of the first `NumberOfProcessIdsInList` ids.
 *
 * The buffer is the `ProcessIdList` struct: the `JOBOBJECT_BASIC_PROCESS_ID_LIST` header,
 * whose own one-element id array is where the OS writes the first id, followed by a
 * 1024-entry list. The library copies from the list, so it reads the ids shifted by one:
 * `QueryProcessIdListAsWritten` models that, `QueryProcessIdList` reads from the header's
 * slot on and returns exactly the job's processes.
 */
module Query {
  import opened Common
  import opened Errors
  import opened WinApi
  import opened Jobs

  /** Length of the `list` array that follows the header. */
  const ListCapacity: nat := 1024

  /** Ids the whole buffer holds: the header's slot and the list. */
  const BufferCapacity: nat := ListCapacity + 1

  /** The `#[repr(C)]` struct `ProcessIdList`: header, then list. */
  class ProcessIdList {
    const header: BasicProcessIdList
    const list: array<usize>

    /** The zeroed buffer the query starts from. */
    constructor ()
      ensures fresh(header) && fresh(list)
      ensures header.numberOfAssignedProcesses == 0 && header.numberOfProcessIdsInList == 0
      ensures header.processIdList0 == 0
      ensures list[..] == Zeros(ListCapacity)
    {
      header := new BasicProcessIdList();
      list := new usize[ListCapacity](_ => 0);
    }
  }

  function Zeros(n: nat): (z: seq<usize>)
    ensures |z| == n && forall i :: 0 <= i < n ==> z[i] == 0
  {
    seq(n, _ => 0)
  }

  /** The header's slot after the OS wrote `ids` into a zeroed buffer. */
  function FirstSlot(ids: seq<usize>): usize
  {
    if ids == [] then 0 else ids[0]
  }

  /** The list after the OS wrote `ids` into a zeroed buffer. */
  function FilledList(ids: seq<usize>): seq<usize>
    requires |ids| <= BufferCapacity
  {
    Spread(ids, Zeros(ListCapacity))
  }

  /**
   * `list[..n].to_vec()` on the 1024-entry list; `None` stands for the panic of a slice
   * past the end of the array.
   */
  function ListPrefix(list: seq<usize>, n: nat): (r: Option<seq<usize>>)
    ensures r.Some? <==> n <= |list|
    ensures r.Some? ==> |r.value| == n && forall i :: 0 <= i < n ==> r.value[i] == list[i]
  {
    if n <= |list| then Some(list[..n]) else None
  }

  /** The first `n` ids of the whole buffer, read from the header's slot on. */
  function BufferPrefix(first: usize, list: seq<usize>, n: nat): (r: Option<seq<usize>>)
    ensures r.Some? <==> n <= 1 + |list|
    ensures r.Some? && n > 0 ==> |r.value| == n && r.value[0] == first
    ensures r.Some? ==> |r.value| == n && forall i :: 1 <= i < n ==> r.value[i] == list[i - 1]
  {
    if n <= 1 + |list| then Some(([first] + list)[..n]) else None
  }

  /** Reading from the header's slot on gives back exactly the ids the OS wrote, in order. */
  // `{:induction false}` on the lemmas below keeps Dafny from trying an automatic
  // induction on `ids`: each is proved element by element.
  lemma {:induction false} BufferPrefixRoundTrip(ids: seq<usize>)
    requires |ids| <= BufferCapacity
    ensures BufferPrefix(FirstSlot(ids), FilledList(ids), |ids|) == Some(ids)
  {
    var r := BufferPrefix(FirstSlot(ids), FilledList(ids), |ids|);
    assert r.Some?;
    forall i | 0 <= i < |ids|
      ensures r.value[i] == ids[i]
    {
      if i > 0 {
        assert r.value[i] == FilledList(ids)[i - 1];
      }
    }
    assert r.value == ids;
  }

  /**
   * The list alone holds the ids from the second on, then the zero the buffer started
   * with: for a job of one to 1024 processes the library returns `ids[1..] + [0]`.
   */
  lemma {:induction false} ListPrefixShifted(ids: seq<usize>)
    requires 1 <= |ids| <= ListCapacity
    ensures ListPrefix(FilledList(ids), |ids|) == Some(ids[1..] + [0])
  {
    var r := ListPrefix(FilledList(ids), |ids|);
    var want := ids[1..] + [0];
    assert |r.value| == |want|;
    forall i | 0 <= i < |ids|
      ensures r.value[i] == want[i]
    {
      assert r.value[i] == FilledList(ids)[i];
    }
    assert r.value == want;
  }

  /** An empty job reads back correctly: nothing was written and the count is zero. */
  lemma ListPrefixEmpty()
    ensures ListPrefix(FilledList([]), 0) == Some([])
  {
  }

  /** With 1025 processes the OS call succeeds, and the slice of 1025 list entries panics. */
  lemma {:induction false} ListPrefixPanicsWhenFull(ids: seq<usize>)
    requires |ids| == BufferCapacity
    ensures ListPrefix(FilledList(ids), |ids|) == None
  {
    assert |FilledList(ids)| == ListCapacity;
  }

  /** The smallest input that shows it: a job holding only the process `pid` reads back as `[0]`. */
  lemma {:induction false} SingleProcessReadsAsZero(pid: usize)
    requires pid != 0
    ensures ListPrefix(FilledList([pid]), 1) == Some([0]) != Some([pid])
    ensures BufferPrefix(FirstSlot([pid]), FilledList([pid]), 1) == Some([pid])
  {
    ListPrefixShifted([pid]);
    assert [pid][1..] + [0] == [0];
    BufferPrefixRoundTrip([pid]);
  }

  /** The outcome of the library's code: a list, an error, or a panic. */
  datatype Outcome = Returned(ids: seq<usize>) | Failed(error: JobError) | Panicked

  /** `query_process_id_list` as written: one query, then a slice of the list after the header. */
  method QueryProcessIdListAsWritten(job: Job, os: Kernel) returns (o: Outcome)
    requires !job.closed
    modifies os
    ensures os.log == old(os.log) + [Call.QueryInformationJobObject(job.handle, JobObjectBasicProcessIdList, !o.Failed?)]
    ensures o.Failed? ==> o.error == FailureOf(Operation.GetInfo, os.lastError)
    ensures !o.Failed? ==> job.handle in os.jobs
    ensures !o.Failed? && os.jobs[job.handle].processes == [] ==> o == Returned([])
    ensures !o.Failed? && 1 <= |os.jobs[job.handle].processes| <= ListCapacity ==>
      o == Returned(os.jobs[job.handle].processes[1..] + [0])
    ensures !o.Failed? && |os.jobs[job.handle].processes| > ListCapacity ==> o == Panicked
    ensures os.jobs == old(os.jobs) && os.processHandles == old(os.processHandles)
  {
    var buffer := new ProcessIdList();
    var ret := os.QueryBasicProcessIdList(job.Handle(), buffer.header, buffer.list);
    if ret == 0 {
      return Failed(GetInfoFailed(os.lastError));
    }
    var ids := os.jobs[job.handle].processes;
    assert buffer.list[..] == FilledList(ids);
    var n := buffer.header.numberOfProcessIdsInList as nat;
    if n > buffer.list.Length {
      ListPrefixPanicsWhenFull(ids);
      return Panicked;
    }
    if ids != [] {
      ListPrefixShifted(ids);
    }
    return Returned(buffer.list[..n]);
  }

  /**
   * `query_process_id_list` reading the ids from the header's slot on: on success it returns
   * exactly the job's processes, in order, up to the 1025 the buffer holds.
   */
  method QueryProcessIdList(job: Job, os: Kernel) returns (r: Result<seq<usize>, JobError>)
    requires !job.closed
    modifies os
    ensures os.log == old(os.log) + [Call.QueryInformationJobObject(job.handle, JobObjectBasicProcessIdList, r.Ok?)]
    ensures r.Err? ==> r.error == FailureOf(Operation.GetInfo, os.lastError)
    ensures r.Ok? ==> job.handle in os.jobs && r.value == os.jobs[job.handle].processes
    ensures r.Ok? ==> |r.value| <= BufferCapacity
    ensures os.jobs == old(os.jobs) && os.processHandles == old(os.processHandles)
  {
    var buffer := new ProcessIdList();
    var ret := os.QueryBasicProcessIdList(job.Handle(), buffer.header, buffer.list);
    if ret == 0 {
      return Err(GetInfoFailed(os.lastError));
    }
    var ids := os.jobs[job.handle].processes;
    assert buffer.header.processIdList0 == FirstSlot(ids);
    assert buffer.list[..] == FilledList(ids);
    var n := buffer.header.numberOfProcessIdsInList as nat;
    BufferPrefixRoundTrip(ids);
    return Ok(([buffer.header.processIdList0] + buffer.list[..])[..n]);
  }
}
