/**
 * The part of the Win32 job-object API the library calls, as an abstract kernel.
 *
 * Which calls succeed is the OS's choice, so every call here picks success or failure
 * nondeterministically. What a successful call does is stated in its contract and is an
 * assumption about Windows, not something the library controls: a new job has no limit
 * enabled and no process, a set stores the record it is given, a query returns the stored
 * record, an assignment adds the process, a process-id query writes the ids in order.
 * Every call is appended to a ghost log so that callers can state which calls they made.
 */
module WinApi {
  import opened Common
  import opened Limits

  /** A pointer-sized handle value. */
  type HANDLE = int

  const NullHandle: HANDLE := 0

  /** What `GetCurrentProcess()` returns: the pseudo-handle `(HANDLE)-1`. */
  const CurrentProcessHandle: HANDLE := -1

  /** The two information classes the library queries. */
  datatype InfoClass = JobObjectExtendedLimitInformation | JobObjectBasicProcessIdList

  /** What the kernel keeps for a job object: its limits and the processes in it, in assignment order. */
  datatype JobObject = JobObject(limits: LimitRecord, processes: seq<usize>)

  /** One Win32 call with what it returned (`succeeded` is a nonzero `BOOL`). */
  datatype Call =
    | CreateJobObjectW(result: HANDLE)
    | QueryInformationJobObject(job: HANDLE, infoClass: InfoClass, succeeded: bool)
    | SetInformationJobObject(job: HANDLE, infoClass: InfoClass, info: LimitRecord, succeeded: bool)
    | AssignProcessToJobObject(job: HANDLE, process: HANDLE, succeeded: bool)
    | CloseHandle(handle: HANDLE)

  /**
   * The fixed-size `JOBOBJECT_BASIC_PROCESS_ID_LIST` header (winnt.h): two counts and a
   * one-element `ProcessIdList` array, which is where the first process id goes.
   */
  class BasicProcessIdList {
    var numberOfAssignedProcesses: uint32
    var numberOfProcessIdsInList: uint32
    var processIdList0: usize

    /** `mem::zeroed()`. */
    constructor ()
      ensures numberOfAssignedProcesses == 0 && numberOfProcessIdsInList == 0 && processIdList0 == 0
    {
      numberOfAssignedProcesses, numberOfProcessIdsInList, processIdList0 := 0, 0, 0;
    }
  }

  class Kernel {
    /** The open job handles and the job object each refers to. */
    var jobs: map<HANDLE, JobObject>
    /** Open handles to other processes, with their process ids. */
    var processHandles: map<HANDLE, usize>
    /** The id of the calling process. */
    const currentProcessId: usize
    /** The thread's last-error code (`GetLastError()`). */
    var lastError: int
    /** Every call made so far, oldest first. */
    ghost var log: seq<Call>

    constructor (pid: usize)
      ensures currentProcessId == pid && jobs == map[] && processHandles == map[] && log == []
    {
      currentProcessId := pid;
      jobs := map[];
      processHandles := map[];
      lastError := 0;
      log := [];
    }

    /** The process a handle refers to, if any; the pseudo-handle is the calling process. */
    function ProcessOf(h: HANDLE): Option<usize>
      reads this
    {
      if h == CurrentProcessHandle then Some(currentProcessId)
      else if h in processHandles then Some(processHandles[h])
      else None
    }

    /** `CreateJobObjectW(NULL, NULL)`: a handle to a new anonymous job, or null with the last error set. */
    method CreateJobObjectW() returns (h: HANDLE)
      modifies this
      ensures h != NullHandle ==> h > 0 && h !in old(jobs) && h != CurrentProcessHandle
      ensures h != NullHandle ==> h in jobs && jobs == old(jobs)[h := jobs[h]]
      ensures h != NullHandle ==> jobs[h].processes == [] && jobs[h].limits.limitFlags == 0
      ensures h == NullHandle ==> jobs == old(jobs)
      ensures processHandles == old(processHandles)
      ensures log == old(log) + [Call.CreateJobObjectW(h)]
    {
      var ok: bool := *;
      var candidate: HANDLE := *;
      if ok && candidate > 0 && candidate !in jobs {
        var lim: LimitRecord := *;
        lim := lim.(limitFlags := 0);
        jobs := jobs[candidate := JobObject(lim, [])];
        h := candidate;
      } else {
        lastError := *;
        h := NullHandle;
      }
      log := log + [Call.CreateJobObjectW(h)];
    }

    /**
     * `QueryInformationJobObject(job, JobObjectExtendedLimitInformation, buffer, ..)`: on
     * success the buffer holds the job's record; on failure its content is unspecified.
     */
    method QueryExtendedLimitInformation(job: HANDLE, buffer: ExtendedLimitInfo) returns (ret: int)
      modifies this, buffer
      ensures ret != 0 ==> job in jobs && buffer.Record() == jobs[job].limits
      ensures jobs == old(jobs) && processHandles == old(processHandles)
      ensures log == old(log) + [Call.QueryInformationJobObject(job, JobObjectExtendedLimitInformation, ret != 0)]
    {
      var ok: bool := *;
      if ok && job in jobs {
        var lim := jobs[job].limits;
        buffer.minWs, buffer.maxWs, buffer.priorityClass := lim.minWs, lim.maxWs, lim.priorityClass;
        buffer.schedulingClass, buffer.affinity := lim.schedulingClass, lim.affinity;
        buffer.limitFlags, buffer.extended := lim.limitFlags, lim.extended;
        ret := 1;
      } else {
        lastError := *;
        ret := 0;
      }
      log := log + [Call.QueryInformationJobObject(job, JobObjectExtendedLimitInformation, ret != 0)];
    }

    /**
     * `SetInformationJobObject(job, JobObjectExtendedLimitInformation, buffer, ..)`: on
     * success the job's record becomes the buffer's; the buffer is only read.
     */
    method SetExtendedLimitInformation(job: HANDLE, buffer: ExtendedLimitInfo) returns (ret: int)
      modifies this
      ensures ret != 0 ==> job in old(jobs) && jobs == old(jobs)[job := old(jobs)[job].(limits := buffer.Record())]
      ensures ret == 0 ==> jobs == old(jobs)
      ensures processHandles == old(processHandles)
      ensures log == old(log) + [Call.SetInformationJobObject(job, JobObjectExtendedLimitInformation, buffer.Record(), ret != 0)]
    {
      var ok: bool := *;
      if ok && job in jobs {
        jobs := jobs[job := jobs[job].(limits := buffer.Record())];
        ret := 1;
      } else {
        lastError := *;
        ret := 0;
      }
      log := log + [Call.SetInformationJobObject(job, JobObjectExtendedLimitInformation, buffer.Record(), ret != 0)];
    }

    /**
     * `AssignProcessToJobObject(job, process)`: on success the process belongs to the job
     * (assigning a process already in it changes nothing).
     */
    method AssignProcessToJobObject(job: HANDLE, process: HANDLE) returns (ret: int)
      modifies this
      ensures ret != 0 ==> job in old(jobs) && ProcessOf(process).Some?
      ensures ret != 0 ==> jobs == old(jobs)[job := old(jobs)[job].(processes := Joined(old(jobs)[job].processes, ProcessOf(process).value))]
      ensures ret == 0 ==> jobs == old(jobs)
      ensures processHandles == old(processHandles)
      ensures log == old(log) + [Call.AssignProcessToJobObject(job, process, ret != 0)]
    {
      var ok: bool := *;
      var pid := ProcessOf(process);
      if ok && job in jobs && pid.Some? {
        jobs := jobs[job := jobs[job].(processes := Joined(jobs[job].processes, pid.value))];
        ret := 1;
      } else {
        lastError := *;
        ret := 0;
      }
      log := log + [Call.AssignProcessToJobObject(job, process, ret != 0)];
    }

    /**
     * `QueryInformationJobObject(job, JobObjectBasicProcessIdList, buffer, ..)` on a buffer
     * made of the header followed by `tail`: the ids are written contiguously from the
     * header's one-element array on, so the first id lands in the header and id `i + 1` in
     * `tail[i]`. The call fails when the job holds more ids than fit.
     */
    method QueryBasicProcessIdList(job: HANDLE, header: BasicProcessIdList, tail: array<usize>) returns (ret: int)
      modifies this, header, tail
      ensures ret != 0 ==> job in jobs && |jobs[job].processes| <= 1 + tail.Length
      ensures ret != 0 ==> var ids := jobs[job].processes;
        header.numberOfAssignedProcesses as int == |ids| &&
        header.numberOfProcessIdsInList as int == |ids| &&
        header.processIdList0 == (if ids == [] then old(header.processIdList0) else ids[0]) &&
        tail[..] == Spread(ids, old(tail[..]))
      ensures jobs == old(jobs) && processHandles == old(processHandles)
      ensures log == old(log) + [Call.QueryInformationJobObject(job, JobObjectBasicProcessIdList, ret != 0)]
    {
      var ok: bool := *;
      if ok && job in jobs && |jobs[job].processes| <= 1 + tail.Length && |jobs[job].processes| < 0x1_0000_0000 {
        var ids := jobs[job].processes;
        header.numberOfAssignedProcesses := |ids| as uint32;
        header.numberOfProcessIdsInList := |ids| as uint32;
        if ids != [] {
          header.processIdList0 := ids[0];
        }
        var rest := Spread(ids, tail[..]);
        forall i | 0 <= i < tail.Length {
          tail[i] := rest[i];
        }
        ret := 1;
      } else {
        lastError := *;
        ret := 0;
      }
      log := log + [Call.QueryInformationJobObject(job, JobObjectBasicProcessIdList, ret != 0)];
    }

    /** `CloseHandle(h)`: the handle is no longer open. */
    method CloseHandle(h: HANDLE) returns (ret: int)
      modifies this
      ensures jobs == old(jobs) - {h}
      ensures processHandles == old(processHandles)
      ensures log == old(log) + [Call.CloseHandle(h)]
    {
      var ok: bool := *;
      jobs := jobs - {h};
      if ok {
        ret := 1;
      } else {
        lastError := *;
        ret := 0;
      }
      log := log + [Call.CloseHandle(h)];
    }
  }

  /** The process list after `pid` joins: unchanged when it is already a member, else appended. */
  function Joined(processes: seq<usize>, pid: usize): (r: seq<usize>)
    ensures pid in r
    ensures forall q :: q in r <==> q in processes || q == pid
  {
    if pid in processes then processes else processes + [pid]
  }

  /**
   * The part of the buffer after the header once the ids are written: `ids[1..]` over the
   * front of `tail`, the rest of `tail` as it was.
   */
  function Spread(ids: seq<usize>, tail: seq<usize>): (r: seq<usize>)
    requires |ids| <= 1 + |tail|
    ensures |r| == |tail|
    ensures forall i :: 0 <= i < |ids| - 1 ==> r[i] == ids[i + 1]
    ensures forall i :: |ids| - 1 <= i < |tail| && 0 <= i ==> r[i] == tail[i]
  {
    if |ids| <= 1 then tail else ids[1..] + tail[|ids| - 1..]
  }
}
