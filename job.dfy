/**
 * `Job` (src/job.rs): the owner of one job-object handle. Every operation is one Win32
 * call followed by a check of its return value; a zero (or null) return becomes the
 * operation's own `JobError` variant carrying the last OS error code.
 */
module Jobs {
  import opened Common
  import opened Limits
  import opened Errors
  import opened WinApi

  class Job {
    const handle: HANDLE
    /** Set once the value is dropped; ownership ends there, so no operation may follow. */
    ghost var closed: bool

    /** The struct literal `Job { handle }`. */
    constructor (h: HANDLE)
      requires h != NullHandle
      ensures handle == h && !closed
    {
      handle := h;
      closed := false;
    }

    /** `Job::create`: creates an anonymous job object. */
    static method Create(os: Kernel) returns (r: Result<Job, JobError>)
      modifies os
      // exactly one CreateJobObjectW call, which returned null exactly when the result is an error
      ensures os.log == old(os.log) + [Call.CreateJobObjectW(if r.Ok? then r.value.handle else NullHandle)]
      ensures r.Err? ==> r.error == FailureOf(Operation.Create, os.lastError) && os.jobs == old(os.jobs)
      ensures r.Ok? ==> fresh(r.value) && !r.value.closed && r.value.handle != NullHandle
      // the handle refers to a new job with no limit enabled and no process
      ensures r.Ok? ==> var h := r.value.handle;
        h !in old(os.jobs) && h in os.jobs && os.jobs == old(os.jobs)[h := os.jobs[h]] &&
        os.jobs[h].limits.limitFlags == 0 && os.jobs[h].processes == []
      ensures os.processHandles == old(os.processHandles)
    {
      var h := os.CreateJobObjectW();
      if h == NullHandle {
        return Err(CreateFailed(os.lastError));
      }
      var job := new Job(h);
      return Ok(job);
    }

    /** `handle()`: the handle `create` stored; reads nothing else and changes nothing. */
    function Handle(): (h: HANDLE)
      reads this
      requires !closed
      ensures h == handle
    {
      handle
    }

    /** `query_extended_limit_info`: reads the job's record into a zeroed buffer and wraps it. */
    method QueryExtendedLimitInfo(os: Kernel) returns (r: Result<ExtendedLimitInfo, JobError>)
      requires !closed
      modifies os
      ensures os.log == old(os.log) + [Call.QueryInformationJobObject(handle, JobObjectExtendedLimitInformation, r.Ok?)]
      ensures r.Err? ==> r.error == FailureOf(Operation.GetInfo, os.lastError)
      ensures r.Ok? ==> fresh(r.value) && handle in os.jobs && r.value.Record() == os.jobs[handle].limits
      ensures os.jobs == old(os.jobs)
      ensures os.processHandles == old(os.processHandles)
    {
      var info := new ExtendedLimitInfo();
      var ret := os.QueryExtendedLimitInformation(handle, info);
      if ret == 0 {
        return Err(GetInfoFailed(os.lastError));
      }
      return Ok(info);
    }

    /** `set_extended_limit_info`: hands the record to the OS; `info` itself is not written. */
    method SetExtendedLimitInfo(os: Kernel, info: ExtendedLimitInfo) returns (r: Result<(), JobError>)
      requires !closed
      modifies os
      ensures os.log == old(os.log) + [Call.SetInformationJobObject(handle, JobObjectExtendedLimitInformation, info.Record(), r.Ok?)]
      ensures r.Err? ==> r.error == FailureOf(Operation.SetInfo, os.lastError) && os.jobs == old(os.jobs)
      ensures r.Ok? ==> handle in old(os.jobs)
      ensures r.Ok? ==> os.jobs == old(os.jobs)[handle := old(os.jobs)[handle].(limits := info.Record())]
      ensures os.processHandles == old(os.processHandles)
    {
      var ret := os.SetExtendedLimitInformation(handle, info);
      if ret == 0 {
        return Err(SetInfoFailed(os.lastError));
      }
      return Ok(());
    }

    /** `assign_process`: puts the process behind `process` into the job. */
    method AssignProcess(os: Kernel, process: HANDLE) returns (r: Result<(), JobError>)
      requires !closed
      modifies os
      ensures os.log == old(os.log) + [Call.AssignProcessToJobObject(handle, process, r.Ok?)]
      ensures r.Err? ==> r.error == FailureOf(Operation.Assign, os.lastError) && os.jobs == old(os.jobs)
      ensures r.Ok? ==> handle in old(os.jobs) && os.ProcessOf(process).Some?
      ensures r.Ok? ==> os.jobs == old(os.jobs)[handle :=
        old(os.jobs)[handle].(processes := Joined(old(os.jobs)[handle].processes, os.ProcessOf(process).value))]
      ensures os.processHandles == old(os.processHandles)
    {
      var ret := os.AssignProcessToJobObject(handle, process);
      if ret == 0 {
        return Err(AssignFailed(os.lastError));
      }
      return Ok(());
    }

    /** `assign_current_process`: `assign_process` on the current-process pseudo-handle. */
    method AssignCurrentProcess(os: Kernel) returns (r: Result<(), JobError>)
      requires !closed
      modifies os
      ensures os.log == old(os.log) + [Call.AssignProcessToJobObject(handle, CurrentProcessHandle, r.Ok?)]
      ensures r.Err? ==> r.error == FailureOf(Operation.Assign, os.lastError) && os.jobs == old(os.jobs)
      ensures r.Ok? ==> handle in old(os.jobs) && os.jobs == old(os.jobs)[handle :=
        old(os.jobs)[handle].(processes := Joined(old(os.jobs)[handle].processes, os.currentProcessId))]
      ensures r.Ok? ==> os.currentProcessId in os.jobs[handle].processes
      ensures os.processHandles == old(os.processHandles)
    {
      r := AssignProcess(os, CurrentProcessHandle);
    }

    /** `Drop`: closes the handle, ignoring whether `CloseHandle` succeeded. */
    method Drop(os: Kernel)
      requires !closed
      modifies this, os
      ensures closed
      ensures os.log == old(os.log) + [Call.CloseHandle(handle)]
      ensures os.jobs == old(os.jobs) - {handle}
      ensures os.processHandles == old(os.processHandles)
    {
      var _ := os.CloseHandle(handle);
      closed := true;
    }
  }
}
