/**
 * Client code written against the model: the unit tests of src/limits.rs, src/job.rs and
 * src/query.rs and the chaining example of the crate documentation (src/lib.rs). Each
 * states what the library guarantees for that sequence of calls whenever every Win32
 * call in it succeeds; a `JobError` stops the sequence, and the job is dropped on every
 * path after it was created.
 */
module Scenarios {
  import opened Common
  import opened Limits
  import opened Errors
  import opened WinApi
  import opened Jobs
  import opened Query

  const OneMiB: usize := 1 * 1024 * 1024
  const FourMiB: usize := 4 * 1024 * 1024

  /** `set_extended_limit_info` then `query_extended_limit_info`: the query returns the record just set. */
  method SetThenQuery(job: Job, os: Kernel, info: ExtendedLimitInfo) returns (r: Result<ExtendedLimitInfo, JobError>)
    requires !job.closed
    modifies os
    ensures r.Ok? ==> fresh(r.value) && r.value.Record() == info.Record()
    ensures r.Ok? ==> job.handle in os.jobs && os.jobs[job.handle].limits == info.Record()
    // no other job changes
    ensures os.jobs - {job.handle} == old(os.jobs) - {job.handle}
  {
    var s := job.SetExtendedLimitInfo(os, info);
    if s.Err? {
      return Err(s.error);
    }
    r := job.QueryExtendedLimitInfo(os);
  }

  /**
   * Test `priority_class_limits`: query, `limit_priority_class(BelowNormal)`, set, query
   * again; the priority class read back is `BelowNormal as u32`.
   */
  method PriorityClassLimits(os: Kernel) returns (r: Result<uint32, JobError>)
    modifies os
    ensures r.Ok? ==> r.value == PriorityValue(BelowNormal) == 0x4000
    ensures r.Ok? ==> PriorityFromValue(r.value) == Some(BelowNormal)
    // the job is dropped on every path: no job is left open
    ensures os.jobs == old(os.jobs)
  {
    var created := Job.Create(os);
    if created.Err? {
      return Err(created.error);
    }
    var job := created.value;
    var q := job.QueryExtendedLimitInfo(os);
    if q.Err? {
      r := Err(q.error);
    } else {
      var info := q.value;
      var _ := info.LimitPriorityClass(BelowNormal);
      var back := SetThenQuery(job, os, info);
      r := if back.Ok? then Ok(back.value.priorityClass) else Err(back.error);
    }
    job.Drop(os);
  }

  /**
   * Test `scheduling_class_limits`: the same sequence with `limit_scheduling_class(1)`; the
   * scheduling class read back is 1.
   */
  method SchedulingClassLimits(os: Kernel) returns (r: Result<uint32, JobError>)
    modifies os
    ensures r.Ok? ==> r.value == 1
    // the job is dropped on every path: no job is left open
    ensures os.jobs == old(os.jobs)
  {
    var created := Job.Create(os);
    if created.Err? {
      return Err(created.error);
    }
    var job := created.value;
    var q := job.QueryExtendedLimitInfo(os);
    if q.Err? {
      r := Err(q.error);
    } else {
      var info := q.value;
      var _ := info.LimitSchedulingClass(1);
      var back := SetThenQuery(job, os, info);
      r := if back.Ok? then Ok(back.value.schedulingClass) else Err(back.error);
    }
    job.Drop(os);
  }

  /**
   * Test `it_works` through the low-level API: a new job reads back with no limit enabled;
   * the working-set fields are written directly, the flag ORed in and the record set;
   * then the flag word is zeroed and the record set again. Returns the flag word first
   * read and the record the job holds at the end.
   */
  method ItWorks(os: Kernel) returns (r: Result<(bv32, LimitRecord), JobError>)
    modifies os
    ensures r.Ok? ==> r.value.0 == 0
    ensures r.Ok? ==> r.value.1.limitFlags == 0 && r.value.1.minWs == OneMiB && r.value.1.maxWs == FourMiB
    // the job is dropped on every path: no job is left open
    ensures os.jobs == old(os.jobs)
  {
    var created := Job.Create(os);
    if created.Err? {
      return Err(created.error);
    }
    var job := created.value;
    r := ItWorksOn(job, os);
    job.Drop(os);
  }

  method ItWorksOn(job: Job, os: Kernel) returns (r: Result<(bv32, LimitRecord), JobError>)
    requires !job.closed && job.handle in os.jobs && os.jobs[job.handle].limits.limitFlags == 0
    modifies os
    ensures r.Ok? ==> r.value.0 == 0
    ensures r.Ok? ==> r.value.1.limitFlags == 0 && r.value.1.minWs == OneMiB && r.value.1.maxWs == FourMiB
    ensures r.Ok? ==> job.handle in os.jobs && os.jobs[job.handle].limits == r.value.1
    // no other job changes
    ensures os.jobs - {job.handle} == old(os.jobs) - {job.handle}
  {
    var q := job.QueryExtendedLimitInfo(os);
    if q.Err? {
      return Err(q.error);
    }
    var info := q.value;
    var first := info.limitFlags;
    info.minWs := OneMiB;
    info.maxWs := FourMiB;
    info.limitFlags := info.limitFlags | JobObjectLimitWorkingSet;
    var s := job.SetExtendedLimitInfo(os, info);
    if s.Err? {
      return Err(s.error);
    }
    info.limitFlags := 0;
    s := job.SetExtendedLimitInfo(os, info);
    if s.Err? {
      return Err(s.error);
    }
    return Ok((first, info.Record()));
  }

  /**
   * The chaining example of the crate documentation: query a new job's record, chain
   * `limit_working_memory(1 MiB, 4 MiB).limit_priority_class(BelowNormal)`, set it and
   * assign the current process; then clear the limits and set again. Returns the record
   * the job held while the current process was assigned to it.
   */
  method ChainedLimits(os: Kernel) returns (r: Result<LimitRecord, JobError>)
    modifies os
    ensures r.Ok? ==> r.value.minWs == OneMiB && r.value.maxWs == FourMiB
    ensures r.Ok? ==> r.value.priorityClass == BelowNormalPriorityClass
    ensures r.Ok? ==> r.value.limitFlags == JobObjectLimitWorkingSet | JobObjectLimitPriorityClass
    // the job is dropped on every path: no job is left open
    ensures os.jobs == old(os.jobs)
  {
    var created := Job.Create(os);
    if created.Err? {
      return Err(created.error);
    }
    var job := created.value;
    r := ChainedLimitsOn(job, os);
    job.Drop(os);
  }

  method ChainedLimitsOn(job: Job, os: Kernel) returns (r: Result<LimitRecord, JobError>)
    requires !job.closed && job.handle in os.jobs && os.jobs[job.handle].limits.limitFlags == 0
    modifies os
    ensures r.Ok? ==> r.value.minWs == OneMiB && r.value.maxWs == FourMiB
    ensures r.Ok? ==> r.value.priorityClass == BelowNormalPriorityClass
    ensures r.Ok? ==> r.value.limitFlags == JobObjectLimitWorkingSet | JobObjectLimitPriorityClass
    // no other job changes
    ensures os.jobs - {job.handle} == old(os.jobs) - {job.handle}
  {
    var q := job.QueryExtendedLimitInfo(os);
    if q.Err? {
      return Err(q.error);
    }
    var info := q.value;
    LimitMemoryAndPriority(info);
    var s := job.SetExtendedLimitInfo(os, info);
    if s.Err? {
      return Err(s.error);
    }
    var stored := info.Record();
    s := job.AssignCurrentProcess(os);
    if s.Err? {
      return Err(s.error);
    }
    var _ := info.ClearLimits();
    s := job.SetExtendedLimitInfo(os, info);
    if s.Err? {
      return Err(s.error);
    }
    return Ok(stored);
  }

  /** The builder chain of the example: `limit_working_memory(1 MiB, 4 MiB).limit_priority_class(BelowNormal)`. */
  method LimitMemoryAndPriority(info: ExtendedLimitInfo)
    modifies info
    ensures info.minWs == OneMiB && info.maxWs == FourMiB
    ensures info.priorityClass == BelowNormalPriorityClass
    ensures info.limitFlags == old(info.limitFlags) | JobObjectLimitWorkingSet | JobObjectLimitPriorityClass
  {
    var chained := info.LimitWorkingMemory(OneMiB, FourMiB);
    var _ := chained.LimitPriorityClass(BelowNormal);
  }

  /** The flag word of the chaining example enables exactly the working-set and priority-class limits. */
  lemma ChainedLimitsEnable(k: Limit)
    ensures (JobObjectLimitWorkingSet | JobObjectLimitPriorityClass) & Bit(k) != 0
        <==> k == WorkingSet || k == PriorityClassLimit
  {
  }

  /**
   * Test `query_proc_id` with the list read from the header's slot on: a new job lists no
   * process, and after `assign_current_process` it lists exactly the current process.
   */
  method QueryProcId(os: Kernel) returns (r: Result<(seq<usize>, seq<usize>), JobError>)
    modifies os
    ensures r.Ok? ==> r.value.0 == [] && r.value.1 == [os.currentProcessId]
    // the job is dropped on every path: no job is left open
    ensures os.jobs == old(os.jobs)
  {
    var created := Job.Create(os);
    if created.Err? {
      return Err(created.error);
    }
    var job := created.value;
    r := QueryProcIdOn(job, os);
    job.Drop(os);
  }

  method QueryProcIdOn(job: Job, os: Kernel) returns (r: Result<(seq<usize>, seq<usize>), JobError>)
    requires !job.closed && job.handle in os.jobs && os.jobs[job.handle].processes == []
    modifies os
    ensures r.Ok? ==> r.value.0 == [] && r.value.1 == [os.currentProcessId]
    // no other job changes
    ensures os.jobs - {job.handle} == old(os.jobs) - {job.handle}
  {
    var before := QueryProcessIdList(job, os);
    if before.Err? {
      return Err(before.error);
    }
    var a := job.AssignCurrentProcess(os);
    if a.Err? {
      return Err(a.error);
    }
    var after := QueryProcessIdList(job, os);
    if after.Err? {
      return Err(after.error);
    }
    return Ok((before.value, after.value));
  }

  /**
   * Test `query_proc_id` against the library as written: the new job's list is empty, and
   * after `assign_current_process` the list has length 1, as the test checks, but its one
   * entry is the zero the buffer started with rather than the current process id.
   */
  method QueryProcIdAsWritten(os: Kernel) returns (r: Result<(Outcome, Outcome), JobError>)
    modifies os
    ensures r.Ok? ==> r.value.0 == Returned([]) && r.value.1 == Returned([0])
    // the job is dropped on every path: no job is left open
    ensures os.jobs == old(os.jobs)
  {
    var created := Job.Create(os);
    if created.Err? {
      return Err(created.error);
    }
    var job := created.value;
    r := QueryProcIdAsWrittenOn(job, os);
    job.Drop(os);
  }

  method QueryProcIdAsWrittenOn(job: Job, os: Kernel) returns (r: Result<(Outcome, Outcome), JobError>)
    requires !job.closed && job.handle in os.jobs && os.jobs[job.handle].processes == []
    modifies os
    ensures r.Ok? ==> r.value.0 == Returned([]) && r.value.1 == Returned([0])
    // no other job changes
    ensures os.jobs - {job.handle} == old(os.jobs) - {job.handle}
  {
    var before := QueryProcessIdListAsWritten(job, os);
    if before.Failed? {
      return Err(before.error);
    }
    var a := job.AssignCurrentProcess(os);
    if a.Err? {
      return Err(a.error);
    }
    var after := QueryProcessIdListAsWritten(job, os);
    if after.Failed? {
      return Err(after.error);
    }
    assert [os.currentProcessId][1..] + [0] == [0];
    return Ok((before, after));
  }
}
