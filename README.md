# win32job-rs in Dafny

A model of the core of `win32job`, a Rust wrapper around Windows job objects, with
proofs about it.

- `limits.dfy` (module `Limits`) holds the `JOBOBJECT_EXTENDED_LIMIT_INFORMATION`
  record that `ExtendedLimitInfo` wraps. It has the five fields the builders manage, the
  `LimitFlags` word as a `bv32`, and the rest of the record as bytes the builders never
  touch. `ExtendedLimitInfo` is a class. Its builder methods (`limit_working_memory`,
  `limit_kill_on_job_close`, `limit_priority_class`, `limit_scheduling_class`,
  `limit_affinity`, `clear_limits`) update it in place and return it for chaining. Each
  method is specified by `Apply`, a function on record values. The lemmas prove what one
  call does: which bit it sets, which fields it writes and which it leaves alone. They also
  prove that every builder is idempotent and that calls to two different builders other
  than `clear_limits` commute.
- `limit_chains.dfy` (module `LimitChains`) covers whole chains of builder calls. In a chain
  containing `clear_limits`, a limit is enabled at the end exactly when a call after the
  last `clear_limits` enabled it. In a chain without it, a limit is enabled at the end
  exactly when it was enabled at the start or some call enabled it.
  Its fields hold what the last enabling call wrote, or their starting values when no call
  enabled it. Limits are only added between `clear_limits` calls.
- `error.dfy` (module `Errors`) is `JobError`. Each variant carries the OS error code.
- `winapi.dfy` (module `WinApi`) is the Win32 API the library calls, as an abstract
  kernel. A call succeeds or fails at the kernel's choice. What a successful call does is
  stated in its contract. Every call is appended to a ghost log.
- `job.dfy` (module `Jobs`) is `Job`: one handle and a ghost `closed` flag. Each
  operation other than `handle()` makes exactly one Win32 call, and the log shows it. Each
  fallible one returns its own `JobError` variant exactly when that call failed. `Drop`
  closes the handle, and every operation, `Handle` included, requires an open job.
- `query.dfy` (module `Query`) is `query_process_id_list`. It models the zeroed
  `ProcessIdList` buffer (header plus a 1024-entry array) and the single query that
  fills it. It then models the extraction in two versions: as the library writes it,
  and corrected (see Findings).
- `scenarios.dfy` (module `Scenarios`) replays the crate's unit tests and its
  documentation example as client code of the model.

`common.dfy` holds the machine integer types (`uint8`, `uint32`, `usize`) and
`Option`/`Result`.

## Model

| member | source | states |
|---|---|---|
| `Limits.PriorityValue` | src/limits.rs:10-18 | `priority_class as u32` gives the class's winbase.h constant; none is 0, so the zeroed record of `new()` holds no class |
| `Limits.PriorityFromValue` | src/limits.rs:10-18 | reads a stored priority value back as the enum: `Some(p)` only when the value is the discriminant of `p`, `None` when it is no class's value |
| `Limits.PriorityValueRoundTrip` | src/limits.rs:10-18 | the six classes have six distinct values, so reading `p as u32` back gives `p` |
| `Limits.Empty` | src/limits.rs:31-34 | the zeroed record: every managed field is 0, `LimitFlags` is 0 and every other byte is 0 |
| `Limits.BitsDistinct` | src/limits.rs:42-84 | the five enable bits are nonzero and pairwise disjoint |
| `Limits.FlagOfBit` | src/limits.rs:42-84 | the bit a builder ORs in is the enable bit of the limit it configures and of no other |
| `Limits.Assign` | src/limits.rs:38-87 | the field writes of a builder leave the flag word and the bytes outside `BasicLimitInformation` alone |
| `Limits.ApplyFlags` | src/limits.rs:42-91 | the flag word after one call: 0 after `clear_limits`; otherwise every bit that was set stays set |
| `Limits.Apply` | src/limits.rs:38-94 | `clear_limits` sets the flag word to 0 and changes nothing else; every other builder ORs its own bit into the old word; no builder changes the bytes outside `BasicLimitInformation` |
| `Limits.ApplyFlagsBit` | src/limits.rs:38-94 | after one builder call a limit is enabled iff the call is not `clear_limits` and the limit was enabled before or the call enables it |
| `Limits.ApplyKeepsFlags` | src/limits.rs:38-87 | a builder other than `clear_limits` keeps every flag bit that was already set (all 32 bits) |
| `Limits.ClearDisables` | src/limits.rs:90-94 | after `clear_limits` no limit is enabled |
| `Limits.CallEnables` | src/limits.rs:38-87 | after any other builder, a limit is enabled iff it was enabled before or the builder enables it |
| `Limits.ApplyWrites` | src/limits.rs:38-94 | the limit a builder enables holds exactly that builder's arguments afterwards; every other limit's fields are unchanged |
| `Limits.LastCallWins` | src/limits.rs:38-94 | two calls of the same builder leave the record the later call alone would leave |
| `Limits.ApplyIdempotent` | src/limits.rs:38-94 | calling any builder twice with the same arguments equals calling it once |
| `Limits.ApplyTwice` | src/limits.rs:38-87 | two builders in a row write their fields in order and OR in both bits |
| `Limits.CallsCommute` | src/limits.rs:38-87 | calls of two different builders (other than `clear_limits`) give the same record in either order |
| `Limits.ExtendedLimitInfo.constructor` | src/limits.rs:31-34 | `new()` holds the zeroed record |
| `Limits.ExtendedLimitInfo.Default` | src/limits.rs:20-24 | `default()` is a fresh `new()` |
| `Limits.ExtendedLimitInfo.LimitWorkingMemory` | src/limits.rs:38-45 | stores `min` and `max` exactly as given (no `min <= max` check), sets the working-set bit, returns the same object |
| `Limits.ExtendedLimitInfo.LimitKillOnJobClose` | src/limits.rs:51-55 | only the kill-on-job-close bit is added; no field changes |
| `Limits.ExtendedLimitInfo.LimitPriorityClass` | src/limits.rs:60-65 | stores the class's numeric constant, which reads back as the same class, and sets the priority-class bit |
| `Limits.ExtendedLimitInfo.LimitSchedulingClass` | src/limits.rs:74-79 | stores the `u8` widened to `u32` (so below 256; no 0..9 check) and sets the scheduling-class bit |
| `Limits.ExtendedLimitInfo.LimitAffinity` | src/limits.rs:82-87 | stores the mask and sets the affinity bit |
| `Limits.ExtendedLimitInfo.ClearLimits` | src/limits.rs:90-94 | the flag word becomes 0; working-set sizes, priority, scheduling class and affinity keep their values |
| `LimitChains.Run` | src/limits.rs:38-94 | a chain of builder calls, each returning the object for the next; a chain ending in `clear_limits` leaves no limit enabled |
| `LimitChains.RunFlagsAgree` | src/limits.rs:38-94 | the flag word of the record after a chain is the chain's flag word `RunFlags`, which the other fields never influence |
| `LimitChains.RunEnables` | src/limits.rs:38-94 | after a chain, each limit's bit follows `EnabledAfter`: `clear_limits` disables it, a call that enables it enables it, every other call keeps it |
| `LimitChains.EnabledWithoutClear` | src/limits.rs:38-87 | in a chain with no `clear_limits`, a limit ends up enabled iff it was enabled at the start or some call of the chain enables it |
| `LimitChains.EnabledAfterLastClear` | src/limits.rs:38-94 | a limit is enabled at the end of a chain iff a call after the chain's last `clear_limits` enables it, whatever came before |
| `LimitChains.EnabledHasEnabler` | src/limits.rs:38-94 | a limit enabled at the end but not at the start has an enabling call in the chain |
| `LimitChains.LastEnablingEnables` | src/limits.rs:38-87 | the call named as the last one enabling a limit is in the chain and enables that limit |
| `LimitChains.RunWrites` | src/limits.rs:38-94 | after a chain, each limit's fields hold what the last call enabling it wrote, or their starting values when no call did (`clear_limits` resets no field) |
| `LimitChains.FlagImpliesWritten` | src/limits.rs:31-94 | a limit whose bit is set after a chain but was not at the start (as from `new()`) was enabled by a call of the chain, and its fields hold exactly what the last enabling call wrote |
| `LimitChains.FlagsOnlyGrow` | src/limits.rs:38-87 | with no `clear_limits` in a chain, every one of the 32 bits set in the starting flag word is still set at the end, including bits the OS set in a queried record |
| `LimitChains.LimitsOnlyGrow` | src/limits.rs:42-84 | with no `clear_limits` in a chain, every limit enabled at the start is still enabled at the end |
| `LimitChains.ClearEndsWithNoLimits` | src/limits.rs:90-94 | a chain ending in `clear_limits` leaves the flag word 0 and every field as before that call |
| `LimitChains.RunKeepsExtended` | src/limits.rs:38-94 | no chain of builders changes the bytes outside `BasicLimitInformation` |
| `Errors.FailureOf` | src/error.rs:6-15 | the error of a failed operation carries the OS code and maps back to that operation |
| `Errors.FailuresDistinct` | src/error.rs:6-15 | two failures are equal iff they come from the same operation with the same code |
| `Errors.EveryErrorIsAFailure` | src/error.rs:6-15 | every `JobError` is the failure of the operation it names |
| `WinApi.Kernel.CreateJobObjectW` | src/job.rs:19 | assumed OS behaviour: null with the last error set, or a new positive handle to a job with no limit enabled and no process |
| `WinApi.Kernel.QueryExtendedLimitInformation` | src/job.rs:37-45 | assumed OS behaviour: on success the buffer holds the job's record; nothing in the kernel changes |
| `WinApi.Kernel.SetExtendedLimitInformation` | src/job.rs:56-63 | assumed OS behaviour: on success the job's record becomes the buffer's; the buffer is only read |
| `WinApi.Kernel.AssignProcessToJobObject` | src/job.rs:75 | assumed OS behaviour: on success the process the handle refers to is in the job |
| `WinApi.Kernel.QueryBasicProcessIdList` | src/query.rs:28-36 | assumed OS behaviour: on success both counts are the number of processes and the ids are written in order from the header's one-element array on; fails when they do not fit |
| `WinApi.Kernel.CloseHandle` | src/job.rs:95 | the handle is no longer open |
| `WinApi.Joined` | src/job.rs:75 | the processes of a job after `pid` joins: the old ones and `pid` |
| `WinApi.Spread` | src/query.rs:28-36 | the array after the header: id `i + 1` at index `i`, and the old contents past the ids |
| `WinApi.BasicProcessIdList.constructor` | src/query.rs:24 | the zeroed header |
| `Jobs.Job.constructor` | src/job.rs:25 | wraps a non-null handle, as only `create` builds a `Job`; the job is open |
| `Jobs.Job.Create` | src/job.rs:18-26 | one `CreateJobObjectW` call; `CreateFailed` with the last OS error exactly when it returned null; otherwise a fresh open `Job` whose non-null handle refers to a new job with no limit and no process |
| `Jobs.Job.Handle` | src/job.rs:29-31 | the stored handle of an open job; changes nothing |
| `Jobs.Job.QueryExtendedLimitInfo` | src/job.rs:35-52 | one query call; `GetInfoFailed` exactly when it returned 0; otherwise a fresh `ExtendedLimitInfo` holding the job's record |
| `Jobs.Job.SetExtendedLimitInfo` | src/job.rs:55-70 | one set call with the record `info` holds; `SetInfoFailed` exactly when it returned 0; `info` is not written |
| `Jobs.Job.AssignProcess` | src/job.rs:74-82 | one assign call; `AssignFailed` exactly when it returned 0; otherwise the process is in the job |
| `Jobs.Job.AssignCurrentProcess` | src/job.rs:85-89 | `AssignProcess` on the current-process pseudo-handle; on success the current process id is in the job |
| `Jobs.Job.Drop` | src/job.rs:92-98 | one `CloseHandle` on the job's handle, result ignored; the job is closed, and every operation requires an open job |
| `Query.ProcessIdList.constructor` | src/query.rs:23-26 | the zeroed buffer: zero counts, zero header slot, 1024 zero entries |
| `Query.ListPrefix` | src/query.rs:42-44 | `list[..n].to_vec()`: the first `n` entries in order when `n <= 1024`, a panic otherwise |
| `Query.BufferPrefix` | src/query.rs:42-44 | the first `n` ids of the whole buffer, starting at the header's slot |
| `Query.BufferPrefixRoundTrip` | src/query.rs:42-44 | reading from the header's slot on returns exactly the ids the OS wrote |
| `Query.ListPrefixShifted` | src/query.rs:42-44 | for 1 to 1024 processes the list alone gives `ids[1..] + [0]` |
| `Query.ListPrefixEmpty` | src/query.rs:42-44 | an empty job reads back as `[]` |
| `Query.ListPrefixPanicsWhenFull` | src/query.rs:42 | with 1025 processes, which the buffer holds, the slice panics |
| `Query.SingleProcessReadsAsZero` | src/query.rs:42 | a job holding only process `p` (nonzero) reads back as `[0]`; read from the header's slot it gives `[p]` |
| `Query.QueryProcessIdListAsWritten` | src/query.rs:19-45 | one query call; `GetInfoFailed` exactly when it failed; otherwise `[]` for an empty job, `ids[1..] + [0]` for 1 to 1024 processes, a panic for 1025 |
| `Query.QueryProcessIdList` | src/query.rs:19-45 | one query call; `GetInfoFailed` exactly when it failed; otherwise exactly the job's processes in order (at most 1025) |
| `Scenarios.SetThenQuery` | src/limits.rs:163-165 | after a successful set, a successful query returns the record just set; no other job changes |
| `Scenarios.PriorityClassLimits` | src/limits.rs:156-168 | the priority class read back is `BelowNormal as u32` (0x4000); the job is dropped on every path, so the open jobs are as before |
| `Scenarios.SchedulingClassLimits` | src/limits.rs:173-185 | the scheduling class read back is 1; the job is dropped on every path, so the open jobs are as before |
| `Scenarios.ItWorks` | src/job.rs:106-126 | a new job reads back with `LimitFlags` 0; at the end it holds the 1 MiB/4 MiB working-set record with no flag; the job is dropped on every path, so the open jobs are as before |
| `Scenarios.ItWorksOn` | src/job.rs:109-125 | the body of `it_works` on an open job with no limit enabled; no other job changes |
| `Scenarios.ChainedLimits` | src/lib.rs:35-44 | the chained builders leave 1 MiB/4 MiB and `BelowNormal` in the record, and the flag word is the working-set bit ORed with the priority-class bit; the job is dropped on every path, so the open jobs are as before |
| `Scenarios.ChainedLimitsOn` | src/lib.rs:36-44 | the same sequence on an open job with no limit enabled; no other job changes |
| `Scenarios.LimitMemoryAndPriority` | src/lib.rs:38-39 | the two chained builders store 1 MiB/4 MiB and `BelowNormal` and OR the working-set and priority-class bits into the word as it was |
| `Scenarios.ChainedLimitsEnable` | src/lib.rs:36-44 | that flag word enables exactly the working-set and priority-class limits |
| `Scenarios.QueryProcId` | src/query.rs:52-63 | with the corrected read: a new job lists no process, and after `assign_current_process` exactly the current process; the job is dropped on every path, so the open jobs are as before |
| `Scenarios.QueryProcIdOn` | src/query.rs:56-62 | the same sequence on an open job with no process; no other job changes |
| `Scenarios.QueryProcIdAsWritten` | src/query.rs:52-63 | as written: `[]`, then a list of length 1 (what the test checks) whose entry is 0 rather than the current process id; the job is dropped on every path, so the open jobs are as before |
| `Scenarios.QueryProcIdAsWrittenOn` | src/query.rs:56-62 | the same sequence on an open job with no process; no other job changes |

## Left out

- src/utils.rs is not part of this model. `get_process_memory_info` and
  `get_process_affinity_mask` are thin OS wrappers. `get_current_process` is the
  pseudo-handle constant `WinApi.CurrentProcessHandle`.
- What Windows does is not modelled, only assumed in the `WinApi.Kernel` contracts. That
  includes working-set capping, affinity taking effect, processes killed when the job
  closes, and the default scheduling class of 5 (src/job.rs:113-114). It also includes
  the OS adjusting a record on set, processes leaving a job when they exit, and nested
  jobs.
- A new job's record is arbitrary except that `LimitFlags` is 0.
- `io::Error` is modelled as the integer last-error code it captures.
- Byte layout, `size_of_val`, pointer casts and `mem::zeroed`: the record keeps the
  managed fields and an opaque byte sequence for everything else (108 bytes on x64).
- `create_with_limit_info` is not part of the code. `Scenarios.ChainedLimits` uses the
  equivalent form of the example (src/lib.rs:35-44).
- Privilege checks for priority and scheduling classes are only mentioned in doc comments
  and never checked. Thread-safety is out of scope.
- `WinApi.Kernel` has a map of open process handles, but no operation of the library
  opens one. So only the pseudo-handle is used in the scenarios.
- The finding on src/query.rs relies on the Windows SDK layout of
  `JOBOBJECT_BASIC_PROCESS_ID_LIST`: two `DWORD` counts followed by a one-element
  `ULONG_PTR ProcessIdList[1]` array. winnt.h is not part of this model.

## Findings

| source | as written | input that shows it | evidently intended | confidence | as-written member | corrected member |
|---|---|---|---|---|---|---|
| src/query.rs:42 | copies `list[..n]`, the array after the header; the OS writes the first id into the header's own one-element `ProcessIdList` and id `i + 1` into `list[i]` | a job holding only process `p`: returns `[0]`; for 1 to 1024 processes it returns `ids[1..] + [0]` (the test at src/query.rs:62 checks only the length) | the `n` ids starting at the header's slot, i.e. exactly the job's processes | high, not executed | `Query.SingleProcessReadsAsZero` | `Query.QueryProcessIdList` |
| src/query.rs:42 | slices `list[..n]` with `n` as the OS reported it | a job with 1025 processes: the buffer holds 1025 ids, so the call succeeds with `n` = 1025, and slicing the 1024-entry list panics | an error, as the comment at src/query.rs:20-22 expects, or the 1025 ids | high, not executed | `Query.ListPrefixPanicsWhenFull` | `Query.BufferPrefixRoundTrip` |
