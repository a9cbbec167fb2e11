/**
 * Chains of builder calls on one `ExtendedLimitInfo` (`info.limit_working_memory(..)
 * .limit_priority_class(..)` and so on): what the record holds after any sequence of calls.
 */
module LimitChains {
  import opened Common
  import opened Limits

  /** The record after `calls`, applied in order, starting from `r`. */
  function Run(r: LimitRecord, calls: seq<BuilderCall>): (r': LimitRecord)
    // a chain that ends in `clear_limits` leaves no limit enabled
    ensures calls != [] && calls[|calls| - 1].ClearLimits? ==> r'.limitFlags == 0
  {
    if calls == [] then r
    else Apply(Run(r, calls[..|calls| - 1]), calls[|calls| - 1])
  }

  /** The flag word after `calls`, starting from `f`. */
  function RunFlags(f: bv32, calls: seq<BuilderCall>): bv32
  {
    if calls == [] then f
    else ApplyFlags(RunFlags(f, calls[..|calls| - 1]), calls[|calls| - 1])
  }

  /**
   * Whether limit `k` is enabled after `calls`, given whether it was enabled at the start:
   * `clear_limits` disables it, a call that enables it enables it, other calls keep it.
   */
  predicate EnabledAfter(enabledAtStart: bool, calls: seq<BuilderCall>, k: Limit)
  {
    if calls == [] then enabledAtStart
    else if calls[|calls| - 1].ClearLimits? then false
    else EnabledAfter(enabledAtStart, calls[..|calls| - 1], k) || Enables(calls[|calls| - 1], k)
  }

  /** The last call in `calls` that enables limit `k`, if any. */
  function LastEnabling(calls: seq<BuilderCall>, k: Limit): Option<BuilderCall>
  {
    if calls == [] then None
    else if Enables(calls[|calls| - 1], k) then Some(calls[|calls| - 1])
    else LastEnabling(calls[..|calls| - 1], k)
  }

  /** The flag word of the record after a chain is the chain's flag word. */
  lemma {:induction false} RunFlagsAgree(r: LimitRecord, calls: seq<BuilderCall>)
    ensures Run(r, calls).limitFlags == RunFlags(r.limitFlags, calls)
  {
    if calls != [] {
      RunFlagsAgree(r, calls[..|calls| - 1]);
    }
  }

  /** Each limit's enable bit after a chain follows `EnabledAfter`. */
  lemma {:induction false} RunEnables(f: bv32, calls: seq<BuilderCall>, k: Limit)
    ensures Has(RunFlags(f, calls), k) == EnabledAfter(Has(f, k), calls, k)
  {
    if calls != [] {
      var p, c := calls[..|calls| - 1], calls[|calls| - 1];
      RunEnables(f, p, k);
      ApplyFlagsBit(RunFlags(f, p), c, k);
    }
  }

  /** Without `clear_limits`, a limit is enabled at the end iff it was at the start or some call enables it. */
  lemma {:induction false} EnabledWithoutClear(b: bool, calls: seq<BuilderCall>, k: Limit)
    requires forall i :: 0 <= i < |calls| ==> !calls[i].ClearLimits?
    ensures EnabledAfter(b, calls, k) <==> b || exists i :: 0 <= i < |calls| && Enables(calls[i], k)
  {
    if calls != [] {
      var p := calls[..|calls| - 1];
      EnabledWithoutClear(b, p, k);
      if exists i :: 0 <= i < |calls| && Enables(calls[i], k) {
        var i :| 0 <= i < |calls| && Enables(calls[i], k);
        if i < |p| {
          assert Enables(p[i], k);
        }
      }
    }
  }

  /**
   * After the last `clear_limits` of a chain, a limit is enabled at the end exactly when
   * one of the calls after it enables it.
   */
  lemma {:induction false} EnabledAfterLastClear(b: bool, before: seq<BuilderCall>, after: seq<BuilderCall>, k: Limit)
    requires forall i :: 0 <= i < |after| ==> !after[i].ClearLimits?
    ensures EnabledAfter(b, before + [ClearLimits] + after, k)
        <==> exists i :: 0 <= i < |after| && Enables(after[i], k)
  {
    if after == [] {
      assert before + [ClearLimits] + after == before + [ClearLimits];
    } else {
      var calls := before + [ClearLimits] + after;
      var p := after[..|after| - 1];
      assert calls[..|calls| - 1] == before + [ClearLimits] + p;
      EnabledAfterLastClear(b, before, p, k);
      if exists i :: 0 <= i < |after| && Enables(after[i], k) {
        var i :| 0 <= i < |after| && Enables(after[i], k);
        if i < |p| {
          assert Enables(p[i], k);
        }
      }
    }
  }

  /** A limit that ends up enabled without having been enabled at the start was enabled by some call. */
  lemma {:induction false} EnabledHasEnabler(calls: seq<BuilderCall>, k: Limit)
    requires EnabledAfter(false, calls, k)
    ensures LastEnabling(calls, k).Some?
  {
    var p, c := calls[..|calls| - 1], calls[|calls| - 1];
    if !Enables(c, k) {
      EnabledHasEnabler(p, k);
    }
  }

  /** The call `LastEnabling` names is one of the chain's calls and enables the limit. */
  lemma {:induction false} LastEnablingEnables(calls: seq<BuilderCall>, k: Limit)
    requires LastEnabling(calls, k).Some?
    ensures LastEnabling(calls, k).value in calls && Enables(LastEnabling(calls, k).value, k)
  {
    var p, c := calls[..|calls| - 1], calls[|calls| - 1];
    if !Enables(c, k) {
      LastEnablingEnables(p, k);
      assert calls == p + [c];
    }
  }

  /**
   * Every limit's fields hold what the last call enabling that limit wrote, or their
   * starting values when no call did; `clear_limits` does not reset them.
   */
  lemma {:induction false} RunWrites(r: LimitRecord, calls: seq<BuilderCall>, k: Limit)
    ensures Managed(Run(r, calls), k)
         == match LastEnabling(calls, k)
            case Some(c) => Written(c)
            case None => Managed(r, k)
  {
    if calls != [] {
      var p, c := calls[..|calls| - 1], calls[|calls| - 1];
      RunWrites(r, p, k);
      ApplyWrites(Run(r, p), c, k);
    }
  }

  /**
   * Flag set implies field written: when a chain leaves a limit enabled that was not enabled
   * at the start (for instance starting from `ExtendedLimitInfo::new()`), some call of the
   * chain enabled it, and the limit's fields hold exactly what the last such call wrote.
   */
  lemma FlagImpliesWritten(r: LimitRecord, calls: seq<BuilderCall>, k: Limit)
    requires r.limitFlags & Bit(k) == 0
    requires Run(r, calls).limitFlags & Bit(k) != 0
    ensures LastEnabling(calls, k).Some?
    ensures Enables(LastEnabling(calls, k).value, k)
    ensures Managed(Run(r, calls), k) == Written(LastEnabling(calls, k).value)
  {
    RunFlagsAgree(r, calls);
    RunEnables(r.limitFlags, calls, k);
    EnabledHasEnabler(calls, k);
    LastEnablingEnables(calls, k);
    RunWrites(r, calls, k);
  }

  /** Every bit of `f` is set in `y`. */
  predicate Keeps(y: bv32, f: bv32)
  {
    y & f == f
  }

  lemma OrMono(x: bv32, f: bv32, b: bv32)
    ensures Keeps(x, f) ==> Keeps(x | b, f)
  {
  }

  lemma {:induction false} RunFlagsKeep(f: bv32, calls: seq<BuilderCall>)
    requires forall i :: 0 <= i < |calls| ==> !calls[i].ClearLimits?
    ensures Keeps(RunFlags(f, calls), f)
  {
    if calls != [] {
      var p, c := calls[..|calls| - 1], calls[|calls| - 1];
      RunFlagsKeep(f, p);
      var x := RunFlags(f, p);
      assert RunFlags(f, calls) == ApplyFlags(x, c) == x | FlagOf(c);
      OrMono(x, f, FlagOf(c));
    }
  }

  /**
   * Between `clear_limits` calls the flag word only grows: every one of its 32 bits set at
   * the start, including bits the OS set in a queried record, is still set after the chain.
   */
  lemma FlagsOnlyGrow(r: LimitRecord, calls: seq<BuilderCall>)
    requires forall i :: 0 <= i < |calls| ==> !calls[i].ClearLimits?
    ensures Run(r, calls).limitFlags & r.limitFlags == r.limitFlags
  {
    RunFlagsAgree(r, calls);
    RunFlagsKeep(r.limitFlags, calls);
  }

  /** Without `clear_limits`, a limit enabled at the start is still enabled after the chain. */
  lemma LimitsOnlyGrow(r: LimitRecord, calls: seq<BuilderCall>, k: Limit)
    requires forall i :: 0 <= i < |calls| ==> !calls[i].ClearLimits?
    requires r.limitFlags & Bit(k) != 0
    ensures Run(r, calls).limitFlags & Bit(k) != 0
  {
    RunFlagsAgree(r, calls);
    RunEnables(r.limitFlags, calls, k);
    EnabledWithoutClear(true, calls, k);
  }

  /** `clear_limits` ends every chain with no limit enabled and every field value kept. */
  lemma ClearEndsWithNoLimits(r: LimitRecord, calls: seq<BuilderCall>)
    ensures Run(r, calls + [ClearLimits]).limitFlags == 0
    ensures Run(r, calls + [ClearLimits]) == Run(r, calls).(limitFlags := 0)
  {
    assert (calls + [ClearLimits])[..|calls|] == calls;
  }

  /** No chain of builder calls touches the part of the record outside the managed fields. */
  lemma {:induction false} RunKeepsExtended(r: LimitRecord, calls: seq<BuilderCall>)
    ensures Run(r, calls).extended == r.extended
  {
    if calls != [] {
      RunKeepsExtended(r, calls[..|calls| - 1]);
    }
  }
}
