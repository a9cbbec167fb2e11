/**
 * The extended limit-information record of a job object and its builder
 * (`ExtendedLimitInfo` in src/limits.rs).
 *
 * The record is modelled by the fields the builders manage -- the working-set
 * bounds, the priority class, the scheduling class, the affinity mask and the
 * `LimitFlags` word of `BasicLimitInformation` -- plus one uninterpreted value
 * standing for every other byte of `JOBOBJECT_EXTENDED_LIMIT_INFORMATION`.
 */
module Limits {
  import opened Common

  // Enable bits of `LimitFlags` (winnt.h).
  const JobObjectLimitWorkingSet: bv32 := 0x1
  const JobObjectLimitAffinity: bv32 := 0x10
  const JobObjectLimitPriorityClass: bv32 := 0x20
  const JobObjectLimitSchedulingClass: bv32 := 0x80
  const JobObjectLimitKillOnJobClose: bv32 := 0x2000

  // Process priority classes (winbase.h).
  const NormalPriorityClass: uint32 := 0x20
  const IdlePriorityClass: uint32 := 0x40
  const HighPriorityClass: uint32 := 0x80
  const RealtimePriorityClass: uint32 := 0x100
  const BelowNormalPriorityClass: uint32 := 0x4000
  const AboveNormalPriorityClass: uint32 := 0x8000

  /** The `#[repr(u32)]` enum `PriorityClass`. */
  datatype PriorityClass = Normal | Idle | High | Realtime | BelowNormal | AboveNormal

  /** `priority_class as u32`: the enum's discriminant, which is the OS constant. */
  function PriorityValue(p: PriorityClass): (v: uint32)
    // no class is 0, so the zeroed record of `new()` holds no priority class
    ensures v != 0
  {
    match p
    case Normal => NormalPriorityClass
    case Idle => IdlePriorityClass
    case High => HighPriorityClass
    case Realtime => RealtimePriorityClass
    case BelowNormal => BelowNormalPriorityClass
    case AboveNormal => AboveNormalPriorityClass
  }

  /** Reads a stored priority-class value back as the enum, if it is one of its six constants. */
  function PriorityFromValue(v: uint32): (r: Option<PriorityClass>)
    ensures r.Some? ==> PriorityValue(r.value) == v
    ensures r.None? ==> forall p :: PriorityValue(p) != v
  {
    if v == NormalPriorityClass then Some(Normal)
    else if v == IdlePriorityClass then Some(Idle)
    else if v == HighPriorityClass then Some(High)
    else if v == RealtimePriorityClass then Some(Realtime)
    else if v == BelowNormalPriorityClass then Some(BelowNormal)
    else if v == AboveNormalPriorityClass then Some(AboveNormal)
    else None
  }

  /** Distinct priority classes are stored as distinct values, so a read-back identifies the class. */
  lemma PriorityValueRoundTrip(p: PriorityClass)
    ensures PriorityFromValue(PriorityValue(p)) == Some(p)
  {
  }

  /** Number of bytes of the x64 record outside the six managed fields (144 - 36). */
  const OtherBytes: nat := 108

  /** A value snapshot of the record. */
  datatype LimitRecord = LimitRecord(
    minWs: usize,            // BasicLimitInformation.MinimumWorkingSetSize
    maxWs: usize,            // BasicLimitInformation.MaximumWorkingSetSize
    priorityClass: uint32,   // BasicLimitInformation.PriorityClass
    schedulingClass: uint32, // BasicLimitInformation.SchedulingClass
    affinity: usize,         // BasicLimitInformation.Affinity
    limitFlags: bv32,        // BasicLimitInformation.LimitFlags
    extended: seq<uint8>)      // every other byte of the record, passed through untouched

  /** The five limits the builder can enable, one enable bit each. */
  datatype Limit = WorkingSet | KillOnJobClose | PriorityClassLimit | SchedulingClassLimit | Affinity

  function Bit(k: Limit): bv32
  {
    match k
    case WorkingSet => JobObjectLimitWorkingSet
    case KillOnJobClose => JobObjectLimitKillOnJobClose
    case PriorityClassLimit => JobObjectLimitPriorityClass
    case SchedulingClassLimit => JobObjectLimitSchedulingClass
    case Affinity => JobObjectLimitAffinity
  }

  /** The enable bits are five distinct single bits. */
  lemma BitsDistinct(k: Limit, l: Limit)
    ensures Bit(k) != 0
    ensures Bit(k) & Bit(l) != 0 <==> k == l
  {
  }

  /** `ExtendedLimitInfo::new()`: the all-zero record. */
  function Empty(): (r: LimitRecord)
    ensures r.limitFlags == 0
    ensures r.minWs == 0 && r.maxWs == 0 && r.affinity == 0
    ensures r.priorityClass == 0 && r.schedulingClass == 0
    ensures |r.extended| == OtherBytes && forall i :: 0 <= i < |r.extended| ==> r.extended[i] == 0
  {
    LimitRecord(0, 0, 0, 0, 0, 0, seq(OtherBytes, _ => 0))
  }

  /** One call of a builder method of `ExtendedLimitInfo`. */
  datatype BuilderCall =
    | LimitWorkingMemory(min: usize, max: usize)
    | LimitKillOnJobClose
    | LimitPriorityClass(priority: PriorityClass)
    | LimitSchedulingClass(schedulingClass: uint8)
    | LimitAffinity(affinity: usize)
    | ClearLimits

  /** Whether call `c` enables limit `k`. */
  predicate Enables(c: BuilderCall, k: Limit)
  {
    match c
    case LimitWorkingMemory(_, _) => k == WorkingSet
    case LimitKillOnJobClose => k == KillOnJobClose
    case LimitPriorityClass(_) => k == PriorityClassLimit
    case LimitSchedulingClass(_) => k == SchedulingClassLimit
    case LimitAffinity(_) => k == Affinity
    case ClearLimits => false
  }

  /** The bit a call ORs into `LimitFlags` (none for `clear_limits`). */
  function FlagOf(c: BuilderCall): bv32
  {
    match c
    case LimitWorkingMemory(_, _) => JobObjectLimitWorkingSet
    case LimitKillOnJobClose => JobObjectLimitKillOnJobClose
    case LimitPriorityClass(_) => JobObjectLimitPriorityClass
    case LimitSchedulingClass(_) => JobObjectLimitSchedulingClass
    case LimitAffinity(_) => JobObjectLimitAffinity
    case ClearLimits => 0
  }

  /** The bit a call sets is the enable bit of the limit it enables, and of no other limit. */
  lemma FlagOfBit(c: BuilderCall, k: Limit)
    ensures FlagOf(c) & Bit(k) != 0 <==> Enables(c, k)
  {
  }

  /**
   * The field values a limit consists of: the working-set bounds, the priority class,
   * the scheduling class, the affinity mask; kill-on-job-close has no field.
   */
  function Managed(r: LimitRecord, k: Limit): seq<int>
  {
    match k
    case WorkingSet => [r.minWs as int, r.maxWs as int]
    case KillOnJobClose => []
    case PriorityClassLimit => [r.priorityClass as int]
    case SchedulingClassLimit => [r.schedulingClass as int]
    case Affinity => [r.affinity as int]
  }

  /** The field values call `c` writes for the limit it enables. */
  function Written(c: BuilderCall): seq<int>
  {
    match c
    case LimitWorkingMemory(min, max) => [min as int, max as int]
    case LimitKillOnJobClose => []
    case LimitPriorityClass(p) => [PriorityValue(p) as int]
    case LimitSchedulingClass(s) => [s as int]
    case LimitAffinity(a) => [a as int]
    case ClearLimits => []
  }

  /** The field assignments a builder call makes, before it updates `LimitFlags`. */
  function Assign(r: LimitRecord, c: BuilderCall): (r': LimitRecord)
    ensures r'.limitFlags == r.limitFlags && r'.extended == r.extended
  {
    match c
    case LimitWorkingMemory(min, max) => r.(minWs := min, maxWs := max)
    case LimitKillOnJobClose => r
    case LimitPriorityClass(p) => r.(priorityClass := PriorityValue(p))
    case LimitSchedulingClass(s) => r.(schedulingClass := s as uint32)
    case LimitAffinity(a) => r.(affinity := a)
    case ClearLimits => r
  }

  /** The flag word after a builder call. */
  function ApplyFlags(f: bv32, c: BuilderCall): (f': bv32)
    ensures c.ClearLimits? ==> f' == 0
    // every other call keeps every bit that was set
    ensures !c.ClearLimits? ==> f' & f == f
  {
    if c.ClearLimits? then 0 else OrKeepsBits(f, FlagOf(c)); f | FlagOf(c)
  }

  /** The effect of one builder call on the record. */
  function Apply(r: LimitRecord, c: BuilderCall): (r': LimitRecord)
    // clear_limits zeroes the flag word and nothing else
    ensures c.ClearLimits? ==> r'.limitFlags == 0 && r' == r.(limitFlags := 0)
    // every other call ORs its own bit into the flag word
    ensures !c.ClearLimits? ==> r'.limitFlags == r.limitFlags | FlagOf(c)
    // the rest of the record is passed through
    ensures r'.extended == r.extended
  {
    if c.ClearLimits? then r.(limitFlags := 0)
    else Assign(r, c).(limitFlags := ApplyFlags(r.limitFlags, c))
  }

  /*
   * The enable rule of one call is stated in several shapes below: `ApplyFlagsBit` on flag
   * words through `Has` (used by the chain lemmas), `SetFlagsBit` and `OrFlagBit` on the raw
   * `|` (its steps), and `OrEnablesBits` for a word already known to equal `x | FlagOf(c)`
   * (used by `CallEnables` on records). They are one fact; each shape is the one its
   * callers' bit-vector proofs stay small with.
   */

  /** Limit `k` is enabled in the flag word `f`. */
  predicate Has(f: bv32, k: Limit)
  {
    f & Bit(k) != 0
  }

  /** Limit `k` is enabled after call `c` iff `c` is not `clear_limits` and `k` was enabled before or `c` enables it. */
  lemma ApplyFlagsBit(f: bv32, c: BuilderCall, k: Limit)
    ensures Has(ApplyFlags(f, c), k) == (!c.ClearLimits? && (Has(f, k) || Enables(c, k)))
  {
    if c.ClearLimits? {
      ClearFlagsBit(f, k);
    } else {
      SetFlagsBit(f, c, k);
    }
  }

  /** `clear_limits` leaves no bit of the flag word set. */
  lemma ClearFlagsBit(f: bv32, k: Limit)
    ensures !Has(ApplyFlags(f, ClearLimits), k)
  {
  }

  /** ORing in the bit of call `c` enables limit `k` iff it was enabled or `c` enables it. */
  lemma SetFlagsBit(f: bv32, c: BuilderCall, k: Limit)
    ensures Has(f | FlagOf(c), k) == (Has(f, k) || Enables(c, k))
  {
    OrFlagBit(f, c, k);
  }

  lemma OrFlagBit(f: bv32, c: BuilderCall, k: Limit)
    ensures ((f | FlagOf(c)) & Bit(k) != 0) == ((f & Bit(k) != 0) || Enables(c, k))
  {
    OrHasBit(f, FlagOf(c), Bit(k));
    FlagOfBit(c, k);
  }

  lemma OrKeepsBits(x: bv32, f: bv32)
    ensures (x | f) & x == x
  {
  }

  lemma OrHasBit(x: bv32, f: bv32, b: bv32)
    ensures (x | f) & b != 0 <==> x & b != 0 || f & b != 0
  {
  }

  /** A builder call other than `clear_limits` loses no flag bit that was already set. */
  lemma ApplyKeepsFlags(r: LimitRecord, c: BuilderCall)
    requires !c.ClearLimits?
    ensures Apply(r, c).limitFlags & r.limitFlags == r.limitFlags
  {
    OrKeepsBits(r.limitFlags, FlagOf(c));
  }

  /** `OrFlagBit` for a flag word `y` already known to be `x | FlagOf(c)`. */
  lemma OrEnablesBits(x: bv32, y: bv32, c: BuilderCall, k: Limit)
    requires y == x | FlagOf(c)
    ensures y & Bit(k) != 0 <==> x & Bit(k) != 0 || Enables(c, k)
  {
    OrHasBit(x, FlagOf(c), Bit(k));
    FlagOfBit(c, k);
  }

  /** `clear_limits` leaves no limit enabled. */
  lemma ClearDisables(r: LimitRecord, k: Limit)
    ensures Apply(r, ClearLimits).limitFlags & Bit(k) == 0
  {
    assert Apply(r, ClearLimits).limitFlags == 0;
  }

  /**
   * After any other builder call a limit is enabled exactly when it was enabled before
   * or the call enables it.
   */
  lemma CallEnables(r: LimitRecord, c: BuilderCall, k: Limit)
    requires !c.ClearLimits?
    ensures Apply(r, c).limitFlags & Bit(k) != 0 <==> r.limitFlags & Bit(k) != 0 || Enables(c, k)
  {
    OrEnablesBits(r.limitFlags, Apply(r, c).limitFlags, c, k);
  }

  /**
   * Each builder call touches only its own fields: the limit it enables holds exactly the
   * call's arguments afterwards, and the fields of every other limit are unchanged.
   */
  lemma ApplyWrites(r: LimitRecord, c: BuilderCall, k: Limit)
    ensures Managed(Apply(r, c), k) == if Enables(c, k) then Written(c) else Managed(r, k)
  {
  }

  lemma OrIdempotent(x: bv32, f: bv32)
    ensures (x | f) | f == x | f
  {
  }

  lemma OrCommutes(x: bv32, f: bv32, g: bv32)
    ensures (x | f) | g == (x | g) | f
  {
  }

  /** Two calls of the same builder method. */
  predicate SameBuilder(c: BuilderCall, d: BuilderCall)
  {
    (c.LimitWorkingMemory? && d.LimitWorkingMemory?) ||
    (c.LimitKillOnJobClose? && d.LimitKillOnJobClose?) ||
    (c.LimitPriorityClass? && d.LimitPriorityClass?) ||
    (c.LimitSchedulingClass? && d.LimitSchedulingClass?) ||
    (c.LimitAffinity? && d.LimitAffinity?) ||
    (c.ClearLimits? && d.ClearLimits?)
  }

  /** Of two calls of the same builder method, the later one alone decides the record. */
  lemma LastCallWins(r: LimitRecord, c: BuilderCall, d: BuilderCall)
    requires SameBuilder(c, d)
    ensures Apply(Apply(r, c), d) == Apply(r, d)
  {
    if !c.ClearLimits? {
      assert FlagOf(c) == FlagOf(d);
      OrIdempotent(r.limitFlags, FlagOf(c));
    }
  }

  /** Every builder method is idempotent: calling it twice with the same arguments equals calling it once. */
  lemma ApplyIdempotent(r: LimitRecord, c: BuilderCall)
    ensures Apply(Apply(r, c), c) == Apply(r, c)
  {
    LastCallWins(r, c, c);
  }

  lemma AssignKeepsFlags(r: LimitRecord, c: BuilderCall, f: bv32)
    ensures Assign(r.(limitFlags := f), c) == Assign(r, c).(limitFlags := f)
    ensures Assign(r, c).limitFlags == r.limitFlags
  {
  }

  lemma ApplyTwice(r: LimitRecord, c: BuilderCall, d: BuilderCall)
    requires !c.ClearLimits? && !d.ClearLimits?
    ensures Apply(Apply(r, c), d)
         == Assign(Assign(r, c), d).(limitFlags := (r.limitFlags | FlagOf(c)) | FlagOf(d))
  {
    var f := r.limitFlags | FlagOf(c);
    AssignKeepsFlags(Assign(r, c), d, f);
  }

  /** Calls of two different builder methods other than `clear_limits` commute. */
  lemma CallsCommute(r: LimitRecord, c: BuilderCall, d: BuilderCall)
    requires !c.ClearLimits? && !d.ClearLimits? && !SameBuilder(c, d)
    ensures Apply(Apply(r, c), d) == Apply(Apply(r, d), c)
  {
    ApplyTwice(r, c, d);
    ApplyTwice(r, d, c);
    assert Assign(Assign(r, c), d) == Assign(Assign(r, d), c);
    OrCommutes(r.limitFlags, FlagOf(c), FlagOf(d));
  }

  /** `ExtendedLimitInfo`: the record, updated in place by its builder methods. */
  class ExtendedLimitInfo {
    var minWs: usize
    var maxWs: usize
    var priorityClass: uint32
    var schedulingClass: uint32
    var affinity: usize
    var limitFlags: bv32
    var extended: seq<uint8>

    function Record(): LimitRecord
      reads this
    {
      LimitRecord(minWs, maxWs, priorityClass, schedulingClass, affinity, limitFlags, extended)
    }

    /** `ExtendedLimitInfo::new()`: a zeroed record, no limit enabled. */
    constructor ()
      ensures Record() == Empty()
    {
      minWs, maxWs, priorityClass, schedulingClass, affinity, limitFlags := 0, 0, 0, 0, 0, 0;
      extended := seq(OtherBytes, _ => 0);
    }

    /** `Default::default()`, which is `new()`. */
    static method Default() returns (info: ExtendedLimitInfo)
      ensures fresh(info) && info.Record() == Empty()
    {
      info := new ExtendedLimitInfo();
    }

    /** Stores both working-set sizes as given (no `min <= max` check) and enables the limit. */
    method LimitWorkingMemory(min: usize, max: usize) returns (self: ExtendedLimitInfo)
      modifies this
      ensures self == this
      ensures Record() == Apply(old(Record()), BuilderCall.LimitWorkingMemory(min, max))
      ensures minWs == min && maxWs == max && limitFlags & JobObjectLimitWorkingSet != 0
    {
      minWs := min;
      maxWs := max;
      limitFlags := limitFlags | JobObjectLimitWorkingSet;
      self := this;
    }

    /** Enables kill-on-job-close; no field value changes. */
    method LimitKillOnJobClose() returns (self: ExtendedLimitInfo)
      modifies this
      ensures self == this
      ensures Record() == Apply(old(Record()), BuilderCall.LimitKillOnJobClose)
      ensures Record() == old(Record()).(limitFlags := old(limitFlags) | JobObjectLimitKillOnJobClose)
    {
      limitFlags := limitFlags | JobObjectLimitKillOnJobClose;
      self := this;
    }

    /** Stores the numeric constant of `p` and enables the priority-class limit. */
    method LimitPriorityClass(p: PriorityClass) returns (self: ExtendedLimitInfo)
      modifies this
      ensures self == this
      ensures Record() == Apply(old(Record()), BuilderCall.LimitPriorityClass(p))
      ensures PriorityFromValue(priorityClass) == Some(p)
    {
      PriorityValueRoundTrip(p);
      ghost var before := Record();
      priorityClass := PriorityValue(p);
      limitFlags := limitFlags | JobObjectLimitPriorityClass;
      self := this;
      assert Record() == Apply(before, BuilderCall.LimitPriorityClass(p));
    }

    /** Stores the `u8` widened to `u32` (no 0..9 range check) and enables the limit. */
    method LimitSchedulingClass(s: uint8) returns (self: ExtendedLimitInfo)
      modifies this
      ensures self == this
      ensures Record() == Apply(old(Record()), BuilderCall.LimitSchedulingClass(s))
      ensures schedulingClass as int == s as int < 0x100
    {
      schedulingClass := s as uint32;
      limitFlags := limitFlags | JobObjectLimitSchedulingClass;
      self := this;
    }

    /** Stores the affinity mask and enables the affinity limit. */
    method LimitAffinity(mask: usize) returns (self: ExtendedLimitInfo)
      modifies this
      ensures self == this
      ensures Record() == Apply(old(Record()), BuilderCall.LimitAffinity(mask))
    {
      affinity := mask;
      limitFlags := limitFlags | JobObjectLimitAffinity;
      self := this;
    }

    /** Disables every limit; the field values stay as they were. */
    method ClearLimits() returns (self: ExtendedLimitInfo)
      modifies this
      ensures self == this
      ensures Record() == Apply(old(Record()), BuilderCall.ClearLimits)
      ensures limitFlags == 0 && Record() == old(Record()).(limitFlags := 0)
    {
      limitFlags := 0;
      self := this;
    }
  }
}
