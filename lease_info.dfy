/**
 * The lease a registry instance holds: how often it renews, how long the registry
 * waits without a renewal before evicting it, and four timestamps.
 *
 * `LeaseInfo` is the mutable object; `Builder` assigns its fields in place and hands
 * the same object back from Build. `LeaseValue` is the snapshot of the six fields,
 * `BuilderCall` one setter invocation, and `Built` the lease a sequence of setter
 * calls produces, which is what the builder's invariant ties the object to.
 */
module Lease {
  import opened Wrappers

  newtype int32 = x: int | -0x8000_0000 <= x < 0x8000_0000
  newtype int64 = x: int | -0x8000_0000_0000_0000 <= x < 0x8000_0000_0000_0000

  const DEFAULT_LEASE_RENEWAL_INTERVAL: int32 := 30
  const DEFAULT_LEASE_DURATION: int32 := 90

  datatype LeaseValue = LeaseValue(
    renewalIntervalInSecs: int32,
    durationInSecs: int32,
    registrationTimestamp: int64,
    lastRenewalTimestamp: int64,
    evictionTimestamp: int64,
    serviceUpTimestamp: int64)

  /** The fields of a lease, as named by its setters. */
  datatype Field = RenewalInterval | Duration | Registration | LastRenewal | Eviction | ServiceUp

  /** One call of a builder setter. */
  datatype BuilderCall =
    | SetRegistrationTimestamp(ts: int64)
    | SetRenewalTimestamp(ts: int64)
    | SetEvictionTimestamp(ts: int64)
    | SetServiceUpTimestamp(ts: int64)
    | SetDurationInSecs(d: int32)
    | SetRenewalIntervalInSecs(i: int32)

  /** The lease a fresh object holds: the field initialisers. */
  function Initial(): LeaseValue {
    LeaseValue(DEFAULT_LEASE_RENEWAL_INTERVAL, DEFAULT_LEASE_DURATION, 0, 0, 0, 0)
  }

  function Get(l: LeaseValue, f: Field): int {
    match f
    case RenewalInterval => l.renewalIntervalInSecs as int
    case Duration => l.durationInSecs as int
    case Registration => l.registrationTimestamp as int
    case LastRenewal => l.lastRenewalTimestamp as int
    case Eviction => l.evictionTimestamp as int
    case ServiceUp => l.serviceUpTimestamp as int
  }

  /** The field a setter writes. */
  function Target(c: BuilderCall): Field {
    match c
    case SetRegistrationTimestamp(_) => Registration
    case SetRenewalTimestamp(_) => LastRenewal
    case SetEvictionTimestamp(_) => Eviction
    case SetServiceUpTimestamp(_) => ServiceUp
    case SetDurationInSecs(_) => Duration
    case SetRenewalIntervalInSecs(_) => RenewalInterval
  }

  /**
   * The value a setter stores in its field: a timestamp verbatim, a non-positive
   * duration or interval replaced by its default.
   */
  function Stored(c: BuilderCall): (v: int)
    ensures c.SetDurationInSecs? || c.SetRenewalIntervalInSecs? ==> v > 0
  {
    match c
    case SetDurationInSecs(d) => if d <= 0 then DEFAULT_LEASE_DURATION as int else d as int
    case SetRenewalIntervalInSecs(i) => if i <= 0 then DEFAULT_LEASE_RENEWAL_INTERVAL as int else i as int
    case _ => c.ts as int
  }

  /** The effect of one setter on the lease under construction. */
  function Apply(l: LeaseValue, c: BuilderCall): (r: LeaseValue)
    ensures forall f :: f != Target(c) ==> Get(r, f) == Get(l, f)
    ensures Get(r, Target(c)) == Stored(c)
  {
    match c
    case SetRegistrationTimestamp(ts) => l.(registrationTimestamp := ts)
    case SetRenewalTimestamp(ts) => l.(lastRenewalTimestamp := ts)
    case SetEvictionTimestamp(ts) => l.(evictionTimestamp := ts)
    case SetServiceUpTimestamp(ts) => l.(serviceUpTimestamp := ts)
    case SetDurationInSecs(d) =>
      if d <= 0 then l.(durationInSecs := DEFAULT_LEASE_DURATION) else l.(durationInSecs := d)
    case SetRenewalIntervalInSecs(i) =>
      if i <= 0 then l.(renewalIntervalInSecs := DEFAULT_LEASE_RENEWAL_INTERVAL) else l.(renewalIntervalInSecs := i)
  }

  /** The lease produced by a fresh builder after the given setter calls, oldest first. */
  function Built(calls: seq<BuilderCall>): LeaseValue
    decreases |calls|
  {
    if calls == [] then Initial() else Apply(Built(calls[..|calls| - 1]), calls[|calls| - 1])
  }

  /**
   * The value a setter stores: timestamps verbatim, a non-positive duration or
   * interval replaced by its default.
   */
  lemma SetterStores(l: LeaseValue, c: BuilderCall)
    ensures c.SetDurationInSecs? ==>
      Apply(l, c).durationInSecs == (if c.d <= 0 then DEFAULT_LEASE_DURATION else c.d)
    ensures c.SetRenewalIntervalInSecs? ==>
      Apply(l, c).renewalIntervalInSecs == (if c.i <= 0 then DEFAULT_LEASE_RENEWAL_INTERVAL else c.i)
    ensures c.SetDurationInSecs? || c.SetRenewalIntervalInSecs? ==> Get(Apply(l, c), Target(c)) > 0
    ensures !(c.SetDurationInSecs? || c.SetRenewalIntervalInSecs?) ==> Get(Apply(l, c), Target(c)) == c.ts as int
    ensures forall f :: f != Target(c) ==> Get(Apply(l, c), f) == Get(l, f)
  {
  }

  /** Whatever setters were called, a built lease has a positive interval and duration. */
  lemma {:induction false} BuiltIsPositive(calls: seq<BuilderCall>)
    ensures Built(calls).renewalIntervalInSecs > 0
    ensures Built(calls).durationInSecs > 0
    decreases |calls|
  {
    if calls != [] {
      BuiltIsPositive(calls[..|calls| - 1]);
    }
  }

  /** The position of the last call that writes field `f`, if any call does. */
  function LastWrite(calls: seq<BuilderCall>, f: Field): (r: Option<nat>)
    ensures r.None? ==> forall i :: 0 <= i < |calls| ==> Target(calls[i]) != f
    ensures r.Some? ==> r.value < |calls| && Target(calls[r.value]) == f
    ensures r.Some? ==> forall j :: r.value < j < |calls| ==> Target(calls[j]) != f
    decreases |calls|
  {
    if calls == [] then None
    else if Target(calls[|calls| - 1]) == f then Some(|calls| - 1)
    else LastWrite(calls[..|calls| - 1], f)
  }

  /**
   * Last write wins: each field of a built lease is what the last setter for that
   * field stored, or the initial value when no setter for it was called.
   */
  lemma {:induction false} LastWriteWins(calls: seq<BuilderCall>, f: Field)
    ensures LastWrite(calls, f).None? ==> Get(Built(calls), f) == Get(Initial(), f)
    ensures LastWrite(calls, f).Some? ==>
      Get(Built(calls), f) == Get(Apply(Initial(), calls[LastWrite(calls, f).value]), f)
    decreases |calls|
  {
    if calls != [] {
      var prefix, c := calls[..|calls| - 1], calls[|calls| - 1];
      LastWriteWins(prefix, f);
      SetterStores(Built(prefix), c);
      SetterStores(Initial(), c);
    }
  }

  /** A fresh builder gives interval 30, duration 90 and all four timestamps 0. */
  lemma FreshBuilderDefaults()
    ensures Built([]).renewalIntervalInSecs == 30 && Built([]).durationInSecs == 90
    ensures Built([]).registrationTimestamp == 0 && Built([]).lastRenewalTimestamp == 0
    ensures Built([]).evictionTimestamp == 0 && Built([]).serviceUpTimestamp == 0
  {
  }

  /** The JSON form of a lease, as the deserialisation constructor receives it. */
  datatype LeaseJson = LeaseJson(
    renewalIntervalInSecs: int32,
    durationInSecs: int32,
    registrationTimestamp: int64,
    lastRenewalTimestamp: Option<int64>,   // canonical property, may be absent
    renewalTimestamp: int64,               // legacy property; 0 when absent
    evictionTimestamp: int64,
    serviceUpTimestamp: int64)

  /**
   * The deserialisation constructor: every value verbatim (no defaulting), and the
   * renewal timestamp from the canonical property unless that is absent, in which
   * case from the legacy one.
   */
  function Deserialize(j: LeaseJson): (l: LeaseValue)
    ensures l.renewalIntervalInSecs == j.renewalIntervalInSecs
    ensures l.durationInSecs == j.durationInSecs
    ensures l.registrationTimestamp == j.registrationTimestamp
    ensures l.evictionTimestamp == j.evictionTimestamp
    ensures l.serviceUpTimestamp == j.serviceUpTimestamp
    ensures j.lastRenewalTimestamp.Some? ==> l.lastRenewalTimestamp == j.lastRenewalTimestamp.value
    ensures j.lastRenewalTimestamp.None? ==> l.lastRenewalTimestamp == j.renewalTimestamp
  {
    var renewal := if j.lastRenewalTimestamp.None? then j.renewalTimestamp else j.lastRenewalTimestamp.value;
    LeaseValue(j.renewalIntervalInSecs, j.durationInSecs, j.registrationTimestamp,
               renewal, j.evictionTimestamp, j.serviceUpTimestamp)
  }

  /**
   * The JSON a lease is written as: each getter under its property name, the renewal
   * timestamp under the canonical name only.
   */
  function Serialize(l: LeaseValue): LeaseJson {
    LeaseJson(l.renewalIntervalInSecs, l.durationInSecs, l.registrationTimestamp,
              Some(l.lastRenewalTimestamp), 0, l.evictionTimestamp, l.serviceUpTimestamp)
  }

  /** Writing a lease and reading it back gives the same lease. */
  lemma SerializeRoundTrip(l: LeaseValue)
    ensures Deserialize(Serialize(l)) == l
  {
  }

  /**
   * A document from an older server, carrying only the legacy renewal property,
   * reads back as the lease it describes; when both properties are present the
   * canonical one wins whatever the legacy one holds.
   */
  lemma LegacyDocumentRoundTrip(l: LeaseValue, legacy: int64)
    ensures Deserialize(Serialize(l).(lastRenewalTimestamp := None, renewalTimestamp := l.lastRenewalTimestamp)) == l
    ensures Deserialize(Serialize(l).(renewalTimestamp := legacy)) == l
  {
  }

  /**
   * Deserialisation does not apply the builder's defaulting: a document with a
   * non-positive interval or duration gives a lease no builder can produce.
   */
  lemma DeserializedNeedNotBeBuildable(j: LeaseJson, calls: seq<BuilderCall>)
    requires j.renewalIntervalInSecs <= 0 || j.durationInSecs <= 0
    ensures Deserialize(j) != Built(calls)
  {
    BuiltIsPositive(calls);
  }

  class LeaseInfo {
    var renewalIntervalInSecs: int32
    var durationInSecs: int32
    var registrationTimestamp: int64
    var lastRenewalTimestamp: int64
    var evictionTimestamp: int64
    var serviceUpTimestamp: int64

    /** The six fields as a value. */
    function Value(): LeaseValue
      reads this
    {
      LeaseValue(renewalIntervalInSecs, durationInSecs, registrationTimestamp,
                 lastRenewalTimestamp, evictionTimestamp, serviceUpTimestamp)
    }

    /** The private no-argument constructor the builder uses. */
    constructor ()
      ensures Value() == Initial()
    {
      renewalIntervalInSecs := DEFAULT_LEASE_RENEWAL_INTERVAL;
      durationInSecs := DEFAULT_LEASE_DURATION;
      registrationTimestamp, lastRenewalTimestamp := 0, 0;
      evictionTimestamp, serviceUpTimestamp := 0, 0;
    }

    /** The deserialisation constructor. */
    constructor FromJson(renewalIntervalInSecs: int32, durationInSecs: int32,
                         registrationTimestamp: int64, lastRenewalTimestamp: Option<int64>,
                         lastRenewalTimestampLegacy: int64, evictionTimestamp: int64,
                         serviceUpTimestamp: int64)
      ensures Value() == Deserialize(LeaseJson(renewalIntervalInSecs, durationInSecs, registrationTimestamp,
                                               lastRenewalTimestamp, lastRenewalTimestampLegacy,
                                               evictionTimestamp, serviceUpTimestamp))
    {
      this.renewalIntervalInSecs := renewalIntervalInSecs;
      this.durationInSecs := durationInSecs;
      this.registrationTimestamp := registrationTimestamp;
      this.evictionTimestamp := evictionTimestamp;
      this.serviceUpTimestamp := serviceUpTimestamp;
      if lastRenewalTimestamp.None? {
        this.lastRenewalTimestamp := lastRenewalTimestampLegacy;
      } else {
        this.lastRenewalTimestamp := lastRenewalTimestamp.value;
      }
    }

    function GetRegistrationTimestamp(): (ts: int64)
      reads this
      ensures ts == Value().registrationTimestamp
    {
      registrationTimestamp
    }

    /** Reports the last renewal timestamp (written as the canonical property). */
    function GetRenewalTimestamp(): (ts: int64)
      reads this
      ensures ts == Value().lastRenewalTimestamp
      ensures ts == Serialize(Value()).lastRenewalTimestamp.value
    {
      lastRenewalTimestamp
    }

    function GetEvictionTimestamp(): (ts: int64)
      reads this
      ensures ts == Value().evictionTimestamp
    {
      evictionTimestamp
    }

    function GetServiceUpTimestamp(): (ts: int64)
      reads this
      ensures ts == Value().serviceUpTimestamp
    {
      serviceUpTimestamp
    }

    function GetRenewalIntervalInSecs(): (secs: int32)
      reads this
      ensures secs == Value().renewalIntervalInSecs
    {
      renewalIntervalInSecs
    }

    function GetDurationInSecs(): (secs: int32)
      reads this
      ensures secs == Value().durationInSecs
    {
      durationInSecs
    }
  }

  class Builder {
    /** The lease under construction; Build hands out this very object. */
    var result: LeaseInfo
    /** The setter calls made so far, oldest first. */
    ghost var calls: seq<BuilderCall>

    ghost predicate Valid()
      reads this, result
    {
      result.Value() == Built(calls)
    }

    /** The private constructor. */
    constructor ()
      ensures Valid() && fresh(result) && calls == []
    {
      result := new LeaseInfo();
      calls := [];
    }

    static method NewBuilder() returns (b: Builder)
      ensures fresh(b) && fresh(b.result) && b.Valid() && b.calls == []
    {
      b := new Builder();
    }

    method SetRegistrationTimestamp(ts: int64) returns (b: Builder)
      requires Valid()
      modifies this`calls, result
      ensures b == this && result == old(result) && Valid()
      ensures calls == old(calls) + [BuilderCall.SetRegistrationTimestamp(ts)]
      ensures result.Value() == old(result.Value()).(registrationTimestamp := ts)
    {
      result.registrationTimestamp := ts;
      calls := calls + [BuilderCall.SetRegistrationTimestamp(ts)];
      b := this;
    }

    method SetRenewalTimestamp(ts: int64) returns (b: Builder)
      requires Valid()
      modifies this`calls, result
      ensures b == this && result == old(result) && Valid()
      ensures calls == old(calls) + [BuilderCall.SetRenewalTimestamp(ts)]
      ensures result.Value() == old(result.Value()).(lastRenewalTimestamp := ts)
    {
      result.lastRenewalTimestamp := ts;
      calls := calls + [BuilderCall.SetRenewalTimestamp(ts)];
      b := this;
    }

    method SetEvictionTimestamp(ts: int64) returns (b: Builder)
      requires Valid()
      modifies this`calls, result
      ensures b == this && result == old(result) && Valid()
      ensures calls == old(calls) + [BuilderCall.SetEvictionTimestamp(ts)]
      ensures result.Value() == old(result.Value()).(evictionTimestamp := ts)
    {
      result.evictionTimestamp := ts;
      calls := calls + [BuilderCall.SetEvictionTimestamp(ts)];
      b := this;
    }

    method SetServiceUpTimestamp(ts: int64) returns (b: Builder)
      requires Valid()
      modifies this`calls, result
      ensures b == this && result == old(result) && Valid()
      ensures calls == old(calls) + [BuilderCall.SetServiceUpTimestamp(ts)]
      ensures result.Value() == old(result.Value()).(serviceUpTimestamp := ts)
    {
      result.serviceUpTimestamp := ts;
      calls := calls + [BuilderCall.SetServiceUpTimestamp(ts)];
      b := this;
    }

    method SetDurationInSecs(d: int32) returns (b: Builder)
      requires Valid()
      modifies this`calls, result
      ensures b == this && result == old(result) && Valid()
      ensures calls == old(calls) + [BuilderCall.SetDurationInSecs(d)]
      ensures result.Value() == old(result.Value()).(durationInSecs := if d <= 0 then DEFAULT_LEASE_DURATION else d)
    {
      if d <= 0 {
        result.durationInSecs := DEFAULT_LEASE_DURATION;
      } else {
        result.durationInSecs := d;
      }
      calls := calls + [BuilderCall.SetDurationInSecs(d)];
      b := this;
    }

    method SetRenewalIntervalInSecs(i: int32) returns (b: Builder)
      requires Valid()
      modifies this`calls, result
      ensures b == this && result == old(result) && Valid()
      ensures calls == old(calls) + [BuilderCall.SetRenewalIntervalInSecs(i)]
      ensures result.Value() == old(result.Value()).(renewalIntervalInSecs := if i <= 0 then DEFAULT_LEASE_RENEWAL_INTERVAL else i)
    {
      if i <= 0 {
        result.renewalIntervalInSecs := DEFAULT_LEASE_RENEWAL_INTERVAL;
      } else {
        result.renewalIntervalInSecs := i;
      }
      calls := calls + [BuilderCall.SetRenewalIntervalInSecs(i)];
      b := this;
    }

    /** Hands back the lease under construction itself, not a copy. */
    method Build() returns (r: LeaseInfo)
      requires Valid()
      ensures r == result
      ensures r.Value() == Built(calls)
      ensures r.renewalIntervalInSecs > 0 && r.durationInSecs > 0
    {
      BuiltIsPositive(calls);
      r := result;
    }
  }

  /**
   * Because Build returns the builder's own object, a setter called after Build
   * changes the lease already built.
   */
  method BuiltLeaseIsShared() returns (before: int32, after: int32)
    ensures before == DEFAULT_LEASE_DURATION && after == 120
  {
    var builder := Builder.NewBuilder();
    var lease := builder.Build();
    before := lease.GetDurationInSecs();
    var _ := builder.SetDurationInSecs(120);
    after := lease.GetDurationInSecs();
  }
}
