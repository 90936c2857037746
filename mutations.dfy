/**
 * Pending local edits awaiting synchronisation: the mutation hierarchy, the
 * submission mutation record with its copy-with builder, and the projection of a
 * mixed mutation list onto its submission mutations.
 */
module Mutations {
  import opened Common
  import opened Model

  datatype MutationType = Create | Update | Delete | Unknown

  datatype SyncStatus = Unknown | Pending | InProgress | Completed | Failed

  /** The task schema a submission answers; only its identity matters here. */
  datatype Job = Job(id: string, name: string)

  /** One change to one task's answer; `newValue` is `None` when the answer was cleared. */
  datatype ResponseDelta = ResponseDelta(taskId: string, taskType: string, newValue: Option<string>)

  /** The properties every mutation has (those of the abstract `Mutation` class). */
  datatype MutationBase = MutationBase(
    id: Option<Long>,
    mutationType: MutationType,
    syncStatus: SyncStatus,
    surveyId: string,
    locationOfInterestId: string,
    userId: string,
    clientTimestamp: Date,
    retryCount: Long,
    lastError: string)

  /** A change to a location of interest, reduced to what the routing of mutations reads. */
  datatype LocationOfInterestMutation = LocationOfInterestMutation(base: MutationBase, geometry: Option<Geometry>)

  /** The `SubmissionMutation` data class, its constructor parameters in declaration order. */
  datatype SubmissionMutation = SubmissionMutation(
    id: Option<Long>,
    mutationType: MutationType,
    syncStatus: SyncStatus,
    surveyId: string,
    locationOfInterestId: string,
    userId: string,
    clientTimestamp: Date,
    retryCount: Long,
    lastError: string,
    job: Option<Job>,
    submissionId: string,
    responseDeltas: seq<ResponseDelta>)
  {
    function Base(): MutationBase
    {
      MutationBase(id, mutationType, syncStatus, surveyId, locationOfInterestId, userId, clientTimestamp, retryCount, lastError)
    }
  }

  /** A mutation of any variant: the two concrete subclasses and any other subclass. */
  datatype Mutation =
    | LoiMutation(loi: LocationOfInterestMutation)
    | SubmissionVariant(submission: SubmissionMutation)
    | OtherMutation(className: string, otherBase: MutationBase)
  {
    function Base(): MutationBase
    {
      match this
      case LoiMutation(l) => l.base
      case SubmissionVariant(s) => s.Base()
      case OtherMutation(_, b) => b
    }

    /** `getClass().getSimpleName()`. */
    function ClassName(): string
    {
      match this
      case LoiMutation(_) => "LocationOfInterestMutation"
      case SubmissionVariant(_) => "SubmissionMutation"
      case OtherMutation(name, _) => name
    }
  }

  /**
   * `SubmissionMutation()` with every parameter defaulted; `now` is the current time
   * that the `Date()` default reads.
   */
  function NewSubmissionMutation(now: Date): (m: SubmissionMutation)
    ensures m.id == None && m.mutationType == MutationType.Unknown && m.syncStatus == SyncStatus.Unknown
    ensures m.surveyId == "" && m.locationOfInterestId == "" && m.userId == ""
    ensures m.clientTimestamp == now && m.retryCount == 0 && m.lastError == ""
    ensures m.job == None && m.submissionId == "" && m.responseDeltas == []
  {
    SubmissionMutation(None, MutationType.Unknown, SyncStatus.Unknown, "", "", "", now, 0, "", None, "", [])
  }

  /**
   * `SubmissionMutation.Builder`: the base properties it inherits from the mutation
   * builder and the three of its own, each a mutable property.
   */
  class Builder {
    var base: MutationBase
    var job: Option<Job>
    var submissionId: string
    var responseDeltas: seq<ResponseDelta>

    /**
     * A fresh builder. The base builder's initial properties are not part of this model,
     * so they are a parameter; the three own properties start empty.
     */
    constructor (initialBase: MutationBase)
      ensures base == initialBase && job == None && submissionId == "" && responseDeltas == []
    {
      base := initialBase;
      job := None;
      submissionId := "";
      responseDeltas := [];
    }

    /** `fromMutation`: takes over the base properties of `m`, leaving the own properties alone. */
    method FromMutation(m: Mutation) returns (self: Builder)
      modifies this
      ensures self == this
      ensures base == m.Base()
      ensures job == old(job) && submissionId == old(submissionId) && responseDeltas == old(responseDeltas)
    {
      base := m.Base();
      self := this;
    }

    method SetJob(j: Job) returns (self: Builder)
      modifies this
      ensures self == this && job == Some(j)
      ensures base == old(base) && submissionId == old(submissionId) && responseDeltas == old(responseDeltas)
    {
      job := Some(j);
      self := this;
    }

    method SetSubmissionId(id: string) returns (self: Builder)
      modifies this
      ensures self == this && submissionId == id
      ensures base == old(base) && job == old(job) && responseDeltas == old(responseDeltas)
    {
      submissionId := id;
      self := this;
    }

    method SetResponseDeltas(deltas: seq<ResponseDelta>) returns (self: Builder)
      modifies this
      ensures self == this && responseDeltas == deltas
      ensures base == old(base) && job == old(job) && submissionId == old(submissionId)
    {
      responseDeltas := deltas;
      self := this;
    }

    /** `build()`: a new mutation carrying every builder property in its own position. */
    function Build(): (m: SubmissionMutation)
      reads this
      ensures m.Base() == base
      ensures m.job == job && m.submissionId == submissionId && m.responseDeltas == responseDeltas
    {
      SubmissionMutation(
        base.id, base.mutationType, base.syncStatus, base.surveyId, base.locationOfInterestId,
        base.userId, base.clientTimestamp, base.retryCount, base.lastError,
        job, submissionId, responseDeltas)
    }
  }

  /** `toBuilder()`: a fresh builder from which `build()` gives back an equal mutation. */
  method ToBuilder(m: SubmissionMutation) returns (b: Builder)
    ensures fresh(b)
    ensures b.Build() == m
  {
    b := new Builder(m.Base());
    b.job := m.job;
    b.submissionId := m.submissionId;
    b.responseDeltas := m.responseDeltas;
    b := b.FromMutation(SubmissionVariant(m));
  }

  /** The companion `builder()`: a builder holding the defaults. */
  method NewBuilder(now: Date) returns (b: Builder)
    ensures fresh(b)
    ensures b.Build() == NewSubmissionMutation(now)
  {
    b := ToBuilder(NewSubmissionMutation(now));
  }

  /**
   * The copy-with idiom `m.toBuilder().setResponseDeltas(deltas).build()`: a new
   * mutation that differs from `m` in its response deltas only; `m` itself is a value
   * and stays as it was.
   */
  method WithResponseDeltas(m: SubmissionMutation, deltas: seq<ResponseDelta>) returns (r: SubmissionMutation)
    ensures r.responseDeltas == deltas
    ensures r.Base() == m.Base() && r.job == m.job && r.submissionId == m.submissionId
  {
    var b := ToBuilder(m);
    b := b.SetResponseDeltas(deltas);
    r := b.Build();
  }

  /** The same idiom with `setSubmissionId`. */
  method WithSubmissionId(m: SubmissionMutation, id: string) returns (r: SubmissionMutation)
    ensures r.submissionId == id
    ensures r.Base() == m.Base() && r.job == m.job && r.responseDeltas == m.responseDeltas
  {
    var b := ToBuilder(m);
    b := b.SetSubmissionId(id);
    r := b.Build();
  }

  // ---- filter ----------------------------------------------------------------------------

  /** The companion `filter`: the submission mutations of `ms`, in their order. */
  function Filter(ms: seq<Mutation>): (r: seq<SubmissionMutation>)
    ensures |r| <= |ms|
    ensures forall s :: s in r ==> SubmissionVariant(s) in ms
    ensures forall i :: 0 <= i < |ms| && ms[i].SubmissionVariant? ==> ms[i].submission in r
  {
    if ms == [] then []
    else
      match ms[0]
      case LoiMutation(_) => Filter(ms[1..])
      case SubmissionVariant(s) => [s] + Filter(ms[1..])
      case OtherMutation(_, _) => Filter(ms[1..])
  }

  /** Submission mutations seen as mutations again (the upcast of `filter`'s result). */
  function Lift(ss: seq<SubmissionMutation>): (ms: seq<Mutation>)
  {
    seq(|ss|, i requires 0 <= i < |ss| => SubmissionVariant(ss[i]))
  }

  /** Filtering distributes over concatenation: the relative order of what is kept is unchanged. */
  lemma {:induction false} FilterAppend(a: seq<Mutation>, b: seq<Mutation>)
    ensures Filter(a + b) == Filter(a) + Filter(b)
  {
    if a != [] {
      assert (a + b)[0] == a[0] && (a + b)[1..] == a[1..] + b;
      FilterAppend(a[1..], b);
      if a[0].SubmissionVariant? {
        var s := a[0].submission;
        assert [s] + (Filter(a[1..]) + Filter(b)) == ([s] + Filter(a[1..])) + Filter(b);
      }
    } else {
      assert a + b == b;
    }
  }

  /** A location-of-interest mutation or a mutation of another variant is dropped wherever it stands. */
  lemma DropsOtherVariants(a: seq<Mutation>, m: Mutation, b: seq<Mutation>)
    requires !m.SubmissionVariant?
    ensures Filter(a + [m] + b) == Filter(a + b)
  {
    FilterAppend(a + [m], b);
    FilterAppend(a, [m]);
    FilterAppend(a, b);
  }

  /** A list of submission mutations passes through unchanged. */
  lemma {:induction false} FilterLift(ss: seq<SubmissionMutation>)
    ensures Filter(Lift(ss)) == ss
  {
    if ss != [] {
      assert Lift(ss)[1..] == Lift(ss[1..]);
      FilterLift(ss[1..]);
    }
  }

  /** `filter` is idempotent. */
  lemma FilterIdempotent(ms: seq<Mutation>)
    ensures Filter(Lift(Filter(ms))) == Filter(ms)
  {
    FilterLift(Filter(ms));
  }

  /** Nothing is dropped exactly when every mutation is a submission mutation. */
  lemma {:induction false} FilterKeepsAll(ms: seq<Mutation>)
    ensures |Filter(ms)| == |ms| <==> forall i :: 0 <= i < |ms| ==> ms[i].SubmissionVariant?
  {
    if ms != [] {
      FilterKeepsAll(ms[1..]);
      assert forall i :: 1 <= i < |ms| ==> ms[i] == ms[1..][i - 1];
    }
  }
}
