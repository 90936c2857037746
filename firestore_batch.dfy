/**
 * How the remote data store turns a collection of mutations into one write batch:
 * each mutation is routed by its variant to a document, a mutation whose addition
 * fails is skipped and reported, and the batch is committed once at the end.
 */
module FirestoreBatch {
  import opened Common
  import opened Model
  import opened Mutations

  /** A document of the remote store, addressed by its path segments. */
  datatype DocumentPath = DocumentPath(segments: seq<string>)

  /** `surveys/{surveyId}/lois/{locationOfInterestId}`. */
  function LoiPath(surveyId: string, locationOfInterestId: string): DocumentPath
  {
    DocumentPath(["surveys", surveyId, "lois", locationOfInterestId])
  }

  /** `surveys/{surveyId}/submissions/{submissionId}`. */
  function SubmissionPath(surveyId: string, submissionId: string): DocumentPath
  {
    DocumentPath(["surveys", surveyId, "submissions", submissionId])
  }

  datatype DataStoreException = DataStoreException(message: string)

  /**
   * The dispatch of `addMutationToBatch`: the document a location-of-interest or a
   * submission mutation goes to; any other variant is unsupported.
   */
  function DocumentFor(m: Mutation): (r: Result<DocumentPath, DataStoreException>)
    ensures r.Ok? <==> !m.OtherMutation?
    ensures m.LoiMutation? ==> r.value == LoiPath(m.loi.base.surveyId, m.loi.base.locationOfInterestId)
    ensures m.SubmissionVariant? ==> r.value == SubmissionPath(m.submission.surveyId, m.submission.submissionId)
    ensures m.OtherMutation? ==> r.error == DataStoreException("Unsupported mutation " + m.className)
  {
    match m
    case LoiMutation(l) => Ok(LoiPath(l.base.surveyId, l.base.locationOfInterestId))
    case SubmissionVariant(s) => Ok(SubmissionPath(s.surveyId, s.submissionId))
    case OtherMutation(name, _) => Err(DataStoreException("Unsupported mutation " + name))
  }

  /** The two kinds of document a mutation can be written to. */
  datatype DocumentKind = LoiDocument | SubmissionDocument

  /** Reads a path back as (kind, survey id, document id); `None` for any other shape. */
  function ParsePath(p: DocumentPath): Option<(DocumentKind, string, string)>
  {
    if |p.segments| == 4 && p.segments[0] == "surveys" && p.segments[2] == "lois" then
      Some((LoiDocument, p.segments[1], p.segments[3]))
    else if |p.segments| == 4 && p.segments[0] == "surveys" && p.segments[2] == "submissions" then
      Some((SubmissionDocument, p.segments[1], p.segments[3]))
    else None
  }

  /**
   * Routing loses nothing: the document path names the variant, the survey and the
   * entity the mutation is about, so two mutations share a document only when they
   * agree on all three.
   */
  lemma RouteIsRecoverable(m: Mutation)
    requires !m.OtherMutation?
    ensures ParsePath(DocumentFor(m).value) ==
      if m.LoiMutation? then Some((LoiDocument, m.loi.base.surveyId, m.loi.base.locationOfInterestId))
      else Some((SubmissionDocument, m.submission.surveyId, m.submission.submissionId))
  {
    assert "lois" != "submissions" by {
      assert "lois"[0] != "submissions"[0];
    }
  }

  /** One pending write of the batch: the document, the mutation it applies, and the acting user. */
  datatype Write = Write(path: DocumentPath, mutation: Mutation, user: User)

  /**
   * The result of adding `m` to a batch. `addToDocument` stands for the document
   * reference's own `addMutationToBatch`, foreign code that may throw.
   */
  function AddOutcome(m: Mutation, user: User, addToDocument: (DocumentPath, Mutation, User) -> Outcome<DataStoreException>)
    : Result<Write, DataStoreException>
  {
    match DocumentFor(m)
    case Err(e) => Err(e)
    case Ok(path) =>
      match addToDocument(path, m, user)
      case Pass => Ok(Write(path, m, user))
      case Fail(e) => Err(e)
  }

  function MutationTypeName(t: MutationType): string
  {
    match t
    case Create => "CREATE"
    case Update => "UPDATE"
    case Delete => "DELETE"
    case Unknown => "UNKNOWN"
  }

  /** The entity a failure report names: the submission id of a submission mutation, otherwise the LOI id. */
  function FailureSubject(m: Mutation): string
  {
    if m.SubmissionVariant? then m.submission.submissionId else m.Base().locationOfInterestId
  }

  /** The message recorded when adding `m` failed. */
  function FailureMessage(m: Mutation): (msg: string)
  {
    "Error adding " + MutationTypeName(m.Base().mutationType) + " " + m.ClassName() + " for " + FailureSubject(m) + " to batch"
  }

  /** The message names the entity right after its " for ", and ends with " to batch". */
  lemma FailureMessageNamesSubject(m: Mutation)
    ensures var k := |"Error adding " + MutationTypeName(m.Base().mutationType) + " " + m.ClassName() + " for "|;
      var msg := FailureMessage(m);
      |msg| == k + |FailureSubject(m)| + |" to batch"| &&
      msg[k..k + |FailureSubject(m)|] == FailureSubject(m) &&
      msg[k + |FailureSubject(m)|..] == " to batch"
  {
  }

  /** What offering one mutation adds to the batch: its write, or nothing when adding fails. */
  function WriteOf(m: Mutation, user: User, addToDocument: (DocumentPath, Mutation, User) -> Outcome<DataStoreException>)
    : seq<Write>
  {
    match AddOutcome(m, user, addToDocument) case Ok(w) => [w] case Err(_) => []
  }

  /** What offering one mutation adds to the failure reports. */
  function SkipOf(m: Mutation, user: User, addToDocument: (DocumentPath, Mutation, User) -> Outcome<DataStoreException>)
    : seq<string>
  {
    if AddOutcome(m, user, addToDocument).Err? then [FailureMessage(m)] else []
  }

  /** The writes a batch holds after every mutation of `ms` was offered to it, in order. */
  function BatchWrites(ms: seq<Mutation>, user: User, addToDocument: (DocumentPath, Mutation, User) -> Outcome<DataStoreException>)
    : seq<Write>
  {
    if ms == [] then []
    else BatchWrites(ms[..|ms| - 1], user, addToDocument) + WriteOf(ms[|ms| - 1], user, addToDocument)
  }

  /** The failure messages recorded while offering `ms`, in order. */
  function SkipMessages(ms: seq<Mutation>, user: User, addToDocument: (DocumentPath, Mutation, User) -> Outcome<DataStoreException>)
    : seq<string>
  {
    if ms == [] then []
    else SkipMessages(ms[..|ms| - 1], user, addToDocument) + SkipOf(ms[|ms| - 1], user, addToDocument)
  }

  /**
   * Each write goes to the document its mutation is routed to, for the acting user,
   * and comes from the input; so no unsupported mutation is ever written.
   */
  lemma {:induction false} WritesAreRouted(ms: seq<Mutation>, user: User,
                                           addToDocument: (DocumentPath, Mutation, User) -> Outcome<DataStoreException>)
    ensures forall w :: w in BatchWrites(ms, user, addToDocument) ==>
      w.mutation in ms && DocumentFor(w.mutation) == Ok(w.path) && w.user == user && !w.mutation.OtherMutation?
  {
    if ms != [] {
      var init := ms[..|ms| - 1];
      WritesAreRouted(init, user, addToDocument);
      assert forall m :: m in init ==> m in ms;
    }
  }

  /** Every mutation is either written or reported, never both and never neither. */
  lemma {:induction false} EveryMutationAccounted(ms: seq<Mutation>, user: User,
                                                   addToDocument: (DocumentPath, Mutation, User) -> Outcome<DataStoreException>)
    ensures |BatchWrites(ms, user, addToDocument)| + |SkipMessages(ms, user, addToDocument)| == |ms|
  {
    if ms != [] {
      EveryMutationAccounted(ms[..|ms| - 1], user, addToDocument);
    }
  }

  /** Offering `a` then `b` is offering `a + b`: the batch follows the input's order. */
  lemma {:induction false} WritesAppend(a: seq<Mutation>, b: seq<Mutation>, user: User,
                                        addToDocument: (DocumentPath, Mutation, User) -> Outcome<DataStoreException>)
    ensures BatchWrites(a + b, user, addToDocument) == BatchWrites(a, user, addToDocument) + BatchWrites(b, user, addToDocument)
  {
    if b == [] {
      assert a + b == a;
    } else {
      var init, last := b[..|b| - 1], b[|b| - 1];
      assert (a + b)[..|a + b| - 1] == a + init;
      assert (a + b)[|a + b| - 1] == last;
      WritesAppend(a, init, user, addToDocument);
      calc {
        BatchWrites(a + b, user, addToDocument);
        BatchWrites(a + init, user, addToDocument) + WriteOf(last, user, addToDocument);
        BatchWrites(a, user, addToDocument) + BatchWrites(init, user, addToDocument) + WriteOf(last, user, addToDocument);
        BatchWrites(a, user, addToDocument) + BatchWrites(b, user, addToDocument);
      }
    }
  }

  /** The failure reports, likewise, follow the input's order. */
  lemma {:induction false} SkipsAppend(a: seq<Mutation>, b: seq<Mutation>, user: User,
                                       addToDocument: (DocumentPath, Mutation, User) -> Outcome<DataStoreException>)
    ensures SkipMessages(a + b, user, addToDocument) == SkipMessages(a, user, addToDocument) + SkipMessages(b, user, addToDocument)
  {
    if b == [] {
      assert a + b == a;
    } else {
      var init, last := b[..|b| - 1], b[|b| - 1];
      assert (a + b)[..|a + b| - 1] == a + init;
      assert (a + b)[|a + b| - 1] == last;
      SkipsAppend(a, init, user, addToDocument);
      calc {
        SkipMessages(a + b, user, addToDocument);
        SkipMessages(a + init, user, addToDocument) + SkipOf(last, user, addToDocument);
        SkipMessages(a, user, addToDocument) + SkipMessages(init, user, addToDocument) + SkipOf(last, user, addToDocument);
        SkipMessages(a, user, addToDocument) + SkipMessages(b, user, addToDocument);
      }
    }
  }

  /** A mutation whose addition fails leaves no write and one report; the mutations after it are still offered. */
  lemma FailureIsSkipped(a: seq<Mutation>, m: Mutation, b: seq<Mutation>, user: User,
                         addToDocument: (DocumentPath, Mutation, User) -> Outcome<DataStoreException>)
    requires AddOutcome(m, user, addToDocument).Err?
    ensures BatchWrites(a + [m] + b, user, addToDocument) == BatchWrites(a, user, addToDocument) + BatchWrites(b, user, addToDocument)
    ensures SkipMessages(a + [m] + b, user, addToDocument) ==
      SkipMessages(a, user, addToDocument) + [FailureMessage(m)] + SkipMessages(b, user, addToDocument)
  {
    assert [m][..0] == [] && [m][0] == m;
    assert BatchWrites([m], user, addToDocument) == [];
    assert SkipMessages([m], user, addToDocument) == [FailureMessage(m)];
    WritesAppend(a + [m], b, user, addToDocument);
    WritesAppend(a, [m], user, addToDocument);
    assert BatchWrites(a + [m], user, addToDocument) == BatchWrites(a, user, addToDocument);
    SkipsAppend(a + [m], b, user, addToDocument);
    SkipsAppend(a, [m], user, addToDocument);
  }

  /** Firestore's `WriteBatch`: the writes it collects, and how often it was committed. */
  class WriteBatch {
    var writes: seq<Write>
    var commitCount: nat

    constructor ()
      ensures writes == [] && commitCount == 0
    {
      writes := [];
      commitCount := 0;
    }

    method Commit()
      modifies this
      ensures writes == old(writes) && commitCount == old(commitCount) + 1
    {
      commitCount := commitCount + 1;
    }
  }

  /** `addMutationToBatch` with the per-document add: appends the write exactly when adding succeeds. */
  method AddMutationToBatch(m: Mutation, user: User, batch: WriteBatch,
                            addToDocument: (DocumentPath, Mutation, User) -> Outcome<DataStoreException>)
    returns (outcome: Outcome<DataStoreException>)
    modifies batch
    ensures outcome.Pass? <==> AddOutcome(m, user, addToDocument).Ok?
    ensures outcome.Fail? ==> outcome.error == AddOutcome(m, user, addToDocument).error
    ensures batch.writes == old(batch.writes) + WriteOf(m, user, addToDocument)
    ensures batch.commitCount == old(batch.commitCount)
  {
    var target := DocumentFor(m);
    if target.Err? {
      return Fail(target.error);
    }
    outcome := addToDocument(target.value, m, user);
    if outcome.Pass? {
      batch.writes := batch.writes + [Write(target.value, m, user)];
    }
  }

  /**
   * `applyMutationsInternal`: offers every mutation to a new batch in order, skipping
   * (and reporting) those whose addition fails, then commits the batch once.
   */
  method ApplyMutationsInternal(ms: seq<Mutation>, user: User,
                                addToDocument: (DocumentPath, Mutation, User) -> Outcome<DataStoreException>)
    returns (batch: WriteBatch, reported: seq<string>)
    ensures fresh(batch)
    ensures batch.writes == BatchWrites(ms, user, addToDocument)
    ensures reported == SkipMessages(ms, user, addToDocument)
    ensures batch.commitCount == 1
  {
    batch := new WriteBatch();
    reported := [];
    for i := 0 to |ms|
      invariant batch.writes == BatchWrites(ms[..i], user, addToDocument)
      invariant reported == SkipMessages(ms[..i], user, addToDocument)
      invariant batch.commitCount == 0
    {
      var outcome := AddMutationToBatch(ms[i], user, batch, addToDocument);
      if outcome.Fail? {
        reported := reported + [FailureMessage(ms[i])];
      }
      assert ms[..i + 1][..i] == ms[..i];
    }
    assert ms[..|ms|] == ms;
    batch.Commit();
  }
}
