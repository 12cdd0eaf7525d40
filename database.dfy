/**
 * The IndexedDB store (database.ts): six tables keyed by record id, and the
 * `dbUtils` transactions over them. A transaction either applies all of its
 * writes or none; `aborts` stands for a failure the environment injects.
 */
module Database {
  import opened Wrappers
  import opened Entities
  import opened Tables
  import opened Lists
  import opened SeedUtils
  import opened Seed

  /** A snapshot of the six tables. */
  datatype Store = Store(
    jobs: map<string, Job>,
    candidates: map<string, Candidate>,
    candidateNotes: map<string, CandidateNote>,
    candidateTimeline: map<string, TimelineEvent>,
    assessments: map<string, Assessment>,
    assessmentResponses: map<string, AssessmentResponse>)

  const EMPTY := Store(map[], map[], map[], map[], map[], map[])

  /** Every table stores each record under its own id. */
  ghost predicate StoreKeyed(s: Store) {
    && Keyed(s.jobs, JobKey)
    && Keyed(s.candidates, CandidateKey)
    && Keyed(s.candidateNotes, NoteKey)
    && Keyed(s.candidateTimeline, EventKey)
    && Keyed(s.assessments, AssessmentKey)
    && Keyed(s.assessmentResponses, ResponseKey)
  }

  /** Why a transaction rejects: an injected abort, or a `bulkAdd` key collision. */
  datatype DbError = TransactionAborted | ConstraintViolation

  /** Seeding proceeds only when the jobs, candidates and assessments tables are all empty. */
  predicate SeedGateOpen(s: Store) {
    |s.jobs| == 0 && |s.candidates| == 0 && |s.assessments| == 0
  }

  /** The seeding transaction: five `bulkAdd`s, committed together or not at all. */
  function SeedWrite(s: Store, d: SeedDataset): Option<Store> {
    var jobs := BulkAdd(s.jobs, d.jobs, JobKey);
    var candidates := BulkAdd(s.candidates, d.candidates, CandidateKey);
    var notes := BulkAdd(s.candidateNotes, d.candidateNotes, NoteKey);
    var events := BulkAdd(s.candidateTimeline, d.candidateTimelineEvents, EventKey);
    var assessments := BulkAdd(s.assessments, d.assessments, AssessmentKey);
    if jobs.Some? && candidates.Some? && notes.Some? && events.Some? && assessments.Some? then
      Some(Store(jobs.value, candidates.value, notes.value, events.value, assessments.value, s.assessmentResponses))
    else None
  }

  /**
   * `dbUtils.seedData()` given the dataset `d` it generates when the gate is open: the
   * result (true when it wrote, false when it skipped, or the error it rethrows) and the new store.
   */
  function Seeded(s: Store, d: SeedDataset, aborts: bool): (Result<bool, DbError>, Store) {
    if !SeedGateOpen(s) then (Success(false), s)
    else if aborts then (Failure(TransactionAborted), s)
    else
      match SeedWrite(s, d)
      case None => (Failure(ConstraintViolation), s)
      case Some(t) => (Success(true), t)
  }

  lemma EmptyTable<R>(t: map<string, R>)
    requires |t| == 0
    ensures t == map[]
  {
    assert t.Keys == {};
  }

  /** The store changes only when the result is `true`. */
  lemma SeedAllOrNothing(s: Store, d: SeedDataset, aborts: bool)
    ensures Seeded(s, d, aborts).0 != Success(true) ==> Seeded(s, d, aborts).1 == s
    ensures Seeded(s, d, aborts).0 == Success(true) <==> SeedGateOpen(s) && !aborts && SeedWrite(s, d).Some?
  {
  }

  /**
   * A seed that writes leaves the jobs, candidates and assessments tables holding exactly the
   * generated records, adds the notes and events to what was there, and leaves the responses alone.
   */
  lemma SeedWritesDataset(s: Store, d: SeedDataset, aborts: bool)
    requires Seeded(s, d, aborts).0 == Success(true)
    ensures var t := Seeded(s, d, aborts).1;
      && t.jobs == MapOf(d.jobs, JobKey)
      && t.candidates == MapOf(d.candidates, CandidateKey)
      && t.assessments == MapOf(d.assessments, AssessmentKey)
      && t.candidateNotes.Keys == s.candidateNotes.Keys + KeysOf(d.candidateNotes, NoteKey)
      && (forall n :: n in d.candidateNotes ==> t.candidateNotes[n.id] == n)
      && t.candidateTimeline.Keys == s.candidateTimeline.Keys + KeysOf(d.candidateTimelineEvents, EventKey)
      && (forall e :: e in d.candidateTimelineEvents ==> t.candidateTimeline[e.id] == e)
      && t.assessmentResponses == s.assessmentResponses
  {
    var w := SeedWrite(s, d).value;
    assert Seeded(s, d, aborts).1 == w;
    AddToEmpty(s.jobs, d.jobs, JobKey);
    AddToEmpty(s.candidates, d.candidates, CandidateKey);
    AddToEmpty(s.assessments, d.assessments, AssessmentKey);
    assert w.candidateNotes == BulkAdd(s.candidateNotes, d.candidateNotes, NoteKey).value;
    assert w.candidateTimeline == BulkAdd(s.candidateTimeline, d.candidateTimelineEvents, EventKey).value;
  }

  /**
   * On an open gate, a generated dataset whose ids are fresh in the note and event tables
   * is always written unless the transaction aborts.
   */
  lemma SeedSucceedsOnFreshIds(s: Store, d: SeedDataset)
    requires SeedGateOpen(s) && UniquelyKeyed(d)
    requires forall n :: n in d.candidateNotes ==> n.id !in s.candidateNotes
    requires forall e :: e in d.candidateTimelineEvents ==> e.id !in s.candidateTimeline
    ensures Seeded(s, d, false).0 == Success(true)
  {
    EmptyTable(s.jobs);
    EmptyTable(s.candidates);
    EmptyTable(s.assessments);
  }

  /** Once a seed has written jobs, every later seed is skipped and changes nothing. */
  lemma SeedOnlyOnce(s: Store, d: SeedDataset, aborts: bool, later: SeedDataset, laterAborts: bool)
    requires Seeded(s, d, aborts).0 == Success(true) && |d.jobs| > 0
    ensures var t := Seeded(s, d, aborts).1; Seeded(t, later, laterAborts) == (Success(false), t)
  {
    var t := Seeded(s, d, aborts).1;
    SeedWritesDataset(s, d, aborts);
    assert d.jobs[0] in d.jobs;
    assert JobKey(d.jobs[0]) in t.jobs;
  }

  lemma SeedKeepsKeyed(s: Store, d: SeedDataset, aborts: bool)
    requires StoreKeyed(s)
    ensures StoreKeyed(Seeded(s, d, aborts).1)
  {
    if Seeded(s, d, aborts).0 == Success(true) {
      var w := SeedWrite(s, d).value;
      assert Seeded(s, d, aborts).1 == w;
      BulkAddKeepsKeyed(s.jobs, d.jobs, JobKey);
      BulkAddKeepsKeyed(s.candidates, d.candidates, CandidateKey);
      BulkAddKeepsKeyed(s.candidateNotes, d.candidateNotes, NoteKey);
      BulkAddKeepsKeyed(s.candidateTimeline, d.candidateTimelineEvents, EventKey);
      BulkAddKeepsKeyed(s.assessments, d.assessments, AssessmentKey);
    }
  }

  /** The argument of `importData`: each collection may be absent. */
  datatype ImportPayload = ImportPayload(
    jobs: Option<seq<Job>>,
    candidates: Option<seq<Candidate>>,
    candidateNotes: Option<seq<CandidateNote>>,
    candidateTimeline: Option<seq<TimelineEvent>>,
    assessments: Option<seq<Assessment>>,
    assessmentResponses: Option<seq<AssessmentResponse>>)

  /** `if (batch) await table.bulkPut(batch)`. */
  function PutIfPresent<R(==)>(t: map<string, R>, batch: Option<seq<R>>, key: R -> string): map<string, R> {
    if batch.Some? then BulkPut(t, batch.value, key) else t
  }

  /** The store after a committed `importData`. */
  function Imported(s: Store, p: ImportPayload): Store {
    Store(
      PutIfPresent(s.jobs, p.jobs, JobKey),
      PutIfPresent(s.candidates, p.candidates, CandidateKey),
      PutIfPresent(s.candidateNotes, p.candidateNotes, NoteKey),
      PutIfPresent(s.candidateTimeline, p.candidateTimeline, EventKey),
      PutIfPresent(s.assessments, p.assessments, AssessmentKey),
      PutIfPresent(s.assessmentResponses, p.assessmentResponses, ResponseKey))
  }

  /**
   * A table is touched only at the ids its batch mentions: an absent batch leaves it as it
   * was, every other id keeps its record, and a mentioned id holds the last record given for it.
   */
  lemma {:induction false} ImportTouchesOnlyMentioned<R>(t: map<string, R>, batch: Option<seq<R>>, key: R -> string)
    ensures batch.None? ==> PutIfPresent(t, batch, key) == t
    ensures batch.Some? ==> PutIfPresent(t, batch, key).Keys == t.Keys + KeysOf(batch.value, key)
    ensures forall k :: k in t && (batch.None? || k !in KeysOf(batch.value, key)) ==> PutIfPresent(t, batch, key)[k] == t[k]
    ensures batch.Some? && UniqueKeys(batch.value, key) ==>
      forall x :: x in batch.value ==> PutIfPresent(t, batch, key)[key(x)] == x
  {
    if batch.Some? && UniqueKeys(batch.value, key) {
      BulkPutUniqueStoresAll(t, batch.value, key);
    }
  }

  lemma PutIfPresentKeepsKeyed<R>(t: map<string, R>, batch: Option<seq<R>>, key: R -> string)
    requires Keyed(t, key)
    ensures Keyed(PutIfPresent(t, batch, key), key)
  {
    if batch.Some? {
      BulkPutKeepsKeyed(t, batch.value, key);
    }
  }

  lemma ImportKeepsKeyed(s: Store, p: ImportPayload)
    requires StoreKeyed(s)
    ensures StoreKeyed(Imported(s, p))
  {
    PutIfPresentKeepsKeyed(s.jobs, p.jobs, JobKey);
    PutIfPresentKeepsKeyed(s.candidates, p.candidates, CandidateKey);
    PutIfPresentKeepsKeyed(s.candidateNotes, p.candidateNotes, NoteKey);
    PutIfPresentKeepsKeyed(s.candidateTimeline, p.candidateTimeline, EventKey);
    PutIfPresentKeepsKeyed(s.assessments, p.assessments, AssessmentKey);
    PutIfPresentKeepsKeyed(s.assessmentResponses, p.assessmentResponses, ResponseKey);
  }

  /** What `exportData` returns: every table's records. */
  datatype Exported = Exported(
    jobs: seq<Job>,
    candidates: seq<Candidate>,
    candidateNotes: seq<CandidateNote>,
    candidateTimeline: seq<TimelineEvent>,
    assessments: seq<Assessment>,
    assessmentResponses: seq<AssessmentResponse>)

  /** `TalentFlowDB` together with `dbUtils`. */
  class TalentFlowDB {
    var jobs: map<string, Job>
    var candidates: map<string, Candidate>
    var candidateNotes: map<string, CandidateNote>
    var candidateTimeline: map<string, TimelineEvent>
    var assessments: map<string, Assessment>
    var assessmentResponses: map<string, AssessmentResponse>

    function State(): Store
      reads this
    {
      Store(jobs, candidates, candidateNotes, candidateTimeline, assessments, assessmentResponses)
    }

    ghost predicate Valid()
      reads this
    {
      StoreKeyed(State())
    }

    /** Opening the database finds whatever an earlier session left in it. */
    constructor (persisted: Store)
      requires StoreKeyed(persisted)
      ensures Valid() && State() == persisted
    {
      jobs, candidates, candidateNotes := persisted.jobs, persisted.candidates, persisted.candidateNotes;
      candidateTimeline, assessments := persisted.candidateTimeline, persisted.assessments;
      assessmentResponses := persisted.assessmentResponses;
    }

    method SetState(s: Store)
      modifies this
      ensures State() == s
    {
      jobs, candidates, candidateNotes := s.jobs, s.candidates, s.candidateNotes;
      candidateTimeline, assessments, assessmentResponses := s.candidateTimeline, s.assessments, s.assessmentResponses;
    }

    /** `dbUtils.clearAllData()`. */
    method ClearAllData(aborts: bool) returns (r: Result<(), DbError>)
      requires Valid()
      modifies this
      ensures Valid()
      ensures r.Failure? <==> aborts
      ensures State() == if aborts then old(State()) else EMPTY
    {
      if aborts {
        return Failure(TransactionAborted);
      }
      SetState(EMPTY);
      r := Success(());
    }

    /**
     * `dbUtils.seedData()`: when the gate is open it generates `d` and writes it in one
     * transaction; otherwise nothing is drawn and nothing changes.
     */
    method SeedData(src: Entropy, now: Timestamp, yearAgo: Timestamp, aborts: bool)
      returns (r: Result<bool, DbError>, ghost d: SeedDataset)
      requires Valid() && src.Valid() && yearAgo <= now
      modifies this, src
      ensures Valid()
      ensures (r, State()) == Seeded(old(State()), d, aborts)
      ensures SeedGateOpen(old(State())) ==>
        && |d.jobs| == 25 && |d.candidates| == 1000 && |d.assessments| == 3
        && ReferentiallyIntact(d) && UniquelyKeyed(d)
      ensures !SeedGateOpen(old(State())) ==> unchanged(src)
    {
      d := SeedDataset([], [], [], [], []);
      var existingJobs, existingCandidates, existingAssessments := |jobs|, |candidates|, |assessments|;
      if existingJobs == 0 && existingCandidates == 0 && existingAssessments == 0 {
        var data := GenerateSeedData(src, now, yearAgo);
        d := data;
        SeedKeepsKeyed(State(), data, aborts);
        if aborts {
          return Failure(TransactionAborted), d;
        }
        var written := SeedWrite(State(), data);
        if written.None? {
          return Failure(ConstraintViolation), d;
        }
        SetState(written.value);
        r := Success(true);
      } else {
        r := Success(false);
      }
    }

    /** `dbUtils.exportData()`. */
    method ExportData() returns (e: Exported)
      ensures IsListing(e.jobs, jobs) && IsListing(e.candidates, candidates)
      ensures IsListing(e.candidateNotes, candidateNotes) && IsListing(e.candidateTimeline, candidateTimeline)
      ensures IsListing(e.assessments, assessments) && IsListing(e.assessmentResponses, assessmentResponses)
      ensures Valid() ==>
        && NoDuplicates(e.jobs) && NoDuplicates(e.candidates) && NoDuplicates(e.candidateNotes)
        && NoDuplicates(e.candidateTimeline) && NoDuplicates(e.assessments) && NoDuplicates(e.assessmentResponses)
    {
      var j := ToArray(jobs, JobKey);
      var c := ToArray(candidates, CandidateKey);
      var n := ToArray(candidateNotes, NoteKey);
      var t := ToArray(candidateTimeline, EventKey);
      var a := ToArray(assessments, AssessmentKey);
      var r := ToArray(assessmentResponses, ResponseKey);
      e := Exported(j, c, n, t, a, r);
    }

    /** `dbUtils.importData(data)`: upserts by id into the tables present in `data`. */
    method ImportData(data: ImportPayload, aborts: bool) returns (r: Result<(), DbError>)
      requires Valid()
      modifies this
      ensures Valid()
      ensures r.Failure? <==> aborts
      ensures State() == if aborts then old(State()) else Imported(old(State()), data)
    {
      if aborts {
        return Failure(TransactionAborted);
      }
      ImportKeepsKeyed(State(), data);
      SetState(Imported(State(), data));
      r := Success(());
    }
  }
}
