/**
 * `DataPersistenceService` (dataPersistence.ts): the facade the request
 * handlers use. It seeds the store once per service, lists tables, answers
 * lookups by foreign key and upserts single records.
 */
module Persistence {
  import opened Wrappers
  import opened Lists
  import opened Entities
  import opened Tables
  import opened SeedUtils
  import opened Seed
  import opened Database

  class DataPersistenceService {
    /** The one database every service works on. */
    const db: TalentFlowDB
    var isInitialized: bool

    constructor (db: TalentFlowDB)
      ensures this.db == db && !isInitialized
    {
      this.db := db;
      isInitialized := false;
    }

    /**
     * `initializeData()`: seeds through `seedData` the first time, and marks the
     * service initialised unless seeding threw; a failure is passed on and the
     * next call tries again. Once initialised, a call touches nothing.
     */
    method InitializeData(src: Entropy, now: Timestamp, yearAgo: Timestamp, aborts: bool)
      returns (r: Result<(), DbError>, ghost d: SeedDataset)
      requires db.Valid() && src.Valid() && yearAgo <= now
      modifies this`isInitialized, db, src
      ensures db.Valid()
      ensures old(isInitialized) ==>
        && r == Success(()) && isInitialized
        && db.State() == old(db.State()) && unchanged(src)
      ensures !old(isInitialized) ==>
        && db.State() == Seeded(old(db.State()), d, aborts).1
        && (isInitialized <==> Seeded(old(db.State()), d, aborts).0.Success?)
        && (r.Failure? <==> Seeded(old(db.State()), d, aborts).0.Failure?)
        && (r.Failure? ==> r.error == Seeded(old(db.State()), d, aborts).0.error)
      ensures !old(isInitialized) && SeedGateOpen(old(db.State())) ==>
        && |d.jobs| == 25 && |d.candidates| == 1000 && |d.assessments| == 3
        && ReferentiallyIntact(d) && UniquelyKeyed(d)
    {
      d := SeedDataset([], [], [], [], []);
      if isInitialized {
        return Success(()), d;
      }
      var seeded;
      seeded, d := db.SeedData(src, now, yearAgo, aborts);
      if seeded.Failure? {
        return Failure(seeded.error), d;
      }
      isInitialized := true;
      r := Success(());
    }

    /** `getJobs()`: every stored job once. */
    method GetJobs() returns (jobs: seq<Job>)
      requires db.Valid()
      ensures IsListing(jobs, db.jobs) && NoDuplicates(jobs)
    {
      jobs := ToArray(db.jobs, JobKey);
    }

    /** `getCandidates()`: every stored candidate once. */
    method GetCandidates() returns (candidates: seq<Candidate>)
      requires db.Valid()
      ensures IsListing(candidates, db.candidates) && NoDuplicates(candidates)
    {
      candidates := ToArray(db.candidates, CandidateKey);
    }

    /** `getAssessments()`: every stored assessment once. */
    method GetAssessments() returns (assessments: seq<Assessment>)
      requires db.Valid()
      ensures IsListing(assessments, db.assessments) && NoDuplicates(assessments)
    {
      assessments := ToArray(db.assessments, AssessmentKey);
    }

    /** `getCandidateNotes(candidateId)`: exactly the stored notes about that candidate. */
    method GetCandidateNotes(candidateId: string) returns (notes: seq<CandidateNote>)
      requires db.Valid()
      ensures |notes| <= |db.candidateNotes| && NoDuplicates(notes)
      ensures forall n :: n in notes <==> n in db.candidateNotes.Values && n.candidateId == candidateId
    {
      var all := ToArray(db.candidateNotes, NoteKey);
      var about := (n: CandidateNote) => n.candidateId == candidateId;
      notes := Filter(all, about);
      FilterMembership(all, about);
      FilterMultiset(all, about);
      SubMultisetNoDuplicates(notes, all);
    }

    /** `getCandidateTimeline(candidateId)`: exactly the stored events of that candidate. */
    method GetCandidateTimeline(candidateId: string) returns (events: seq<TimelineEvent>)
      requires db.Valid()
      ensures |events| <= |db.candidateTimeline| && NoDuplicates(events)
      ensures forall e :: e in events <==> e in db.candidateTimeline.Values && e.candidateId == candidateId
    {
      var all := ToArray(db.candidateTimeline, EventKey);
      var about := (e: TimelineEvent) => e.candidateId == candidateId;
      events := Filter(all, about);
      FilterMembership(all, about);
      FilterMultiset(all, about);
      SubMultisetNoDuplicates(events, all);
    }

    /**
     * `getAssessmentByJobId(jobId)`: a stored assessment for that job, or null
     * exactly when the job has none.
     */
    method GetAssessmentByJobId(jobId: string) returns (a: Option<Assessment>)
      ensures a.Some? ==> a.value in db.assessments.Values && a.value.jobId == jobId
      ensures a.None? <==> forall x :: x in db.assessments.Values ==> x.jobId != jobId
    {
      var all := ToArray(db.assessments, AssessmentKey);
      a := Find(all, (x: Assessment) => x.jobId == jobId);
    }

    /** `saveJob(job)`: upserts the job under its id; every other record stays. */
    method SaveJob(job: Job)
      requires db.Valid()
      modifies db
      ensures db.Valid()
      ensures db.State() == old(db.State()).(jobs := Put(old(db.jobs), job, JobKey))
    {
      PutKeepsKeyed(db.jobs, job, JobKey);
      db.jobs := Put(db.jobs, job, JobKey);
    }

    /** `saveCandidate(candidate)`. */
    method SaveCandidate(candidate: Candidate)
      requires db.Valid()
      modifies db
      ensures db.Valid()
      ensures db.State() == old(db.State()).(candidates := Put(old(db.candidates), candidate, CandidateKey))
    {
      PutKeepsKeyed(db.candidates, candidate, CandidateKey);
      db.candidates := Put(db.candidates, candidate, CandidateKey);
    }

    /** `saveAssessment(assessment)`. */
    method SaveAssessment(assessment: Assessment)
      requires db.Valid()
      modifies db
      ensures db.Valid()
      ensures db.State() == old(db.State()).(assessments := Put(old(db.assessments), assessment, AssessmentKey))
    {
      PutKeepsKeyed(db.assessments, assessment, AssessmentKey);
      db.assessments := Put(db.assessments, assessment, AssessmentKey);
    }

    /** `saveCandidateNote(note)`. */
    method SaveCandidateNote(note: CandidateNote)
      requires db.Valid()
      modifies db
      ensures db.Valid()
      ensures db.State() == old(db.State()).(candidateNotes := Put(old(db.candidateNotes), note, NoteKey))
    {
      PutKeepsKeyed(db.candidateNotes, note, NoteKey);
      db.candidateNotes := Put(db.candidateNotes, note, NoteKey);
    }

    /** `saveCandidateTimelineEvent(event)`. */
    method SaveCandidateTimelineEvent(event: TimelineEvent)
      requires db.Valid()
      modifies db
      ensures db.Valid()
      ensures db.State() == old(db.State()).(candidateTimeline := Put(old(db.candidateTimeline), event, EventKey))
    {
      PutKeepsKeyed(db.candidateTimeline, event, EventKey);
      db.candidateTimeline := Put(db.candidateTimeline, event, EventKey);
    }

    /** `saveAssessmentResponse(response)`. */
    method SaveAssessmentResponse(response: AssessmentResponse)
      requires db.Valid()
      modifies db
      ensures db.Valid()
      ensures db.State() == old(db.State()).(assessmentResponses := Put(old(db.assessmentResponses), response, ResponseKey))
    {
      PutKeepsKeyed(db.assessmentResponses, response, ResponseKey);
      db.assessmentResponses := Put(db.assessmentResponses, response, ResponseKey);
    }
  }

  /** The class-level `instance` slot of `DataPersistenceService`. */
  class ServiceRegistry {
    const db: TalentFlowDB
    var instance: Option<DataPersistenceService>

    ghost predicate Valid()
      reads this
    {
      instance.Some? ==> instance.value.db == db
    }

    constructor (db: TalentFlowDB)
      ensures this.db == db && instance == None && Valid()
    {
      this.db := db;
      instance := None;
    }

    /**
     * `getInstance()`: creates the service on the first call and hands out
     * that same service on every later one.
     */
    method GetInstance() returns (service: DataPersistenceService)
      requires Valid()
      modifies this`instance
      ensures Valid() && instance == Some(service) && service.db == db
      ensures old(instance).Some? ==> service == old(instance).value
      ensures old(instance).None? ==> fresh(service) && !service.isInitialized
    {
      if instance.None? {
        var created := new DataPersistenceService(db);
        instance := Some(created);
      }
      service := instance.value;
    }
  }
}
