/** `generateSeedData()` (seedData/index.ts): the five generated collections and how they refer to each other. */
module Seed {
  import opened Lists
  import opened Entities
  import opened Tables
  import opened SeedUtils
  import JobSeed
  import CandidateSeed
  import AssessmentSeed

  /** The generated dataset; there are no assessment responses in it. */
  datatype SeedDataset = SeedDataset(
    jobs: seq<Job>,
    candidates: seq<Candidate>,
    candidateNotes: seq<CandidateNote>,
    candidateTimelineEvents: seq<TimelineEvent>,
    assessments: seq<Assessment>)

  /** Every parent id copied into a child names a parent of the same dataset. */
  predicate ReferentiallyIntact(d: SeedDataset) {
    && (forall c :: c in d.candidates ==> c.jobId in JobIds(d.jobs))
    && (forall n :: n in d.candidateNotes ==> n.candidateId in CandidateIds(d.candidates))
    && (forall e :: e in d.candidateTimelineEvents ==> e.candidateId in CandidateIds(d.candidates))
    && (forall a :: a in d.assessments ==> a.jobId in JobIds(d.jobs))
  }

  /** Within each collection no two records share an id, so each bulk insert can succeed. */
  predicate UniquelyKeyed(d: SeedDataset) {
    && UniqueKeys(d.jobs, JobKey)
    && UniqueKeys(d.candidates, CandidateKey)
    && UniqueKeys(d.candidateNotes, NoteKey)
    && UniqueKeys(d.candidateTimelineEvents, EventKey)
    && UniqueKeys(d.assessments, AssessmentKey)
  }

  /** Jobs with distinct ids are distinct records. */
  lemma DistinctIdsNoDuplicates(jobs: seq<Job>)
    requires forall a, b :: 0 <= a < b < |jobs| ==> jobs[a].id != jobs[b].id
    ensures NoDuplicates(jobs)
  {
  }

  /**
   * Assessments made for jobs picked without repetition from jobs with distinct ids
   * refer to existing jobs, and never two to the same job.
   */
  lemma {:induction false} OneAssessmentPerJob(jobs: seq<Job>, selected: seq<Job>, assessments: seq<Assessment>)
    requires forall a, b :: 0 <= a < b < |jobs| ==> jobs[a].id != jobs[b].id
    requires multiset(selected) <= multiset(jobs) && NoDuplicates(selected)
    requires |assessments| == |selected|
    requires forall k :: 0 <= k < |assessments| ==> assessments[k].jobId == selected[k].id
    ensures forall a :: a in assessments ==> a.jobId in JobIds(jobs)
    ensures forall a, b :: 0 <= a < b < |assessments| ==> assessments[a].jobId != assessments[b].jobId
  {
    forall k | 0 <= k < |selected| ensures selected[k] in jobs {
      assert selected[k] in multiset(selected);
    }
    forall a, b | 0 <= a < b < |assessments| ensures assessments[a].jobId != assessments[b].jobId {
      var i :| 0 <= i < |jobs| && jobs[i] == selected[a];
      var j :| 0 <= j < |jobs| && jobs[j] == selected[b];
      assert i != j;
    }
  }

  /**
   * The generator sequence of `generateSeedData()` over any usable word lists. One instant `now`
   * stands for every clock reading during generation; `yearAgo` is the same instant a calendar year earlier.
   */
  method GenerateFrom(src: Entropy, jobCatalog: JobSeed.JobCatalog, assessmentCatalog: AssessmentSeed.AssessmentCatalog,
                      now: Timestamp, yearAgo: Timestamp) returns (d: SeedDataset)
    requires src.Valid() && yearAgo <= now
    requires JobSeed.CatalogUsable(jobCatalog) && AssessmentSeed.CatalogUsable(assessmentCatalog)
    modifies src
    ensures |d.jobs| == JobSeed.JOB_COUNT && |d.candidates| == CandidateSeed.CANDIDATE_COUNT
    ensures |d.assessments| == AssessmentSeed.ASSESSMENT_COUNT
    ensures ReferentiallyIntact(d) && UniquelyKeyed(d)
    ensures forall a, b :: 0 <= a < b < |d.assessments| ==> d.assessments[a].jobId != d.assessments[b].jobId
  {
    var jobs := JobSeed.GenerateJobs(src, jobCatalog, now, yearAgo);
    var candidates := CandidateSeed.GenerateCandidates(src, jobs, now, yearAgo);
    assert forall c :: c in candidates ==> c.createdAt <= now;
    ghost var noteBlocks, eventBlocks;
    var notes;
    notes, noteBlocks := CandidateSeed.GenerateCandidateNotes(src, candidates, now);
    var events;
    events, eventBlocks := CandidateSeed.GenerateCandidateTimelineEvents(src, candidates, now);
    DistinctIdsNoDuplicates(jobs);
    var assessments;
    ghost var selected;
    assessments, selected := AssessmentSeed.GenerateAssessments(src, assessmentCatalog, jobs, now);
    OneAssessmentPerJob(jobs, selected, assessments);
    d := SeedDataset(jobs, candidates, notes, events, assessments);
  }

  /** The job generator's own word lists (jobs.ts), which it can draw from. */
  method SourceJobCatalog() returns (cat: JobSeed.JobCatalog)
    ensures JobSeed.CatalogUsable(cat)
  {
    JobSeed.JobCatalogUsable();
    cat := JobSeed.JOB_CATALOG;
  }

  /** The assessment generator's own word lists (assessments.ts), which it can draw from. */
  method SourceAssessmentCatalog() returns (cat: AssessmentSeed.AssessmentCatalog)
    ensures AssessmentSeed.CatalogUsable(cat)
  {
    AssessmentSeed.AssessmentCatalogUsable();
    cat := AssessmentSeed.ASSESSMENT_CATALOG;
  }

  /** `generateSeedData()` with the generators' own word lists. */
  method GenerateSeedData(src: Entropy, now: Timestamp, yearAgo: Timestamp) returns (d: SeedDataset)
    requires src.Valid() && yearAgo <= now
    modifies src
    ensures |d.jobs| == JobSeed.JOB_COUNT && |d.candidates| == CandidateSeed.CANDIDATE_COUNT
    ensures |d.assessments| == AssessmentSeed.ASSESSMENT_COUNT
    ensures ReferentiallyIntact(d) && UniquelyKeyed(d)
    ensures forall a, b :: 0 <= a < b < |d.assessments| ==> d.assessments[a].jobId != d.assessments[b].jobId
  {
    var jobCatalog := SourceJobCatalog();
    var assessmentCatalog := SourceAssessmentCatalog();
    d := GenerateFrom(src, jobCatalog, assessmentCatalog, now, yearAgo);
  }
}
