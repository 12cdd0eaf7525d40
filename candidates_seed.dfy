/**
 * The candidate generators (seedData/candidates.ts): 1000 candidates attached to
 * existing jobs, then 0-2 notes and 1-5 timeline events per candidate.
 */
module CandidateSeed {
  import opened Wrappers
  import opened Text
  import opened Lists
  import opened Entities
  import opened SeedUtils

  const CANDIDATE_COUNT: nat := 1000

  const CANDIDATE_STAGES: seq<Stage> := [Applied, Screen, Tech, Offer, Hired, Rejected]

  const NOTE_AUTHORS: seq<string> := ["John Smith", "Sarah Johnson", "Mike Davis", "Lisa Wilson", "Tom Brown"]

  const NOTE_CONTENTS: seq<string> := [
    "Great communication skills during the interview",
    "Strong technical background, would be a good fit",
    "Needs more experience with our tech stack",
    "Excellent problem-solving approach",
    "Cultural fit seems good, team liked them",
    "Concerns about availability for the role",
    "Very enthusiastic about the position",
    "Previous experience is relevant",
    "Would benefit from additional training",
    "Strong portfolio and references"
  ]

  const EVENT_TYPES: seq<EventType> := [StageChange, NoteAdded, AssessmentCompleted]

  const EVENT_DESCRIPTIONS: seq<string> := [
    "Moved to screening stage",
    "Completed technical assessment",
    "Note added by recruiter",
    "Moved to technical interview",
    "Assessment submitted",
    "Moved to offer stage",
    "Note added by hiring manager",
    "Moved to final interview",
    "Assessment completed successfully",
    "Moved to rejected stage"
  ]

  /** The `first-last` part shared by the resume, LinkedIn and portfolio addresses. */
  function Handle(firstName: string, lastName: string): string {
    Lower(firstName) + "-" + Lower(lastName)
  }

  function ResumeUrl(firstName: string, lastName: string): string {
    "https://resume.example.com/" + Handle(firstName, lastName) + ".pdf"
  }

  function LinkedinUrl(firstName: string, lastName: string): string {
    "https://linkedin.com/in/" + Handle(firstName, lastName)
  }

  function PortfolioUrl(firstName: string, lastName: string): string {
    "https://portfolio.example.com/" + Handle(firstName, lastName)
  }

  /** What the generator promises of every candidate, whatever the draws. */
  predicate SeededCandidate(c: Candidate, jobs: seq<Job>, now: Timestamp, yearAgo: Timestamp) {
    && c.jobId in JobIds(jobs)
    && yearAgo <= c.createdAt <= c.updatedAt <= now
    && c.notes.None?
  }

  /** The optional phone number and profile links of one candidate, each behind its own draw. */
  method DrawContacts(src: Entropy, firstName: string, lastName: string)
    returns (phone: Option<string>, resume: Option<string>, linkedin: Option<string>, portfolio: Option<string>)
    modifies src`nextRandom, src`nextWord
    ensures resume.Some? ==> resume.value == ResumeUrl(firstName, lastName)
    ensures linkedin.Some? ==> linkedin.value == LinkedinUrl(firstName, lastName)
    ensures portfolio.Some? ==> portfolio.value == PortfolioUrl(firstName, lastName)
  {
    phone := None;
    var draw := src.Random();
    if draw < 0.8 {
      var number := src.Word();
      phone := Some(number);
    }
    draw := src.Random();
    resume := if draw < 0.6 then Some(ResumeUrl(firstName, lastName)) else None;
    draw := src.Random();
    linkedin := if draw < 0.7 then Some(LinkedinUrl(firstName, lastName)) else None;
    draw := src.Random();
    portfolio := if draw < 0.4 then Some(PortfolioUrl(firstName, lastName)) else None;
  }

  /** One iteration of the loop in `generateCandidates()`. */
  method GenerateCandidate(src: Entropy, jobs: seq<Job>, now: Timestamp, yearAgo: Timestamp)
    returns (c: Candidate)
    requires src.Valid() && |jobs| > 0 && yearAgo <= now
    modifies src
    ensures SeededCandidate(c, jobs, now, yearAgo)
    ensures c.id == src.uuids(old(src.nextUuid)) && src.nextUuid == old(src.nextUuid) + 1
    ensures var firstName, lastName := src.words(old(src.nextWord)), src.words(old(src.nextWord) + 1);
      && c.name == firstName + " " + lastName
      && c.email == GenerateEmail(firstName, lastName, src.random(old(src.nextRandom)))
      && (c.resume.Some? ==> c.resume.value == ResumeUrl(firstName, lastName))
      && (c.linkedin.Some? ==> c.linkedin.value == LinkedinUrl(firstName, lastName))
      && (c.portfolio.Some? ==> c.portfolio.value == PortfolioUrl(firstName, lastName))
  {
    var firstName := src.Word();
    var lastName := src.Word();
    var emailDraw := src.Random();
    var email := GenerateEmail(firstName, lastName, emailDraw);
    var job := src.Pick(jobs);
    var stage := src.Pick(CANDIDATE_STAGES);
    var createdAt := src.Date(yearAgo, now);
    var updatedAt := src.Date(createdAt, now);
    var id := src.GenerateId();
    var phone, resume, linkedin, portfolio := DrawContacts(src, firstName, lastName);
    c := Candidate(id, firstName + " " + lastName, email, phone, stage, job.id, resume, linkedin, portfolio,
                   None, createdAt, updatedAt);
  }

  /** `generateCandidates(jobs)`: every candidate applies to one of `jobs`. */
  method GenerateCandidates(src: Entropy, jobs: seq<Job>, now: Timestamp, yearAgo: Timestamp)
    returns (candidates: seq<Candidate>)
    requires src.Valid() && |jobs| > 0 && yearAgo <= now
    modifies src
    ensures |candidates| == CANDIDATE_COUNT
    ensures forall k :: 0 <= k < |candidates| ==> SeededCandidate(candidates[k], jobs, now, yearAgo)
    ensures forall k :: 0 <= k < |candidates| ==> candidates[k].id == src.uuids(old(src.nextUuid) + k)
    ensures forall a, b :: 0 <= a < b < |candidates| ==> candidates[a].id != candidates[b].id
    ensures src.nextUuid == old(src.nextUuid) + CANDIDATE_COUNT
  {
    ghost var firstId := src.nextUuid;
    candidates := [];
    for i := 0 to CANDIDATE_COUNT
      invariant |candidates| == i
      invariant forall k :: 0 <= k < i ==> SeededCandidate(candidates[k], jobs, now, yearAgo)
      invariant forall k :: 0 <= k < i ==> candidates[k].id == src.uuids(firstId + k)
      invariant src.nextUuid == firstId + i
    {
      var c := GenerateCandidate(src, jobs, now, yearAgo);
      candidates := candidates + [c];
    }
  }

  /** What the generator promises of a note written about `c` before `now`. */
  predicate SeededNote(n: CandidateNote, c: Candidate, now: Timestamp) {
    && n.candidateId == c.id
    && c.createdAt <= n.createdAt <= now
    && n.updatedAt == n.createdAt
    && n.content in NOTE_CONTENTS
    && n.author in NOTE_AUTHORS
    && (n.mentions.Some? ==> |n.mentions.value| == 1 && n.mentions.value[0] in NOTE_AUTHORS)
  }

  /** The notes written about one candidate. */
  predicate SeededNotes(block: seq<CandidateNote>, c: Candidate, now: Timestamp) {
    |block| <= 2 && forall k :: 0 <= k < |block| ==> SeededNote(block[k], c, now)
  }

  /** One note about `c`, as the body of the notes loop builds it. */
  method GenerateNote(src: Entropy, c: Candidate, now: Timestamp) returns (n: CandidateNote)
    requires c.createdAt <= now
    modifies src
    ensures SeededNote(n, c, now)
    ensures n.id == src.uuids(old(src.nextUuid)) && src.nextUuid == old(src.nextUuid) + 1
  {
    var createdAt := src.Date(c.createdAt, now);
    var id := src.GenerateId();
    var content := src.Pick(NOTE_CONTENTS);
    var author := src.Pick(NOTE_AUTHORS);
    var mentionDraw := src.Random();
    var mentions: Option<seq<string>> := None;
    if mentionDraw < 0.3 {
      var mentioned := src.Pick(NOTE_AUTHORS);
      mentions := Some([mentioned]);
    }
    n := CandidateNote(id, c.id, content, author, mentions, createdAt, createdAt);
  }

  /** The notes one candidate receives: `now` is the instant the generator runs. */
  method NotesFor(src: Entropy, c: Candidate, now: Timestamp) returns (notes: seq<CandidateNote>)
    requires src.Valid() && c.createdAt <= now
    modifies src
    ensures SeededNotes(notes, c, now)
    ensures forall k :: 0 <= k < |notes| ==> notes[k].id == src.uuids(old(src.nextUuid) + k)
    ensures src.nextUuid == old(src.nextUuid) + |notes|
  {
    ghost var firstId := src.nextUuid;
    var count := src.Below(3);
    notes := [];
    for i := 0 to count
      invariant |notes| == i
      invariant forall k :: 0 <= k < i ==> SeededNote(notes[k], c, now)
      invariant forall k :: 0 <= k < i ==> notes[k].id == src.uuids(firstId + k)
      invariant src.nextUuid == firstId + i
    {
      var n := GenerateNote(src, c, now);
      notes := notes + [n];
    }
  }

  /** `generateCandidateNotes(candidates)`; `blocks[b]` are the notes written about `candidates[b]`. */
  method GenerateCandidateNotes(src: Entropy, candidates: seq<Candidate>, now: Timestamp)
    returns (notes: seq<CandidateNote>, ghost blocks: seq<seq<CandidateNote>>)
    requires src.Valid()
    requires forall c :: c in candidates ==> c.createdAt <= now
    modifies src
    ensures |blocks| == |candidates| && Flatten(blocks) == notes
    ensures forall b :: 0 <= b < |blocks| ==> SeededNotes(blocks[b], candidates[b], now)
    ensures forall n :: n in notes ==> n.candidateId in CandidateIds(candidates)
    ensures forall k :: 0 <= k < |notes| ==> notes[k].id == src.uuids(old(src.nextUuid) + k)
    ensures forall a, b :: 0 <= a < b < |notes| ==> notes[a].id != notes[b].id
    ensures src.nextUuid == old(src.nextUuid) + |notes|
  {
    ghost var firstId := src.nextUuid;
    notes, blocks := [], [];
    for i := 0 to |candidates|
      invariant |blocks| == i && Flatten(blocks) == notes
      invariant forall b :: 0 <= b < i ==> SeededNotes(blocks[b], candidates[b], now)
      invariant forall n :: n in notes ==> n.candidateId in CandidateIds(candidates)
      invariant forall k :: 0 <= k < |notes| ==> notes[k].id == src.uuids(firstId + k)
      invariant src.nextUuid == firstId + |notes|
    {
      var c := candidates[i];
      var block := NotesFor(src, c, now);
      assert (blocks + [block])[..i] == blocks;
      assert forall k :: 0 <= k < |block| ==> block[k].candidateId in CandidateIds(candidates);
      notes, blocks := notes + block, blocks + [block];
    }
  }

  /** The id of `events[k]` is the uuid drawn at stream position `positions[k]`. */
  ghost predicate IdsDrawn(events: seq<TimelineEvent>, positions: seq<nat>, uuids: nat -> string, lo: nat, hi: nat) {
    && |positions| == |events|
    && DrawnBetween(positions, lo, hi)
    && forall k :: 0 <= k < |events| ==> events[k].id == uuids(positions[k])
  }

  /**
   * What the generator promises of the event at position `k` of the history of `c`:
   * only the first event lacks a previous stage, and every event leads to the current stage.
   */
  predicate SeededEvent(e: TimelineEvent, c: Candidate, now: Timestamp, k: nat) {
    && e.candidateId == c.id
    && c.createdAt <= e.createdAt <= now
    && e.updatedAt == e.createdAt
    && e.kind in EVENT_TYPES
    && e.description in EVENT_DESCRIPTIONS
    && e.metadata.Some?
    && e.metadata.value.newStage == c.stage
    && (e.metadata.value.previousStage.None? <==> k == 0)
  }

  /** The history of one candidate. */
  predicate SeededHistory(block: seq<TimelineEvent>, c: Candidate, now: Timestamp) {
    1 <= |block| <= 5 && forall k :: 0 <= k < |block| ==> SeededEvent(block[k], c, now, k)
  }

  /** One iteration of the inner loop of `generateCandidateTimelineEvents()`: the event at position `i`. */
  method GenerateEvent(src: Entropy, c: Candidate, now: Timestamp, i: nat) returns (e: TimelineEvent)
    requires src.Valid() && c.createdAt <= now
    modifies src
    ensures SeededEvent(e, c, now, i)
    ensures e.id == src.uuids(old(src.nextUuid)) && old(src.nextUuid) < src.nextUuid
  {
    var createdAt := src.Date(c.createdAt, now);
    var id := src.GenerateId();
    var kind := src.Pick(EVENT_TYPES);
    var description := src.Pick(EVENT_DESCRIPTIONS);
    var previousStage: Option<Stage> := None;
    if i > 0 {
      var stage := src.Pick(CANDIDATE_STAGES);
      previousStage := Some(stage);
    }
    var assessmentDraw := src.Random();
    var assessmentId: Option<string> := None;
    if assessmentDraw < 0.3 {
      var drawn := src.GenerateId();
      assessmentId := Some(drawn);
    }
    var metadata := EventMetadata(previousStage, c.stage, assessmentId);
    e := TimelineEvent(id, c.id, kind, description, Some(metadata), createdAt, createdAt);
  }

  /** The timeline one candidate receives. */
  method EventsFor(src: Entropy, c: Candidate, now: Timestamp)
    returns (events: seq<TimelineEvent>, ghost positions: seq<nat>)
    requires src.Valid() && c.createdAt <= now
    modifies src
    ensures SeededHistory(events, c, now)
    ensures old(src.nextUuid) <= src.nextUuid
    ensures IdsDrawn(events, positions, src.uuids, old(src.nextUuid), src.nextUuid)
  {
    ghost var firstId := src.nextUuid;
    var count := src.Below(5);
    events, positions := [], [];
    for i := 0 to count + 1
      invariant |events| == i && |positions| == i
      invariant forall k :: 0 <= k < i ==> SeededEvent(events[k], c, now, k)
      invariant firstId <= src.nextUuid && IdsDrawn(events, positions, src.uuids, firstId, src.nextUuid)
    {
      positions := positions + [src.nextUuid];
      var e := GenerateEvent(src, c, now, i);
      events := events + [e];
    }
  }

  lemma IdsDrawnAppend(e1: seq<TimelineEvent>, p1: seq<nat>, e2: seq<TimelineEvent>, p2: seq<nat>,
                       uuids: nat -> string, lo: nat, mid: nat, hi: nat)
    requires lo <= mid <= hi && IdsDrawn(e1, p1, uuids, lo, mid) && IdsDrawn(e2, p2, uuids, mid, hi)
    ensures IdsDrawn(e1 + e2, p1 + p2, uuids, lo, hi)
  {
    DrawnAppend(p1, p2, lo, mid, hi);
    forall k | 0 <= k < |e1 + e2| ensures (e1 + e2)[k].id == uuids((p1 + p2)[k]) {
      if k >= |e1| {
        assert (e1 + e2)[k] == e2[k - |e1|] && (p1 + p2)[k] == p2[k - |p1|];
      }
    }
  }

  /** Ids drawn at distinct stream positions are distinct. */
  lemma DrawnIdsDistinct(src: Entropy, events: seq<TimelineEvent>, positions: seq<nat>, lo: nat, hi: nat)
    requires src.Valid() && IdsDrawn(events, positions, src.uuids, lo, hi)
    ensures forall a, b :: 0 <= a < b < |events| ==> events[a].id != events[b].id
  {
  }

  /** `generateCandidateTimelineEvents(candidates)`; `blocks[b]` is the history of `candidates[b]`. */
  method GenerateCandidateTimelineEvents(src: Entropy, candidates: seq<Candidate>, now: Timestamp)
    returns (events: seq<TimelineEvent>, ghost blocks: seq<seq<TimelineEvent>>)
    requires src.Valid()
    requires forall c :: c in candidates ==> c.createdAt <= now
    modifies src
    ensures |blocks| == |candidates| && Flatten(blocks) == events
    ensures forall b :: 0 <= b < |blocks| ==> SeededHistory(blocks[b], candidates[b], now)
    ensures forall e :: e in events ==> e.candidateId in CandidateIds(candidates)
    ensures forall a, b :: 0 <= a < b < |events| ==> events[a].id != events[b].id
  {
    ghost var firstId := src.nextUuid;
    ghost var positions: seq<nat> := [];
    events, blocks := [], [];
    for i := 0 to |candidates|
      invariant |blocks| == i && Flatten(blocks) == events
      invariant forall b :: 0 <= b < i ==> SeededHistory(blocks[b], candidates[b], now)
      invariant forall e :: e in events ==> e.candidateId in CandidateIds(candidates)
      invariant firstId <= src.nextUuid && IdsDrawn(events, positions, src.uuids, firstId, src.nextUuid)
    {
      var c := candidates[i];
      ghost var mid := src.nextUuid;
      var block, blockPositions := EventsFor(src, c, now);
      IdsDrawnAppend(events, positions, block, blockPositions, src.uuids, firstId, mid, src.nextUuid);
      assert (blocks + [block])[..i] == blocks;
      assert forall k :: 0 <= k < |block| ==> block[k].candidateId in CandidateIds(candidates);
      events, blocks := events + block, blocks + [block];
      positions := positions + blockPositions;
    }
    DrawnIdsDistinct(src, events, positions, firstId, src.nextUuid);
  }
}
