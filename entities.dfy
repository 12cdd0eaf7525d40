/**
 * The records the simulated backend stores. Every entity carries an `id`
 * and two timestamps; timestamps are instants in milliseconds, not ISO strings.
 */
module Entities {
  import opened Wrappers

  type Timestamp = int

  datatype JobStatus = Active | Archived

  function StatusName(s: JobStatus): string {
    match s
    case Active => "active"
    case Archived => "archived"
  }

  datatype Salary = Salary(min: int, max: int, currency: string)

  datatype Job = Job(
    id: string,
    title: string,
    slug: string,
    status: JobStatus,
    tags: seq<string>,
    order: int,
    description: Option<string>,
    requirements: Option<seq<string>>,
    location: Option<string>,
    salary: Option<Salary>,
    createdAt: Timestamp,
    updatedAt: Timestamp)

  datatype Stage = Applied | Screen | Tech | Offer | Hired | Rejected

  function StageName(s: Stage): string {
    match s
    case Applied => "applied"
    case Screen => "screen"
    case Tech => "tech"
    case Offer => "offer"
    case Hired => "hired"
    case Rejected => "rejected"
  }

  datatype CandidateNote = CandidateNote(
    id: string,
    candidateId: string,
    content: string,
    author: string,
    mentions: Option<seq<string>>,
    createdAt: Timestamp,
    updatedAt: Timestamp)

  datatype Candidate = Candidate(
    id: string,
    name: string,
    email: string,
    phone: Option<string>,
    stage: Stage,
    jobId: string,
    resume: Option<string>,
    linkedin: Option<string>,
    portfolio: Option<string>,
    notes: Option<seq<CandidateNote>>,
    createdAt: Timestamp,
    updatedAt: Timestamp)

  datatype EventType = StageChange | NoteAdded | AssessmentCompleted

  /** The metadata the seed generator attaches to a timeline event. */
  datatype EventMetadata = EventMetadata(
    previousStage: Option<Stage>,
    newStage: Stage,
    assessmentId: Option<string>)

  datatype TimelineEvent = TimelineEvent(
    id: string,
    candidateId: string,
    kind: EventType,
    description: string,
    metadata: Option<EventMetadata>,
    createdAt: Timestamp,
    updatedAt: Timestamp)

  datatype QuestionType = SingleChoice | MultiChoice | ShortText | LongText | Numeric | FileUpload

  /** A choice; `caption` is the option's label. */
  datatype QuestionOption = QuestionOption(id: string, caption: string, value: string, order: int)

  datatype Validation = Validation(
    minLength: Option<int>,
    maxLength: Option<int>,
    min: Option<int>,
    max: Option<int>,
    pattern: Option<string>)

  datatype Question = Question(
    id: string,
    sectionId: string,
    kind: QuestionType,
    title: string,
    description: Option<string>,
    order: int,
    isRequired: bool,
    validation: Option<Validation>,
    options: Option<seq<QuestionOption>>,
    createdAt: Timestamp,
    updatedAt: Timestamp)

  datatype Section = Section(
    id: string,
    assessmentId: string,
    title: string,
    description: Option<string>,
    order: int,
    questions: seq<Question>,
    createdAt: Timestamp,
    updatedAt: Timestamp)

  datatype Assessment = Assessment(
    id: string,
    jobId: string,
    title: string,
    description: Option<string>,
    sections: seq<Section>,
    isActive: bool,
    createdAt: Timestamp,
    updatedAt: Timestamp)

  datatype QuestionResponse = QuestionResponse(questionId: string, value: string, fileUrl: Option<string>)

  datatype AssessmentResponse = AssessmentResponse(
    id: string,
    candidateId: string,
    assessmentId: string,
    jobId: string,
    responses: seq<QuestionResponse>,
    completedAt: Option<Timestamp>,
    score: Option<int>,
    createdAt: Timestamp,
    updatedAt: Timestamp)

  /** The key under which each kind of record is stored. */
  function JobKey(j: Job): string { j.id }
  function CandidateKey(c: Candidate): string { c.id }
  function NoteKey(n: CandidateNote): string { n.id }
  function EventKey(e: TimelineEvent): string { e.id }
  function AssessmentKey(a: Assessment): string { a.id }
  function ResponseKey(r: AssessmentResponse): string { r.id }

  function JobIds(jobs: seq<Job>): set<string> {
    set j | j in jobs :: j.id
  }

  function CandidateIds(candidates: seq<Candidate>): set<string> {
    set c | c in candidates :: c.id
  }
}
