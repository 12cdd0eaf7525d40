/**
 * The mock API (handlers.ts): the list routes with search, filter and
 * pagination; the create and update routes that write through the
 * persistence service; and the assessment and reorder routes that build a
 * reply without touching the store.
 *
 * Every write route first draws `Math.random()` and fails with a 500 when the
 * draw is below the error rate; that draw is the `errorDraw` parameter. The
 * fresh `crypto.randomUUID()` and the clock are parameters as well.
 */
module Handlers {
  import opened Wrappers
  import opened Text
  import opened Lists
  import opened Entities
  import opened Tables
  import opened SeedUtils
  import opened Database
  import opened Persistence

  /** The share of write requests that fail. */
  const ERROR_RATE: real := 0.1
  const DEFAULT_PAGE: int := 1
  const DEFAULT_PAGE_SIZE: int := 10

  /** `shouldError()`: the injected failure fires for draws below the error rate. */
  predicate ShouldError(draw: Unit) {
    draw < ERROR_RATE
  }

  /** The JSON body of a reply: the record, or the `{ message, code }` of an error. */
  datatype ReplyBody<T> = Payload(value: T) | ApiError(message: string, code: string)

  datatype Reply<T> = Reply(status: int, body: ReplyBody<T>)

  // ---------------------------------------------------------------------------
  // Query strings and pagination
  // ---------------------------------------------------------------------------

  /** `get(name) || ""`: an absent or empty parameter is the empty string. */
  function TextParam(p: Option<string>): string {
    if p.Some? then p.value else ""
  }

  /**
   * The query of `GET /jobs`. `page` and `pageSize` hold what `parseInt` made
   * of a non-empty parameter; `None` stands for an absent or empty one.
   */
  datatype JobQuery = JobQuery(search: Option<string>, status: Option<string>, page: Option<int>, pageSize: Option<int>)

  /** The query of `GET /candidates`. */
  datatype CandidateQuery = CandidateQuery(search: Option<string>, stage: Option<string>, page: Option<int>, pageSize: Option<int>)

  /** The envelope of a list reply. */
  datatype Page<T> = Page(data: seq<T>, total: int, page: int, pageSize: int, hasNext: bool, hasPrev: bool)

  /** Where `Array.prototype.slice` starts or stops: negative positions count back from the end. */
  function SliceIndex(k: int, len: nat): (r: nat)
    ensures r <= len
    ensures 0 <= k ==> r == Min(k, len)
  {
    if k < 0 then (if len + k < 0 then 0 else len + k)
    else if k < len then k else len
  }

  /** `s.slice(from, to)`. */
  function Slice<T>(s: seq<T>, from: int, to: int): (r: seq<T>)
    ensures forall x :: x in r ==> x in s
    ensures 0 <= from <= to ==> r == s[Min(from, |s|)..Min(to, |s|)]
  {
    var a, b := SliceIndex(from, |s|), SliceIndex(to, |s|);
    if a < b then s[a..b] else []
  }

  /**
   * `k * size`, by repeated addition: pagination works with this form, so that
   * its facts stay linear; `TimesIsProduct` says it is the product.
   */
  function Times(k: int, size: int): (r: int)
    ensures 0 <= k && 0 <= size ==> 0 <= r
    decreases if k < 0 then -k else k
  {
    if k == 0 then 0
    else if k > 0 then Times(k - 1, size) + size
    else Times(k + 1, size) - size
  }

  lemma {:induction false} TimesIsProduct(k: int, size: int)
    ensures Times(k, size) == k * size
    decreases if k < 0 then -k else k
  {
    if k > 0 {
      TimesIsProduct(k - 1, size);
    } else if k < 0 {
      TimesIsProduct(k + 1, size);
    }
  }

  /** Page `page` starts `pageSize` records after page `page - 1` does. */
  lemma TimesStep(k: int, size: int)
    ensures Times(k + 1, size) == Times(k, size) + size
  {
  }

  /**
   * The pagination both list routes share: `startIndex` is `(page - 1) * pageSize`
   * and `endIndex` is `startIndex + pageSize`.
   */
  function Paginate<T>(filtered: seq<T>, page: int, pageSize: int): (r: Page<T>)
    ensures r.total == |filtered| && r.page == page && r.pageSize == pageSize
    ensures r.hasPrev <==> page > 1
    ensures r.hasNext <==> Times(page, pageSize) < |filtered|
    ensures forall x :: x in r.data ==> x in filtered
  {
    var startIndex := Times(page - 1, pageSize);
    var endIndex := startIndex + pageSize;
    TimesStep(page - 1, pageSize);
    Page(Slice(filtered, startIndex, endIndex), |filtered|, page, pageSize, endIndex < |filtered|, page > 1)
  }

  /**
   * For a page from 1 on, the data is the run of filtered records that starts
   * `Times(page - 1, pageSize)` records in: at most `pageSize` of them, and exactly
   * that many while the page lies within the filtered records.
   */
  lemma PageContents<T>(filtered: seq<T>, page: int, pageSize: int)
    requires page >= 1 && pageSize >= 0
    ensures var r, start := Paginate(filtered, page, pageSize), Times(page - 1, pageSize);
      && 0 <= start
      && r.data == filtered[Min(start, |filtered|)..Min(start + pageSize, |filtered|)]
      && |r.data| <= pageSize
      && (start + pageSize <= |filtered| ==> |r.data| == pageSize)
      && |r.data| == (if start >= |filtered| then 0 else Min(pageSize, |filtered| - start))
      && forall i :: 0 <= i < |r.data| ==> start + i < |filtered| && r.data[i] == filtered[start + i]
  {
    var start := Times(page - 1, pageSize);
    assert Paginate(filtered, page, pageSize).data == Slice(filtered, start, start + pageSize);
    RunFacts(filtered, start, pageSize);
  }

  /** A page from 1 on is one contiguous run of the filtered records. */
  lemma PageIsRun<T>(filtered: seq<T>, page: int, pageSize: int)
    requires page >= 1 && pageSize >= 0
    ensures var start := Times(page - 1, pageSize);
      Paginate(filtered, page, pageSize).data == filtered[Min(start, |filtered|)..Min(start + pageSize, |filtered|)]
  {
    var start := Times(page - 1, pageSize);
    assert Paginate(filtered, page, pageSize).data == Slice(filtered, start, start + pageSize);
  }

  /** The facts of `PageContents` for the run of `count` records from `start`. */
  lemma RunFacts<T>(filtered: seq<T>, start: int, count: int)
    requires 0 <= start && 0 <= count
    ensures var data := Slice(filtered, start, start + count);
      && data == filtered[Min(start, |filtered|)..Min(start + count, |filtered|)]
      && |data| <= count
      && (start + count <= |filtered| ==> |data| == count)
      && |data| == (if start >= |filtered| then 0 else Min(count, |filtered| - start))
      && forall i :: 0 <= i < |data| ==> start + i < |filtered| && data[i] == filtered[start + i]
  {
  }

  /**
   * Pages below 1 follow `slice` on negative positions: page 0 is always empty,
   * and page -1 shows the run that ends one page before the end of the list.
   */
  lemma NonPositivePages<T>(filtered: seq<T>, pageSize: int)
    requires pageSize > 0
    ensures Paginate(filtered, 0, pageSize).data == []
    ensures 2 * pageSize <= |filtered| ==>
      Paginate(filtered, -1, pageSize).data == filtered[|filtered| - 2 * pageSize..|filtered| - pageSize]
  {
    assert Times(-1, pageSize) == -pageSize;
    assert Times(-2, pageSize) == -2 * pageSize;
  }

  /** The records shown on pages 1 to n, one page after the other. */
  function FirstPages<T>(filtered: seq<T>, pageSize: int, n: nat): seq<T> {
    if n == 0 then [] else FirstPages(filtered, pageSize, n - 1) + Paginate(filtered, n, pageSize).data
  }

  /** Paging forward from page 1 shows the filtered records in order, each exactly once. */
  lemma {:induction false} FirstPagesArePrefix<T>(filtered: seq<T>, pageSize: nat, n: nat)
    ensures FirstPages(filtered, pageSize, n) == filtered[..Min(Times(n, pageSize), |filtered|)]
  {
    if n > 0 {
      FirstPagesArePrefix(filtered, pageSize, n - 1);
      var start := Times(n - 1, pageSize);
      TimesStep(n - 1, pageSize);
      assert Times(n, pageSize) == start + pageSize;
      var a, b := Min(start, |filtered|), Min(start + pageSize, |filtered|);
      assert 0 <= a <= b <= |filtered|;
      PageIsRun(filtered, n, pageSize);
      calc {
        FirstPages(filtered, pageSize, n);
        FirstPages(filtered, pageSize, n - 1) + Paginate(filtered, n, pageSize).data;
        filtered[..a] + filtered[a..b];
        { PrefixThenRun(filtered, a, b); }
        filtered[..b];
      }
    }
  }

  lemma PrefixThenRun<T>(s: seq<T>, a: nat, b: nat)
    requires a <= b <= |s|
    ensures s[..a] + s[a..b] == s[..b]
  {
  }

  /** When a page reports no next page, the pages up to it have shown every filtered record. */
  lemma LastPageCompletes<T>(filtered: seq<T>, page: nat, pageSize: nat)
    requires !Paginate(filtered, page, pageSize).hasNext
    ensures FirstPages(filtered, pageSize, page) == filtered
  {
    FirstPagesArePrefix(filtered, pageSize, page);
  }

  // ---------------------------------------------------------------------------
  // Search filters
  // ---------------------------------------------------------------------------

  /** `!search || text.toLowerCase().includes(search.toLowerCase())`. */
  predicate TextMatches(text: string, search: string) {
    search == "" || Contains(Lower(text), Lower(search))
  }

  /** The `GET /jobs` filter: title search and exact status. */
  predicate JobMatches(j: Job, search: string, status: string) {
    TextMatches(j.title, search) && (status == "" || StatusName(j.status) == status)
  }

  /** The `GET /candidates` filter: name-or-email search and exact stage. */
  predicate CandidateMatches(c: Candidate, search: string, stage: string) {
    (search == "" || TextMatches(c.name, search) || TextMatches(c.email, search))
    && (stage == "" || StageName(c.stage) == stage)
  }

  /** Search ignores case: two searches that lower to the same string select the same records. */
  lemma SearchIgnoresCase(text: string, s1: string, s2: string)
    requires Lower(s1) == Lower(s2)
    ensures TextMatches(text, s1) <==> TextMatches(text, s2)
  {
    assert |s1| == |Lower(s1)| && |s2| == |Lower(s2)|;
  }

  /** Any piece of the text, in any case, finds it. */
  lemma SearchFindsSubstring(text: string, sub: string, search: string)
    requires Contains(text, sub) && Lower(search) == Lower(sub)
    ensures TextMatches(text, search)
  {
    LowerKeepsContains(text, sub);
  }

  /** A candidate is found by any piece of their e-mail address. */
  lemma CandidateFoundByEmail(c: Candidate, sub: string)
    requires Contains(c.email, sub)
    ensures CandidateMatches(c, sub, "")
  {
    SearchFindsSubstring(c.email, sub, sub);
  }

  /** The reply of `GET /jobs` over a listing `all` of the jobs table. */
  function JobsPage(all: seq<Job>, q: JobQuery): (r: Page<Job>)
    ensures r.page == q.page.GetOr(DEFAULT_PAGE) && r.pageSize == q.pageSize.GetOr(DEFAULT_PAGE_SIZE)
    ensures r.total <= |all|
    ensures forall j :: j in r.data ==> j in all && JobMatches(j, TextParam(q.search), TextParam(q.status))
  {
    var search, status := TextParam(q.search), TextParam(q.status);
    var matches := (j: Job) => JobMatches(j, search, status);
    FilterMembership(all, matches);
    Paginate(Filter(all, matches), q.page.GetOr(DEFAULT_PAGE), q.pageSize.GetOr(DEFAULT_PAGE_SIZE))
  }

  /** Without search and status every job counts towards the total. */
  lemma UnfilteredJobsTotal(all: seq<Job>, q: JobQuery)
    requires TextParam(q.search) == "" && TextParam(q.status) == ""
    ensures JobsPage(all, q).total == |all|
  {
    FilterKeepsAll(all, (j: Job) => JobMatches(j, "", ""));
  }

  /** The total counts exactly the matching jobs, and every one of them is on some page. */
  lemma JobsTotalCountsMatches(all: seq<Job>, q: JobQuery)
    ensures var kept := Filter(all, (j: Job) => JobMatches(j, TextParam(q.search), TextParam(q.status)));
      && JobsPage(all, q).total == |kept|
      && forall j :: j in kept <==> j in all && JobMatches(j, TextParam(q.search), TextParam(q.status))
  {
    FilterMembership(all, (j: Job) => JobMatches(j, TextParam(q.search), TextParam(q.status)));
  }

  /** The reply of `GET /candidates` over a listing `all` of the candidates table. */
  function CandidatesPage(all: seq<Candidate>, q: CandidateQuery): (r: Page<Candidate>)
    ensures r.page == q.page.GetOr(DEFAULT_PAGE) && r.pageSize == q.pageSize.GetOr(DEFAULT_PAGE_SIZE)
    ensures r.total <= |all|
    ensures forall c :: c in r.data ==> c in all && CandidateMatches(c, TextParam(q.search), TextParam(q.stage))
  {
    var search, stage := TextParam(q.search), TextParam(q.stage);
    var matches := (c: Candidate) => CandidateMatches(c, search, stage);
    FilterMembership(all, matches);
    Paginate(Filter(all, matches), q.page.GetOr(DEFAULT_PAGE), q.pageSize.GetOr(DEFAULT_PAGE_SIZE))
  }

  /** The total counts exactly the matching candidates, and every one of them is on some page. */
  lemma CandidatesTotalCountsMatches(all: seq<Candidate>, q: CandidateQuery)
    ensures var kept := Filter(all, (c: Candidate) => CandidateMatches(c, TextParam(q.search), TextParam(q.stage)));
      && CandidatesPage(all, q).total == |kept|
      && forall c :: c in kept <==> c in all && CandidateMatches(c, TextParam(q.search), TextParam(q.stage))
  {
    FilterMembership(all, (c: Candidate) => CandidateMatches(c, TextParam(q.search), TextParam(q.stage)));
  }

  /** Without search and stage every candidate counts towards the total. */
  lemma UnfilteredCandidatesTotal(all: seq<Candidate>, q: CandidateQuery)
    requires TextParam(q.search) == "" && TextParam(q.stage) == ""
    ensures CandidatesPage(all, q).total == |all|
  {
    FilterKeepsAll(all, (c: Candidate) => CandidateMatches(c, "", ""));
  }

  /** `GET /jobs`: a page of the stored jobs; the store is only read. */
  method ListJobs(service: DataPersistenceService, q: JobQuery) returns (r: Page<Job>, ghost all: seq<Job>)
    requires service.db.Valid()
    ensures IsListing(all, service.db.jobs) && NoDuplicates(all)
    ensures r == JobsPage(all, q)
    ensures forall j :: j in r.data ==> j in service.db.jobs.Values
  {
    var allJobs := service.GetJobs();
    all := allJobs;
    r := JobsPage(allJobs, q);
  }

  /** `GET /candidates`: a page of the stored candidates; the store is only read. */
  method ListCandidates(service: DataPersistenceService, q: CandidateQuery)
    returns (r: Page<Candidate>, ghost all: seq<Candidate>)
    requires service.db.Valid()
    ensures IsListing(all, service.db.candidates) && NoDuplicates(all)
    ensures r == CandidatesPage(all, q)
    ensures forall c :: c in r.data ==> c in service.db.candidates.Values
  {
    var allCandidates := service.GetCandidates();
    all := allCandidates;
    r := CandidatesPage(allCandidates, q);
  }

  // ---------------------------------------------------------------------------
  // Request bodies and the object spread
  // ---------------------------------------------------------------------------

  /** One field of `{ ...base, ...body }`: the body's value when the body carries the key. */
  function Over<T>(field: Option<T>, base: T): T {
    if field.Some? then field.value else base
  }

  /** The same for a field that is optional in the record itself. */
  function OverOpt<T>(field: Option<T>, base: Option<T>): Option<T> {
    if field.Some? then field else base
  }

  /** A `Partial<Job>` body: `None` is a key the body does not carry. */
  datatype JobBody = JobBody(
    id: Option<string>,
    title: Option<string>,
    slug: Option<string>,
    status: Option<JobStatus>,
    tags: Option<seq<string>>,
    order: Option<int>,
    description: Option<string>,
    requirements: Option<seq<string>>,
    location: Option<string>,
    salary: Option<Salary>,
    createdAt: Option<Timestamp>,
    updatedAt: Option<Timestamp>)

  const EMPTY_JOB_BODY := JobBody(None, None, None, None, None, None, None, None, None, None, None, None)

  /** `{ ...base, ...body }` for a job. */
  function SpreadJob(base: Job, b: JobBody): Job {
    Job(
      Over(b.id, base.id), Over(b.title, base.title), Over(b.slug, base.slug),
      Over(b.status, base.status), Over(b.tags, base.tags), Over(b.order, base.order),
      OverOpt(b.description, base.description), OverOpt(b.requirements, base.requirements),
      OverOpt(b.location, base.location), OverOpt(b.salary, base.salary),
      Over(b.createdAt, base.createdAt), Over(b.updatedAt, base.updatedAt))
  }

  /** `{ ...first, ...second }` for two job bodies. */
  function MergeJobBodies(first: JobBody, second: JobBody): JobBody {
    JobBody(
      OverOpt(second.id, first.id), OverOpt(second.title, first.title), OverOpt(second.slug, first.slug),
      OverOpt(second.status, first.status), OverOpt(second.tags, first.tags), OverOpt(second.order, first.order),
      OverOpt(second.description, first.description), OverOpt(second.requirements, first.requirements),
      OverOpt(second.location, first.location), OverOpt(second.salary, first.salary),
      OverOpt(second.createdAt, first.createdAt), OverOpt(second.updatedAt, first.updatedAt))
  }

  /** Spreading an empty body copies the base; spreading twice is spreading the merged bodies. */
  lemma SpreadJobLaws(base: Job, first: JobBody, second: JobBody)
    ensures SpreadJob(base, EMPTY_JOB_BODY) == base
    ensures SpreadJob(SpreadJob(base, first), second) == SpreadJob(base, MergeJobBodies(first, second))
    ensures SpreadJob(SpreadJob(base, first), first) == SpreadJob(base, first)
  {
  }

  /** `title?.toLowerCase().replace(/\s+/g, "-") || ""`: the slug a new job gets by default. */
  function DefaultSlug(title: Option<string>): string {
    if title.Some? then Hyphenate(title.value) else ""
  }

  /** The job `POST /jobs` creates when `count` jobs are stored. */
  function NewJob(b: JobBody, freshId: string, count: nat, now: Timestamp): Job {
    var defaults := Job(
      freshId, Over(b.title, ""), DefaultSlug(b.title), Active, Over(b.tags, []), count + 1,
      b.description, b.requirements, b.location, b.salary, now, now);
    SpreadJob(defaults, b).(createdAt := now, updatedAt := now)
  }

  /**
   * A new job takes every field the body carries except its timestamps; the
   * rest default to a fresh id, an active status, a place after the stored
   * jobs and a lower-case hyphenated slug of its title.
   */
  lemma NewJobDefaults(b: JobBody, freshId: string, count: nat, now: Timestamp)
    ensures var j := NewJob(b, freshId, count, now);
      && j.createdAt == now && j.updatedAt == now
      && j.id == Over(b.id, freshId)
      && j.status == Over(b.status, Active)
      && j.order == Over(b.order, count + 1)
      && j.title == Over(b.title, "") && j.tags == Over(b.tags, [])
      && j.description == b.description && j.requirements == b.requirements
      && j.location == b.location && j.salary == b.salary
      && (b.slug.Some? ==> j.slug == b.slug.value)
      && (b.slug.None? ==> NoSpace(j.slug) && NoUpper(j.slug))
      && (b.slug.None? && b.title.None? ==> j.slug == "")
      && (b.slug.None? && b.title.Some? ==> j.slug == Hyphenate(b.title.value))
  {
    var s := DefaultSlug(b.title);
    assert NoSpace(s) && NoUpper(s) by {
      if b.title.None? {
        assert s == "";
      }
    }
  }

  /** The job `PATCH /jobs/:id` stores: the body over the existing job, with the path's id and a new update time. */
  function PatchedJob(existing: Job, b: JobBody, jobId: string, now: Timestamp): Job {
    SpreadJob(existing, b).(id := jobId, updatedAt := now)
  }

  /**
   * An empty patch only refreshes the update time, and two patches in a row
   * come to one patch with the merged body.
   */
  lemma PatchJobLaws(existing: Job, first: JobBody, second: JobBody, jobId: string, t1: Timestamp, t2: Timestamp)
    ensures PatchedJob(existing, EMPTY_JOB_BODY, existing.id, t1) == existing.(updatedAt := t1)
    ensures PatchedJob(PatchedJob(existing, first, jobId, t1), second, jobId, t2)
         == PatchedJob(existing, MergeJobBodies(first, second), jobId, t2)
  {
    SpreadJobLaws(existing, first, second);
    SpreadJobLaws(existing.(id := jobId, updatedAt := t1), EMPTY_JOB_BODY, second);
  }

  /** A `Partial<Candidate>` body. */
  datatype CandidateBody = CandidateBody(
    id: Option<string>,
    name: Option<string>,
    email: Option<string>,
    phone: Option<string>,
    stage: Option<Stage>,
    jobId: Option<string>,
    resume: Option<string>,
    linkedin: Option<string>,
    portfolio: Option<string>,
    notes: Option<seq<CandidateNote>>,
    createdAt: Option<Timestamp>,
    updatedAt: Option<Timestamp>)

  const EMPTY_CANDIDATE_BODY := CandidateBody(None, None, None, None, None, None, None, None, None, None, None, None)

  /** `{ ...base, ...body }` for a candidate. */
  function SpreadCandidate(base: Candidate, b: CandidateBody): Candidate {
    Candidate(
      Over(b.id, base.id), Over(b.name, base.name), Over(b.email, base.email),
      OverOpt(b.phone, base.phone), Over(b.stage, base.stage), Over(b.jobId, base.jobId),
      OverOpt(b.resume, base.resume), OverOpt(b.linkedin, base.linkedin),
      OverOpt(b.portfolio, base.portfolio), OverOpt(b.notes, base.notes),
      Over(b.createdAt, base.createdAt), Over(b.updatedAt, base.updatedAt))
  }

  /** `{ ...first, ...second }` for two candidate bodies. */
  function MergeCandidateBodies(first: CandidateBody, second: CandidateBody): CandidateBody {
    CandidateBody(
      OverOpt(second.id, first.id), OverOpt(second.name, first.name), OverOpt(second.email, first.email),
      OverOpt(second.phone, first.phone), OverOpt(second.stage, first.stage), OverOpt(second.jobId, first.jobId),
      OverOpt(second.resume, first.resume), OverOpt(second.linkedin, first.linkedin),
      OverOpt(second.portfolio, first.portfolio), OverOpt(second.notes, first.notes),
      OverOpt(second.createdAt, first.createdAt), OverOpt(second.updatedAt, first.updatedAt))
  }

  lemma SpreadCandidateLaws(base: Candidate, first: CandidateBody, second: CandidateBody)
    ensures SpreadCandidate(base, EMPTY_CANDIDATE_BODY) == base
    ensures SpreadCandidate(SpreadCandidate(base, first), second)
         == SpreadCandidate(base, MergeCandidateBodies(first, second))
    ensures SpreadCandidate(SpreadCandidate(base, first), first) == SpreadCandidate(base, first)
  {
  }

  /** The candidate `POST /candidates` creates. */
  function NewCandidate(b: CandidateBody, freshId: string, now: Timestamp): Candidate {
    var defaults := Candidate(
      freshId, Over(b.name, ""), Over(b.email, ""), b.phone, Applied, Over(b.jobId, ""),
      b.resume, b.linkedin, b.portfolio, b.notes, now, now);
    SpreadCandidate(defaults, b).(createdAt := now, updatedAt := now)
  }

  /** A new candidate takes every field the body carries except its timestamps, and starts as applied. */
  lemma NewCandidateDefaults(b: CandidateBody, freshId: string, now: Timestamp)
    ensures var c := NewCandidate(b, freshId, now);
      && c.createdAt == now && c.updatedAt == now
      && c.id == Over(b.id, freshId)
      && c.stage == Over(b.stage, Applied)
      && c.name == Over(b.name, "") && c.email == Over(b.email, "") && c.jobId == Over(b.jobId, "")
      && c.phone == b.phone && c.resume == b.resume && c.linkedin == b.linkedin
      && c.portfolio == b.portfolio && c.notes == b.notes
  {
  }

  /** The candidate `PATCH /candidates/:id` stores. */
  function PatchedCandidate(existing: Candidate, b: CandidateBody, candidateId: string, now: Timestamp): Candidate {
    SpreadCandidate(existing, b).(id := candidateId, updatedAt := now)
  }

  lemma PatchCandidateLaws(existing: Candidate, first: CandidateBody, second: CandidateBody,
                           candidateId: string, t1: Timestamp, t2: Timestamp)
    ensures PatchedCandidate(existing, EMPTY_CANDIDATE_BODY, existing.id, t1) == existing.(updatedAt := t1)
    ensures PatchedCandidate(PatchedCandidate(existing, first, candidateId, t1), second, candidateId, t2)
         == PatchedCandidate(existing, MergeCandidateBodies(first, second), candidateId, t2)
  {
    SpreadCandidateLaws(existing, first, second);
    SpreadCandidateLaws(existing.(id := candidateId, updatedAt := t1), EMPTY_CANDIDATE_BODY, second);
  }

  // ---------------------------------------------------------------------------
  // Routes that write to the store
  // ---------------------------------------------------------------------------

  /** A record found by id in a listing of a keyed table is the record stored under that id. */
  lemma FoundIsStored<R>(t: map<string, R>, key: R -> string, id: string, found: Option<R>)
    requires Keyed(t, key)
    requires found.Some? ==> found.value in t.Values && key(found.value) == id
    requires found.None? ==> forall x :: x in t.Values ==> key(x) != id
    ensures found.Some? <==> id in t
    ensures found.Some? ==> found.value == t[id]
  {
    if found.Some? {
      var k :| k in t && t[k] == found.value;
    }
  }

  /** `POST /jobs`: stores and returns the new job, or fails with 500 and stores nothing. */
  method PostJob(service: DataPersistenceService, body: JobBody, errorDraw: Unit, freshId: string, now: Timestamp)
    returns (reply: Reply<Job>)
    requires service.db.Valid()
    modifies service.db
    ensures service.db.Valid()
    ensures ShouldError(errorDraw) ==>
      && reply == Reply(500, ApiError("Failed to create job", "CREATE_JOB_FAILED"))
      && service.db.State() == old(service.db.State())
    ensures !ShouldError(errorDraw) ==>
      var job := NewJob(body, freshId, |old(service.db.jobs)|, now);
      && reply == Reply(201, Payload(job))
      && service.db.State() == old(service.db.State()).(jobs := old(service.db.jobs)[job.id := job])
  {
    if ShouldError(errorDraw) {
      return Reply(500, ApiError("Failed to create job", "CREATE_JOB_FAILED"));
    }
    var allJobs := service.GetJobs();
    var newJob := NewJob(body, freshId, |allJobs|, now);
    service.SaveJob(newJob);
    reply := Reply(201, Payload(newJob));
  }

  /**
   * `PATCH /jobs/:id`: replaces the stored job by the patched one, or fails with
   * 500, or with 404 when no job has that id; a failure stores nothing.
   */
  method PatchJob(service: DataPersistenceService, jobId: string, body: JobBody, errorDraw: Unit, now: Timestamp)
    returns (reply: Reply<Job>)
    requires service.db.Valid()
    modifies service.db
    ensures service.db.Valid()
    ensures ShouldError(errorDraw) ==>
      && reply == Reply(500, ApiError("Failed to update job", "UPDATE_JOB_FAILED"))
      && service.db.State() == old(service.db.State())
    ensures !ShouldError(errorDraw) && jobId !in old(service.db.jobs) ==>
      && reply == Reply(404, ApiError("Job not found", "JOB_NOT_FOUND"))
      && service.db.State() == old(service.db.State())
    ensures !ShouldError(errorDraw) && jobId in old(service.db.jobs) ==>
      var updated := PatchedJob(old(service.db.jobs)[jobId], body, jobId, now);
      && reply == Reply(200, Payload(updated))
      && service.db.State() == old(service.db.State()).(jobs := old(service.db.jobs)[jobId := updated])
  {
    if ShouldError(errorDraw) {
      return Reply(500, ApiError("Failed to update job", "UPDATE_JOB_FAILED"));
    }
    var allJobs := service.GetJobs();
    var existingJob := Find(allJobs, (j: Job) => j.id == jobId);
    FoundIsStored(service.db.jobs, JobKey, jobId, existingJob);
    if existingJob.None? {
      return Reply(404, ApiError("Job not found", "JOB_NOT_FOUND"));
    }
    var updatedJob := PatchedJob(existingJob.value, body, jobId, now);
    service.SaveJob(updatedJob);
    reply := Reply(200, Payload(updatedJob));
  }

  /** `POST /candidates`: stores and returns the new candidate, or fails with 500 and stores nothing. */
  method PostCandidate(service: DataPersistenceService, body: CandidateBody, errorDraw: Unit, freshId: string, now: Timestamp)
    returns (reply: Reply<Candidate>)
    requires service.db.Valid()
    modifies service.db
    ensures service.db.Valid()
    ensures ShouldError(errorDraw) ==>
      && reply == Reply(500, ApiError("Failed to create candidate", "CREATE_CANDIDATE_FAILED"))
      && service.db.State() == old(service.db.State())
    ensures !ShouldError(errorDraw) ==>
      var candidate := NewCandidate(body, freshId, now);
      && reply == Reply(201, Payload(candidate))
      && service.db.State() == old(service.db.State()).(candidates := old(service.db.candidates)[candidate.id := candidate])
  {
    if ShouldError(errorDraw) {
      return Reply(500, ApiError("Failed to create candidate", "CREATE_CANDIDATE_FAILED"));
    }
    var newCandidate := NewCandidate(body, freshId, now);
    service.SaveCandidate(newCandidate);
    reply := Reply(201, Payload(newCandidate));
  }

  /** `PATCH /candidates/:id`: as `PATCH /jobs/:id`, for candidates. */
  method PatchCandidate(service: DataPersistenceService, candidateId: string, body: CandidateBody,
                        errorDraw: Unit, now: Timestamp)
    returns (reply: Reply<Candidate>)
    requires service.db.Valid()
    modifies service.db
    ensures service.db.Valid()
    ensures ShouldError(errorDraw) ==>
      && reply == Reply(500, ApiError("Failed to update candidate", "UPDATE_CANDIDATE_FAILED"))
      && service.db.State() == old(service.db.State())
    ensures !ShouldError(errorDraw) && candidateId !in old(service.db.candidates) ==>
      && reply == Reply(404, ApiError("Candidate not found", "CANDIDATE_NOT_FOUND"))
      && service.db.State() == old(service.db.State())
    ensures !ShouldError(errorDraw) && candidateId in old(service.db.candidates) ==>
      var updated := PatchedCandidate(old(service.db.candidates)[candidateId], body, candidateId, now);
      && reply == Reply(200, Payload(updated))
      && service.db.State() == old(service.db.State()).(candidates := old(service.db.candidates)[candidateId := updated])
  {
    if ShouldError(errorDraw) {
      return Reply(500, ApiError("Failed to update candidate", "UPDATE_CANDIDATE_FAILED"));
    }
    var allCandidates := service.GetCandidates();
    var existingCandidate := Find(allCandidates, (c: Candidate) => c.id == candidateId);
    FoundIsStored(service.db.candidates, CandidateKey, candidateId, existingCandidate);
    if existingCandidate.None? {
      return Reply(404, ApiError("Candidate not found", "CANDIDATE_NOT_FOUND"));
    }
    var updatedCandidate := PatchedCandidate(existingCandidate.value, body, candidateId, now);
    service.SaveCandidate(updatedCandidate);
    reply := Reply(200, Payload(updatedCandidate));
  }

  // ---------------------------------------------------------------------------
  // Routes that only reply
  // ---------------------------------------------------------------------------

  /** `GET /assessments/:jobId`: the stored assessment for the job, or null when it has none. */
  method GetAssessment(service: DataPersistenceService, jobId: string) returns (r: Option<Assessment>)
    ensures r.Some? ==> r.value in service.db.assessments.Values && r.value.jobId == jobId
    ensures r.None? <==> forall a :: a in service.db.assessments.Values ==> a.jobId != jobId
  {
    r := service.GetAssessmentByJobId(jobId);
  }

  /** A `Partial<Assessment>` body. */
  datatype AssessmentBody = AssessmentBody(
    id: Option<string>,
    jobId: Option<string>,
    title: Option<string>,
    description: Option<string>,
    sections: Option<seq<Section>>,
    isActive: Option<bool>,
    createdAt: Option<Timestamp>,
    updatedAt: Option<Timestamp>)

  /** `{ ...base, ...body }` for an assessment. */
  function SpreadAssessment(base: Assessment, b: AssessmentBody): Assessment {
    Assessment(
      Over(b.id, base.id), Over(b.jobId, base.jobId), Over(b.title, base.title),
      OverOpt(b.description, base.description), Over(b.sections, base.sections),
      Over(b.isActive, base.isActive), Over(b.createdAt, base.createdAt), Over(b.updatedAt, base.updatedAt))
  }

  /**
   * `PUT /assessments/:jobId`: replies with the assessment built from the body,
   * or fails with 500; nothing is stored either way.
   */
  function PutAssessment(jobId: string, b: AssessmentBody, errorDraw: Unit, freshId: string, now: Timestamp)
    : (r: Reply<Assessment>)
    ensures r.status == 500 <==> ShouldError(errorDraw)
    ensures r.status == 500 ==> r.body == ApiError("Failed to save assessment", "SAVE_ASSESSMENT_FAILED")
    ensures r.status != 500 ==> r.status == 200 && r.body.Payload?
    ensures r.body.Payload? ==>
      var a := r.body.value;
      && a.createdAt == now && a.updatedAt == now
      && a.id == Over(b.id, freshId) && a.jobId == Over(b.jobId, jobId)
      && a.title == Over(b.title, "") && a.description == b.description
      && a.sections == Over(b.sections, []) && a.isActive == Over(b.isActive, true)
  {
    if ShouldError(errorDraw) then
      Reply(500, ApiError("Failed to save assessment", "SAVE_ASSESSMENT_FAILED"))
    else
      var defaults := Assessment(freshId, jobId, Over(b.title, ""), b.description, Over(b.sections, []),
                                 Over(b.isActive, true), now, now);
      Reply(200, Payload(SpreadAssessment(defaults, b).(createdAt := now, updatedAt := now)))
  }

  /** The keys a submission body may carry besides the timestamps the route sets. */
  datatype SubmissionBody = SubmissionBody(
    id: Option<string>,
    jobId: Option<string>,
    candidateId: Option<string>,
    assessmentId: Option<string>,
    responses: Option<seq<QuestionResponse>>,
    score: Option<int>)

  /** What `POST /assessments/:jobId/submit` echoes back. */
  datatype Submission = Submission(
    id: string,
    jobId: string,
    candidateId: Option<string>,
    assessmentId: Option<string>,
    responses: Option<seq<QuestionResponse>>,
    score: Option<int>,
    completedAt: Timestamp,
    createdAt: Timestamp,
    updatedAt: Timestamp)

  /**
   * `POST /assessments/:jobId/submit`: echoes the body with an id, the job and
   * the completion time, or fails with 500; nothing is stored either way.
   */
  function SubmitAssessment(jobId: string, b: SubmissionBody, errorDraw: Unit, freshId: string, now: Timestamp)
    : (r: Reply<Submission>)
    ensures r.status == 500 <==> ShouldError(errorDraw)
    ensures r.status == 500 ==> r.body == ApiError("Failed to submit assessment", "SUBMIT_ASSESSMENT_FAILED")
    ensures r.status != 500 ==> r.status == 201 && r.body.Payload?
    ensures r.body.Payload? ==>
      var s := r.body.value;
      && s.completedAt == now && s.createdAt == now && s.updatedAt == now
      && s.id == Over(b.id, freshId) && s.jobId == Over(b.jobId, jobId)
      && s.candidateId == b.candidateId && s.assessmentId == b.assessmentId
      && s.responses == b.responses && s.score == b.score
  {
    if ShouldError(errorDraw) then
      Reply(500, ApiError("Failed to submit assessment", "SUBMIT_ASSESSMENT_FAILED"))
    else
      Reply(201, Payload(Submission(Over(b.id, freshId), Over(b.jobId, jobId), b.candidateId, b.assessmentId,
                                    b.responses, b.score, now, now, now)))
  }

  /** The keys a reorder body may carry. */
  datatype ReorderBody = ReorderBody(success: Option<bool>, jobId: Option<string>, fromOrder: Option<int>, toOrder: Option<int>)

  datatype ReorderAck = ReorderAck(success: bool, jobId: string, fromOrder: Option<int>, toOrder: Option<int>)

  /**
   * `PATCH /jobs/:id/reorder`: acknowledges with the body over `{ success: true, jobId }`,
   * or fails with 500; no job's order changes.
   */
  function ReorderJob(jobId: string, b: ReorderBody, errorDraw: Unit): (r: Reply<ReorderAck>)
    ensures r.status == 500 <==> ShouldError(errorDraw)
    ensures r.status == 500 ==> r.body == ApiError("Failed to reorder jobs", "REORDER_JOBS_FAILED")
    ensures r.status != 500 ==> r.status == 200 && r.body.Payload?
    ensures r.body.Payload? ==>
      && r.body.value.success == Over(b.success, true) && r.body.value.jobId == Over(b.jobId, jobId)
      && r.body.value.fromOrder == b.fromOrder && r.body.value.toOrder == b.toOrder
  {
    if ShouldError(errorDraw) then
      Reply(500, ApiError("Failed to reorder jobs", "REORDER_JOBS_FAILED"))
    else
      Reply(200, Payload(ReorderAck(Over(b.success, true), Over(b.jobId, jobId), b.fromOrder, b.toOrder)))
  }
}
