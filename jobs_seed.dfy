/** The job generator (seedData/jobs.ts): 25 jobs with orders 1..25, then sorted by order. */
module JobSeed {
  import opened Wrappers
  import opened Lists
  import opened Entities
  import opened SeedUtils

  const JOB_COUNT: nat := 25

  const JOB_TITLES: seq<string> := [
    "Senior Frontend Developer", "Full Stack Engineer", "React Developer",
    "Node.js Backend Developer", "Python Developer", "DevOps Engineer",
    "UI/UX Designer", "Product Manager", "Data Scientist",
    "Machine Learning Engineer", "Mobile App Developer", "Cloud Architect",
    "Security Engineer", "QA Engineer", "Technical Writer", "Scrum Master",
    "Business Analyst", "Sales Engineer", "Customer Success Manager",
    "Marketing Manager", "Content Creator", "Graphic Designer",
    "Digital Marketing Specialist", "HR Business Partner", "Financial Analyst"
  ]

  const JOB_DESCRIPTIONS: seq<string> := [
    "We are looking for a passionate developer to join our growing team. You'll work on cutting-edge projects and collaborate with talented engineers.",
    "Join our innovative team and help build the next generation of web applications. We offer competitive benefits and a flexible work environment.",
    "We're seeking a skilled professional to drive our technical initiatives forward. This role offers excellent growth opportunities and challenging projects.",
    "Be part of our mission to revolutionize the industry. We're looking for someone who is eager to learn and contribute to our dynamic team.",
    "Help us build scalable solutions that impact millions of users. We offer a collaborative environment and opportunities for professional development."
  ]

  const JOB_REQUIREMENTS: seq<seq<string>> := [
    ["3+ years experience", "Strong problem-solving skills", "Team collaboration"],
    ["Bachelor's degree in CS or related field", "2+ years professional experience", "Excellent communication skills"],
    ["Proficiency in modern frameworks", "Experience with version control", "Agile methodology experience"],
    ["Strong analytical thinking", "Attention to detail", "Ability to work independently"],
    ["5+ years experience", "Leadership skills", "Mentoring experience"]
  ]

  const JOB_LOCATIONS: seq<string> := [
    "San Francisco, CA", "New York, NY", "Austin, TX", "Seattle, WA", "Remote",
    "Boston, MA", "Chicago, IL", "Denver, CO", "Los Angeles, CA", "Portland, OR"
  ]

  const JOB_TAGS: seq<string> := [
    "React", "TypeScript", "Node.js", "Python", "JavaScript", "AWS", "Docker",
    "Kubernetes", "Machine Learning", "Data Science", "UI/UX", "Design",
    "Marketing", "Sales", "HR", "Finance", "Agile", "Scrum", "DevOps",
    "Security", "Mobile", "iOS", "Android"
  ]

  /** The word lists the generator draws from. */
  datatype JobCatalog = JobCatalog(
    titles: seq<string>,
    descriptions: seq<string>,
    requirements: seq<seq<string>>,
    locations: seq<string>,
    tags: seq<string>)

  const JOB_CATALOG := JobCatalog(JOB_TITLES, JOB_DESCRIPTIONS, JOB_REQUIREMENTS, JOB_LOCATIONS, JOB_TAGS)

  /** Every list can be picked from, and there are enough tags for the largest tag draw. */
  predicate CatalogUsable(cat: JobCatalog) {
    && |cat.titles| > 0
    && |cat.descriptions| > 0
    && |cat.requirements| > 0
    && |cat.locations| > 0
    && |cat.tags| >= 6
    && NoDuplicates(cat.tags)
  }

  /** No two entries of `s` at positions in `lo..hi` are equal. */
  ghost predicate DistinctWithin<T>(s: seq<T>, lo: int, hi: int) {
    forall i, j :: 0 <= lo <= i < j < hi <= |s| ==> s[i] != s[j]
  }

  /** No entry of `s` at a position in `lo..mid` reappears at a position in `mid..hi`. */
  ghost predicate DistinctAcross<T>(s: seq<T>, lo: int, mid: int, hi: int) {
    forall i, j :: 0 <= lo <= i < mid <= j < hi <= |s| ==> s[i] != s[j]
  }

  // The tag list is checked in three blocks of positions, 0..8, 8..16 and 16..23,
  // so that each comparison of string literals stays a small proof.
  lemma TagsWithinFirst() ensures DistinctWithin(JOB_TAGS, 0, 8) {}
  lemma TagsWithinSecond() ensures DistinctWithin(JOB_TAGS, 8, 16) {}
  lemma TagsWithinLast() ensures DistinctWithin(JOB_TAGS, 16, 23) {}
  lemma TagsAcrossFirst() ensures DistinctAcross(JOB_TAGS, 0, 8, 16) {}
  lemma TagsAcrossSecond() ensures DistinctAcross(JOB_TAGS, 8, 16, 23) {}
  lemma TagsAcrossLast() ensures DistinctAcross(JOB_TAGS, 0, 16, 23) {}

  /** No tag is listed twice. */
  lemma JobTagsDistinct()
    ensures NoDuplicates(JOB_TAGS)
  {
    TagsWithinFirst();
    TagsWithinSecond();
    TagsWithinLast();
    TagsAcrossFirst();
    TagsAcrossSecond();
    TagsAcrossLast();
  }

  lemma JobCatalogUsable()
    ensures CatalogUsable(JOB_CATALOG)
  {
    JobTagsDistinct();
  }

  /** What the generator promises of each job it builds. */
  predicate SeededJob(j: Job, cat: JobCatalog, now: Timestamp, yearAgo: Timestamp) {
    && j.title in cat.titles
    && j.slug == GenerateSlug(j.title)
    && 2 <= |j.tags| <= 6
    && multiset(j.tags) <= multiset(cat.tags)
    && NoDuplicates(j.tags)
    && yearAgo <= j.createdAt <= j.updatedAt <= now
    && j.description.Some? && j.description.value in cat.descriptions
    && j.requirements.Some? && j.requirements.value in cat.requirements
    && j.location.Some? && j.location.value in cat.locations
    && (j.salary.Some? ==> SalaryInRange(j.salary.value))
  }

  predicate SortedByOrder(s: seq<Job>) {
    forall a, b :: 0 <= a < b < |s| ==> s[a].order <= s[b].order
  }

  /** One step of a stable insertion sort by `order`: `j` goes before the first job with a larger order. */
  function InsertByOrder(j: Job, s: seq<Job>): (r: seq<Job>)
    ensures multiset(r) == multiset(s) + multiset{j}
    ensures |r| == |s| + 1
  {
    if s == [] || j.order <= s[0].order then [j] + s
    else
      assert s == [s[0]] + s[1..];
      [s[0]] + InsertByOrder(j, s[1..])
  }

  /** Insertion adds `j` and nothing else. */
  lemma {:induction false} InsertByOrderMembers(j: Job, s: seq<Job>)
    ensures forall x :: x in InsertByOrder(j, s) ==> x == j || x in s
  {
    if s != [] && j.order > s[0].order {
      InsertByOrderMembers(j, s[1..]);
    }
  }

  /** A job no later than every job of a sorted list can go in front of it. */
  lemma SortedCons(j: Job, t: seq<Job>)
    requires SortedByOrder(t) && forall x :: x in t ==> j.order <= x.order
    ensures SortedByOrder([j] + t)
  {
    var r := [j] + t;
    forall a, b | 0 <= a < b < |r|
      ensures r[a].order <= r[b].order
    {
      assert r[b] == t[b - 1];
      if 0 < a {
        assert r[a] == t[a - 1];
      } else {
        assert t[b - 1] in t;
      }
    }
  }

  lemma {:induction false} InsertByOrderSorted(j: Job, s: seq<Job>)
    requires SortedByOrder(s)
    ensures SortedByOrder(InsertByOrder(j, s))
    ensures InsertByOrder(j, s)[0] == j || (s != [] && InsertByOrder(j, s)[0] == s[0])
  {
    if s == [] || j.order <= s[0].order {
      forall x | x in s ensures j.order <= x.order {
        var k :| 0 <= k < |s| && s[k] == x;
        assert s[0].order <= s[k].order;
      }
      SortedCons(j, s);
    } else {
      InsertByOrderSorted(j, s[1..]);
      InsertByOrderMembers(j, s[1..]);
      forall x | x in InsertByOrder(j, s[1..]) ensures s[0].order <= x.order {
        if x != j {
          var k :| 0 <= k < |s[1..]| && s[1..][k] == x;
          assert s[k + 1] == x;
        }
      }
      SortedCons(s[0], InsertByOrder(j, s[1..]));
    }
  }

  /** `jobs.sort((a, b) => a.order - b.order)`, a stable sort. */
  function SortByOrder(s: seq<Job>): (r: seq<Job>)
    ensures multiset(r) == multiset(s)
    ensures |r| == |s|
    ensures SortedByOrder(r)
  {
    if s == [] then []
    else
      assert s == [s[0]] + s[1..];
      InsertByOrderSorted(s[0], SortByOrder(s[1..]));
      InsertByOrder(s[0], SortByOrder(s[1..]))
  }

  /** A list already in order is left exactly as it is by the sort. */
  lemma {:induction false} SortByOrderOfSorted(s: seq<Job>)
    requires SortedByOrder(s)
    ensures SortByOrder(s) == s
  {
    if s != [] {
      SortByOrderOfSorted(s[1..]);
      assert [s[0]] + s[1..] == s;
    }
  }

  /** `randomPickMultiple(JOB_TAGS, Math.floor(Math.random() * 5) + 2)`. */
  method PickTags(src: Entropy, cat: JobCatalog) returns (tags: seq<string>)
    requires src.Valid() && CatalogUsable(cat)
    modifies src`nextRandom
    ensures 2 <= |tags| <= 6 && multiset(tags) <= multiset(cat.tags) && NoDuplicates(tags)
  {
    var extraTags := src.Below(5);
    ghost var tagDraw := src.nextRandom;
    tags := src.PickMultiple(cat.tags, extraTags + 2);
    assert |tags| == extraTags + 2 by { assert extraTags + 2 <= 6 <= |cat.tags|; }
    PickMultipleDistinct(cat.tags, extraTags + 2, src.random, tagDraw);
  }

  /** One iteration of the loop in `generateJobs()`: the job at index `i` of the list. */
  method GenerateJob(src: Entropy, cat: JobCatalog, i: nat, now: Timestamp, yearAgo: Timestamp) returns (job: Job)
    requires src.Valid() && CatalogUsable(cat) && yearAgo <= now
    modifies src
    ensures job.order == i + 1 && SeededJob(job, cat, now, yearAgo)
    ensures job.id == src.uuids(old(src.nextUuid))
    ensures src.nextUuid == old(src.nextUuid) + 1
  {
    var title := src.Pick(cat.titles);
    var slug := GenerateSlug(title);
    var createdAt := src.Date(yearAgo, now);
    var updatedAt := src.Date(createdAt, now);
    var id := src.GenerateId();
    var statusDraw := src.Random();
    var status := if statusDraw < 0.8 then Active else Archived;
    var tags := PickTags(src, cat);
    var description := src.Pick(cat.descriptions);
    var requirements := src.Pick(cat.requirements);
    var location := src.Pick(cat.locations);
    var salaryDraw := src.Random();
    var salary: Option<Salary> := None;
    if salaryDraw < 0.7 {
      var range := src.SalaryRange();
      salary := Some(range);
    }
    job := Job(id, title, slug, status, tags, i + 1, Some(description), Some(requirements),
               Some(location), salary, createdAt, updatedAt);
  }

  /** Jobs numbered 1, 2, 3, ... in list order come out of the sort unchanged. */
  lemma ConsecutiveOrdersSorted(jobs: seq<Job>)
    requires forall k :: 0 <= k < |jobs| ==> jobs[k].order == k + 1
    ensures SortByOrder(jobs) == jobs
  {
    assert SortedByOrder(jobs);
    SortByOrderOfSorted(jobs);
  }

  /**
   * `generateJobs()`, for any usable catalog (the seed passes JOB_CATALOG): `now` is the current
   * instant, `yearAgo` the same instant one calendar year earlier.
   */
  method GenerateJobs(src: Entropy, cat: JobCatalog, now: Timestamp, yearAgo: Timestamp) returns (jobs: seq<Job>)
    requires src.Valid() && CatalogUsable(cat) && yearAgo <= now
    modifies src
    ensures |jobs| == JOB_COUNT
    ensures forall i :: 0 <= i < |jobs| ==> jobs[i].order == i + 1 && SeededJob(jobs[i], cat, now, yearAgo)
    ensures forall i :: 0 <= i < |jobs| ==> jobs[i].id == src.uuids(old(src.nextUuid) + i)
    ensures forall a, b :: 0 <= a < b < |jobs| ==> jobs[a].id != jobs[b].id
    ensures src.nextUuid == old(src.nextUuid) + JOB_COUNT
  {
    ghost var firstId := src.nextUuid;
    jobs := [];
    for i := 0 to JOB_COUNT
      invariant |jobs| == i
      invariant forall k :: 0 <= k < i ==> jobs[k].order == k + 1
      invariant forall k :: 0 <= k < i ==> SeededJob(jobs[k], cat, now, yearAgo)
      invariant forall k :: 0 <= k < i ==> jobs[k].id == src.uuids(firstId + k)
      invariant src.nextUuid == firstId + i
    {
      var job := GenerateJob(src, cat, i, now, yearAgo);
      jobs := jobs + [job];
    }
    ConsecutiveOrdersSorted(jobs);
    jobs := SortByOrder(jobs);
  }
}
