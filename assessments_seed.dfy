/**
 * The assessment generator (seedData/assessments.ts): up to three assessments, each
 * built from nested section and question loops whose parent ids are filled in afterwards.
 */
module AssessmentSeed {
  import opened Wrappers
  import opened Text
  import opened Lists
  import opened Entities
  import opened SeedUtils

  const ASSESSMENT_COUNT: nat := 3

  const ASSESSMENT_TITLES: seq<string> := [
    "Technical Skills Assessment",
    "Problem Solving Challenge",
    "Cultural Fit Interview",
    "Coding Challenge",
    "Design Portfolio Review"
  ]

  const QUESTION_TITLES: seq<string> := [
    "What is your experience with React?",
    "How do you handle state management?",
    "Describe a challenging project you worked on",
    "What is your approach to testing?",
    "How do you ensure code quality?",
    "What is your experience with version control?",
    "How do you handle performance optimization?",
    "Describe your experience with APIs",
    "What is your approach to debugging?",
    "How do you stay updated with new technologies?",
    "What is your experience with databases?",
    "How do you handle team collaboration?",
    "What is your experience with cloud platforms?",
    "How do you approach security in development?",
    "What is your experience with CI/CD?"
  ]

  const QUESTION_OPTIONS: seq<seq<string>> := [
    ["Excellent", "Good", "Fair", "Poor"],
    ["Yes", "No", "Sometimes", "Not sure"],
    ["Strongly Agree", "Agree", "Neutral", "Disagree", "Strongly Disagree"],
    ["1-2 years", "3-5 years", "5-10 years", "10+ years"],
    ["Daily", "Weekly", "Monthly", "Rarely", "Never"]
  ]

  /** The question types the generator draws from: every type except file upload. */
  const QUESTION_TYPES: seq<QuestionType> := [SingleChoice, MultiChoice, ShortText, LongText, Numeric]

  /** The word lists the generator draws from. */
  datatype AssessmentCatalog = AssessmentCatalog(
    titles: seq<string>,
    questionTitles: seq<string>,
    optionSets: seq<seq<string>>)

  const ASSESSMENT_CATALOG := AssessmentCatalog(ASSESSMENT_TITLES, QUESTION_TITLES, QUESTION_OPTIONS)

  /** Every list can be picked from, and every option set has four or five captions. */
  predicate CatalogUsable(cat: AssessmentCatalog) {
    && |cat.titles| > 0
    && |cat.questionTitles| > 0
    && |cat.optionSets| > 0
    && forall captions :: captions in cat.optionSets ==> 4 <= |captions| <= 5
  }

  lemma AssessmentCatalogUsable()
    ensures CatalogUsable(ASSESSMENT_CATALOG)
  {
  }

  function IsChoice(kind: QuestionType): bool {
    kind == SingleChoice || kind == MultiChoice
  }

  /** `options` are `captions` in order, numbered from 1, each valued by its hyphenated caption. */
  predicate OptionsFrom(options: seq<QuestionOption>, captions: seq<string>) {
    && |options| == |captions|
    && forall k :: 0 <= k < |options| ==>
         && options[k].caption == captions[k]
         && options[k].value == Hyphenate(captions[k])
         && options[k].order == k + 1
  }

  /** The validation rule each generated question type carries. */
  predicate ValidationFits(kind: QuestionType, validation: Option<Validation>) {
    match kind
    case Numeric =>
      && validation.Some?
      && validation.value.minLength.None? && validation.value.maxLength.None? && validation.value.pattern.None?
      && validation.value.min.Some? && 0 <= validation.value.min.value <= 9
      && validation.value.max.Some? && 50 <= validation.value.max.value <= 149
    case ShortText => validation == Some(Validation(Some(10), Some(200), None, None, None))
    case LongText => validation == Some(Validation(Some(50), Some(1000), None, None, None))
    case _ => validation.None?
  }

  /** What the generator promises of the question numbered `order`, whatever the draws. */
  predicate SeededQuestion(q: Question, cat: AssessmentCatalog, order: int) {
    && q.kind != FileUpload
    && q.title in cat.questionTitles
    && q.order == order
    && ValidationFits(q.kind, q.validation)
    && (q.options.Some? <==> IsChoice(q.kind))
    && (q.options.Some? ==>
          && 4 <= |q.options.value| <= 5
          && exists captions :: captions in cat.optionSets && OptionsFrom(q.options.value, captions))
  }

  /** `captions.map((option, index) => ...)`: one fresh id per option. */
  method BuildOptions(src: Entropy, captions: seq<string>) returns (options: seq<QuestionOption>)
    requires src.Valid()
    modifies src
    ensures OptionsFrom(options, captions)
    ensures forall k :: 0 <= k < |options| ==> options[k].id == src.uuids(old(src.nextUuid) + k)
    ensures src.nextUuid == old(src.nextUuid) + |captions|
    ensures OptionIdsDistinct(options)
  {
    ghost var firstId := src.nextUuid;
    options := [];
    for k := 0 to |captions|
      invariant OptionsFrom(options, captions[..k])
      invariant forall j :: 0 <= j < k ==> options[j].id == src.uuids(firstId + j)
      invariant src.nextUuid == firstId + k
    {
      var id := src.GenerateId();
      options := options + [QuestionOption(id, captions[k], Hyphenate(captions[k]), k + 1)];
    }
    assert captions[..|captions|] == captions;
    forall a, b | 0 <= a < b < |options|
      ensures options[a].id != options[b].id
    {
      assert firstId + a != firstId + b;
    }
  }

  /** No two options of a question share an id. */
  predicate OptionIdsDistinct(options: seq<QuestionOption>) {
    forall a, b :: 0 <= a < b < |options| ==> options[a].id != options[b].id
  }

  /** The `validation` field of a question of type `kind`. */
  method DrawValidation(src: Entropy, kind: QuestionType) returns (validation: Option<Validation>)
    modifies src`nextRandom
    ensures ValidationFits(kind, validation)
  {
    validation := None;
    if kind == Numeric {
      var min := src.Below(10);
      var max := src.Below(100);
      validation := Some(Validation(None, None, Some(min), Some(max + 50), None));
    } else if kind == ShortText {
      validation := Some(Validation(Some(10), Some(200), None, None, None));
    } else if kind == LongText {
      validation := Some(Validation(Some(50), Some(1000), None, None, None));
    }
  }

  /** The `options` field of a question of type `kind`: present exactly for the choice types. */
  method DrawOptions(src: Entropy, cat: AssessmentCatalog, kind: QuestionType)
    returns (options: Option<seq<QuestionOption>>)
    requires src.Valid() && CatalogUsable(cat)
    modifies src
    ensures options.Some? <==> IsChoice(kind)
    ensures options.Some? ==>
      && 4 <= |options.value| <= 5
      && OptionIdsDistinct(options.value)
      && exists captions :: captions in cat.optionSets && OptionsFrom(options.value, captions)
    ensures old(src.nextUuid) <= src.nextUuid
  {
    options := None;
    if IsChoice(kind) {
      var captions := src.Pick(cat.optionSets);
      var built := BuildOptions(src, captions);
      options := Some(built);
    }
  }

  /** A question's optional description and whether it is required, each behind its own draw. */
  method DrawPrompt(src: Entropy) returns (description: Option<string>, isRequired: bool)
    modifies src`nextRandom, src`nextWord
    ensures description.Some? <==> src.random(old(src.nextRandom)) < 0.5
    ensures description.Some? ==> description.value == src.words(old(src.nextWord))
    ensures isRequired <==> src.random(old(src.nextRandom) + 1) < 0.8
    ensures src.nextRandom == old(src.nextRandom) + 2
  {
    description := None;
    var draw := src.Random();
    if draw < 0.5 {
      var sentence := src.Word();
      description := Some(sentence);
    }
    draw := src.Random();
    isRequired := draw < 0.8;
  }

  /** One iteration of the question loop; the `sectionId` it carries is a placeholder. */
  method GenerateQuestion(src: Entropy, cat: AssessmentCatalog, order: int, now: Timestamp) returns (q: Question)
    requires src.Valid() && CatalogUsable(cat)
    modifies src
    ensures SeededQuestion(q, cat, order)
    ensures q.createdAt == now && q.updatedAt == now
    ensures q.options.Some? ==> OptionIdsDistinct(q.options.value)
    ensures old(src.nextUuid) <= src.nextUuid
  {
    var kind := src.Pick(QUESTION_TYPES);
    var id := src.GenerateId();
    var placeholder := src.GenerateId();
    var title := src.Pick(cat.questionTitles);
    var description, isRequired := DrawPrompt(src);
    var validation := DrawValidation(src, kind);
    var options := DrawOptions(src, cat, kind);
    q := Question(id, placeholder, kind, title, description, order, isRequired, validation, options, now, now);
  }

  /** `questions.map((q) => ({ ...q, sectionId }))`. */
  function WithSectionId(questions: seq<Question>, sectionId: string): (r: seq<Question>)
    ensures |r| == |questions|
    ensures forall k :: 0 <= k < |r| ==>
      r[k].sectionId == sectionId && r[k].(sectionId := questions[k].sectionId) == questions[k]
  {
    seq(|questions|, k requires 0 <= k < |questions| => questions[k].(sectionId := sectionId))
  }

  /** What the generator promises of the section numbered `order`. */
  predicate SeededSection(s: Section, cat: AssessmentCatalog, order: int) {
    && s.order == order
    && 3 <= |s.questions| <= 7
    && forall k :: 0 <= k < |s.questions| ==>
         SeededQuestion(s.questions[k], cat, k + 1) && s.questions[k].sectionId == s.id
  }

  /** One iteration of the section loop; the `assessmentId` it carries is a placeholder. */
  method GenerateSection(src: Entropy, cat: AssessmentCatalog, order: int, now: Timestamp) returns (s: Section)
    requires src.Valid() && CatalogUsable(cat)
    modifies src
    ensures SeededSection(s, cat, order)
    ensures old(src.nextUuid) <= src.nextUuid
  {
    var extra := src.Below(5);
    var questions: seq<Question> := [];
    ghost var firstId := src.nextUuid;
    for k := 0 to extra + 3
      invariant |questions| == k
      invariant firstId <= src.nextUuid
      invariant forall j :: 0 <= j < k ==> SeededQuestion(questions[j], cat, j + 1)
    {
      var q := GenerateQuestion(src, cat, k + 1, now);
      questions := questions + [q];
    }
    var sectionId := src.GenerateId();
    var placeholder := src.GenerateId();
    var title := src.Word();
    var description := src.Word();
    s := Section(sectionId, placeholder, title, Some(description), order,
                 WithSectionId(questions, sectionId), now, now);
  }

  /** `sections.map((s) => ({ ...s, assessmentId }))`. */
  function WithAssessmentId(sections: seq<Section>, assessmentId: string): (r: seq<Section>)
    ensures |r| == |sections|
    ensures forall k :: 0 <= k < |r| ==>
      r[k].assessmentId == assessmentId && r[k].(assessmentId := sections[k].assessmentId) == sections[k]
  {
    seq(|sections|, k requires 0 <= k < |sections| => sections[k].(assessmentId := assessmentId))
  }

  /** What the generator promises of every assessment. */
  predicate SeededAssessment(a: Assessment, cat: AssessmentCatalog) {
    && a.title in cat.titles
    && 2 <= |a.sections| <= 4
    && forall k :: 0 <= k < |a.sections| ==>
         SeededSection(a.sections[k], cat, k + 1) && a.sections[k].assessmentId == a.id
  }

  /** Every assessment of the list satisfies `SeededAssessment`; stated from the back, one assessment at a time. */
  predicate AllSeeded(assessments: seq<Assessment>, cat: AssessmentCatalog)
    decreases |assessments|
  {
    |assessments| == 0 ||
    (AllSeeded(assessments[..|assessments| - 1], cat) && SeededAssessment(assessments[|assessments| - 1], cat))
  }

  lemma AllSeededSnoc(assessments: seq<Assessment>, a: Assessment, cat: AssessmentCatalog)
    requires AllSeeded(assessments, cat) && SeededAssessment(a, cat)
    ensures AllSeeded(assessments + [a], cat)
  {
    assert (assessments + [a])[..|assessments|] == assessments;
  }

  /** `AllSeeded` says `SeededAssessment` of each element. */
  lemma {:induction false} AllSeededAt(assessments: seq<Assessment>, cat: AssessmentCatalog, k: int)
    requires AllSeeded(assessments, cat) && 0 <= k < |assessments|
    ensures SeededAssessment(assessments[k], cat)
  {
    if k < |assessments| - 1 {
      var init := assessments[..|assessments| - 1];
      AllSeededAt(init, cat, k);
      assert init[k] == assessments[k];
    }
  }

  /** The body of the `forEach` over the selected jobs: the assessment attached to `job`. */
  method GenerateAssessment(src: Entropy, cat: AssessmentCatalog, job: Job, now: Timestamp)
    returns (a: Assessment, ghost position: nat)
    requires src.Valid() && CatalogUsable(cat)
    modifies src
    ensures SeededAssessment(a, cat) && a.jobId == job.id
    ensures old(src.nextUuid) <= position < src.nextUuid && a.id == src.uuids(position)
  {
    ghost var firstId := src.nextUuid;
    var extra := src.Below(3);
    var sections: seq<Section> := [];
    for k := 0 to extra + 2
      invariant |sections| == k
      invariant firstId <= src.nextUuid
      invariant forall j :: 0 <= j < k ==> SeededSection(sections[j], cat, j + 1)
    {
      var s := GenerateSection(src, cat, k + 1, now);
      sections := sections + [s];
    }
    position := src.nextUuid;
    var assessmentId := src.GenerateId();
    var title := src.Pick(cat.titles);
    var description := src.Word();
    var draw := src.Random();
    a := Assessment(assessmentId, job.id, title, Some(description), WithAssessmentId(sections, assessmentId),
                    draw < 0.8, now, now);
  }

  /** `randomPickMultiple(jobs, 3)`: up to three jobs, no position picked twice. */
  method SelectJobs(src: Entropy, jobs: seq<Job>) returns (selected: seq<Job>)
    modifies src`nextRandom
    ensures |selected| == Min(ASSESSMENT_COUNT, |jobs|)
    ensures multiset(selected) <= multiset(jobs)
    ensures NoDuplicates(jobs) ==> NoDuplicates(selected)
  {
    ghost var firstDraw := src.nextRandom;
    selected := src.PickMultiple(jobs, ASSESSMENT_COUNT);
    if NoDuplicates(jobs) {
      PickMultipleDistinct(jobs, ASSESSMENT_COUNT, src.random, firstDraw);
    }
  }

  /** Assessment `j` belongs to job `selected[j]` and carries the id drawn at `positions[j]`. */
  ghost predicate Attached(assessments: seq<Assessment>, selected: seq<Job>, positions: seq<nat>, uuids: nat -> string) {
    && |assessments| == |positions| <= |selected|
    && forall j :: 0 <= j < |assessments| ==>
         assessments[j].jobId == selected[j].id && assessments[j].id == uuids(positions[j])
  }

  lemma AttachedSnoc(assessments: seq<Assessment>, selected: seq<Job>, positions: seq<nat>, uuids: nat -> string,
                     a: Assessment, position: nat)
    requires Attached(assessments, selected, positions, uuids) && |assessments| < |selected|
    requires a.jobId == selected[|assessments|].id && a.id == uuids(position)
    ensures Attached(assessments + [a], selected, positions + [position], uuids)
  {
  }

  /** One turn of the `forEach`: the assessment for the next selected job joins the list. */
  method AttachNext(src: Entropy, cat: AssessmentCatalog, selected: seq<Job>, now: Timestamp,
                    assessments: seq<Assessment>, ghost positions: seq<nat>, ghost firstId: nat)
    returns (extended: seq<Assessment>, ghost extendedPositions: seq<nat>)
    requires src.Valid() && CatalogUsable(cat) && |assessments| < |selected|
    requires AllSeeded(assessments, cat) && Attached(assessments, selected, positions, src.uuids)
    requires firstId <= src.nextUuid && DrawnBetween(positions, firstId, src.nextUuid)
    modifies src
    ensures |extended| == |assessments| + 1 && extended[..|assessments|] == assessments
    ensures AllSeeded(extended, cat) && Attached(extended, selected, extendedPositions, src.uuids)
    ensures firstId <= src.nextUuid && DrawnBetween(extendedPositions, firstId, src.nextUuid)
  {
    ghost var mid := src.nextUuid;
    var a, position := GenerateAssessment(src, cat, selected[|assessments|], now);
    DrawnAppend(positions, [position], firstId, mid, src.nextUuid);
    AllSeededSnoc(assessments, a, cat);
    AttachedSnoc(assessments, selected, positions, src.uuids, a, position);
    extended, extendedPositions := assessments + [a], positions + [position];
  }

  /**
   * `generateAssessments(jobs)`: one assessment for each of up to three jobs picked without
   * repetition; `selected` are those jobs.
   */
  method GenerateAssessments(src: Entropy, cat: AssessmentCatalog, jobs: seq<Job>, now: Timestamp)
    returns (assessments: seq<Assessment>, ghost selected: seq<Job>)
    requires src.Valid() && CatalogUsable(cat)
    modifies src
    ensures |assessments| == |selected| == Min(ASSESSMENT_COUNT, |jobs|)
    ensures multiset(selected) <= multiset(jobs)
    ensures NoDuplicates(jobs) ==> NoDuplicates(selected)
    ensures AllSeeded(assessments, cat)
    ensures forall k :: 0 <= k < |assessments| ==> assessments[k].jobId == selected[k].id
    ensures forall a, b :: 0 <= a < b < |assessments| ==> assessments[a].id != assessments[b].id
  {
    ghost var firstId := src.nextUuid;
    ghost var positions: seq<nat> := [];
    var selectedJobs := SelectJobs(src, jobs);
    selected := selectedJobs;
    assessments := [];
    for k := 0 to |selectedJobs|
      invariant |assessments| == k
      invariant AllSeeded(assessments, cat)
      invariant Attached(assessments, selectedJobs, positions, src.uuids)
      invariant firstId <= src.nextUuid && DrawnBetween(positions, firstId, src.nextUuid)
    {
      assessments, positions := AttachNext(src, cat, selectedJobs, now, assessments, positions, firstId);
    }
    DrawnDistinct(src, positions, firstId, src.nextUuid);
  }
}
