/** The validators. Each one loops over its list and stops at the first fault; its contract says, over the whole
    list, exactly what it accepts, and which error it gives otherwise. */
module Validate {
  import opened Common
  import opened Text
  import opened Types
  import opened Lookup

  // ---------------------------------------------------------------- what each validator accepts

  predicate DraftDimensionOk(d: DraftDimension) {
    !Blank(d.name) && !Blank(d.rubric) && !Blank(d.rationale)
  }

  ghost predicate DimensionGenerationOk(drafts: seq<DraftDimension>, limits: ChecklistLimits) {
    && 0 < |drafts| <= limits.WithDefaults().maxDimensions
    && forall i | 0 <= i < |drafts| :: DraftDimensionOk(drafts[i])
  }

  predicate DimensionOk(d: Dimension) {
    !Blank(d.id) && d.ordinal > 0 && !Blank(d.name) && !Blank(d.rubric) && !Blank(d.rationale)
  }

  ghost predicate UniqueDimensions(ds: seq<Dimension>) {
    forall i, j | 0 <= i < j < |ds| :: ds[i].id != ds[j].id
  }

  ghost predicate DimensionsOk(ds: seq<Dimension>, limits: ChecklistLimits) {
    && 0 < |ds| <= limits.WithDefaults().maxDimensions
    && UniqueDimensions(ds)
    && forall i | 0 <= i < |ds| :: DimensionOk(ds[i])
  }

  predicate DraftQuestionOk(q: DraftQuestion) {
    !Blank(q.rationale) && !Blank(q.question)
  }

  ghost predicate QuestionGenerationOk(drafts: seq<DraftQuestion>, limits: ChecklistLimits) {
    && 0 < |drafts| <= limits.WithDefaults().maxCandidatesPerDimension
    && forall i | 0 <= i < |drafts| :: DraftQuestionOk(drafts[i])
  }

  function DimensionIds(ds: seq<Dimension>): set<string> {
    set i | 0 <= i < |ds| :: ds[i].id
  }

  ghost predicate UniqueCandidates(cs: seq<CandidateQuestion>) {
    forall i, j | 0 <= i < j < |cs| :: cs[i].id != cs[j].id
  }

  ghost predicate CandidateOk(c: CandidateQuestion, dimensionIds: set<string>) {
    && !Blank(c.id) && c.dimensionID in dimensionIds && c.ordinal > 0
    && !Blank(c.rationale) && !Blank(c.question)
  }

  /** How many candidates belong to a dimension. */
  function CountInDimension(cs: seq<CandidateQuestion>, dimensionID: string): nat {
    if cs == [] then 0
    else CountInDimension(cs[..|cs| - 1], dimensionID) + if cs[|cs| - 1].dimensionID == dimensionID then 1 else 0
  }

  /** No dimension has more candidates than this. */
  ghost predicate NoneOver(cs: seq<CandidateQuestion>, max: int) {
    forall d :: CountInDimension(cs, d) <= max
  }

  ghost predicate CandidatesOk(ds: seq<Dimension>, cs: seq<CandidateQuestion>, limits: ChecklistLimits) {
    && 0 < |cs|
    && UniqueCandidates(cs)
    && (forall i | 0 <= i < |cs| :: CandidateOk(cs[i], DimensionIds(ds)))
    && NoneOver(cs, limits.WithDefaults().maxCandidatesPerDimension)
  }

  ghost predicate UniqueWeights(ws: seq<Weight>) {
    forall i, j | 0 <= i < j < |ws| :: ws[i].candidateQuestionID != ws[j].candidateQuestionID
  }

  predicate WeightOk(w: Weight) {
    !Blank(w.candidateQuestionID) && !Blank(w.rationale) && 0 <= w.weight <= DEFAULT_MAX_SPLIT_COUNT
  }

  ghost predicate WeightShapeOk(ws: seq<Weight>) {
    && 0 < |ws|
    && UniqueWeights(ws)
    && forall i | 0 <= i < |ws| :: WeightOk(ws[i])
  }

  function CandidateIds(cs: seq<CandidateQuestion>): set<string> {
    set i | 0 <= i < |cs| :: cs[i].id
  }

  ghost function WeightIds(ws: seq<Weight>): set<string> {
    set i | 0 <= i < |ws| :: ws[i].candidateQuestionID
  }

  /** The weights cover the candidates exactly once each, within the split limit. */
  ghost predicate WeightsOk(cs: seq<CandidateQuestion>, ws: seq<Weight>, limits: ChecklistLimits) {
    && limits.Valid()
    && WeightShapeOk(ws)
    && UniqueCandidates(cs)
    && (forall i | 0 <= i < |cs| :: cs[i].id != "")
    && WeightIds(ws) == CandidateIds(cs)
    && forall i | 0 <= i < |ws| :: ws[i].weight <= limits.WithDefaults().maxSplitCount
  }

  /** The number of final questions a list of weights asks for. */
  function WeightSum(ws: seq<Weight>): nat {
    if ws == [] then 0
    else WeightSum(ws[..|ws| - 1]) + if ws[|ws| - 1].weight > 0 then ws[|ws| - 1].weight else 0
  }

  ghost predicate UniqueQuestions(qs: seq<FinalQuestion>) {
    forall i, j | 0 <= i < j < |qs| :: qs[i].id != qs[j].id
  }

  ghost predicate UniqueQuestionOrdinals(qs: seq<FinalQuestion>) {
    forall i, j | 0 <= i < j < |qs| :: qs[i].ordinal != qs[j].ordinal
  }

  function CandidateKey(c: CandidateQuestion): string { c.id }

  function FindCandidate(cs: seq<CandidateQuestion>, id: string): Option<CandidateQuestion> {
    Find(cs, CandidateKey, id)
  }

  ghost predicate FinalQuestionOk(q: FinalQuestion, ds: seq<Dimension>, cs: seq<CandidateQuestion>) {
    && !Blank(q.id) && q.ordinal > 0
    && q.dimensionID in DimensionIds(ds)
    && FindCandidate(cs, q.sourceCandidateID).Some?
    && FindCandidate(cs, q.sourceCandidateID).value.dimensionID == q.dimensionID
    && !Blank(q.rationale) && !Blank(q.question)
  }

  ghost predicate FinalQuestionsOk(ds: seq<Dimension>, cs: seq<CandidateQuestion>, qs: seq<FinalQuestion>, limits: ChecklistLimits) {
    && 0 < |qs| <= limits.WithDefaults().maxFinalQuestions
    && UniqueQuestions(qs)
    && UniqueQuestionOrdinals(qs)
    && forall i | 0 <= i < |qs| :: FinalQuestionOk(qs[i], ds, cs)
  }

  ghost predicate SplitOk(s: SplitQuestions, expectedCount: int) {
    && !Blank(s.candidateQuestionID)
    && 1 < expectedCount == |s.questions|
    && forall i | 0 <= i < |s.questions| :: DraftQuestionOk(s.questions[i])
  }

  ghost predicate UniqueJudgments(js: seq<Judgment>) {
    forall i, j | 0 <= i < j < |js| :: js[i].questionID != js[j].questionID
  }

  predicate JudgmentOk(j: Judgment) {
    !Blank(j.questionID) && !Blank(j.evidence) && (j.answer == ANSWER_YES || j.answer == ANSWER_NO)
  }

  ghost predicate JudgmentShapeOk(js: seq<Judgment>) {
    && 0 < |js|
    && UniqueJudgments(js)
    && forall i | 0 <= i < |js| :: JudgmentOk(js[i])
  }

  function QuestionIds(qs: seq<FinalQuestion>): set<string> {
    set i | 0 <= i < |qs| :: qs[i].id
  }

  ghost function JudgedIds(js: seq<Judgment>): set<string> {
    set i | 0 <= i < |js| :: js[i].questionID
  }

  /** A list of questions that can be judged. */
  ghost predicate JudgeableQuestions(qs: seq<FinalQuestion>) {
    0 < |qs| && UniqueQuestions(qs) && forall i | 0 <= i < |qs| :: !Blank(qs[i].id)
  }

  /** The questions are to blame only for judgments of the right shape. */
  ghost function JudgmentsCode(qs: seq<FinalQuestion>, js: seq<Judgment>): ErrorCode {
    if JudgmentShapeOk(js) && !JudgeableQuestions(qs) then InvalidFinalChecklist else InvalidJudgments
  }

  /** The judgments answer every question exactly once and nothing else. */
  ghost predicate JudgmentsOk(qs: seq<FinalQuestion>, js: seq<Judgment>) {
    JudgeableQuestions(qs) && JudgmentShapeOk(js) && JudgedIds(js) == QuestionIds(qs)
  }

  // Acceptance of what refers to other lists, in terms of the lists.

  ghost predicate HasDimension(ds: seq<Dimension>, id: string) {
    exists k | 0 <= k < |ds| :: ds[k].id == id
  }

  ghost predicate HasSource(cs: seq<CandidateQuestion>, id: string, dimensionID: string) {
    exists k | 0 <= k < |cs| :: cs[k].id == id && cs[k].dimensionID == dimensionID
  }

  /** The places of the first n candidates that belong to a dimension. */
  ghost function PlacesOf(cs: seq<CandidateQuestion>, n: nat, d: string): set<int>
    requires n <= |cs|
  {
    set i | 0 <= i < n && cs[i].dimensionID == d
  }

  lemma {:induction false} CountIsSize(cs: seq<CandidateQuestion>, n: nat, d: string)
    requires n <= |cs|
    ensures CountInDimension(cs[..n], d) == |PlacesOf(cs, n, d)|
  {
    if n > 0 {
      CountIsSize(cs, n - 1, d);
      CountStep(cs, n - 1);
      PlacesStep(cs, n - 1, d);
    }
  }

  lemma PlacesStep(cs: seq<CandidateQuestion>, n: nat, d: string)
    requires n < |cs|
    ensures |PlacesOf(cs, n + 1, d)| == |PlacesOf(cs, n, d)| + if cs[n].dimensionID == d then 1 else 0
  {
    assert PlacesOf(cs, n + 1, d) == PlacesOf(cs, n, d) + if cs[n].dimensionID == d then {n} else {};
  }

  lemma {:induction false} WithinLimit(cs: seq<CandidateQuestion>, max: int)
    ensures NoneOver(cs, max) <==> forall d :: |PlacesOf(cs, |cs|, d)| <= max
  {
    assert cs[..|cs|] == cs;
    forall d ensures |PlacesOf(cs, |cs|, d)| == CountInDimension(cs, d) {
      CountIsSize(cs, |cs|, d);
    }
  }

  /** Accepted candidates have different ids, texts, and a dimension that is there and has no more than the limit of them. */
  lemma {:induction false} CandidatesAccepted(ds: seq<Dimension>, cs: seq<CandidateQuestion>, limits: ChecklistLimits)
    ensures CandidatesOk(ds, cs, limits) <==>
            && 0 < |cs|
            && (forall i, j | 0 <= i < j < |cs| :: cs[i].id != cs[j].id)
            && (forall i | 0 <= i < |cs| ::
                  && !Blank(cs[i].id) && cs[i].ordinal > 0 && !Blank(cs[i].rationale) && !Blank(cs[i].question)
                  && HasDimension(ds, cs[i].dimensionID))
            && forall d :: |PlacesOf(cs, |cs|, d)| <= limits.WithDefaults().maxCandidatesPerDimension
  {
    WithinLimit(cs, limits.WithDefaults().maxCandidatesPerDimension);
    forall i | 0 <= i < |cs| ensures HasDimension(ds, cs[i].dimensionID) <==> cs[i].dimensionID in DimensionIds(ds) {
    }
  }

  /** Accepted questions have different ids and ordinals, texts, a dimension that is there, and a source candidate of it. */
  lemma {:induction false} FinalQuestionsAccepted(ds: seq<Dimension>, cs: seq<CandidateQuestion>, qs: seq<FinalQuestion>,
                                                  limits: ChecklistLimits)
    requires UniqueCandidates(cs)
    ensures FinalQuestionsOk(ds, cs, qs, limits) <==>
            && 0 < |qs| <= limits.WithDefaults().maxFinalQuestions
            && (forall i, j | 0 <= i < j < |qs| :: qs[i].id != qs[j].id && qs[i].ordinal != qs[j].ordinal)
            && forall i | 0 <= i < |qs| ::
                 && !Blank(qs[i].id) && qs[i].ordinal > 0 && !Blank(qs[i].rationale) && !Blank(qs[i].question)
                 && HasDimension(ds, qs[i].dimensionID)
                 && HasSource(cs, qs[i].sourceCandidateID, qs[i].dimensionID)
  {
    forall i | 0 <= i < |qs|
      ensures FinalQuestionOk(qs[i], ds, cs) <==>
              && !Blank(qs[i].id) && qs[i].ordinal > 0 && !Blank(qs[i].rationale) && !Blank(qs[i].question)
              && HasDimension(ds, qs[i].dimensionID)
              && HasSource(cs, qs[i].sourceCandidateID, qs[i].dimensionID)
    {
      SourceFound(cs, qs[i].sourceCandidateID, qs[i].dimensionID);
    }
  }

  lemma {:induction false} SourceFound(cs: seq<CandidateQuestion>, id: string, dimensionID: string)
    requires UniqueCandidates(cs)
    ensures HasSource(cs, id, dimensionID) <==>
            FindCandidate(cs, id).Some? && FindCandidate(cs, id).value.dimensionID == dimensionID
  {
    assert UniqueBy(cs, CandidateKey);
    forall k | 0 <= k < |cs| && cs[k].id == id ensures FindCandidate(cs, id) == Some(cs[k]) {
      FindUnique(cs, CandidateKey, cs[k]);
    }
  }

  // ---------------------------------------------------------------- the validators

  method ValidateDimensionGeneration(drafts: seq<DraftDimension>, limits: ChecklistLimits)
    returns (err: Option<SemanticError>)
    ensures err.None? <==> DimensionGenerationOk(drafts, limits)
    ensures err.None? <==>
            && 0 < |drafts| <= limits.WithDefaults().maxDimensions
            && forall i | 0 <= i < |drafts| :: !Blank(drafts[i].name) && !Blank(drafts[i].rubric) && !Blank(drafts[i].rationale)
    ensures err.Some? ==> err.value.code == InvalidDimensionAnalysis
    ensures |drafts| > limits.WithDefaults().maxDimensions ==>
      err.Some? && err.value.diagnostics ==
        [LimitDiagnostic("max_dimensions", limits.WithDefaults().maxDimensions, |drafts|, "", "dimension_analysis")]
  {
    var l := limits.WithDefaults();
    if |drafts| == 0 {
      return Some(Semantic(InvalidDimensionAnalysis, Empty));
    }
    if |drafts| > l.maxDimensions {
      return Some(LimitExceeded(InvalidDimensionAnalysis,
        LimitDiagnostic("max_dimensions", l.maxDimensions, |drafts|, "", "dimension_analysis")));
    }
    for i := 0 to |drafts|
      invariant forall k | 0 <= k < i :: DraftDimensionOk(drafts[k])
    {
      if Blank(drafts[i].name) {
        return Some(Semantic(InvalidDimensionAnalysis, BlankText));
      }
      if Blank(drafts[i].rubric) {
        return Some(Semantic(InvalidDimensionAnalysis, BlankText));
      }
      if Blank(drafts[i].rationale) {
        return Some(Semantic(InvalidDimensionAnalysis, BlankText));
      }
    }
    return None;
  }

  method ValidateDimensions(ds: seq<Dimension>, limits: ChecklistLimits) returns (err: Option<SemanticError>)
    ensures err.None? <==> DimensionsOk(ds, limits)
    ensures err.None? <==>
            && 0 < |ds| <= limits.WithDefaults().maxDimensions
            && (forall i, j | 0 <= i < j < |ds| :: ds[i].id != ds[j].id)
            && forall i | 0 <= i < |ds| ::
                 !Blank(ds[i].id) && ds[i].ordinal > 0 && !Blank(ds[i].name) && !Blank(ds[i].rubric) && !Blank(ds[i].rationale)
    ensures err.Some? ==> err.value.code == InvalidDimensionAnalysis
  {
    var l := limits.WithDefaults();
    if |ds| == 0 {
      return Some(Semantic(InvalidDimensionAnalysis, Empty));
    }
    if |ds| > l.maxDimensions {
      return Some(LimitExceeded(InvalidDimensionAnalysis,
        LimitDiagnostic("max_dimensions", l.maxDimensions, |ds|, "", "validate_dimensions")));
    }
    var seen: set<string> := {};
    for i := 0 to |ds|
      invariant seen == DimensionIds(ds[..i])
      invariant UniqueDimensions(ds[..i])
      invariant forall k | 0 <= k < i :: DimensionOk(ds[k])
    {
      if Blank(ds[i].id) {
        return Some(Semantic(InvalidDimensionAnalysis, BlankText));
      }
      if ds[i].id in seen {
        ghost var k :| 0 <= k < i && ds[k].id == ds[i].id;
        return Some(Semantic(InvalidDimensionAnalysis, DuplicateId));
      }
      seen := seen + {ds[i].id};
      if ds[i].ordinal <= 0 {
        return Some(Semantic(InvalidDimensionAnalysis, BadOrdinal));
      }
      if Blank(ds[i].name) {
        return Some(Semantic(InvalidDimensionAnalysis, BlankText));
      }
      if Blank(ds[i].rubric) {
        return Some(Semantic(InvalidDimensionAnalysis, BlankText));
      }
      if Blank(ds[i].rationale) {
        return Some(Semantic(InvalidDimensionAnalysis, BlankText));
      }
      assert ds[..i + 1] == ds[..i] + [ds[i]];
    }
    assert ds[..|ds|] == ds;
    return None;
  }

  method ValidateQuestionGeneration(drafts: seq<DraftQuestion>, limits: ChecklistLimits)
    returns (err: Option<SemanticError>)
    ensures err.None? <==> QuestionGenerationOk(drafts, limits)
    ensures err.None? <==>
            && 0 < |drafts| <= limits.WithDefaults().maxCandidatesPerDimension
            && forall i | 0 <= i < |drafts| :: !Blank(drafts[i].rationale) && !Blank(drafts[i].question)
    ensures err.Some? ==> err.value.code == InvalidQuestionGeneration
  {
    var l := limits.WithDefaults();
    if |drafts| == 0 {
      return Some(Semantic(InvalidQuestionGeneration, Empty));
    }
    if |drafts| > l.maxCandidatesPerDimension {
      return Some(LimitExceeded(InvalidQuestionGeneration,
        LimitDiagnostic("max_candidates_per_dimension", l.maxCandidatesPerDimension, |drafts|, "", "question_generation")));
    }
    for i := 0 to |drafts|
      invariant forall k | 0 <= k < i :: DraftQuestionOk(drafts[k])
    {
      if Blank(drafts[i].rationale) {
        return Some(Semantic(InvalidQuestionGeneration, BlankText));
      }
      if Blank(drafts[i].question) {
        return Some(Semantic(InvalidQuestionGeneration, BlankText));
      }
    }
    return None;
  }

  lemma {:induction false} CountGrows(cs: seq<CandidateQuestion>, i: nat, dimensionID: string)
    requires i <= |cs|
    ensures CountInDimension(cs[..i], dimensionID) <= CountInDimension(cs, dimensionID)
    decreases |cs|
  {
    if i < |cs| {
      assert cs[..|cs| - 1][..i] == cs[..i];
      CountGrows(cs[..|cs| - 1], i, dimensionID);
    } else {
      assert cs[..i] == cs;
    }
  }

  lemma {:induction false} CountStep(cs: seq<CandidateQuestion>, i: nat)
    requires i < |cs|
    ensures forall d :: CountInDimension(cs[..i + 1], d) ==
                        CountInDimension(cs[..i], d) + if cs[i].dimensionID == d then 1 else 0
  {
    assert cs[..i + 1][..i] == cs[..i];
  }

  ghost predicate Counts(m: map<string, int>, cs: seq<CandidateQuestion>, max: int) {
    && (forall d :: CountInDimension(cs, d) == if d in m then m[d] else 0)
    && NoneOver(cs, max)
  }

  /** One more candidate counted. */
  function CountUp(m: map<string, int>, d: string): map<string, int> {
    m[d := (if d in m then m[d] else 0) + 1]
  }

  lemma CountsStep(m: map<string, int>, cs: seq<CandidateQuestion>, i: nat, max: int)
    requires i < |cs| && Counts(m, cs[..i], max)
    ensures CountUp(m, cs[i].dimensionID)[cs[i].dimensionID] == CountInDimension(cs[..i + 1], cs[i].dimensionID)
    ensures CountUp(m, cs[i].dimensionID)[cs[i].dimensionID] <= max ==> Counts(CountUp(m, cs[i].dimensionID), cs[..i + 1], max)
  {
    CountStep(cs, i);
    var d, m' := cs[i].dimensionID, CountUp(m, cs[i].dimensionID);
    var next := cs[..i + 1];
    forall x ensures CountInDimension(next, x) == if x in m' then m'[x] else 0 {
      assert CountInDimension(cs[..i], x) == if x in m then m[x] else 0;
    }
    if m'[d] <= max {
      forall x ensures CountInDimension(next, x) <= max {
        assert CountInDimension(cs[..i], x) <= max;
      }
    }
  }

  /** The checks on one candidate that follow the duplicate check. */
  function CandidateFault(c: CandidateQuestion, dimensionIds: set<string>): (fault: Option<Fault>)
    ensures !Blank(c.id) ==> (fault.None? <==> CandidateOk(c, dimensionIds))
  {
    if c.dimensionID !in dimensionIds then Some(UnknownId)
    else if c.ordinal <= 0 then Some(BadOrdinal)
    else if Blank(c.rationale) || Blank(c.question) then Some(BlankText)
    else None
  }

  lemma CandidatesStep(cs: seq<CandidateQuestion>, i: nat)
    requires i < |cs|
    ensures CandidateIds(cs[..i + 1]) == CandidateIds(cs[..i]) + {cs[i].id}
    ensures UniqueCandidates(cs[..i]) && cs[i].id !in CandidateIds(cs[..i]) ==> UniqueCandidates(cs[..i + 1])
    ensures cs[i].id in CandidateIds(cs[..i]) ==> !UniqueCandidates(cs)
  {
    assert cs[..i + 1] == cs[..i] + [cs[i]];
    if cs[i].id in CandidateIds(cs[..i]) {
      var k :| 0 <= k < i && cs[..i][k].id == cs[i].id;
      assert cs[k].id == cs[i].id;
    }
  }

  /** The running counters of the loop bound the count of every dimension, named or not. */
  method ValidateCandidateQuestions(ds: seq<Dimension>, cs: seq<CandidateQuestion>, limits: ChecklistLimits)
    returns (err: Option<SemanticError>)
    ensures err.None? <==> CandidatesOk(ds, cs, limits)
    ensures err.Some? ==> err.value.code == InvalidQuestionGeneration
  {
    var l := limits.WithDefaults();
    var dimensionByID := DimensionIds(ds);
    var countByDimension: map<string, int> := map[];
    var seen: set<string> := {};
    for i := 0 to |cs|
      invariant seen == CandidateIds(cs[..i]) && UniqueCandidates(cs[..i])
      invariant forall k | 0 <= k < i :: CandidateOk(cs[k], dimensionByID)
      invariant Counts(countByDimension, cs[..i], l.maxCandidatesPerDimension)
    {
      if Blank(cs[i].id) {
        return Some(Semantic(InvalidQuestionGeneration, BlankText));
      }
      CandidatesStep(cs, i);
      if cs[i].id in seen {
        return Some(Semantic(InvalidQuestionGeneration, DuplicateId));
      }
      seen := seen + {cs[i].id};
      var fault := CandidateFault(cs[i], dimensionByID);
      if fault.Some? {
        return Some(Semantic(InvalidQuestionGeneration, fault.value));
      }
      var d := cs[i].dimensionID;
      CountsStep(countByDimension, cs, i, l.maxCandidatesPerDimension);
      countByDimension := CountUp(countByDimension, d);
      if countByDimension[d] > l.maxCandidatesPerDimension {
        CountGrows(cs, i + 1, d);
        return Some(LimitExceeded(InvalidQuestionGeneration,
          LimitDiagnostic("max_candidates_per_dimension", l.maxCandidatesPerDimension, countByDimension[d], "",
            "validate_candidate_questions")));
      }
    }
    assert cs[..|cs|] == cs;
    if |cs| == 0 {
      return Some(Semantic(InvalidQuestionGeneration, Empty));
    }
    return None;
  }

  method ValidateWeightShape(ws: seq<Weight>) returns (err: Option<SemanticError>)
    ensures err.None? <==> WeightShapeOk(ws)
    ensures err.None? <==>
            && 0 < |ws|
            && (forall i, j | 0 <= i < j < |ws| :: ws[i].candidateQuestionID != ws[j].candidateQuestionID)
            && forall i | 0 <= i < |ws| :: !Blank(ws[i].candidateQuestionID) && !Blank(ws[i].rationale) && 0 <= ws[i].weight <= 4
    ensures err.Some? ==> err.value.code == InvalidWeights
  {
    if |ws| == 0 {
      return Some(Semantic(InvalidWeights, Empty));
    }
    var seen: set<string> := {};
    for i := 0 to |ws|
      invariant seen == WeightIds(ws[..i])
      invariant UniqueWeights(ws[..i])
      invariant forall k | 0 <= k < i :: WeightOk(ws[k])
    {
      if Blank(ws[i].candidateQuestionID) {
        return Some(Semantic(InvalidWeights, BlankText));
      }
      if ws[i].candidateQuestionID in seen {
        ghost var k :| 0 <= k < i && ws[k].candidateQuestionID == ws[i].candidateQuestionID;
        return Some(Semantic(InvalidWeights, DuplicateId));
      }
      seen := seen + {ws[i].candidateQuestionID};
      if Blank(ws[i].rationale) {
        return Some(Semantic(InvalidWeights, BlankText));
      }
      if ws[i].weight < 0 || ws[i].weight > DEFAULT_MAX_SPLIT_COUNT {
        return Some(Semantic(InvalidWeights, OutOfRange));
      }
      assert ws[..i + 1] == ws[..i] + [ws[i]];
    }
    assert ws[..|ws|] == ws;
    return None;
  }

  method ValidateWeights(cs: seq<CandidateQuestion>, ws: seq<Weight>, limits: ChecklistLimits)
    returns (err: Option<SemanticError>)
    ensures err.None? <==> WeightsOk(cs, ws, limits)
    ensures err.Some? ==> err.value.code == InvalidWeights
  {
    var l := limits.WithDefaults();
    if l.maxSplitCount > DEFAULT_MAX_SPLIT_COUNT {
      return Some(Semantic(InvalidWeights, OutOfRange));
    }
    err := ValidateWeightShape(ws);
    if err.Some? {
      return;
    }
    var candidateByID: set<string> := {};
    for i := 0 to |cs|
      invariant candidateByID == CandidateIds(cs[..i])
      invariant UniqueCandidates(cs[..i])
      invariant forall k | 0 <= k < i :: cs[k].id != ""
    {
      if cs[i].id == "" {
        return Some(Semantic(InvalidWeights, BlankText));
      }
      if cs[i].id in candidateByID {
        ghost var k :| 0 <= k < i && cs[k].id == cs[i].id;
        return Some(Semantic(InvalidWeights, DuplicateId));
      }
      candidateByID := candidateByID + {cs[i].id};
      assert cs[..i + 1] == cs[..i] + [cs[i]];
    }
    assert cs[..|cs|] == cs;
    var weightByID: set<string> := {};
    for i := 0 to |ws|
      invariant weightByID == WeightIds(ws[..i])
      invariant weightByID <= candidateByID
      invariant forall k | 0 <= k < i :: ws[k].weight <= l.maxSplitCount
    {
      if ws[i].candidateQuestionID !in candidateByID {
        assert ws[i].candidateQuestionID in WeightIds(ws);
        return Some(Semantic(InvalidWeights, UnknownId));
      }
      if ws[i].weight > l.maxSplitCount {
        return Some(Semantic(InvalidWeights, OutOfRange));
      }
      weightByID := weightByID + {ws[i].candidateQuestionID};
      assert ws[..i + 1] == ws[..i] + [ws[i]];
    }
    assert ws[..|ws|] == ws;
    for i := 0 to |cs|
      invariant forall k | 0 <= k < i :: cs[k].id in weightByID
    {
      if cs[i].id !in weightByID {
        assert cs[i].id in CandidateIds(cs);
        return Some(Semantic(InvalidWeights, MissingId));
      }
    }
    return None;
  }

  method ValidateProjectedFinalQuestionCount(checklistID: string, ws: seq<Weight>, limits: ChecklistLimits)
    returns (projected: int, err: Option<SemanticError>)
    ensures projected == WeightSum(ws)
    ensures err.None? <==> WeightSum(ws) <= limits.WithDefaults().maxFinalQuestions
    ensures err.Some? ==>
              err.value == LimitExceeded(InvalidFinalChecklist,
                LimitDiagnostic("max_final_questions", limits.WithDefaults().maxFinalQuestions, projected,
                                checklistID, "weight_assignment"))
  {
    var l := limits.WithDefaults();
    projected := 0;
    for i := 0 to |ws|
      invariant projected == WeightSum(ws[..i])
    {
      assert ws[..i + 1][..i] == ws[..i];
      if ws[i].weight > 0 {
        projected := projected + ws[i].weight;
      }
    }
    assert ws[..|ws|] == ws;
    if projected > l.maxFinalQuestions {
      return projected, Some(LimitExceeded(InvalidFinalChecklist,
        LimitDiagnostic("max_final_questions", l.maxFinalQuestions, projected, checklistID, "weight_assignment")));
    }
    return projected, None;
  }

  /** The last five checks on one final question: its two references, their agreement, and its texts. */
  function ReferenceFault(q: FinalQuestion, dimensionIds: set<string>, candidateByID: map<string, CandidateQuestion>)
    : Option<Fault>
  {
    if q.dimensionID !in dimensionIds then Some(UnknownId)
    else if q.sourceCandidateID !in candidateByID then Some(UnknownId)
    else if candidateByID[q.sourceCandidateID].dimensionID != q.dimensionID then Some(DimensionMismatch)
    else if Blank(q.rationale) || Blank(q.question) then Some(BlankText)
    else None
  }

  lemma {:induction false} ReferencesChecked(q: FinalQuestion, ds: seq<Dimension>, cs: seq<CandidateQuestion>,
                                        candidateByID: map<string, CandidateQuestion>)
    requires candidateByID == MapOf(cs, CandidateKey)
    ensures FinalQuestionOk(q, ds, cs) <==>
            !Blank(q.id) && q.ordinal > 0 && ReferenceFault(q, DimensionIds(ds), candidateByID).None?
  {
    assert FindCandidate(cs, q.sourceCandidateID).Some? <==> q.sourceCandidateID in candidateByID;
  }

  method ValidateFinalQuestions(ds: seq<Dimension>, cs: seq<CandidateQuestion>, qs: seq<FinalQuestion>, limits: ChecklistLimits)
    returns (err: Option<SemanticError>)
    ensures err.None? <==> FinalQuestionsOk(ds, cs, qs, limits)
    ensures err.Some? ==> err.value.code == InvalidFinalChecklist
  {
    var l := limits.WithDefaults();
    if |qs| == 0 {
      return Some(Semantic(InvalidFinalChecklist, Empty));
    }
    if |qs| > l.maxFinalQuestions {
      return Some(LimitExceeded(InvalidFinalChecklist,
        LimitDiagnostic("max_final_questions", l.maxFinalQuestions, |qs|, "", "validate_final_questions")));
    }
    var dimensionByID := DimensionIds(ds);
    var candidateByID := IndexBy(cs, CandidateKey);
    var seenID: set<string> := {};
    var seenOrdinal: set<int> := {};
    for i := 0 to |qs|
      invariant seenID == set k | 0 <= k < i :: qs[k].id
      invariant seenOrdinal == set k | 0 <= k < i :: qs[k].ordinal
      invariant forall j, k | 0 <= j < k < i :: qs[j].id != qs[k].id && qs[j].ordinal != qs[k].ordinal
      invariant forall k | 0 <= k < i :: FinalQuestionOk(qs[k], ds, cs)
    {
      var q := qs[i];
      if Blank(q.id) {
        return Some(Semantic(InvalidFinalChecklist, BlankText));
      }
      if q.id in seenID {
        ghost var k :| 0 <= k < i && qs[k].id == q.id;
        return Some(Semantic(InvalidFinalChecklist, DuplicateId));
      }
      seenID := seenID + {q.id};
      if q.ordinal <= 0 {
        return Some(Semantic(InvalidFinalChecklist, BadOrdinal));
      }
      if q.ordinal in seenOrdinal {
        ghost var k :| 0 <= k < i && qs[k].ordinal == q.ordinal;
        return Some(Semantic(InvalidFinalChecklist, DuplicateOrdinal));
      }
      seenOrdinal := seenOrdinal + {q.ordinal};
      ReferencesChecked(q, ds, cs, candidateByID);
      var fault := ReferenceFault(q, dimensionByID, candidateByID);
      if fault.Some? {
        return Some(Semantic(InvalidFinalChecklist, fault.value));
      }
    }
    return None;
  }

  method ValidateSplitQuestions(s: SplitQuestions, expectedCount: int) returns (err: Option<SemanticError>)
    ensures err.None? <==> SplitOk(s, expectedCount)
    ensures err.None? <==>
            && !Blank(s.candidateQuestionID) && |s.questions| == expectedCount > 1
            && forall i | 0 <= i < |s.questions| :: !Blank(s.questions[i].rationale) && !Blank(s.questions[i].question)
    ensures err.Some? ==> err.value.code == InvalidSplits
  {
    if Blank(s.candidateQuestionID) {
      return Some(Semantic(InvalidSplits, BlankText));
    }
    if expectedCount <= 1 {
      return Some(Semantic(InvalidSplits, WrongCount));
    }
    if |s.questions| != expectedCount {
      return Some(Semantic(InvalidSplits, WrongCount));
    }
    for i := 0 to |s.questions|
      invariant forall k | 0 <= k < i :: DraftQuestionOk(s.questions[k])
    {
      if Blank(s.questions[i].rationale) {
        return Some(Semantic(InvalidSplits, BlankText));
      }
      if Blank(s.questions[i].question) {
        return Some(Semantic(InvalidSplits, BlankText));
      }
    }
    return None;
  }

  method ValidateJudgmentShape(js: seq<Judgment>) returns (err: Option<SemanticError>)
    ensures err.None? <==> JudgmentShapeOk(js)
    ensures err.None? <==>
            && 0 < |js|
            && (forall i, j | 0 <= i < j < |js| :: js[i].questionID != js[j].questionID)
            && forall i | 0 <= i < |js| :: !Blank(js[i].questionID) && !Blank(js[i].evidence) && js[i].answer in {"yes", "no"}
    ensures err.Some? ==> err.value.code == InvalidJudgments
  {
    if |js| == 0 {
      return Some(Semantic(InvalidJudgments, Empty));
    }
    var seen: set<string> := {};
    for i := 0 to |js|
      invariant seen == JudgedIds(js[..i])
      invariant UniqueJudgments(js[..i])
      invariant forall k | 0 <= k < i :: JudgmentOk(js[k])
    {
      if Blank(js[i].questionID) {
        return Some(Semantic(InvalidJudgments, BlankText));
      }
      if js[i].questionID in seen {
        ghost var k :| 0 <= k < i && js[k].questionID == js[i].questionID;
        return Some(Semantic(InvalidJudgments, DuplicateId));
      }
      seen := seen + {js[i].questionID};
      if Blank(js[i].evidence) {
        return Some(Semantic(InvalidJudgments, BlankText));
      }
      if js[i].answer != ANSWER_YES && js[i].answer != ANSWER_NO {
        return Some(Semantic(InvalidJudgments, BadAnswer));
      }
      assert js[..i + 1] == js[..i] + [js[i]];
    }
    assert js[..|js|] == js;
    return None;
  }

  /** The last part of `ValidateJudgments`: every judgment names a question and every question has one. */
  method CheckCoverage(qs: seq<FinalQuestion>, js: seq<Judgment>, questionByID: set<string>)
    returns (err: Option<SemanticError>)
    requires questionByID == QuestionIds(qs)
    ensures err.None? <==> JudgedIds(js) == QuestionIds(qs)
    ensures err.Some? ==> err.value.code == InvalidJudgments
  {
    var judgmentByID: set<string> := {};
    for i := 0 to |js|
      invariant judgmentByID == set k | 0 <= k < i :: js[k].questionID
      invariant judgmentByID <= questionByID
    {
      if js[i].questionID !in questionByID {
        assert js[i].questionID in JudgedIds(js);
        assert JudgedIds(js) != QuestionIds(qs);
        return Some(Semantic(InvalidJudgments, UnknownId));
      }
      judgmentByID := judgmentByID + {js[i].questionID};
    }
    assert judgmentByID == JudgedIds(js);
    for i := 0 to |qs|
      invariant forall k | 0 <= k < i :: qs[k].id in judgmentByID
    {
      if qs[i].id !in judgmentByID {
        assert qs[i].id in QuestionIds(qs);
        assert JudgedIds(js) != QuestionIds(qs);
        return Some(Semantic(InvalidJudgments, MissingId));
      }
    }
    return None;
  }

  /** A fault in the questions is reported as an invalid checklist, but only once the judgments have the right shape. */
  method ValidateJudgments(qs: seq<FinalQuestion>, js: seq<Judgment>) returns (err: Option<SemanticError>)
    ensures err.None? <==> JudgmentsOk(qs, js)
    ensures err.Some? ==> err.value.code == JudgmentsCode(qs, js)
  {
    err := ValidateJudgmentShape(js);
    if err.Some? {
      return;
    }
    var questionByID: set<string> := {};
    for i := 0 to |qs|
      invariant questionByID == set k | 0 <= k < i :: qs[k].id
      invariant forall j, k | 0 <= j < k < i :: qs[j].id != qs[k].id
      invariant forall k | 0 <= k < i :: !Blank(qs[k].id)
    {
      if Blank(qs[i].id) {
        return Some(Semantic(InvalidFinalChecklist, BlankText));
      }
      if qs[i].id in questionByID {
        ghost var k :| 0 <= k < i && qs[k].id == qs[i].id;
        return Some(Semantic(InvalidFinalChecklist, DuplicateId));
      }
      questionByID := questionByID + {qs[i].id};
    }
    assert questionByID == QuestionIds(qs);
    assert |qs| > 0 ==> qs[0].id in questionByID;
    if |questionByID| == 0 {
      return Some(Semantic(InvalidFinalChecklist, Empty));
    }
    err := CheckCoverage(qs, js, questionByID);
  }
}
