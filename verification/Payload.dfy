/** What a checklist workflow sends to the store: when there is something to send, and that nothing refuses it. */
module Payload {
  import opened Common
  import opened Seqs
  import opened Lookup
  import opened Types
  import opened Validate
  import opened Ids
  import opened Active
  import opened Database
  import opened Calls
  import opened Effects
  import opened Repeats

  /** The candidates the workflow has split, in the order it starts the activities. */
  function ToSplit(cs: seq<CandidateQuestion>, ws: seq<Weight>): (r: seq<CandidateQuestion>)
    ensures forall c | c in r :: c in cs && WeightOf(ws, c.id) > 1
  {
    if cs == [] then []
    else ToSplit(cs[..|cs| - 1], ws) + if WeightOf(ws, cs[|cs| - 1].id) > 1 then [cs[|cs| - 1]] else []
  }

  /** What the activities hand back, each after its own validation. */
  ghost predicate Answered(ds: seq<Dimension>, gens: seq<seq<DraftQuestion>>, ws: seq<Weight>, ss: seq<SplitQuestions>,
                           limits: ChecklistLimits)
  {
    && DimensionsOk(ds, limits)
    && (forall i | 0 <= i < |ds| :: ds[i].ordinal == i + 1)
    && |gens| == |ds| && (forall i | 0 <= i < |gens| :: QuestionGenerationOk(gens[i], limits))
    && WeightsOk(FanIn(ds, gens), ws, limits)
    && |ss| == |ToSplit(FanIn(ds, gens), ws)|
    && forall i | 0 <= i < |ss| :: SplitAnswers(ss[i], ToSplit(FanIn(ds, gens), ws)[i], ws)
  }

  ghost predicate SplitAnswers(s: SplitQuestions, c: CandidateQuestion, ws: seq<Weight>) {
    s.candidateQuestionID == c.id && SplitOk(s, WeightOf(ws, c.id))
  }

  lemma {:induction false} ToSplitHasAll(cs: seq<CandidateQuestion>, ws: seq<Weight>, c: CandidateQuestion)
    requires c in cs && WeightOf(ws, c.id) > 1
    ensures c in ToSplit(cs, ws)
  {
    if c != cs[|cs| - 1] {
      ToSplitHasAll(cs[..|cs| - 1], ws, c);
    }
  }

  lemma {:induction false} ToSplitUnique(cs: seq<CandidateQuestion>, ws: seq<Weight>)
    requires UniqueCandidates(cs)
    ensures UniqueCandidates(ToSplit(cs, ws))
  {
    if cs != [] {
      var n := |cs| - 1;
      var before := ToSplit(cs[..n], ws);
      ToSplitUnique(cs[..n], ws);
      forall i | 0 <= i < |before| ensures before[i].id != cs[n].id {
        assert before[i] in cs[..n];
        var k :| 0 <= k < n && cs[k] == before[i];
      }
    }
  }

  /** The splits of the fan-out are exactly the ones the expansion wants. */
  lemma {:induction false} FanOutFits(cs: seq<CandidateQuestion>, ws: seq<Weight>, ss: seq<SplitQuestions>)
    requires UniqueCandidates(cs) && |ss| == |ToSplit(cs, ws)|
    requires forall i | 0 <= i < |ss| :: SplitAnswers(ss[i], ToSplit(cs, ws)[i], ws)
    ensures SplitsFit(cs, ws, ss)
  {
    var split := ToSplit(cs, ws);
    ToSplitUnique(cs, ws);
    forall i, j | 0 <= i < j < |ss| ensures ss[i].candidateQuestionID != ss[j].candidateQuestionID {
      assert SplitAnswers(ss[i], split[i], ws) && SplitAnswers(ss[j], split[j], ws);
    }
    forall i | 0 <= i < |ss| ensures SplitFits(ss[i], cs, ws) {
      assert SplitAnswers(ss[i], split[i], ws);
      assert split[i] in cs;
      var k :| 0 <= k < |cs| && cs[k] == split[i];
      assert cs[k].id in CandidateIds(cs);
    }
    forall k | 0 <= k < |cs| && WeightOf(ws, cs[k].id) > 1 ensures SplitOf(ss, cs[k].id).Some? {
      ToSplitHasAll(cs, ws, cs[k]);
      var i :| 0 <= i < |split| && split[i] == cs[k];
      assert SplitAnswers(ss[i], split[i], ws);
      assert SplitKey(ss[i]) == cs[k].id;
    }
  }

  lemma {:induction false} SumIsZeroIff(ws: seq<Weight>)
    ensures WeightSum(ws) == 0 <==> forall i | 0 <= i < |ws| :: ws[i].weight <= 0
  {
    if ws != [] {
      var n := |ws| - 1;
      SumIsZeroIff(ws[..n]);
      if forall i | 0 <= i < n :: ws[..n][i].weight <= 0 {
        assert forall i | 0 <= i < n :: ws[i].weight == ws[..n][i].weight;
      } else {
        var i :| 0 <= i < n && ws[..n][i].weight > 0;
        assert ws[i].weight > 0;
      }
    }
  }

  /** Once the answers and the projected count are accepted, building the checklist fails exactly when every weight is 0. */
  lemma {:induction false} BuildFailsOnlyOnZeroWeights(ds: seq<Dimension>, gens: seq<seq<DraftQuestion>>, ws: seq<Weight>,
                                                       ss: seq<SplitQuestions>, limits: ChecklistLimits)
    requires Answered(ds, gens, ws, ss, limits) && WeightSum(ws) <= limits.WithDefaults().maxFinalQuestions
    ensures !Buildable(ds, FanIn(ds, gens), ws, ss, limits) <==> forall i | 0 <= i < |ws| :: ws[i].weight == 0
  {
    AnswersFit(ds, gens, ws, ss, limits);
    BuildableIff(ds, gens, ws, ss, limits);
    ZeroWeights(ws);
  }

  lemma {:induction false} BuildableIff(ds: seq<Dimension>, gens: seq<seq<DraftQuestion>>, ws: seq<Weight>, ss: seq<SplitQuestions>,
                                        limits: ChecklistLimits)
    requires Answered(ds, gens, ws, ss, limits) && WeightSum(ws) <= limits.WithDefaults().maxFinalQuestions
    ensures Buildable(ds, FanIn(ds, gens), ws, ss, limits) <==> WeightSum(ws) > 0
  {
    AnswersFit(ds, gens, ws, ss, limits);
  }

  lemma {:induction false} AnswersFit(ds: seq<Dimension>, gens: seq<seq<DraftQuestion>>, ws: seq<Weight>, ss: seq<SplitQuestions>,
                                      limits: ChecklistLimits)
    requires Answered(ds, gens, ws, ss, limits)
    ensures InputsOk(ds, FanIn(ds, gens), ws, limits) && SplitsFit(FanIn(ds, gens), ws, ss) && WeightShapeOk(ws)
  {
    FanInOk(ds, gens, limits);
    FanOutFits(FanIn(ds, gens), ws, ss);
  }

  lemma {:induction false} ZeroWeights(ws: seq<Weight>)
    requires WeightShapeOk(ws)
    ensures WeightSum(ws) == 0 <==> forall i | 0 <= i < |ws| :: ws[i].weight == 0
  {
    SumIsZeroIff(ws);
    assert forall i | 0 <= i < |ws| :: WeightOk(ws[i]);
  }

  function Sent(ds: seq<Dimension>, gens: seq<seq<DraftQuestion>>, ws: seq<Weight>, ss: seq<SplitQuestions>): Content
    requires |ds| == |gens|
  {
    Content(ds, FanIn(ds, gens), ws, FinalChecklist(FanIn(ds, gens), ws, ss))
  }

  /** What the workflow sends passes every check of `SucceedChecklist` and every constraint of the schema. */
  lemma {:induction false} SentIsAccepted(ds: seq<Dimension>, gens: seq<seq<DraftQuestion>>, ws: seq<Weight>,
                                          ss: seq<SplitQuestions>, limits: ChecklistLimits)
    requires Answered(ds, gens, ws, ss, limits) && Buildable(ds, FanIn(ds, gens), ws, ss, limits)
    ensures var c := Sent(ds, gens, ws, ss);
            && ContentArgsOk(c, limits) && DistinctOrdinals(c)
            && ContentRowsOk(c.dimensions, c.candidates, c.weights, c.questions)
  {
    var c := Sent(ds, gens, ws, ss);
    FinalChecklistOk(ds, c.candidates, ws, ss, limits);
    FanInDense(ds, gens);
    SchemaAcceptsContent(c, limits);
  }

  // ---------------------------------------------------------------- retrying it

  /** In stored order the weights follow their candidates. */
  lemma {:induction false} WeightsInOrderIff(cs: seq<CandidateQuestion>, ws: seq<Weight>)
    requires UniqueCandidates(cs) && UniqueWeights(ws) && WeightIds(ws) == CandidateIds(cs)
    requires forall k | 0 <= k < |cs| :: cs[k].ordinal == k + 1
    ensures SortedBy(ws, WeightOrder(cs)) <==> |ws| == |cs| && forall i | 0 <= i < |ws| :: ws[i].candidateQuestionID == cs[i].id
  {
    AlignedIsPermutation(cs, ws);
    PermutationBasics(Aligned(cs, ws), ws);
    if SortedBy(ws, WeightOrder(cs)) {
      SortedFollow(cs, ws);
    }
    if forall i | 0 <= i < |ws| :: ws[i].candidateQuestionID == cs[i].id {
      forall i, j | 0 <= i < j < |ws| ensures WeightOrder(cs)(ws[i], ws[j]) {
        OrdinalAt(cs, i);
        OrdinalAt(cs, j);
      }
    }
  }

  lemma OrdinalAt(cs: seq<CandidateQuestion>, k: nat)
    requires UniqueCandidates(cs) && k < |cs|
    ensures FindCandidate(cs, cs[k].id) == Some(cs[k])
  {
    assert UniqueBy(cs, CandidateKey);
    FindUnique(cs, CandidateKey, cs[k]);
    assert CandidateKey(cs[k]) == cs[k].id;
  }

  lemma JoinedAt(cs: seq<CandidateQuestion>, w: Weight)
    requires UniqueCandidates(cs) && w.candidateQuestionID in CandidateIds(cs)
    requires forall k | 0 <= k < |cs| :: cs[k].ordinal == k + 1
    ensures 1 <= JoinedOrdinal(cs, w) <= |cs| && cs[JoinedOrdinal(cs, w) - 1].id == w.candidateQuestionID
  {
    var k :| 0 <= k < |cs| && cs[k].id == w.candidateQuestionID;
    OrdinalAt(cs, k);
  }

  /** The ordinals the weights are sorted by. */
  function JoinedOrdinals(cs: seq<CandidateQuestion>, ws: seq<Weight>): (at: seq<int>)
    ensures |at| == |ws|
  {
    seq(|ws|, i requires 0 <= i < |ws| => JoinedOrdinal(cs, ws[i]))
  }

  lemma JoinedOrdinalsInRange(cs: seq<CandidateQuestion>, ws: seq<Weight>)
    requires UniqueCandidates(cs) && WeightIds(ws) == CandidateIds(cs) && forall k | 0 <= k < |cs| :: cs[k].ordinal == k + 1
    ensures var at := JoinedOrdinals(cs, ws);
            forall i | 0 <= i < |at| :: 1 <= at[i] <= |cs| && cs[at[i] - 1].id == ws[i].candidateQuestionID
  {
    forall i | 0 <= i < |ws|
      ensures 1 <= JoinedOrdinal(cs, ws[i]) <= |cs| && cs[JoinedOrdinal(cs, ws[i]) - 1].id == ws[i].candidateQuestionID
    {
      assert ws[i].candidateQuestionID in WeightIds(ws);
      JoinedAt(cs, ws[i]);
    }
  }

  lemma JoinedOrdinalsIncrease(cs: seq<CandidateQuestion>, ws: seq<Weight>)
    requires UniqueCandidates(cs) && UniqueWeights(ws) && WeightIds(ws) == CandidateIds(cs)
    requires forall k | 0 <= k < |cs| :: cs[k].ordinal == k + 1
    requires SortedBy(ws, WeightOrder(cs))
    ensures var at := JoinedOrdinals(cs, ws); forall i, j | 0 <= i < j < |at| :: at[i] < at[j]
  {
    var at := JoinedOrdinals(cs, ws);
    JoinedOrdinalsInRange(cs, ws);
    forall i, j | 0 <= i < j < |at| ensures at[i] < at[j] {
      assert WeightOrder(cs)(ws[i], ws[j]);
      assert ws[i].candidateQuestionID != ws[j].candidateQuestionID;
    }
  }

  /** Sorted, distinct ordinals out of 1..n are 1..n. */
  lemma {:induction false} SortedFollow(cs: seq<CandidateQuestion>, ws: seq<Weight>)
    requires UniqueCandidates(cs) && UniqueWeights(ws) && WeightIds(ws) == CandidateIds(cs) && |ws| == |cs|
    requires forall k | 0 <= k < |cs| :: cs[k].ordinal == k + 1
    requires SortedBy(ws, WeightOrder(cs))
    ensures forall i | 0 <= i < |ws| :: ws[i].candidateQuestionID == cs[i].id
  {
    var at := JoinedOrdinals(cs, ws);
    JoinedOrdinalsInRange(cs, ws);
    JoinedOrdinalsIncrease(cs, ws);
    forall i | 0 <= i < |ws| ensures ws[i].candidateQuestionID == cs[i].id {
      IncreasingIsDense(at, i);
    }
  }

  lemma {:induction false} IncreasingIsDense(at: seq<int>, i: nat)
    requires i < |at| && (forall j | 0 <= j < |at| :: 1 <= at[j] <= |at|) && forall j, k | 0 <= j < k < |at| :: at[j] < at[k]
    ensures at[i] == i + 1
  {
    AtLeast(at, i);
    AtMost(at, i);
  }

  lemma {:induction false} AtLeast(at: seq<int>, i: nat)
    requires i < |at| && (forall j | 0 <= j < |at| :: 1 <= at[j]) && forall j, k | 0 <= j < k < |at| :: at[j] < at[k]
    ensures at[i] >= i + 1
  {
    if i > 0 {
      AtLeast(at, i - 1);
    }
  }

  lemma {:induction false} AtMost(at: seq<int>, i: nat)
    requires i < |at| && (forall j | 0 <= j < |at| :: at[j] <= |at|) && forall j, k | 0 <= j < k < |at| :: at[j] < at[k]
    ensures at[i] <= i + 1
    decreases |at| - i
  {
    if i + 1 < |at| {
      AtMost(at, i + 1);
    }
  }

  /** Dimensions, candidates and questions are numbered in the order they are sent. */
  lemma {:induction false} NumberedInOrder(ds: seq<Dimension>, gens: seq<seq<DraftQuestion>>, ws: seq<Weight>, ss: seq<SplitQuestions>)
    requires |ds| == |gens| && forall i | 0 <= i < |ds| :: ds[i].ordinal == i + 1
    ensures var c := Sent(ds, gens, ws, ss);
            SortedBy(c.dimensions, DimensionLe) && SortedBy(c.candidates, CandidateLe) && SortedBy(c.questions, QuestionLe)
  {
    FanInDense(ds, gens);
  }

  /** The workflow's own payload can be retried exactly when the model listed the weights in candidate order. */
  lemma {:induction false} SentIsRetryableIff(ds: seq<Dimension>, gens: seq<seq<DraftQuestion>>, ws: seq<Weight>,
                                              ss: seq<SplitQuestions>, limits: ChecklistLimits)
    requires Answered(ds, gens, ws, ss, limits)
    ensures InStoredOrder(Sent(ds, gens, ws, ss)) <==>
            |ws| == |FanIn(ds, gens)| && forall i | 0 <= i < |ws| :: ws[i].candidateQuestionID == FanIn(ds, gens)[i].id
  {
    FanInOk(ds, gens, limits);
    FanInDense(ds, gens);
    NumberedInOrder(ds, gens, ws, ss);
    WeightsInOrderIff(FanIn(ds, gens), ws);
  }
}
