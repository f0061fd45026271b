/** Generated ids: d1.. for dimensions, and c1.. dense over the candidates of all dimensions. */
module Ids {
  import opened Text
  import opened Types
  import opened Validate

  function NumberedDimensions(drafts: seq<DraftDimension>): (ds: seq<Dimension>)
    ensures |ds| == |drafts|
  {
    seq(|drafts|, i requires 0 <= i < |drafts| =>
      Dimension(NumberedId('d', i + 1), i + 1, drafts[i].name, drafts[i].rubric, drafts[i].rationale))
  }

  method AssignDimensionIDs(drafts: seq<DraftDimension>) returns (ds: seq<Dimension>)
    ensures ds == NumberedDimensions(drafts)
    ensures forall i | 0 <= i < |ds| ::
              && ds[i].id == ['d'] + Digits(i + 1) && ds[i].ordinal == i + 1
              && ds[i].name == drafts[i].name && ds[i].rubric == drafts[i].rubric && ds[i].rationale == drafts[i].rationale
  {
    var dimensions := new Dimension[|drafts|](_ => Dimension("", 0, "", "", ""));
    for i := 0 to |drafts|
      invariant forall k | 0 <= k < i :: dimensions[k] == NumberedDimensions(drafts)[k]
    {
      dimensions[i] := Dimension(NumberedId('d', i + 1), i + 1, drafts[i].name, drafts[i].rubric, drafts[i].rationale);
    }
    return dimensions[..];
  }

  function NumberedCandidates(dimensionID: string, startOrdinal: int, drafts: seq<DraftQuestion>): (cs: seq<CandidateQuestion>)
    ensures |cs| == |drafts|
  {
    seq(|drafts|, i requires 0 <= i < |drafts| =>
      CandidateQuestion(NumberedId('c', startOrdinal + i), dimensionID, startOrdinal + i, drafts[i].rationale, drafts[i].question))
  }

  method AssignCandidateQuestionIDs(dimensionID: string, startOrdinal: int, drafts: seq<DraftQuestion>)
    returns (cs: seq<CandidateQuestion>)
    ensures cs == NumberedCandidates(dimensionID, startOrdinal, drafts)
    ensures forall i | 0 <= i < |cs| ::
              && cs[i].id == ['c'] + Itoa(startOrdinal + i) && cs[i].ordinal == startOrdinal + i && cs[i].dimensionID == dimensionID
              && cs[i].rationale == drafts[i].rationale && cs[i].question == drafts[i].question
  {
    var questions := new CandidateQuestion[|drafts|](_ => CandidateQuestion("", "", 0, "", ""));
    for i := 0 to |drafts|
      invariant forall k | 0 <= k < i :: questions[k] == NumberedCandidates(dimensionID, startOrdinal, drafts)[k]
    {
      var ordinal := startOrdinal + i;
      questions[i] := CandidateQuestion(NumberedId('c', ordinal), dimensionID, ordinal, drafts[i].rationale, drafts[i].question);
    }
    return questions[..];
  }

  /** Checking generated dimensions again finds nothing that checking the drafts did not. */
  lemma {:induction false} NumberedDimensionsOk(drafts: seq<DraftDimension>, limits: ChecklistLimits)
    ensures DimensionsOk(NumberedDimensions(drafts), limits) <==> DimensionGenerationOk(drafts, limits)
  {
    var ds := NumberedDimensions(drafts);
    forall i, j | 0 <= i < j < |ds| ensures ds[i].id != ds[j].id {
      NumberedIdsDiffer('d', i + 1, j + 1);
    }
    forall i | 0 <= i < |ds| ensures DimensionOk(ds[i]) <==> DraftDimensionOk(drafts[i]) {
      assert !IsSpace('d');
    }
  }

  /** The candidates of the workflow's fan-in: dimension after dimension, numbered through. */
  function FanIn(ds: seq<Dimension>, drafts: seq<seq<DraftQuestion>>): (cs: seq<CandidateQuestion>)
    requires |ds| == |drafts|
  {
    if ds == [] then []
    else
      var n := |ds| - 1;
      var before := FanIn(ds[..n], drafts[..n]);
      before + NumberedCandidates(ds[n].id, |before| + 1, drafts[n])
  }

  lemma {:induction false} FanInDense(ds: seq<Dimension>, drafts: seq<seq<DraftQuestion>>)
    requires |ds| == |drafts|
    ensures forall k | 0 <= k < |FanIn(ds, drafts)| ::
              FanIn(ds, drafts)[k].id == NumberedId('c', k + 1) && FanIn(ds, drafts)[k].ordinal == k + 1
  {
    if ds != [] {
      FanInDense(ds[..|ds| - 1], drafts[..|ds| - 1]);
    }
  }

  lemma {:induction false} CountAppend(a: seq<CandidateQuestion>, b: seq<CandidateQuestion>, d: string)
    ensures CountInDimension(a + b, d) == CountInDimension(a, d) + CountInDimension(b, d)
  {
    if b == [] {
      assert a + b == a;
    } else {
      assert (a + b)[..|a + b| - 1] == a + b[..|b| - 1];
      CountAppend(a, b[..|b| - 1], d);
    }
  }

  lemma {:induction false} CountUniform(cs: seq<CandidateQuestion>, id: string, d: string)
    requires forall i | 0 <= i < |cs| :: cs[i].dimensionID == id
    ensures CountInDimension(cs, d) == if d == id then |cs| else 0
  {
    if cs != [] {
      CountUniform(cs[..|cs| - 1], id, d);
    }
  }

  lemma {:induction false} FanInStep(ds: seq<Dimension>, drafts: seq<seq<DraftQuestion>>, d: string)
    requires |ds| == |drafts| && ds != []
    ensures var n := |ds| - 1;
            CountInDimension(FanIn(ds, drafts), d) ==
            CountInDimension(FanIn(ds[..n], drafts[..n]), d) + if d == ds[n].id then |drafts[n]| else 0
  {
    var n := |ds| - 1;
    var before := FanIn(ds[..n], drafts[..n]);
    var last := NumberedCandidates(ds[n].id, |before| + 1, drafts[n]);
    CountAppend(before, last, d);
    CountUniform(last, ds[n].id, d);
  }

  lemma {:induction false} FanInElsewhere(ds: seq<Dimension>, drafts: seq<seq<DraftQuestion>>, d: string)
    requires |ds| == |drafts| && forall i | 0 <= i < |ds| :: ds[i].id != d
    ensures CountInDimension(FanIn(ds, drafts), d) == 0
  {
    if ds != [] {
      FanInStep(ds, drafts, d);
      FanInElsewhere(ds[..|ds| - 1], drafts[..|ds| - 1], d);
    }
  }

  /** Each dimension contributes exactly its own drafts. */
  lemma {:induction false} FanInCount(ds: seq<Dimension>, drafts: seq<seq<DraftQuestion>>, i: nat)
    requires |ds| == |drafts| && UniqueDimensions(ds) && i < |ds|
    ensures CountInDimension(FanIn(ds, drafts), ds[i].id) == |drafts[i]|
    decreases |ds|
  {
    var n := |ds| - 1;
    FanInStep(ds, drafts, ds[i].id);
    if i < n {
      FanInCount(ds[..n], drafts[..n], i);
    } else {
      FanInElsewhere(ds[..n], drafts[..n], ds[i].id);
    }
  }

  /** Every fanned-in candidate has accepted text and one of the dimensions. */
  lemma {:induction false} FanInRows(ds: seq<Dimension>, drafts: seq<seq<DraftQuestion>>, limits: ChecklistLimits)
    requires |ds| == |drafts|
    requires forall i | 0 <= i < |drafts| :: QuestionGenerationOk(drafts[i], limits)
    ensures |FanIn(ds, drafts)| >= |ds|
    ensures forall k | 0 <= k < |FanIn(ds, drafts)| :: CandidateOk(FanIn(ds, drafts)[k], DimensionIds(ds))
  {
    if ds != [] {
      var n := |ds| - 1;
      var before := FanIn(ds[..n], drafts[..n]);
      FanInRows(ds[..n], drafts[..n], limits);
      assert DimensionIds(ds[..n]) <= DimensionIds(ds);
      assert ds[n].id in DimensionIds(ds);
      FanInDense(ds, drafts);
      assert !IsSpace('c');
    }
  }

  /** Checking the fanned-in candidates never rejects what question generation accepted. */
  lemma {:induction false} FanInOk(ds: seq<Dimension>, drafts: seq<seq<DraftQuestion>>, limits: ChecklistLimits)
    requires |ds| == |drafts| && ds != [] && UniqueDimensions(ds)
    requires forall i | 0 <= i < |drafts| :: QuestionGenerationOk(drafts[i], limits)
    ensures CandidatesOk(ds, FanIn(ds, drafts), limits)
  {
    var cs := FanIn(ds, drafts);
    FanInRows(ds, drafts, limits);
    FanInDense(ds, drafts);
    forall i, j | 0 <= i < j < |cs| ensures cs[i].id != cs[j].id {
      NumberedIdsDiffer('c', i + 1, j + 1);
    }
    forall d ensures CountInDimension(cs, d) <= limits.WithDefaults().maxCandidatesPerDimension {
      if i :| 0 <= i < |ds| && ds[i].id == d {
        FanInCount(ds, drafts, i);
        assert QuestionGenerationOk(drafts[i], limits);
      } else {
        FanInElsewhere(ds, drafts, d);
      }
    }
  }

  function DraftCount(drafts: seq<seq<DraftQuestion>>): nat {
    if drafts == [] then 0 else DraftCount(drafts[..|drafts| - 1]) + |drafts[|drafts| - 1]|
  }

  /** Draft k of dimension i becomes the candidate that follows all drafts of the earlier dimensions. */
  lemma {:induction false} FanInAt(ds: seq<Dimension>, drafts: seq<seq<DraftQuestion>>, i: nat, k: nat)
    requires |ds| == |drafts| && i < |ds| && k < |drafts[i]|
    ensures |FanIn(ds, drafts)| == DraftCount(drafts)
    ensures DraftCount(drafts[..i]) + k < |FanIn(ds, drafts)|
    ensures FanIn(ds, drafts)[DraftCount(drafts[..i]) + k] ==
            CandidateQuestion(NumberedId('c', DraftCount(drafts[..i]) + k + 1), ds[i].id, DraftCount(drafts[..i]) + k + 1,
                              drafts[i][k].rationale, drafts[i][k].question)
    decreases |ds|
  {
    var n := |ds| - 1;
    FanInLength(ds[..n], drafts[..n]);
    if i < n {
      assert drafts[..n][..i] == drafts[..i];
      FanInAt(ds[..n], drafts[..n], i, k);
    }
  }

  lemma {:induction false} FanInLength(ds: seq<Dimension>, drafts: seq<seq<DraftQuestion>>)
    requires |ds| == |drafts|
    ensures |FanIn(ds, drafts)| == DraftCount(drafts)
  {
    if ds != [] {
      FanInLength(ds[..|ds| - 1], drafts[..|ds| - 1]);
    }
  }
}
