/** The expansion pass: weight 0 drops a candidate, 1 keeps it, 2..4 replaces it by that many split questions. */
module Active {
  import opened Common
  import opened Text
  import opened Seqs
  import opened Lookup
  import opened Types
  import opened Validate

  function WeightKey(w: Weight): string { w.candidateQuestionID }

  function SplitKey(s: SplitQuestions): string { s.candidateQuestionID }

  /** The weight of a candidate; Go's zero value when the list has none. */
  function WeightOf(ws: seq<Weight>, id: string): int {
    match Find(ws, WeightKey, id)
    case Some(w) => w.weight
    case None => 0
  }

  function SplitOf(ss: seq<SplitQuestions>, id: string): Option<SplitQuestions> {
    Find(ss, SplitKey, id)
  }

  // ---------------------------------------------------------------- what the pass computes

  /** Question k of the block of a candidate, before numbering. */
  function BlockQuestion(c: CandidateQuestion, text: DraftQuestion): FinalQuestion {
    FinalQuestion("", 0, c.dimensionID, c.id, text.rationale, text.question)
  }

  /** The texts a candidate contributes. */
  function BlockTexts(c: CandidateQuestion, ws: seq<Weight>, ss: seq<SplitQuestions>): seq<DraftQuestion> {
    var w := WeightOf(ws, c.id);
    if w == 0 then []
    else if w == 1 then [DraftQuestion(c.rationale, c.question)]
    else match SplitOf(ss, c.id)
      case Some(split) => split.questions
      case None => []
  }

  function Block(c: CandidateQuestion, texts: seq<DraftQuestion>): (b: seq<FinalQuestion>)
    ensures |b| == |texts|
  {
    seq(|texts|, i requires 0 <= i < |texts| => BlockQuestion(c, texts[i]))
  }

  /** The blocks of all candidates, one after the other. */
  function Expand(cs: seq<CandidateQuestion>, ws: seq<Weight>, ss: seq<SplitQuestions>): seq<FinalQuestion> {
    if cs == [] then []
    else
      var c := cs[|cs| - 1];
      Expand(cs[..|cs| - 1], ws, ss) + Block(c, BlockTexts(c, ws, ss))
  }

  function Renumber(qs: seq<FinalQuestion>): (r: seq<FinalQuestion>)
    ensures |r| == |qs|
  {
    seq(|qs|, i requires 0 <= i < |qs| => qs[i].(id := NumberedId('q', i + 1), ordinal := i + 1))
  }

  function FinalChecklist(cs: seq<CandidateQuestion>, ws: seq<Weight>, ss: seq<SplitQuestions>): seq<FinalQuestion> {
    Renumber(Expand(cs, ws, ss))
  }

  // ---------------------------------------------------------------- when it succeeds

  ghost predicate UniqueSplits(ss: seq<SplitQuestions>) {
    forall i, j | 0 <= i < j < |ss| :: ss[i].candidateQuestionID != ss[j].candidateQuestionID
  }

  /** The split answers a candidate that is to be split, with as many questions as its weight. */
  ghost predicate SplitFits(s: SplitQuestions, cs: seq<CandidateQuestion>, ws: seq<Weight>) {
    s.candidateQuestionID in CandidateIds(cs) && SplitOk(s, WeightOf(ws, s.candidateQuestionID))
  }

  /** Splits and candidates of weight above 1 correspond one to one. */
  ghost predicate SplitsFit(cs: seq<CandidateQuestion>, ws: seq<Weight>, ss: seq<SplitQuestions>) {
    && UniqueSplits(ss)
    && (forall i | 0 <= i < |ss| :: SplitFits(ss[i], cs, ws))
    && forall i | 0 <= i < |cs| :: WeightOf(ws, cs[i].id) > 1 ==> SplitOf(ss, cs[i].id).Some?
  }

  ghost predicate InputsOk(ds: seq<Dimension>, cs: seq<CandidateQuestion>, ws: seq<Weight>, limits: ChecklistLimits) {
    DimensionsOk(ds, limits) && CandidatesOk(ds, cs, limits) && WeightsOk(cs, ws, limits)
  }

  ghost predicate Buildable(ds: seq<Dimension>, cs: seq<CandidateQuestion>, ws: seq<Weight>, ss: seq<SplitQuestions>,
                            limits: ChecklistLimits)
  {
    && InputsOk(ds, cs, ws, limits)
    && SplitsFit(cs, ws, ss)
    && 1 <= WeightSum(ws) <= limits.WithDefaults().maxFinalQuestions
  }

  // ---------------------------------------------------------------- the length of the result

  lemma {:induction false} WeightSumRemove(ws: seq<Weight>, k: nat)
    requires k < |ws|
    ensures WeightSum(ws) == WeightSum(ws[..k] + ws[k + 1..]) + if ws[k].weight > 0 then ws[k].weight else 0
    decreases |ws|
  {
    var n := |ws| - 1;
    if k == n {
      assert ws[..k] + ws[k + 1..] == ws[..n];
    } else {
      var rest := ws[..k] + ws[k + 1..];
      assert rest[..n - 1] == ws[..n][..k] + ws[..n][k + 1..];
      assert rest[n - 1] == ws[n];
      WeightSumRemove(ws[..n], k);
    }
  }

  /** The projected count does not depend on the order the weights came in. */
  lemma {:induction false} WeightSumPermutation(a: seq<Weight>, b: seq<Weight>)
    requires Permutation(a, b)
    ensures WeightSum(a) == WeightSum(b)
    decreases |a|
  {
    PermutationBasics(a, b);
    if a != [] {
      var n := |a| - 1;
      assert a[n] in b;
      var k :| 0 <= k < |b| && b[k] == a[n];
      RemoveAt(a, n);
      RemoveAt(b, k);
      assert a[..n] + a[n + 1..] == a[..n];
      WeightSumPermutation(a[..n], b[..k] + b[k + 1..]);
      WeightSumRemove(b, k);
    }
  }

  /** The weights in the order of their candidates. */
  ghost function Aligned(cs: seq<CandidateQuestion>, ws: seq<Weight>): (r: seq<Weight>)
    requires CandidateIds(cs) <= WeightIds(ws)
    ensures |r| == |cs|
    ensures forall i | 0 <= i < |cs| :: r[i] in ws && WeightKey(r[i]) == cs[i].id && r[i].weight == WeightOf(ws, cs[i].id)
  {
    assert forall i | 0 <= i < |cs| :: cs[i].id in CandidateIds(cs);
    seq(|cs|, i requires 0 <= i < |cs| => Find(ws, WeightKey, cs[i].id).value)
  }

  lemma {:induction false} AlignedIsPermutation(cs: seq<CandidateQuestion>, ws: seq<Weight>)
    requires UniqueCandidates(cs) && UniqueWeights(ws) && WeightIds(ws) == CandidateIds(cs)
    ensures Permutation(Aligned(cs, ws), ws)
  {
    var r := Aligned(cs, ws);
    assert UniqueBy(ws, WeightKey);
    UniqueByIsDistinct(ws, WeightKey);
    UniqueByIsDistinct(r, WeightKey);
    forall w ensures w in r <==> w in ws {
      if w in ws {
        var k :| 0 <= k < |ws| && ws[k] == w;
        assert w.candidateQuestionID in WeightIds(ws);
        var i :| 0 <= i < |cs| && cs[i].id == w.candidateQuestionID;
        FindUnique(ws, WeightKey, w);
        FindUnique(ws, WeightKey, r[i]);
        assert r[i] == w;
      }
    }
    DistinctSameElements(r, ws);
  }

  /** Each candidate contributes as many texts as its weight says. */
  lemma {:induction false} BlockLength(c: CandidateQuestion, cs: seq<CandidateQuestion>, ws: seq<Weight>, ss: seq<SplitQuestions>)
    requires c in cs && SplitsFit(cs, ws, ss) && WeightOf(ws, c.id) >= 0
    ensures |BlockTexts(c, ws, ss)| == WeightOf(ws, c.id)
  {
    if WeightOf(ws, c.id) > 1 {
      var i :| 0 <= i < |cs| && cs[i] == c;
      assert SplitOf(ss, cs[i].id).Some?;
      var split := SplitOf(ss, c.id).value;
      var k :| 0 <= k < |ss| && ss[k] == split;
      assert SplitFits(ss[k], cs, ws);
    }
  }

  lemma {:induction false} ExpandLength(all: seq<CandidateQuestion>, n: nat, ws: seq<Weight>, ss: seq<SplitQuestions>)
    requires n <= |all| && SplitsFit(all, ws, ss)
    requires CandidateIds(all) <= WeightIds(ws)
    requires forall i | 0 <= i < |ws| :: ws[i].weight >= 0
    ensures |Expand(all[..n], ws, ss)| == WeightSum(Aligned(all, ws)[..n])
  {
    if n > 0 {
      var r := Aligned(all, ws);
      assert all[..n][..n - 1] == all[..n - 1];
      assert r[..n][..n - 1] == r[..n - 1];
      assert r[n - 1] in ws;
      ExpandLength(all, n - 1, ws, ss);
      BlockLength(all[n - 1], all, ws, ss);
    }
  }

  /** The checklist is exactly as long as the sum projected from the separately ordered weights. */
  lemma {:induction false} ExpandedToProjectedCount(ds: seq<Dimension>, cs: seq<CandidateQuestion>, ws: seq<Weight>,
                                                    ss: seq<SplitQuestions>, limits: ChecklistLimits)
    requires InputsOk(ds, cs, ws, limits) && SplitsFit(cs, ws, ss)
    ensures |FinalChecklist(cs, ws, ss)| == WeightSum(ws)
  {
    AlignedIsPermutation(cs, ws);
    WeightSumPermutation(Aligned(cs, ws), ws);
    assert forall i | 0 <= i < |ws| :: WeightOk(ws[i]);
    ExpandLength(cs, |cs|, ws, ss);
    assert cs[..|cs|] == cs && Aligned(cs, ws)[..|cs|] == Aligned(cs, ws);
  }

  // ---------------------------------------------------------------- where each question ends up

  /** The number of questions the first n candidates produce. */
  function Offset(cs: seq<CandidateQuestion>, n: nat, ws: seq<Weight>, ss: seq<SplitQuestions>): nat
    requires n <= |cs|
  {
    |Expand(cs[..n], ws, ss)|
  }

  lemma {:induction false} ExpandPrefix(cs: seq<CandidateQuestion>, n: nat, ws: seq<Weight>, ss: seq<SplitQuestions>)
    requires n <= |cs|
    ensures Expand(cs[..n], ws, ss) <= Expand(cs, ws, ss)
    decreases |cs|
  {
    if n < |cs| {
      assert cs[..|cs| - 1][..n] == cs[..n];
      ExpandPrefix(cs[..|cs| - 1], n, ws, ss);
    } else {
      assert cs[..n] == cs;
    }
  }

  /** Candidate i owns a block as long as its weight, right after the blocks of the earlier candidates. */
  lemma {:induction false} BlockAt(cs: seq<CandidateQuestion>, ws: seq<Weight>, ss: seq<SplitQuestions>, i: nat)
    requires i < |cs| && SplitsFit(cs, ws, ss) && 0 <= WeightOf(ws, cs[i].id)
    ensures Offset(cs, i + 1, ws, ss) == Offset(cs, i, ws, ss) + WeightOf(ws, cs[i].id) <= |Expand(cs, ws, ss)|
    ensures |BlockTexts(cs[i], ws, ss)| == WeightOf(ws, cs[i].id)
    ensures Expand(cs, ws, ss)[Offset(cs, i, ws, ss)..Offset(cs, i + 1, ws, ss)] == Block(cs[i], BlockTexts(cs[i], ws, ss))
  {
    BlockLength(cs[i], cs, ws, ss);
    ExpandPrefix(cs, i + 1, ws, ss);
    assert cs[..i + 1][..i] == cs[..i];
    SliceOfPrefix(Expand(cs, ws, ss), Expand(cs[..i], ws, ss), Block(cs[i], BlockTexts(cs[i], ws, ss)));
  }

  lemma SliceOfPrefix<T>(whole: seq<T>, a: seq<T>, b: seq<T>)
    requires a + b <= whole
    ensures |a| + |b| <= |whole| && whole[|a|..|a| + |b|] == b
  {
  }

  /** Text k of a block: the candidate's own at weight 1, question k of its split above. */
  lemma {:induction false} TextAt(cs: seq<CandidateQuestion>, ws: seq<Weight>, ss: seq<SplitQuestions>, i: nat, k: nat)
    requires i < |cs| && SplitsFit(cs, ws, ss) && 0 <= WeightOf(ws, cs[i].id) && k < WeightOf(ws, cs[i].id)
    ensures WeightOf(ws, cs[i].id) > 1 ==> SplitOf(ss, cs[i].id).Some? && k < |SplitOf(ss, cs[i].id).value.questions|
    ensures k < |BlockTexts(cs[i], ws, ss)|
    ensures BlockTexts(cs[i], ws, ss)[k] == if WeightOf(ws, cs[i].id) == 1 then DraftQuestion(cs[i].rationale, cs[i].question)
                                            else SplitOf(ss, cs[i].id).value.questions[k]
  {
    BlockLength(cs[i], cs, ws, ss);
  }

  /** The question at place k of that block is numbered by its place in the whole list and belongs to candidate i. */
  lemma {:induction false} QuestionAt(cs: seq<CandidateQuestion>, ws: seq<Weight>, ss: seq<SplitQuestions>, i: nat, k: nat)
    requires i < |cs| && SplitsFit(cs, ws, ss) && 0 <= WeightOf(ws, cs[i].id) && k < WeightOf(ws, cs[i].id)
    ensures k < |BlockTexts(cs[i], ws, ss)| && Offset(cs, i, ws, ss) + k < |FinalChecklist(cs, ws, ss)|
    ensures
      var at := Offset(cs, i, ws, ss) + k;
      var text := BlockTexts(cs[i], ws, ss)[k];
      FinalChecklist(cs, ws, ss)[at] ==
      FinalQuestion(NumberedId('q', at + 1), at + 1, cs[i].dimensionID, cs[i].id, text.rationale, text.question)
  {
    BlockAt(cs, ws, ss, i);
    RenumberedSlice(Expand(cs, ws, ss), Offset(cs, i, ws, ss), Offset(cs, i + 1, ws, ss), cs[i], BlockTexts(cs[i], ws, ss), k);
  }

  /** The two together: the whole question, from its candidate and its text. */
  lemma {:induction false} WholeQuestionAt(cs: seq<CandidateQuestion>, ws: seq<Weight>, ss: seq<SplitQuestions>, i: nat, k: nat)
    requires i < |cs| && SplitsFit(cs, ws, ss) && 0 <= WeightOf(ws, cs[i].id) && k < WeightOf(ws, cs[i].id)
    ensures WeightOf(ws, cs[i].id) > 1 ==> SplitOf(ss, cs[i].id).Some? && k < |SplitOf(ss, cs[i].id).value.questions|
    ensures
      var at := Offset(cs, i, ws, ss) + k;
      var text := if WeightOf(ws, cs[i].id) == 1 then DraftQuestion(cs[i].rationale, cs[i].question)
                  else SplitOf(ss, cs[i].id).value.questions[k];
      && at < |FinalChecklist(cs, ws, ss)|
      && FinalChecklist(cs, ws, ss)[at] ==
         FinalQuestion(NumberedId('q', at + 1), at + 1, cs[i].dimensionID, cs[i].id, text.rationale, text.question)
  {
    TextAt(cs, ws, ss, i, k);
    QuestionAt(cs, ws, ss, i, k);
  }

  lemma {:induction false} RenumberedSlice(e: seq<FinalQuestion>, lo: nat, hi: nat, c: CandidateQuestion, texts: seq<DraftQuestion>, k: nat)
    requires k < |texts| && hi == lo + |texts| <= |e| && e[lo..hi] == Block(c, texts)
    ensures lo + k < |Renumber(e)|
    ensures Renumber(e)[lo + k] ==
            FinalQuestion(NumberedId('q', lo + k + 1), lo + k + 1, c.dimensionID, c.id, texts[k].rationale, texts[k].question)
  {
    assert e[lo + k] == e[lo..hi][k];
  }

  /** Every expanded question comes from a candidate and carries accepted text. */
  ghost predicate FromCandidate(q: FinalQuestion, cs: seq<CandidateQuestion>) {
    && (exists i | 0 <= i < |cs| :: q.sourceCandidateID == cs[i].id && q.dimensionID == cs[i].dimensionID)
    && !Blank(q.rationale) && !Blank(q.question)
  }

  lemma {:induction false} ExpandedRows(all: seq<CandidateQuestion>, n: nat, ws: seq<Weight>, ss: seq<SplitQuestions>)
    requires n <= |all| && SplitsFit(all, ws, ss)
    requires forall i | 0 <= i < |all| :: !Blank(all[i].rationale) && !Blank(all[i].question)
    ensures forall q | q in Expand(all[..n], ws, ss) :: FromCandidate(q, all)
  {
    if n > 0 {
      var c := all[n - 1];
      var texts := BlockTexts(c, ws, ss);
      assert all[..n][..n - 1] == all[..n - 1];
      ExpandedRows(all, n - 1, ws, ss);
      forall k | 0 <= k < |texts| ensures FromCandidate(Block(c, texts)[k], all) {
        if WeightOf(ws, c.id) != 1 {
          var split := SplitOf(ss, c.id).value;
          var m :| 0 <= m < |ss| && ss[m] == split;
          assert SplitFits(ss[m], all, ws);
          assert DraftQuestionOk(texts[k]);
        }
        assert all[n - 1].id == Block(c, texts)[k].sourceCandidateID;
      }
    }
  }

  lemma {:induction false} RenumberedIdsUnique(qs: seq<FinalQuestion>)
    ensures UniqueQuestions(Renumber(qs)) && UniqueQuestionOrdinals(Renumber(qs))
    ensures forall i | 0 <= i < |qs| :: !Blank(Renumber(qs)[i].id) && Renumber(qs)[i].ordinal == i + 1
  {
    var r := Renumber(qs);
    assert !IsSpace('q');
    forall i, j | 0 <= i < j < |r| ensures r[i].id != r[j].id {
      NumberedIdsDiffer('q', i + 1, j + 1);
    }
  }

  lemma {:induction false} FromCandidateOk(q: FinalQuestion, ds: seq<Dimension>, cs: seq<CandidateQuestion>)
    requires FromCandidate(q, cs) && UniqueCandidates(cs) && !Blank(q.id) && q.ordinal > 0
    requires forall i | 0 <= i < |cs| :: CandidateOk(cs[i], DimensionIds(ds))
    ensures FinalQuestionOk(q, ds, cs)
  {
    var i :| 0 <= i < |cs| && q.sourceCandidateID == cs[i].id && q.dimensionID == cs[i].dimensionID;
    assert UniqueBy(cs, CandidateKey);
    assert CandidateOk(cs[i], DimensionIds(ds));
    FindUnique(cs, CandidateKey, cs[i]);
  }

  /** The final checklist passes the closing validation whenever its length does. */
  lemma {:induction false} FinalChecklistOk(ds: seq<Dimension>, cs: seq<CandidateQuestion>, ws: seq<Weight>,
                                            ss: seq<SplitQuestions>, limits: ChecklistLimits)
    requires Buildable(ds, cs, ws, ss, limits)
    ensures FinalQuestionsOk(ds, cs, FinalChecklist(cs, ws, ss), limits)
  {
    var e := Expand(cs, ws, ss);
    var qs := FinalChecklist(cs, ws, ss);
    ExpandedToProjectedCount(ds, cs, ws, ss, limits);
    RenumberedIdsUnique(e);
    assert forall i | 0 <= i < |cs| :: CandidateOk(cs[i], DimensionIds(ds));
    assert cs[..|cs|] == cs;
    ExpandedRows(cs, |cs|, ws, ss);
    forall k | 0 <= k < |qs| ensures FinalQuestionOk(qs[k], ds, cs) {
      assert FromCandidate(e[k], cs);
      FromCandidateOk(qs[k], ds, cs);
    }
  }

  // ---------------------------------------------------------------- order of weights and splits

  lemma {:induction false} BlockTextsPermutation(c: CandidateQuestion, ws: seq<Weight>, ws': seq<Weight>,
                                                 ss: seq<SplitQuestions>, ss': seq<SplitQuestions>)
    requires Permutation(ws, ws') && UniqueWeights(ws) && Permutation(ss, ss') && UniqueSplits(ss)
    ensures BlockTexts(c, ws, ss) == BlockTexts(c, ws', ss')
  {
    assert UniqueBy(ws, WeightKey) && UniqueBy(ss, SplitKey);
    FindPermutation(ws, ws', WeightKey, c.id);
    FindPermutation(ss, ss', SplitKey, c.id);
  }

  /** The final checklist does not depend on the order of the weights or of the splits. */
  lemma {:induction false} FinalChecklistPermutation(cs: seq<CandidateQuestion>, ws: seq<Weight>, ws': seq<Weight>,
                                                     ss: seq<SplitQuestions>, ss': seq<SplitQuestions>)
    requires Permutation(ws, ws') && UniqueWeights(ws) && Permutation(ss, ss') && UniqueSplits(ss)
    ensures FinalChecklist(cs, ws, ss) == FinalChecklist(cs, ws', ss')
  {
    ExpandPermutation(cs, ws, ws', ss, ss');
  }

  lemma {:induction false} ExpandPermutation(cs: seq<CandidateQuestion>, ws: seq<Weight>, ws': seq<Weight>,
                                             ss: seq<SplitQuestions>, ss': seq<SplitQuestions>)
    requires Permutation(ws, ws') && UniqueWeights(ws) && Permutation(ss, ss') && UniqueSplits(ss)
    ensures Expand(cs, ws, ss) == Expand(cs, ws', ss')
  {
    if cs != [] {
      ExpandPermutation(cs[..|cs| - 1], ws, ws', ss, ss');
      BlockTextsPermutation(cs[|cs| - 1], ws, ws', ss, ss');
    }
  }

  lemma {:induction false} SplitsFitPermutation(cs: seq<CandidateQuestion>, ws: seq<Weight>, ws': seq<Weight>,
                                                ss: seq<SplitQuestions>, ss': seq<SplitQuestions>)
    requires Permutation(ws, ws') && Permutation(ss, ss') && UniqueWeights(ws) && SplitsFit(cs, ws, ss)
    ensures SplitsFit(cs, ws', ss')
  {
    assert UniqueBy(ws, WeightKey) && UniqueBy(ss, SplitKey);
    PermutationKeepsUnique(ss, ss', SplitKey);
    PermutationBasics(ss, ss');
    forall i, j | 0 <= i < j < |ss'| ensures ss'[i].candidateQuestionID != ss'[j].candidateQuestionID {
      assert SplitKey(ss'[i]) != SplitKey(ss'[j]);
    }
    forall i | 0 <= i < |ss'| ensures SplitFits(ss'[i], cs, ws') {
      assert ss'[i] in ss;
      var k :| 0 <= k < |ss| && ss[k] == ss'[i];
      assert SplitFits(ss[k], cs, ws);
      FindPermutation(ws, ws', WeightKey, ss[k].candidateQuestionID);
    }
    forall i | 0 <= i < |cs| ensures WeightOf(ws', cs[i].id) > 1 ==> SplitOf(ss', cs[i].id).Some? {
      FindPermutation(ws, ws', WeightKey, cs[i].id);
      FindPermutation(ss, ss', SplitKey, cs[i].id);
    }
  }

  /** Nor does whether the pass succeeds. */
  lemma {:induction false} BuildablePermutation(ds: seq<Dimension>, cs: seq<CandidateQuestion>,
                                                ws: seq<Weight>, ws': seq<Weight>,
                                                ss: seq<SplitQuestions>, ss': seq<SplitQuestions>, limits: ChecklistLimits)
    requires Permutation(ws, ws') && Permutation(ss, ss') && Buildable(ds, cs, ws, ss, limits)
    ensures Buildable(ds, cs, ws', ss', limits)
  {
    WeightsPermutation(cs, ws, ws', limits);
    WeightSumPermutation(ws, ws');
    SplitsFitPermutation(cs, ws, ws', ss, ss');
  }

  lemma {:induction false} WeightsPermutation(cs: seq<CandidateQuestion>, ws: seq<Weight>, ws': seq<Weight>, limits: ChecklistLimits)
    requires Permutation(ws, ws') && WeightsOk(cs, ws, limits)
    ensures WeightsOk(cs, ws', limits)
  {
    assert UniqueBy(ws, WeightKey);
    PermutationKeepsUnique(ws, ws', WeightKey);
    PermutationBasics(ws, ws');
    forall i, j | 0 <= i < j < |ws'| ensures ws'[i].candidateQuestionID != ws'[j].candidateQuestionID {
      assert WeightKey(ws'[i]) != WeightKey(ws'[j]);
    }
    forall i | 0 <= i < |ws'| ensures WeightOk(ws'[i]) && ws'[i].weight <= limits.WithDefaults().maxSplitCount {
      assert ws'[i] in ws;
      var k :| 0 <= k < |ws| && ws[k] == ws'[i];
      assert WeightOk(ws[k]);
    }
    forall id ensures id in WeightIds(ws') <==> id in WeightIds(ws) {
      if id in WeightIds(ws') {
        var i :| 0 <= i < |ws'| && ws'[i].candidateQuestionID == id;
        assert ws'[i] in ws;
        var k :| 0 <= k < |ws| && ws[k] == ws'[i];
      }
      if id in WeightIds(ws) {
        var i :| 0 <= i < |ws| && ws[i].candidateQuestionID == id;
        assert ws[i] in ws';
        var k :| 0 <= k < |ws'| && ws'[k] == ws[i];
      }
    }
  }

  // ---------------------------------------------------------------- the pass itself

  /** Go's map lookup: the zero weight for a missing key. */
  function WeightAt(m: map<string, Weight>, id: string): int {
    if id in m then m[id].weight else 0
  }

  /** A split id is in the lookup map of the first splits exactly when one of them has it. */
  lemma SplitSeen(ss: seq<SplitQuestions>, i: nat)
    requires i < |ss|
    ensures MapOf(ss[..i + 1], SplitKey) == MapOf(ss[..i], SplitKey)[ss[i].candidateQuestionID := ss[i]]
    ensures ss[i].candidateQuestionID in MapOf(ss[..i], SplitKey) <==>
            exists k :: 0 <= k < i && ss[k].candidateQuestionID == ss[i].candidateQuestionID
  {
    var id := ss[i].candidateQuestionID;
    assert ss[..i + 1][..i] == ss[..i];
    MapOfContents(ss[..i], SplitKey, id);
    if id in MapOf(ss[..i], SplitKey) {
      var k :| 0 <= k < i && ss[k] == MapOf(ss[..i], SplitKey)[id];
      assert ss[k].candidateQuestionID == id;
    } else {
      assert forall k | 0 <= k < i :: SplitKey(ss[..i][k]) != id && ss[..i][k] == ss[k];
    }
  }

  lemma WeightLookedUp(ws: seq<Weight>, id: string)
    ensures WeightAt(MapOf(ws, WeightKey), id) == WeightOf(ws, id)
  {
  }

  /** The check on a split, through the lookup maps. */
  lemma SplitFitsLookedUp(s: SplitQuestions, cs: seq<CandidateQuestion>, ws: seq<Weight>)
    ensures SplitFits(s, cs, ws) <==>
            s.candidateQuestionID in MapOf(cs, CandidateKey) && SplitOk(s, WeightAt(MapOf(ws, WeightKey), s.candidateQuestionID))
  {
    assert WeightAt(MapOf(ws, WeightKey), s.candidateQuestionID) == WeightOf(ws, s.candidateQuestionID);
    assert s.candidateQuestionID in CandidateIds(cs) <==> Find(cs, CandidateKey, s.candidateQuestionID).Some?;
  }

  /** The body of the loop over the splits: each belongs to a candidate to be split, comes once, and has the right size. */
  method CheckSplit(split: SplitQuestions, cs: seq<CandidateQuestion>, ws: seq<Weight>, candidateByID: map<string, CandidateQuestion>,
                    weightByCandidateID: map<string, Weight>, splitByCandidateID: map<string, SplitQuestions>)
    returns (err: Option<SemanticError>)
    requires candidateByID == MapOf(cs, CandidateKey) && weightByCandidateID == MapOf(ws, WeightKey)
    ensures err.None? <==> SplitFits(split, cs, ws) && split.candidateQuestionID !in splitByCandidateID
    ensures err.Some? ==> err.value.code == InvalidSplits
  {
    var id := split.candidateQuestionID;
    var weight := WeightAt(weightByCandidateID, id);
    SplitFitsLookedUp(split, cs, ws);
    if id !in candidateByID {
      return Some(Semantic(InvalidSplits, UnknownId));
    }
    if weight <= 1 {
      return Some(Semantic(InvalidSplits, OutOfRange));
    }
    if id in splitByCandidateID {
      return Some(Semantic(InvalidSplits, DuplicateId));
    }
    err := ValidateSplitQuestions(split, weight);
  }

  /** The first splits belong to different candidates to be split, at the right sizes. */
  ghost predicate FitUpTo(ss: seq<SplitQuestions>, i: nat, cs: seq<CandidateQuestion>, ws: seq<Weight>)
    requires i <= |ss|
  {
    && (forall j, k | 0 <= j < k < i :: ss[j].candidateQuestionID != ss[k].candidateQuestionID)
    && forall k | 0 <= k < i :: SplitFits(ss[k], cs, ws)
  }

  lemma {:induction false} FitStep(ss: seq<SplitQuestions>, i: nat, cs: seq<CandidateQuestion>, ws: seq<Weight>)
    requires i < |ss| && FitUpTo(ss, i, cs, ws)
    ensures FitUpTo(ss, i + 1, cs, ws) <==>
            SplitFits(ss[i], cs, ws) && ss[i].candidateQuestionID !in MapOf(ss[..i], SplitKey)
  {
    SplitSeen(ss, i);
  }

  lemma FitAll(ss: seq<SplitQuestions>, i: nat, cs: seq<CandidateQuestion>, ws: seq<Weight>)
    requires i <= |ss|
    ensures !FitUpTo(ss, i, cs, ws) ==> !(UniqueSplits(ss) && forall k | 0 <= k < |ss| :: SplitFits(ss[k], cs, ws))
    ensures FitUpTo(ss, |ss|, cs, ws) <==> UniqueSplits(ss) && forall k | 0 <= k < |ss| :: SplitFits(ss[k], cs, ws)
  {
  }

  /** The splits by candidate. */
  method IndexSplits(cs: seq<CandidateQuestion>, ws: seq<Weight>, ss: seq<SplitQuestions>)
    returns (r: Result<map<string, SplitQuestions>, SemanticError>)
    ensures r.Success? <==> UniqueSplits(ss) && forall i | 0 <= i < |ss| :: SplitFits(ss[i], cs, ws)
    ensures r.Success? ==> r.value == MapOf(ss, SplitKey)
    ensures r.Failure? ==> r.error.code == InvalidSplits
  {
    var candidateByID := IndexBy(cs, CandidateKey);
    var weightByCandidateID := IndexBy(ws, WeightKey);
    var splitByCandidateID: map<string, SplitQuestions> := map[];
    for i := 0 to |ss|
      invariant FitUpTo(ss, i, cs, ws)
      invariant splitByCandidateID == MapOf(ss[..i], SplitKey)
    {
      SplitSeen(ss, i);
      FitStep(ss, i, cs, ws);
      var err := CheckSplit(ss[i], cs, ws, candidateByID, weightByCandidateID, splitByCandidateID);
      if err.Some? {
        FitAll(ss, i + 1, cs, ws);
        return Failure(err.value);
      }
      splitByCandidateID := splitByCandidateID[ss[i].candidateQuestionID := ss[i]];
    }
    assert ss[..|ss|] == ss;
    FitAll(ss, |ss|, cs, ws);
    return Success(splitByCandidateID);
  }

  /** The questions of one split candidate, appended one at a time. */
  method AppendSplit(final: seq<FinalQuestion>, candidate: CandidateQuestion, questions: seq<DraftQuestion>)
    returns (r: seq<FinalQuestion>)
    ensures r == final + Block(candidate, questions)
  {
    r := final;
    for k := 0 to |questions|
      invariant r == final + Block(candidate, questions)[..k]
    {
      r := r + [FinalQuestion("", 0, candidate.dimensionID, candidate.id, questions[k].rationale, questions[k].question)];
    }
  }

  lemma ExpandStep(cs: seq<CandidateQuestion>, i: nat, ws: seq<Weight>, ss: seq<SplitQuestions>)
    requires i < |cs|
    ensures Expand(cs[..i + 1], ws, ss) == Expand(cs[..i], ws, ss) + Block(cs[i], BlockTexts(cs[i], ws, ss))
  {
    assert cs[..i + 1][..i] == cs[..i];
  }

  predicate HasItsSplit(c: CandidateQuestion, ws: seq<Weight>, ss: seq<SplitQuestions>) {
    WeightOf(ws, c.id) > 1 ==> SplitOf(ss, c.id).Some?
  }

  /** The body of the loop over the candidates: nothing at weight 0, the candidate itself at 1, its split above. */
  method ExpandCandidate(final: seq<FinalQuestion>, candidate: CandidateQuestion, ws: seq<Weight>, ss: seq<SplitQuestions>,
                         weightByCandidateID: map<string, Weight>, splitByCandidateID: map<string, SplitQuestions>)
    returns (r: Result<seq<FinalQuestion>, SemanticError>)
    requires weightByCandidateID == MapOf(ws, WeightKey) && splitByCandidateID == MapOf(ss, SplitKey)
    requires WeightOf(ws, candidate.id) >= 0
    ensures r.Success? <==> HasItsSplit(candidate, ws, ss)
    ensures r.Success? ==> r.value == final + Block(candidate, BlockTexts(candidate, ws, ss))
    ensures r.Failure? ==> r.error.code == InvalidSplits
  {
    var weight := WeightAt(weightByCandidateID, candidate.id);
    WeightLookedUp(ws, candidate.id);
    if weight == 0 {
      return Success(final);
    }
    if weight == 1 {
      return Success(final +
        [FinalQuestion("", 0, candidate.dimensionID, candidate.id, candidate.rationale, candidate.question)]);
    }
    if candidate.id !in splitByCandidateID {
      return Failure(Semantic(InvalidSplits, MissingId));
    }
    var expanded := AppendSplit(final, candidate, splitByCandidateID[candidate.id].questions);
    return Success(expanded);
  }

  lemma {:induction false} WeightNotNegative(ws: seq<Weight>, id: string)
    requires WeightShapeOk(ws)
    ensures WeightOf(ws, id) >= 0
  {
    assert forall i | 0 <= i < |ws| :: WeightOk(ws[i]);
  }

  method ExpandCandidates(cs: seq<CandidateQuestion>, ws: seq<Weight>, ss: seq<SplitQuestions>,
                          splitByCandidateID: map<string, SplitQuestions>)
    returns (r: Result<seq<FinalQuestion>, SemanticError>)
    requires splitByCandidateID == MapOf(ss, SplitKey) && WeightShapeOk(ws)
    ensures r.Success? <==> forall i | 0 <= i < |cs| :: HasItsSplit(cs[i], ws, ss)
    ensures r.Success? ==> r.value == Expand(cs, ws, ss)
    ensures r.Failure? ==> r.error.code == InvalidSplits
  {
    var weightByCandidateID := IndexBy(ws, WeightKey);
    var final: seq<FinalQuestion> := [];
    for i := 0 to |cs|
      invariant final == Expand(cs[..i], ws, ss)
      invariant forall k | 0 <= k < i :: HasItsSplit(cs[k], ws, ss)
    {
      ExpandStep(cs, i, ws, ss);
      WeightNotNegative(ws, cs[i].id);
      var step := ExpandCandidate(final, cs[i], ws, ss, weightByCandidateID, splitByCandidateID);
      if step.Failure? {
        return step;
      }
      final := step.value;
    }
    assert cs[..|cs|] == cs;
    return Success(final);
  }

  method NumberInPlace(questions: seq<FinalQuestion>) returns (final: seq<FinalQuestion>)
    ensures final == Renumber(questions)
  {
    final := questions;
    for i := 0 to |final|
      invariant |final| == |questions|
      invariant forall k | 0 <= k < i :: final[k] == Renumber(questions)[k]
      invariant forall k | i <= k < |final| :: final[k] == questions[k]
    {
      final := final[i := final[i].(id := NumberedId('q', i + 1), ordinal := i + 1)];
    }
  }

  /** Validation, the splits by candidate, the expansion, and numbering it. An error names the first of these that objects. */
  method BuildFinalChecklist(ds: seq<Dimension>, cs: seq<CandidateQuestion>, ws: seq<Weight>, ss: seq<SplitQuestions>,
                             limits: ChecklistLimits)
    returns (r: Result<seq<FinalQuestion>, SemanticError>)
    ensures r.Success? <==> Buildable(ds, cs, ws, ss, limits)
    ensures r.Success? ==> r.value == FinalChecklist(cs, ws, ss)
    ensures r.Success? ==> |r.value| == WeightSum(ws) && FinalQuestionsOk(ds, cs, r.value, limits)
    ensures r.Success? || r.error.code ==
            if !DimensionsOk(ds, limits) then InvalidDimensionAnalysis
            else if !CandidatesOk(ds, cs, limits) then InvalidQuestionGeneration
            else if !WeightsOk(cs, ws, limits) then InvalidWeights
            else if !SplitsFit(cs, ws, ss) then InvalidSplits
            else InvalidFinalChecklist
    ensures InputsOk(ds, cs, ws, limits) && SplitsFit(cs, ws, ss) && WeightSum(ws) > limits.WithDefaults().maxFinalQuestions ==>
              r.Failure? && r.error.diagnostics == [LimitDiagnostic("max_final_questions", limits.WithDefaults().maxFinalQuestions,
                                                                    WeightSum(ws), "", "build_final_checklist")]
    ensures InputsOk(ds, cs, ws, limits) && SplitsFit(cs, ws, ss) && WeightSum(ws) == 0 ==>
              r == Failure(Semantic(InvalidFinalChecklist, Empty))
  {
    var l := limits.WithDefaults();
    var err := ValidateDimensions(ds, limits);
    if err.Some? {
      return Failure(err.value);
    }
    err := ValidateCandidateQuestions(ds, cs, limits);
    if err.Some? {
      return Failure(err.value);
    }
    err := ValidateWeights(cs, ws, limits);
    if err.Some? {
      return Failure(err.value);
    }
    var splits := IndexSplits(cs, ws, ss);
    if splits.Failure? {
      return Failure(splits.error);
    }
    var expanded := ExpandCandidates(cs, ws, ss, splits.value);
    if expanded.Failure? {
      return Failure(expanded.error);
    }
    var final := expanded.value;
    ExpandedToProjectedCount(ds, cs, ws, ss, limits);
    if |final| == 0 {
      return Failure(Semantic(InvalidFinalChecklist, Empty));
    }
    if |final| > l.maxFinalQuestions {
      return Failure(LimitExceeded(InvalidFinalChecklist,
        LimitDiagnostic("max_final_questions", l.maxFinalQuestions, |final|, "", "build_final_checklist")));
    }
    final := NumberInPlace(final);
    FinalChecklistOk(ds, cs, ws, ss, limits);
    err := ValidateFinalQuestions(ds, cs, final, limits);
    match err {
      case Some(e) => return Failure(e);
      case None => return Success(final);
    }
  }
}
