/** The payload of a checklist workflow that the store accepts, and whose own retry it rejects. */
module Unordered {
  import opened Common
  import opened Text
  import opened Types
  import opened Validate
  import opened Ids
  import opened Active
  import opened Database
  import opened Calls
  import opened Effects
  import opened Store
  import opened Repeats
  import opened Payload

  ghost predicate InCandidateOrder(cs: seq<CandidateQuestion>, ws: seq<Weight>) {
    |ws| == |cs| && forall i | 0 <= i < |ws| :: ws[i].candidateQuestionID == cs[i].id
  }

  /** What a workflow sends is stored when its row is running; the same call again is acknowledged exactly when the model had
      listed the weights in candidate order, and gets ErrConflict otherwise, although nothing differs. */
  lemma {:induction false} SentTwice(ds: seq<Dimension>, gens: seq<seq<DraftQuestion>>, ws: seq<Weight>, ss: seq<SplitQuestions>,
                                     limits: ChecklistLimits, id: string, db: Db)
    requires Answered(ds, gens, ws, ss, limits) && Buildable(ds, FanIn(ds, gens), ws, ss, limits) && limits.Valid()
    requires Inv(db) && IsRunning(db, SucceedChecklist(id, Sent(ds, gens, ws, ss), limits))
    ensures var call := SucceedChecklist(id, Sent(ds, gens, ws, ss), limits);
            var after := AtomicResult(call, db);
            && AtomicReply(call, db) == Acked && LockStatus(after, call) == Some(Succeeded)
            && AtomicReply(call, after) == (if InCandidateOrder(FanIn(ds, gens), ws) then Acked else Conflict)
            && AtomicResult(call, after) == after
  {
    var call := SucceedChecklist(id, Sent(ds, gens, ws, ss), limits);
    SentIsAccepted(ds, gens, ws, ss, limits);
    WritesAlone(call, db);
    CommitsWhenReady(call, db);
    RetryAfterCommit(call, db);
    SentIsRetryableIff(ds, gens, ws, ss, limits);
  }

  // ---------------------------------------------------------------- an input that shows it

  const LIMITS := ChecklistLimits(0, 0, 0, 0)

  /** One dimension with two drafts, both kept as they are, weighed in the other order. */
  const ANALYZED := [Dimension("d1", 1, "t", "t", "t")]
  const GENERATED := [[DraftQuestion("t", "t"), DraftQuestion("t", "t")]]
  const WEIGHTS := [Weight("c2", "t", 1), Weight("c1", "t", 1)]

  lemma PrintedIds()
    ensures NumberedId('c', 1) == "c1" && NumberedId('c', 2) == "c2"
    ensures NumberedId('q', 1) == "q1" && NumberedId('q', 2) == "q2"
  {
    assert Itoa(1) == "1" && Itoa(2) == "2";
  }

  lemma Candidates()
    ensures FanIn(ANALYZED, GENERATED) == [CandidateQuestion("c1", "d1", 1, "t", "t"), CandidateQuestion("c2", "d1", 2, "t", "t")]
  {
    PrintedIds();
    assert ANALYZED[..0] == [] && GENERATED[..0] == [];
  }

  lemma LetterIsNotBlank()
    ensures !Blank("t") && !Blank("d1") && !Blank("c1") && !Blank("c2")
  {
    assert !IsSpace("t"[0]) && !IsSpace("d1"[0]) && !IsSpace("c1"[0]) && !IsSpace("c2"[0]);
  }

  lemma WeightsAreOk()
    ensures WeightsOk(FanIn(ANALYZED, GENERATED), WEIGHTS, LIMITS)
  {
    Candidates();
    LetterIsNotBlank();
    var cs := FanIn(ANALYZED, GENERATED);
    assert "c1"[1] != "c2"[1];
    forall id ensures id in WeightIds(WEIGHTS) <==> id in CandidateIds(cs) {
      assert WEIGHTS[0].candidateQuestionID == cs[1].id && WEIGHTS[1].candidateQuestionID == cs[0].id;
    }
  }

  lemma NothingToSplit()
    ensures ToSplit(FanIn(ANALYZED, GENERATED), WEIGHTS) == [] && WeightSum(WEIGHTS) == 2
  {
    var cs := FanIn(ANALYZED, GENERATED);
    WeightsAreOk();
    if ToSplit(cs, WEIGHTS) != [] {
      assert ToSplit(cs, WEIGHTS)[0] in ToSplit(cs, WEIGHTS);
      assert forall w | w in WEIGHTS :: w.weight == 1;
    }
    assert WEIGHTS[..1][..0] == [];
  }

  lemma AnalysisIsOk()
    ensures DimensionsOk(ANALYZED, LIMITS) && ANALYZED[0].ordinal == 1
    ensures QuestionGenerationOk(GENERATED[0], LIMITS)
  {
    LetterIsNotBlank();
  }

  /** Every activity could have answered this, and the checklist is built. */
  lemma {:induction false} UnorderedAnswers()
    ensures Answered(ANALYZED, GENERATED, WEIGHTS, [], LIMITS)
    ensures Buildable(ANALYZED, FanIn(ANALYZED, GENERATED), WEIGHTS, [], LIMITS)
  {
    AnalysisIsOk();
    WeightsAreOk();
    NothingToSplit();
    BuildFailsOnlyOnZeroWeights(ANALYZED, GENERATED, WEIGHTS, [], LIMITS);
    assert WEIGHTS[0].weight == 1;
  }

  lemma UnorderedWeights()
    ensures !InCandidateOrder(FanIn(ANALYZED, GENERATED), WEIGHTS)
  {
    Candidates();
    assert "c1"[1] != "c2"[1];
    assert WEIGHTS[0].candidateQuestionID != FanIn(ANALYZED, GENERATED)[0].id;
  }

  /** The payload it amounts to is stored, and then rejected. */
  lemma {:induction false} UnorderedPayload(id: string, call: Call, db: Db)
    requires call == SucceedChecklist(id, Sent(ANALYZED, GENERATED, WEIGHTS, []), LIMITS)
    requires Inv(db) && IsRunning(db, call)
    ensures Answered(ANALYZED, GENERATED, WEIGHTS, [], LIMITS)
    ensures AtomicReply(call, db) == Acked && LockStatus(AtomicResult(call, db), call) == Some(Succeeded)
    ensures AtomicReply(call, AtomicResult(call, db)) == Conflict && AtomicResult(call, AtomicResult(call, db)) == AtomicResult(call, db)
  {
    UnorderedAnswers();
    UnorderedWeights();
    SentTwice(ANALYZED, GENERATED, WEIGHTS, [], LIMITS, id, db);
  }
}
