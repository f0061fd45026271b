/** Artifact keys. */
module Keys {
  import opened Text
  import opened Paths

  function ChecklistTaskKey(checklistID: string): string {
    Join(["checklists", checklistID, "inputs", "task.txt"])
  }

  function ChecklistContextKey(checklistID: string): string {
    Join(["checklists", checklistID, "inputs", "context.txt"])
  }

  function EvaluationAnswerKey(evaluationID: string): string {
    Join(["evaluations", evaluationID, "inputs", "model_answer.txt"])
  }

  /** The three inputs, by the checklist or evaluation they belong to. */
  datatype Input = TaskInput(id: string) | ContextInput(id: string) | AnswerInput(id: string) {
    function Key(): string {
      match this
      case TaskInput(id) => ChecklistTaskKey(id)
      case ContextInput(id) => ChecklistContextKey(id)
      case AnswerInput(id) => EvaluationAnswerKey(id)
    }
  }

  /** The checklist or evaluation an LLM call belongs to. */
  datatype Owner = ChecklistOwner(id: string) | EvaluationOwner(id: string) {
    function Root(): (r: string)
      ensures NoSlash(r) && r != ""
    {
      if ChecklistOwner? then "checklists" else "evaluations"
    }

    function Prefix(): string {
      Join([Root(), id])
    }
  }

  datatype Side = RequestSide | ResponseSide {
    function FileName(): (f: string)
      ensures NoSlash(f)
    {
      if RequestSide? then "request.json" else "response.body"
    }
  }

  datatype Prompt =
    | DimensionAnalysis
    | QuestionGeneration(dimensionID: string)
    | WeightAssignment
    | QuestionSplitting(candidateID: string)
    | BinaryJudging(runIndex: int)
  {
    function Name(): string {
      match this
      case DimensionAnalysis => "dimension_analysis"
      case QuestionGeneration(d) => Join(["question_generation", d])
      case WeightAssignment => "weight_assignment"
      case QuestionSplitting(c) => Join(["question_splitting", c])
      case BinaryJudging(r) => Join(["binary_judging", "run-" + Itoa(r)])
    }
  }

  function LlmAttemptKey(entityPrefix: string, promptName: string, attempt: int, filename: string): string {
    Join([entityPrefix, "llm", promptName, "attempt-" + Itoa(attempt), filename])
  }

  function LlmKey(owner: Owner, promptName: string, attempt: int, side: Side): string {
    LlmAttemptKey(owner.Prefix(), promptName, attempt, side.FileName())
  }

  /** Where everything lies in the bucket. */
  lemma InputKeyLayout(id: string)
    ensures ChecklistTaskKey(id) == "checklists/" + id + "/inputs/task.txt"
    ensures ChecklistContextKey(id) == "checklists/" + id + "/inputs/context.txt"
    ensures EvaluationAnswerKey(id) == "evaluations/" + id + "/inputs/model_answer.txt"
  {
    InputLayout("checklists", id, "task.txt");
    InputLayout("checklists", id, "context.txt");
    InputLayout("evaluations", id, "model_answer.txt");
    InputFiles();
    assert "checklists" + "/" == "checklists/" && "evaluations" + "/" == "evaluations/";
  }

  lemma InputFiles()
    ensures "/inputs/" + "task.txt" == "/inputs/task.txt"
    ensures "/inputs/" + "context.txt" == "/inputs/context.txt"
    ensures "/inputs/" + "model_answer.txt" == "/inputs/model_answer.txt"
  {
  }

  lemma InputLayout(root: string, id: string, file: string)
    ensures Join([root, id, "inputs", file]) == root + "/" + id + ("/inputs/" + file)
  {
    JoinFour(root, id, "inputs", file);
    assert "/" + "inputs" + "/" == "/inputs/";
    Regroup(root + "/" + id, "/" + "inputs" + "/", file);
  }

  lemma Regroup(a: string, b: string, c: string)
    ensures a + b + c == a + (b + c)
  {
  }

  lemma {:induction false} LlmKeyLayout(owner: Owner, promptName: string, attempt: nat, side: Side)
    ensures LlmKey(owner, promptName, attempt, side) ==
            (if owner.ChecklistOwner? then "checklists" else "evaluations") + "/" + owner.id + "/" + "llm" + "/" + promptName + "/"
            + ("attempt-" + Digits(attempt)) + "/" + (if side.RequestSide? then "request.json" else "response.body")
  {
    JoinTwo(owner.Root(), owner.id);
    JoinFive(owner.Prefix(), "llm", promptName, "attempt-" + Itoa(attempt), side.FileName());
  }

  lemma Under(root: string, prefix: string, part: string)
    ensures Join([root, prefix + part]) == root + "/" + prefix + part
    ensures prefix == "" ==> Join([root, part]) == root + "/" + part
  {
    JoinTwo(root, prefix + part);
    JoinTwo(root, part);
    Regroup(root + "/", prefix, part);
  }

  lemma PromptRoots()
    ensures "question_generation" + "/" == "question_generation/"
    ensures "question_splitting" + "/" == "question_splitting/"
    ensures "binary_judging" + "/" + "run-" == "binary_judging/run-"
  {
  }

  lemma PromptNameLayout(prompt: Prompt)
    ensures prompt.DimensionAnalysis? ==> prompt.Name() == "dimension_analysis"
    ensures prompt.QuestionGeneration? ==> prompt.Name() == "question_generation/" + prompt.dimensionID
    ensures prompt.WeightAssignment? ==> prompt.Name() == "weight_assignment"
    ensures prompt.QuestionSplitting? ==> prompt.Name() == "question_splitting/" + prompt.candidateID
    ensures prompt.BinaryJudging? && prompt.runIndex >= 0 ==> prompt.Name() == "binary_judging/run-" + Digits(prompt.runIndex)
  {
    match prompt {
      case QuestionGeneration(d) => Under("question_generation", "", d);
      case QuestionSplitting(c) => Under("question_splitting", "", c);
      case BinaryJudging(r) => Under("binary_judging", "run-", Itoa(r));
      case _ =>
    }
    PromptRoots();
  }

  lemma JoinTwo(a: string, b: string)
    ensures Join([a, b]) == a + "/" + b
  {
    assert [a, b][1..] == [b];
  }

  lemma JoinFour(a: string, b: string, c: string, d: string)
    ensures Join([a, b, c, d]) == a + "/" + b + ("/" + c + "/") + d
  {
    assert [a, b, c, d][1..] == [b, c, d] && [b, c, d][1..] == [c, d];
    JoinTwo(c, d);
  }

  lemma JoinFive(a: string, b: string, c: string, d: string, e: string)
    ensures Join([a, b, c, d, e]) == a + "/" + b + "/" + c + "/" + d + "/" + e
  {
    assert [a, b, c, d, e][1..] == [b, c, d, e];
    JoinFour(b, c, d, e);
  }

  /** Every printed number is a plain component once a letter stands before it. */
  lemma ItoaCharacters(n: int)
    ensures forall i | 0 <= i < |Itoa(n)| :: IsDigit(Itoa(n)[i]) || Itoa(n)[i] == '-'
  {
  }

  lemma AttemptComponent(attempt: int)
    ensures NoSlash("attempt-" + Itoa(attempt))
  {
    ItoaCharacters(attempt);
  }

  lemma {:induction false} AttemptKeyParts(root: string, id: string, mark: string, prompt: string, attempt: string, file: string)
    requires NoSlash(root) && NoSlash(id) && NoSlash(mark) && NoSlash(attempt) && NoSlash(file)
    ensures Split(Join([Join([root, id]), mark, prompt, attempt, file])) == [root, id, mark] + Split(prompt) + [attempt, file]
  {
    var top := [Join([root, id]), mark, prompt, attempt, file];
    SplitJoin([root, id]);
    SplitJoinAll(top);
    SplitNoSlash(mark);
    SplitNoSlash(attempt);
    SplitNoSlash(file);
    SplitAllFive(top[0], mark, prompt, attempt, file);
    Flattened([root, id], mark, Split(prompt), attempt, file);
    assert [root, id] + [mark] == [root, id, mark];
  }

  lemma Flattened(a: seq<string>, b: string, c: seq<string>, d: string, e: string)
    ensures a + ([b] + (c + ([d] + [e]))) == (a + [b]) + c + [d, e]
  {
  }

  lemma {:induction false} SplitAllFive(a: string, b: string, c: string, d: string, e: string)
    ensures SplitAll([a, b, c, d, e]) == Split(a) + (Split(b) + (Split(c) + (Split(d) + Split(e))))
  {
    SplitAllFirst(a, [b, c, d, e]);
    SplitAllFirst(b, [c, d, e]);
    SplitAllFirst(c, [d, e]);
    SplitAllFirst(d, [e]);
    SplitAllFirst(e, []);
    assert [a] + [b, c, d, e] == [a, b, c, d, e] && [b] + [c, d, e] == [b, c, d, e] && [c] + [d, e] == [c, d, e];
    assert [d] + [e] == [d, e] && [e] + [] == [e] && Split(e) + SplitAll([]) == Split(e);
  }

  lemma SplitAllFirst(first: string, rest: seq<string>)
    ensures SplitAll([first] + rest) == Split(first) + SplitAll(rest)
  {
    assert ([first] + rest)[1..] == rest;
  }

  /** The components of an LLM key: five fixed ones around those of the prompt name. */
  lemma {:induction false} LlmKeyParts(owner: Owner, promptName: string, attempt: int, side: Side)
    requires NoSlash(owner.id)
    ensures Split(LlmKey(owner, promptName, attempt, side)) ==
            [owner.Root(), owner.id, "llm"] + Split(promptName) + ["attempt-" + Itoa(attempt), side.FileName()]
  {
    AttemptComponent(attempt);
    AttemptKeyParts(owner.Root(), owner.id, "llm", promptName, "attempt-" + Itoa(attempt), side.FileName());
  }

  /** No two LLM bodies share a key: not across entities, prompts, attempts or sides. */
  lemma {:induction false} LlmKeyInjective(o: Owner, p: string, n: int, s: Side, o': Owner, p': string, n': int, s': Side)
    requires NoSlash(o.id) && NoSlash(o'.id)
    requires LlmKey(o, p, n, s) == LlmKey(o', p', n', s')
    ensures o == o' && p == p' && n == n' && s == s'
  {
    LlmKeyParts(o, p, n, s);
    LlmKeyParts(o', p', n', s');
    var a := [o.Root(), o.id, "llm"] + Split(p) + ["attempt-" + Itoa(n), s.FileName()];
    var b := [o'.Root(), o'.id, "llm"] + Split(p') + ["attempt-" + Itoa(n'), s'.FileName()];
    assert a == b;
    assert a[0] == b[0] && a[1] == b[1];
    assert o.Root()[0] == o'.Root()[0];
    var z := |a| - 1;
    assert a[z] == s.FileName() && b[z] == s'.FileName();
    assert |s.FileName()| == |s'.FileName()|;
    assert a[z - 1] == "attempt-" + Itoa(n) && b[z - 1] == "attempt-" + Itoa(n');
    assert Itoa(n) == a[z - 1][8..] == b[z - 1][8..] == Itoa(n');
    ItoaInjective(n, n');
    assert Split(p) == a[3..z - 1] == b[3..z - 1] == Split(p');
    SplitInjective(p, p');
  }

  predicate IsInputKey(key: string, id: string) {
    key == ChecklistTaskKey(id) || key == ChecklistContextKey(id) || key == EvaluationAnswerKey(id)
  }

  lemma {:induction false} InputKeyMark(key: string, id: string)
    requires NoSlash(id) && IsInputKey(key, id)
    ensures |Split(key)| == 4 && Split(key)[2] == "inputs"
  {
    if key == ChecklistTaskKey(id) {
      SplitJoin(["checklists", id, "inputs", "task.txt"]);
    } else if key == ChecklistContextKey(id) {
      SplitJoin(["checklists", id, "inputs", "context.txt"]);
    } else {
      SplitJoin(["evaluations", id, "inputs", "model_answer.txt"]);
    }
  }

  lemma {:induction false} InputKeyParts(input: Input)
    requires NoSlash(input.id)
    ensures var parts := Split(input.Key());
            && |parts| == 4 && parts[1] == input.id
            && parts[0] == (if input.AnswerInput? then "evaluations" else "checklists")
            && parts[3] == (if input.TaskInput? then "task.txt" else if input.ContextInput? then "context.txt" else "model_answer.txt")
  {
    match input {
      case TaskInput(id) => SplitJoin(["checklists", id, "inputs", "task.txt"]);
      case ContextInput(id) => SplitJoin(["checklists", id, "inputs", "context.txt"]);
      case AnswerInput(id) => SplitJoin(["evaluations", id, "inputs", "model_answer.txt"]);
    }
  }

  /** No two inputs share a key. */
  lemma {:induction false} InputKeyInjective(a: Input, b: Input)
    requires NoSlash(a.id) && NoSlash(b.id) && a.Key() == b.Key()
    ensures a == b
  {
    InputKeyParts(a);
    InputKeyParts(b);
    var file := Split(a.Key())[3];
    assert file == Split(b.Key())[3];
    assert a.TaskInput? ==> file[0] == 't';
    assert a.ContextInput? ==> file[0] == 'c';
    assert a.AnswerInput? ==> file[0] == 'm';
  }

  /** No LLM body can land on an input of any checklist or evaluation. */
  lemma {:induction false} LlmKeyIsNoInput(o: Owner, p: string, n: int, s: Side, id: string)
    requires NoSlash(o.id) && NoSlash(id)
    ensures !IsInputKey(LlmKey(o, p, n, s), id)
  {
    LlmKeyParts(o, p, n, s);
    if IsInputKey(LlmKey(o, p, n, s), id) {
      InputKeyMark(LlmKey(o, p, n, s), id);
    }
  }

  /** The names a prompt interpolates are plain components. */
  predicate PlainPrompt(p: Prompt) {
    match p
    case QuestionGeneration(d) => PlainComponent(d)
    case QuestionSplitting(c) => PlainComponent(c)
    case _ => true
  }

  /** Generated ids are plain components. */
  lemma {:induction false} NumberedIdIsPlain(prefix: char, n: int)
    requires 'a' <= prefix <= 'z'
    ensures PlainComponent(NumberedId(prefix, n))
  {
    var id := NumberedId(prefix, n);
    ItoaCharacters(n);
    assert id[0] == prefix;
    assert id != "." && id != "..";
  }

  // The fixed names, one lemma each.

  lemma DimensionAnalysisIsPlain()
    ensures PlainComponent("dimension_analysis")
  {
  }

  lemma QuestionGenerationIsPlain()
    ensures PlainComponent("question_generation")
  {
  }

  lemma WeightAssignmentIsPlain()
    ensures PlainComponent("weight_assignment")
  {
  }

  lemma QuestionSplittingIsPlain()
    ensures PlainComponent("question_splitting")
  {
  }

  lemma BinaryJudgingIsPlain()
    ensures PlainComponent("binary_judging")
  {
  }

  lemma RunIsPlain(run: int)
    ensures PlainComponent("run-" + Itoa(run))
  {
    ItoaCharacters(run);
    assert ("run-" + Itoa(run))[0] == 'r';
  }

  lemma AttemptIsPlain(attempt: int)
    ensures PlainComponent("attempt-" + Itoa(attempt))
  {
    ItoaCharacters(attempt);
    assert ("attempt-" + Itoa(attempt))[0] == 'a';
  }

  lemma RootIsPlain(owner: Owner)
    ensures PlainComponent(owner.Root())
  {
  }

  lemma FileNameIsPlain(side: Side)
    ensures PlainComponent(side.FileName())
  {
  }

  lemma LlmIsPlain()
    ensures PlainComponent("llm")
  {
  }

  ghost predicate PlainComponents(parts: seq<string>) {
    forall i | 0 <= i < |parts| :: PlainComponent(parts[i])
  }

  lemma {:induction false} PairIsPlain(a: string, b: string)
    requires PlainComponent(a) && PlainComponent(b)
    ensures PlainComponents(Split(Join([a, b])))
  {
    SplitJoin([a, b]);
  }

  lemma {:induction false} PromptIsPlain(p: Prompt)
    requires PlainPrompt(p)
    ensures PlainComponents(Split(p.Name()))
  {
    match p {
      case DimensionAnalysis => DimensionAnalysisIsPlain(); SplitNoSlash(p.Name());
      case QuestionGeneration(d) => QuestionGenerationIsPlain(); PairIsPlain("question_generation", d);
      case WeightAssignment => WeightAssignmentIsPlain(); SplitNoSlash(p.Name());
      case QuestionSplitting(c) => QuestionSplittingIsPlain(); PairIsPlain("question_splitting", c);
      case BinaryJudging(r) => BinaryJudgingIsPlain(); RunIsPlain(r); PairIsPlain("binary_judging", "run-" + Itoa(r));
    }
  }

  lemma {:induction false} AroundIsPlain(before: seq<string>, middle: seq<string>, after: seq<string>)
    requires PlainComponents(before) && PlainComponents(middle) && PlainComponents(after)
    ensures PlainComponents(before + middle + after)
  {
  }

  /** Every key `runLLM` records is accepted as an artifact reference. */
  lemma {:induction false} LlmKeyIsValidReference(owner: Owner, p: Prompt, attempt: int, side: Side)
    requires PlainComponent(owner.id) && PlainPrompt(p)
    ensures ValidReference(LlmKey(owner, p.Name(), attempt, side))
  {
    var key := LlmKey(owner, p.Name(), attempt, side);
    LlmKeyParts(owner, p.Name(), attempt, side);
    RootIsPlain(owner);
    LlmIsPlain();
    PromptIsPlain(p);
    AttemptIsPlain(attempt);
    FileNameIsPlain(side);
    AroundIsPlain([owner.Root(), owner.id, "llm"], Split(p.Name()), ["attempt-" + Itoa(attempt), side.FileName()]);
    PlainIsValidReference(Split(key));
    JoinSplit(key);
  }

  /** The path components of a prompt name. */
  function PromptParts(p: Prompt): seq<string> {
    match p
    case DimensionAnalysis => ["dimension_analysis"]
    case QuestionGeneration(d) => ["question_generation", d]
    case WeightAssignment => ["weight_assignment"]
    case QuestionSplitting(c) => ["question_splitting", c]
    case BinaryJudging(r) => ["binary_judging", "run-" + Itoa(r)]
  }

  lemma {:induction false} SplitPrompt(p: Prompt)
    requires PlainPrompt(p)
    ensures Split(p.Name()) == PromptParts(p)
  {
    match p {
      case DimensionAnalysis => DimensionAnalysisIsPlain(); SplitNoSlash(p.Name());
      case QuestionGeneration(_) => QuestionGenerationIsPlain(); SplitJoin(PromptParts(p));
      case WeightAssignment => WeightAssignmentIsPlain(); SplitNoSlash(p.Name());
      case QuestionSplitting(_) => QuestionSplittingIsPlain(); SplitJoin(PromptParts(p));
      case BinaryJudging(r) => BinaryJudgingIsPlain(); RunIsPlain(r); SplitJoin(PromptParts(p));
    }
  }

  lemma RunNameInjective(a: int, b: int)
    requires "run-" + Itoa(a) == "run-" + Itoa(b)
    ensures a == b
  {
    assert Itoa(a) == ("run-" + Itoa(a))[4..] == ("run-" + Itoa(b))[4..] == Itoa(b);
    ItoaInjective(a, b);
  }

  lemma PromptHeads(p: Prompt)
    ensures PromptParts(p)[0][0] == (if p.DimensionAnalysis? then 'd' else if p.WeightAssignment? then 'w'
                                     else if p.BinaryJudging? then 'b' else 'q')
  {
  }

  lemma QuestionHeads()
    ensures "question_generation" != "question_splitting"
  {
    assert "question_generation"[9] != "question_splitting"[9];
  }

  /** The parts of a prompt name tell the prompt. */
  lemma {:induction false} PartsInjective(p: Prompt, q: Prompt)
    requires PromptParts(p) == PromptParts(q)
    ensures p == q
  {
    PromptHeads(p);
    PromptHeads(q);
    match p {
      case DimensionAnalysis =>
      case WeightAssignment =>
      case BinaryJudging(run) => JudgingPartsInjective(run, q);
      case QuestionGeneration(_) => QuestionPartsInjective(p, q);
      case QuestionSplitting(_) => QuestionPartsInjective(p, q);
    }
  }

  lemma {:induction false} JudgingPartsInjective(run: int, q: Prompt)
    requires q.BinaryJudging? && PromptParts(BinaryJudging(run)) == PromptParts(q)
    ensures q == BinaryJudging(run)
  {
    assert PromptParts(BinaryJudging(run))[1] == PromptParts(q)[1];
    RunNameInjective(run, q.runIndex);
  }

  lemma {:induction false} QuestionPartsInjective(p: Prompt, q: Prompt)
    requires (p.QuestionGeneration? || p.QuestionSplitting?) && (q.QuestionGeneration? || q.QuestionSplitting?)
    requires PromptParts(p) == PromptParts(q)
    ensures p == q
  {
    QuestionHeads();
    assert PromptParts(p)[0] == PromptParts(q)[0] && PromptParts(p)[1] == PromptParts(q)[1];
  }

  /** Different prompts have different names. */
  lemma {:induction false} PromptNameInjective(p: Prompt, q: Prompt)
    requires PlainPrompt(p) && PlainPrompt(q) && p.Name() == q.Name()
    ensures p == q
  {
    SplitPrompt(p);
    SplitPrompt(q);
    PartsInjective(p, q);
  }
}
