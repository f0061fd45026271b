# Checklist evaluation: a verified model

The service turns a task into a checklist of yes/no questions and judges answers against it. A checklist workflow asks a
model for dimensions, candidate questions, weights from 0 to 4 and splits, and expands them into final questions. An
evaluation workflow has every question judged several times, takes the strict majority per question and scores. Rows go
from running to succeeded or failed under a row lock, driven by activities that may run more than once, lose their reply
after committing, or still be running when the workflow has moved on. Readers use several queries without a transaction.

The project models this in five layers and proves each against the one below:

- **Core** (`Text`, `Seqs`, `Lookup`, `Types`, `Validate`, `Ids`, `Active`, `Score`, `Aggregation`): the validators, id
  assignment, the expansion pass and the aggregation, as the loops they are, each proved against a specification over the
  whole input; then what the specifications promise: dense numbering, block structure, order independence, majorities.
- **Failures and evidence** (`Paths`, `Keys`, `Failures`, `Evidence`, `Inputs`, `Activities`, `Terminals`): error
  classification, failure records, artifact keys, `runLLM`, the activities around it, and runs of writes to the artifact
  store in which all entities, prompts and attempts interleave.
- **Store** (`Database`, `Calls`, `Effects`, `Store`, `Reads`, `Repeats`, `Shown`): the tables with their constraints, the
  class with the real methods, what repeated calls answer, what reads see while others commit, and what a GET shows.
- **Protocol** (`Linear`, `Protocol`, `Safety`, `Answers`, `Writers`, `Retries`, `Progress`, `Endings`, `LostReplies`): a step
  relation whose steps are begin, single statement (read, lock, commit) and loss of a call or its reply; what each call answers
  and leaves, in terms of the tables; who wrote which version;
  workflows whose terminal activities are calls in flight, retried, heard of or not; what holds in every run, and that no
  call is ever stuck.
- **Workflows and API** (`Payload`, `Unordered`, `Workflows`, `CreateChecklist`, `EvaluateAnswer`, `Scripts`, `Api`,
  `Starts`, `EndToEnd`, `Scoring`, `Whole`): the two workflows with fan-out, fan-in and retries, the handlers, and the theorems that
  join activities, artifacts, workflows and protocol.

Specification functions say what a method computes, and the methods are proved against them. What the functions themselves mean
is stated without them: `Answers` and `Shown` on the tables, `Aggregation.AggregateJudgments` on the votes, `CreateChecklist.SentAsAnswered`,
`SentCandidate` and `BlockAnswered` and `EvaluateAnswer.SentVotes` on what the activities answered, `Failures.ErrorClassification`
and `ErrorRecord` on the errors.

How the parts fit: a call is a fixed number of statements, and everything it decides is a function of what each statement
saw (`Calls.ReplyTo`). `Constant(db, n)` is the call running alone, which is what the methods of `Store.Store` are proved to
do (`AtomicReply`, `AtomicResult`). `Linear.Linearizable` shows that any interleaving answers like the call running alone at
one of its statements, and `Protocol` shows that every reachable state meets the conditions for that.

A workflow takes a script: how each attempt of each activity ends, given what the activity is asked. What is asked follows
from the earlier answers, so the script decides the whole course: `Passed` says which stages let the workflow go on,
`StoppedFor` names the first one that does not and its cause, `PayloadOf` and `SentBy` are what is sent, and
`AttemptsThrough` counts the attempts. `Scripts` shows that attempts of the modelled activities make a script the workflows
can rely on, `Scoring` that the score over a loaded checklist passes the recomputation in every history, and `Whole` joins such
a script, a run of artifact writes and a history of the protocol.

Four places where the code does less than one might expect are kept as they are:

- A retried `SucceedChecklist` is compared list by list with rows that come back in ordinal order. `Unordered.UnorderedPayload`
  is a payload of the workflow that is stored and whose identical retry gets `ErrConflict`; `Unordered.SentTwice` and
  `Retries.RepetitionInRun` give the exact condition: the weights must be listed in candidate order. If they are not and the
  reply of the commit is lost, the workflow can only end in an error although its row has succeeded
  (`LostReplies.LostReplyOfUnordered`).
- The validators do not look at repeated dimension or candidate ordinals, the schema does. `Effects.SchemaAcceptsContent`
  says that this is the only difference; `Payload.SentIsAccepted` that the workflow never runs into it.
- `validateArtifactReference` rejects names that climb out of the bucket but for `..` itself, which it accepts like `.`:
  `Paths.ValidReferenceIff`.
- `runJudgmentsEqual` looks in one direction only. `Aggregation.IndexedEqualNeedsAcceptance` shows that this is not equality
  in general, `Aggregation.IndexedEqualIsPermutation` that it is for accepted votes.

`dafny verify dfyconfig.toml` checks the whole project.

## Model

| member | source | states |
|---|---|---|
| Text.DigitsRoundTrip | internal/evalcore/ids.go:9-26 | printing a number in decimal and reading it back gives the number |
| Text.DigitsByTen | internal/evalcore/ids.go:9-26 | the decimal digits: a character below ten, otherwise the digits of the tenth followed by the last one |
| Text.NumberedIdParts | internal/evalcore/ids.go:9-26 | a generated id is its prefix followed by the decimal digits |
| Text.NumberedIdInjective | internal/evalcore/ids.go:9-26 | generated ids with the same prefix are equal only for equal numbers |
| Text.NotBlankIsNotSqlBlank | migrations/0002_rubric_refinement.sql:26-28 | text that is not blank for the Go validators passes the `btrim` checks of the schema |
| Types.ErrorCode.NameIs | internal/evalcore/types.go:21-28 | the error codes as clients see them |
| Types.ChecklistLimits.DefaultsFillGaps | internal/evalcore/types.go:47-79 | limits that are not given are 6, 8, 4 and 64; only a split limit above 4 is invalid |
| Types.EvaluationRunsAllowed | internal/evalcore/types.go:173-181 | 1, 3 and 5 runs without a maximum, every odd number up to it with one |
| Validate.ValidateDimensionGeneration | internal/evalcore/validate.go:5-30 | no error iff the list is non-empty, within the limit and every draft has name, rubric and rationale; the limit error carries the observed count |
| Validate.ValidateDimensions | internal/evalcore/validate.go:32-68 | no error iff 1..max dimensions, distinct ids, positive ordinals, no blank text |
| Validate.ValidateQuestionGeneration | internal/evalcore/validate.go:70-92 | no error iff 1..max drafts, none blank |
| Validate.ValidateCandidateQuestions | internal/evalcore/validate.go:94-136 | no error iff non-empty, distinct ids, known dimensions, no blank text, and no dimension, named or not, has more than its maximum of candidates |
| Validate.CandidatesAccepted | internal/evalcore/validate.go:94-136 | the same in terms of the lists: the dimension of each candidate is one of the list, and no dimension takes more places than the limit |
| Validate.ValidateWeightShape | internal/evalcore/validate.go:174-195 | no error iff non-empty, distinct candidates, rationales given, weights in 0..4 |
| Validate.ValidateWeights | internal/evalcore/validate.go:138-172 | no error iff the weights have that shape and cover the distinct candidates exactly, within the split limit |
| Validate.ValidateProjectedFinalQuestionCount | internal/evalcore/validate.go:197-215 | returns the sum of the weights; an error with its diagnostic iff the sum exceeds the limit |
| Validate.ValidateFinalQuestions | internal/evalcore/validate.go:217-273 | no error iff 1..max questions, distinct ids and ordinals, known dimension and source candidate that agree, no blank text |
| Validate.FinalQuestionsAccepted | internal/evalcore/validate.go:217-273 | the same in terms of the lists: each question has a dimension of the list and a source candidate of that dimension |
| Validate.ValidateSplitQuestions | internal/evalcore/validate.go:275-294 | no error iff the split has exactly the expected number, above 1, of complete questions |
| Validate.ValidateJudgments | internal/evalcore/validate.go:296-349 | no error iff the judgments answer each of the distinct questions exactly once; which of the two error codes otherwise |
| Ids.AssignDimensionIDs | internal/evalcore/ids.go:5-17 | the array filled in place holds d1..dn in draft order, each with the name, rubric and rationale of its draft |
| Ids.AssignCandidateQuestionIDs | internal/evalcore/ids.go:19-32 | the array filled in place holds consecutive ids from the start ordinal, each with the dimension and its draft's rationale and question |
| Ids.NumberedDimensionsOk | internal/activities/llm.go:194-200 | validating the numbered dimensions accepts iff validating the drafts did |
| Ids.FanInDense | internal/workflows/create_checklist.go:57-64 | the candidates of all dimensions are c1..cN with ordinals 1..N |
| Ids.FanInCount | internal/workflows/create_checklist.go:57-64 | each dimension contributes exactly its own drafts |
| Ids.FanInAt | internal/workflows/create_checklist.go:57-64 | where each draft ends up: right after all drafts of the earlier dimensions |
| Ids.FanInOk | internal/workflows/create_checklist.go:57-67 | validating the fanned-in candidates never rejects |
| Active.BuildFinalChecklist | internal/evalcore/active.go:5-92 | succeeds iff the three validators pass, splits and candidates of weight above 1 correspond at the exact sizes and the sum of weights is in range; the result is the specified expansion, as long as the sum, and passes the closing validation; otherwise the code of the first stage that objects, with the diagnostic of the limit |
| Active.BlockAt | internal/evalcore/active.go:44-82 | candidate i owns one contiguous block of exactly its weight many questions, right after the blocks of the earlier candidates |
| Active.TextAt | internal/evalcore/active.go:52-80 | the texts of a block: the candidate's own at weight 1, its split's in order above |
| Active.QuestionAt | internal/evalcore/active.go:84-87 | each question is numbered by its place and carries its candidate, dimension and text |
| Active.WholeQuestionAt | internal/evalcore/active.go:44-87 | both together: the whole question at every place of the result |
| Active.ExpandedToProjectedCount | internal/evalcore/validate.go:197-215 | the expansion is as long as the sum projected over the separately ordered weights |
| Active.FinalChecklistOk | internal/evalcore/active.go:84-90 | the closing validation never rejects |
| Active.FinalChecklistPermutation | internal/evalcore/active.go:17-42 | the result does not depend on the order of weights or splits |
| Active.BuildablePermutation | internal/evalcore/active.go:17-42 | nor does whether the pass succeeds |
| Score.ScoreChecklist | internal/evalcore/score.go:5-29 | succeeds iff the judgments are valid; points, total, rate and failed ids are the specified ones |
| Score.ScoreConserves | internal/evalcore/score.go:5-29 | satisfied plus failed is the number of questions, and the rate lies in 0..1 |
| Score.ScoreIsRight | internal/evalcore/score.go:5-29 | the total is the number of questions, satisfied and failed add up to it, the rate is their quotient, and a question is failed iff a judgment answers it with no |
| Score.RateOfScore | internal/evalcore/score.go:24 | rate times total is the satisfied points |
| Score.FailedIdsExact | internal/evalcore/score.go:14-22 | the failed ids are the ids of exactly the questions without a yes, in question order |
| Score.AcceptedByBucket | internal/evalcore/score.go:35-57 | validating the buckets run by run is: every run votes on every question exactly once, and nothing else |
| Score.AcceptedLength | internal/evalcore/score.go:35-57 | an accepted list has runs times questions many votes |
| Aggregation.AggregateJudgments | internal/evalcore/score.go:31-84 | succeeds iff the votes are accepted, so the closing score never errors; then run k of the judgment on question i is the vote of run k on it with its evidence and answer, the answer is yes iff more than half of these say yes, and the score counts these answers; otherwise a plain error iff the run count is not odd and positive, and else the code of the first check that rejects the votes |
| Aggregation.AggregatePermutation | internal/evalcore/score.go:31-84 | the same votes in another order aggregate to the same result |
| Aggregation.StrictMajority | internal/evalcore/score.go:59-76 | the answer is that of more than half of the runs, there are no ties |
| Aggregation.FlipFlips | internal/evalcore/score.go:59-76 | flipping every vote flips every answer |
| Aggregation.YesNeverHurts | internal/evalcore/score.go:59-83 | turning a no into a yes never lowers points or rate and adds no failed id |
| Aggregation.EvidenceIsNotScored | internal/evalcore/score.go:59-83 | changing evidence never changes the score |
| Aggregation.OneRunIsScoreChecklist | migrations/0004_repeated_evaluations.sql:7-20 | judgments retagged as run 1 are accepted iff they were valid, with the same score |
| Aggregation.RunJudgmentsEqual | internal/db/store.go:703-721 | true iff the lists have one length and every vote of b is found under its key in a |
| Aggregation.IndexedEqualIsPermutation | internal/db/store.go:703-721 | for accepted lists this is equality as multisets |
| Aggregation.IndexedEqualNeedsAcceptance | internal/db/store.go:703-721 | without acceptance it is not |
| Failures.ValidateDetails | internal/failure/failure.go:40-66 | no error iff required texts, class, attempt count and all references are in order |
| Failures.FailureDetailsOk | internal/activities/errors.go:32-91 | every error becomes a record with non-blank code and message, a known class, and retryable iff that class says so |
| Failures.ErrorClassification | internal/activities/errors.go:32-91 | retried iff an unclassified error or an infrastructure error marked retryable; the class of every kind of error |
| Failures.ErrorRecord | internal/activities/errors.go:32-91 | code, message, diagnostics, attempt and references of the record of every kind of error |
| Failures.RetryPolicyAgrees | internal/workflows/options.go:14-23 | Temporal retries an activity error iff its record is retryable |
| Failures.WorkflowFailureDetails | internal/workflows/failure.go:12-27 | workflow and stage are the given ones, at least one attempt is counted, and everything else is the carried record's, or that of the error met |
| Failures.WorkflowRecord | internal/workflows/failure.go:12-27 | an activity's record is kept, an error of the workflow's own recorded as one of the first attempt, an error without a record as an internal one to be retried |
| Failures.EqualIsEquality | internal/failure/failure.go:68-78 | two records count as equal iff they agree in every field |
| Failures.WorkflowDetailsOk | internal/workflows/failure.go:12-27 | no workflow builds a record the store would refuse, whose retry flag differs from its class, or that refers to anything not stored |
| Failures.StartFailureDetailsOk | internal/api/router.go:259-271 | the API's record, field by field, is one the store accepts |
| Keys.LlmKeyInjective | internal/artifacts/keys.go:21-43 | for slash-free ids, entity, prompt, attempt and side can be read off an LLM key |
| Keys.PromptNameInjective | internal/activities/llm.go:208-253 | different prompts have different names |
| Keys.InputKeyLayout | internal/artifacts/keys.go:13-35 | the keys of the three inputs, spelled out |
| Keys.LlmKeyLayout | internal/artifacts/keys.go:21-43 | the key of a body: owner, prompt, attempt and file name in their places |
| Keys.PromptNameLayout | internal/activities/llm.go:208-253 | the name of each kind of prompt, with the dimension, candidate or run it is about |
| Keys.LlmKeyIsNoInput | internal/artifacts/keys.go:13-43 | no LLM key is an input key |
| Keys.LlmKeyIsValidReference | internal/failure/failure.go:80-90 | every key recorded as a reference passes the reference check |
| Paths.ValidReferenceIff | internal/failure/failure.go:80-90 | a reference is accepted iff it is one or two dots alone, or all its slash-separated components are non-empty, no dots, and free of white space and control characters |
| Keys.NumberedIdIsPlain | internal/evalcore/ids.go:5-32 | generated ids are single path components, so prompts built from them are covered |
| Evidence.Artifacts.RunLLM | internal/activities/llm.go:286-313 | what is stored, what is referenced, and the error, for every outcome of the call and of the two writes; the store is left as by a run of single writes that ends with the call's own two |
| Evidence.CallStores | internal/activities/llm.go:286-313 | which body is stored under which key and which key is claimed, from the trace and the fates of the writes; nothing else changes |
| Evidence.ReferencesAreStored | internal/activities/llm.go:286-313 | everything referenced is stored with the body the call had |
| Evidence.FullTraceIsStored | internal/activities/llm.go:286-313 | success with a full trace means that both bodies are stored |
| Evidence.EvidenceIsAppendOnly | internal/artifacts/keys.go:13-43 | over any run of single writes, inputs and bodies of all entities, prompts and attempts in any order, nothing stored ever changes |
| Evidence.ClaimedBodiesLast | internal/activities/llm.go:286-313 | every body a call refers to is there, unchanged, at the end of the run |
| Evidence.InputsSurvive | internal/artifacts/keys.go:13-43 | an input is read back as it was written, whatever is written in between |
| Evidence.InputIsItsOwn | internal/artifacts/keys.go:13-43 | what is found under the key of an input was written as that input |
| Inputs.WriteChecklistInputs | internal/activities/llm.go:169-177 | which of the two inputs are written, for every outcome of both writes, and when it fails; no other key is touched |
| Inputs.WriteEvaluationInput | internal/activities/llm.go:179-184 | the answer is written under its key or nothing is, and when it fails; no other key is touched |
| Inputs.LoadChecklist | internal/activities/postgres.go:5-24 | the checklist as read and, once it succeeded, texts that were written as its task and context; succeeds iff the row exists and, if succeeded, both inputs can be read |
| Activities.FailsCleanly | internal/activities/errors.go:20-30 | an activity's error has a valid record that refers to what the call has stored, is retried iff the record says so, and never if the answer was invalid, which then has the validation's own code |
| Activities.TriedAgainIff | internal/activities/llm.go:286-313 | an attempt without an answer is tried again iff its evidence is not known to be stored or the client's error is one to retry; one whose answer is invalid never |
| Activities.AnalyzeDimensions | internal/activities/llm.go:186-202 | succeeds iff the answer arrived, its evidence is stored and the drafts are valid; then the dimensions are numbered and valid; otherwise the error of the call, or of the invalid answer with the code of the dimension analysis; tried again iff the call is worth another attempt |
| Activities.GenerateQuestionsForDimension | internal/activities/llm.go:204-216 | the same for the questions of a dimension, with the code of question generation |
| Activities.AssignWeights | internal/activities/llm.go:218-230 | the same for weights over the given candidates, with their code |
| Activities.SplitQuestion | internal/activities/llm.go:232-245 | the same for a split of the exact size, with its code |
| Activities.JudgeAnswer | internal/activities/llm.go:247-262 | the same for judgments, with the code of the check that rejects them; a run index that is not positive is rejected without asking the model |
| Terminals.ReportIsClean | internal/activities/postgres.go:26-40 | the error of a terminal activity has a valid record; it is never tried again iff content or votes were rejected, and then has the validation's own code |
| Terminals.RejectionCodes | internal/db/store.go:182-201 | the code of every rejection: the first list of content that is not valid, votes unless only the questions can be to blame, and internal for limits, records and numbers of runs |
| Terminals.SucceedChecklist | internal/activities/postgres.go:26-28 | the store's operation, its reply turned into the activity's result: rejected content is a semantic error with the code of the first list that is not valid, invalid limits and every other reply a plain one |
| Terminals.FailChecklist | internal/activities/postgres.go:30-32 | the same for the failure record, whose rejection is a plain error |
| Terminals.SucceedEvaluation | internal/activities/postgres.go:34-36 | the same for votes and score: a rejection is semantic with the code of the votes, or of a score that does not match, and plain if the number of runs is not valid |
| Terminals.FailEvaluation | internal/activities/postgres.go:38-40 | the same for the failure record of an evaluation |
| Database.QueriesKept | internal/db/store.go:295-372 | once a checklist is terminal its queries return the same in every later state |
| Effects.SchemaAcceptsContent | migrations/0002_rubric_refinement.sql:22-66 | of what the validators accept the schema refuses exactly repeated ordinals |
| Effects.SchemaAcceptsVotes | migrations/0002_rubric_refinement.sql:68-91 | accepted votes and their score satisfy every constraint |
| Effects.CommitsWhenReady | internal/db/store.go:215-257 | a validated terminal call that finds its row running always commits, repeated ordinals aside |
| Effects.CommitIsSafe | internal/db/store.go:182-293 | every commit keeps the tables consistent and every terminal row as it is |
| Store.Store.CreateChecklistForWorkflow | internal/db/store.go:164-180 | a running row with its input keys, or a refusal without effect |
| Store.Store.CreateEvaluationForWorkflow | internal/db/store.go:392-413 | a running row for a succeeded checklist, not-found or conflict otherwise |
| Store.InsertRows | internal/db/store.go:215-245 | row by row insertion succeeds iff all rows pass their checks and no two clash; then exactly these rows are added |
| Store.Store.SucceedChecklist | internal/db/store.go:182-258 | reply and whole new state; consistent tables are kept |
| Store.Store.FailChecklist | internal/db/store.go:260-293 | reply and whole new state; consistent tables are kept |
| Store.Store.GetChecklist | internal/db/store.go:295-372 | the row, its failure record if failed, and its content in ordinal order |
| Store.Store.SucceedEvaluation | internal/db/store.go:415-470 | reply and whole new state; consistent tables are kept |
| Store.Store.FailEvaluation | internal/db/store.go:472-506 | reply and whole new state; consistent tables are kept |
| Store.Store.GetEvaluation | internal/db/store.go:508-583 | the row, its failure record if failed, its votes in text order and, if succeeded, the aggregation recomputed |
| Reads.Reload | internal/db/store.go:548-581 | reloading a succeeded evaluation never errors and reproduces points, rate, failed ids and answers |
| Reads.GetChecklistIsAtomic | internal/api/router.go:216-233 | a GET over six separate queries shows the state at its first one; a failed read finds its record |
| Reads.GetEvaluationIsAtomic | internal/api/router.go:273-299 | a GET over nine separate queries shows the state at its first one; a failed read finds its record |
| Shown.ChecklistIsShown | internal/api/router.go:216-233 | what a GET shows, on the tables: the row's status and runs, its record iff it failed, its content iff it succeeded, each list a permutation of its table's rows in ordinal order, the weights in that of their candidates |
| Shown.EvaluationIsShown | internal/api/router.go:273-299 | the same for evaluations: points, failed ids and judgments iff it succeeded; the stored points, satisfied and failed adding up to the stored questions; one judgment a question with a stored vote for every run |
| Repeats.RepeatedCall | internal/db/store.go:661-732 | about a terminal row: nil iff the call matches it, ErrConflict otherwise, and nothing changes |
| Repeats.RetryAfterCommit | internal/db/store.go:208-213 | repeating the winning call: nil iff a checklist was sent in stored order, always for the others; no table changes |
| Repeats.OppositeOutcome | internal/db/store.go:676-732 | the opposite outcome gets ErrConflict and changes nothing |
| Repeats.ReadBackIff | internal/db/store.go:319-370 | content is read back as written iff it was written in ordinal order, the weights in that of their candidates |
| Unordered.SentTwice | internal/db/store.go:661-675 | what a workflow sends is stored; the same call again is acknowledged iff the weights are listed in candidate order, gets ErrConflict otherwise, and changes nothing |
| Unordered.UnorderedPayload | internal/db/store.go:669-672 | answers every activity could give, d1 with c1 and c2 weighed as c2, c1, whose payload is stored and whose identical retry gets ErrConflict |
| Retries.RepetitionInRun | internal/db/store.go:208-213 | in every run, any later repetition of a call that has committed: ErrConflict for a checklist not sent in stored order, nil for all others |
| LostReplies.LostReplyOfUnordered | internal/workflows/create_checklist.go:120-142 | once such a payload is stored and the workflow has not heard so, it never returns nil nor its cause, only the error of the activity that should record the failure, and its row stays succeeded |
| Linear.Linearizable | internal/db/store.go:182-506 | whatever commits between its statements, a call replies and writes as if run alone at one of them |
| Linear.AckedIsEffective | internal/db/store.go:182-506 | an acknowledged call has left exactly the rows it sent |
| Protocol.StepKeepsGood | internal/db/store.go:182-293 | every step, by any call, keeps consistent tables, growing history, lock ownership and what is known of every call in flight |
| Safety.ChecklistSettlesOnce | migrations/0002_rubric_refinement.sql:93-107 | in every run a checklist leaves running at most once and never changes afterwards; content iff succeeded, a record iff failed |
| Safety.EvaluationSettlesOnce | migrations/0002_rubric_refinement.sql:109-123 | the same for evaluations, with votes and points |
| Safety.EveryGetIsAtomic | internal/api/router.go:216-299 | in every run every GET answers like an instantaneous read at its first query, and shows exactly what the tables held then |
| Safety.EveryCallIsLinear | internal/db/store.go:164-506 | in every run every other call takes effect at one version between its first and last statement |
| Writers.TheDatabaseIsSequential | internal/db/store.go:164-506 | in every run each version of the database was committed by a call begun in that run, and is what the store's method makes of the version before |
| Writers.OneVersionEach | internal/db/store.go:182-293 | no call commits more than one version |
| Safety.AckedIsDurable | internal/db/store.go:182-506 | an acknowledged call is what the database says from then on |
| Safety.AckedScoreIsStored | internal/db/store.go:454-462 | in every run, from its acknowledgement on, an evaluation's satisfied points, total and rate are those of the score sent; the total is the number of stored questions, and satisfied and failed add up to it |
| Answers.CommitLeaves | internal/db/store.go:164-506 | what each call writes when it commits, field by field |
| Answers.LeavesIff | internal/db/store.go:164-506 | it commits iff it is acknowledged and, if it ends a row, found that running; otherwise nothing changes |
| Answers.CreateChecklistAnswers | internal/db/store.go:164-180 | rejected unless the number of runs is odd and positive, an error for a known id, nil otherwise |
| Answers.CreateEvaluationAnswers | internal/db/store.go:392-413 | not found without the checklist, conflict unless that has succeeded, an error for a known id, nil otherwise |
| Answers.SucceedChecklistAnswers | internal/db/store.go:182-258 | invalid content is rejected; a missing row is not found; a running one is ended unless ordinals repeat; of a succeeded one the content must be what is stored, read in order; otherwise conflict |
| Answers.FailChecklistAnswers | internal/db/store.go:260-293 | an invalid record is rejected, a missing row not found, a running one ended; otherwise nil iff an equal record is stored |
| Answers.SucceedEvaluationAnswers | internal/db/store.go:415-470 | not found without the checklist; rejected unless the votes aggregate over its questions to the score sent; then not found, ended, acknowledged iff the stored votes are a permutation of those sent, or conflict |
| Answers.FailEvaluationAnswers | internal/db/store.go:472-506 | the same as for checklists, for an evaluation of that checklist |
| Safety.ScoreIsNeverRejected | internal/db/store.go:415-428 | the recomputation never rejects a score computed from a checklist loaded before |
| Progress.NoCallIsStuck | internal/db/store.go:182-293 | in every state of every run, whatever locks are held, every call in flight can be answered within two steps per statement it has left |
| Endings.MoveKeepsGood | internal/workflows/options.go:13-24 | over all interleavings, attempts follow the retry policy one at a time, success is heard only of calls that took effect, a row is failed only after succeeding it has failed for good, and what is returned is the last activity's answer |
| Endings.ReturnMeansStored | internal/workflows/create_checklist.go:120-142 | a workflow that returned nil has a succeeded row with exactly what it sent; one that returned its cause a failed row with an equal record; from then on |
| Endings.NoSplitVerdict | internal/api/router.go:114-137 | of two workflows on one row, not one returns nil and the other its cause |
| Payload.BuildFailsOnlyOnZeroWeights | internal/workflows/create_checklist.go:84-119 | with answered activities and an accepted count, building fails iff every weight is 0 |
| Payload.SentIsAccepted | internal/workflows/create_checklist.go:120-130 | what the workflow sends passes every check and every constraint |
| Payload.SentIsRetryableIff | internal/workflows/create_checklist.go:120-130 | it can be retried iff the weights are listed in candidate order |
| Workflows.ExecuteActivity | internal/workflows/options.go:13-24 | at most three attempts; every earlier one timed out or failed with a retryable error, the last one is not to be retried or the third; the result is its value, its error, or a cause without a record |
| Workflows.FailedAnswer | internal/workflows/options.go:13-24 | a failed activity failed with a clean error, and used up all attempts if its record is retryable |
| Workflows.RecordFailure | internal/workflows/create_checklist.go:133-142 | the record sent is valid, its retry flag follows its class and all its references are stored; the cause is returned iff the activity that stores it succeeded |
| Workflows.StopRecord | internal/workflows/create_checklist.go:26-142 | the record names the workflow by its row and the stage by its name, in the order of each workflow |
| Workflows.OneWorkflowEach | internal/api/router.go:95-112 | workflow ids are the row's id with a prefix, different for different rows |
| CreateChecklist.SendsIff | internal/workflows/create_checklist.go:20-119 | a payload is sent iff the limits are valid, every activity asked has answered, and the sum of the weights is between 1 and the maximum |
| CreateChecklist.SentAsAnswered | internal/workflows/create_checklist.go:38-130 | dimensions and weights are sent as answered, and the questions are the expansion of the candidates sent |
| CreateChecklist.SentCandidate | internal/workflows/create_checklist.go:43-67 | the candidates sent are the questions each dimension's own activity answered, in order and numbered through |
| CreateChecklist.BlockAnswered | internal/workflows/create_checklist.go:84-119 | a candidate of weight above 1 is expanded from what its own split activity answered |
| CreateChecklist.OwnStop | internal/workflows/create_checklist.go:20-119 | the workflow's own errors: invalid limits, a sum of weights above the limit with its diagnostic, and a sum of zero |
| CreateChecklist.OneEnding | internal/workflows/create_checklist.go:20-142 | a script stops in at most one stage, for one cause, and not at all if it completes |
| CreateChecklist.EndIsUnique | internal/workflows/create_checklist.go:20-142 | verdict, payload, stop and number of attempts are determined by what the activities answer |
| CreateChecklist.PayloadIsAccepted | internal/workflows/create_checklist.go:115-130 | what the script amounts to passes every check of the store and has distinct ordinals |
| CreateChecklist.CompileChecklist | internal/workflows/create_checklist.go:20-119 | yields exactly the payload the script amounts to, iff every stage was passed; otherwise the first stage that was not, with the cause of the first failed activity awaited there or the workflow's own error; exactly the attempts of the activities asked |
| CreateChecklist.CreateChecklistWorkflow | internal/workflows/create_checklist.go:20-142 | verdict, payload, stop and number of attempts are those the script determines: nil iff every stage was passed, the last by storing the payload; otherwise a valid record of the first that was not, and its cause iff that was stored; at most 3(5 + dimensions + half the questions) attempts |
| EvaluateAnswer.JudgedIsAccepted | internal/workflows/evaluate_answer.go:59-73 | judgments validated run by run are accepted together |
| EvaluateAnswer.SendsIff | internal/workflows/evaluate_answer.go:23-78 | votes are sent iff the input was written, a checklist that can be judged was loaded, and every run answered |
| EvaluateAnswer.SentVotes | internal/workflows/evaluate_answer.go:43-73 | the votes of a run are exactly the judgments answered for that run, evidence and answer included |
| EvaluateAnswer.OwnStop | internal/workflows/evaluate_answer.go:32-42 | the only error of the workflow's own: the checklist loaded cannot be judged |
| EvaluateAnswer.SentIsScored | internal/workflows/evaluate_answer.go:59-78 | aggregation never rejects what the runs answered: the votes sent are accepted over the loaded checklist, with their score |
| EvaluateAnswer.OneEnding | internal/workflows/evaluate_answer.go:23-99 | a script stops in at most one stage, for one cause, and not at all if it completes |
| EvaluateAnswer.EndIsUnique | internal/workflows/evaluate_answer.go:23-99 | verdict, loaded checklist, votes, stop and number of attempts are determined by what the activities answer |
| EvaluateAnswer.EvaluateAnswerWorkflow | internal/workflows/evaluate_answer.go:23-99 | verdict, loaded checklist, votes, stop and number of attempts are those the script determines: nil iff every stage was passed, the last by storing the votes of all runs and their score; never stopped by the aggregation; at most 3(4 + runs) attempts |
| Api.StartWorkflow | internal/api/router.go:114-137 | a start counts as failed for certain iff starting failed and describing finds no workflow, and as running iff starting did not fail or a workflow is found; otherwise nobody knows |
| Api.CreateChecklist | internal/api/router.go:184-214 | the handler on its own: 400 without effect for an invalid request; otherwise 202 iff the workflow runs and 500 if not, the row failed with the API's record iff starting failed and there is no such workflow, and running otherwise |
| Api.CreateEvaluation | internal/api/router.go:235-271 | the same for evaluations; 404 and 409 without effect if the checklist is missing or has not succeeded |
| Api.GetChecklist | internal/api/router.go:216-233 | the handler on its own shows exactly what the tables hold |
| Api.GetEvaluation | internal/api/router.go:273-299 | the same for evaluations |
| Starts.StartFailureInRun | internal/api/router.go:196-208 | in every run, with creation and failure as two calls among any others: the API's record is there from its acknowledgement on, and is refused iff another call ended the row before |
| Starts.FailingInRun | internal/db/store.go:260-293 | the same for any failing call on a row that was running: acknowledged or ErrConflict, the latter iff another call had ended the row |
| EndToEnd.WorkflowCallsAreNeverRefused | internal/workflows/create_checklist.go:120-142 | in every run a compiled payload or valid record is only refused by a row that ended otherwise or is not there |
| EndToEnd.NothingIsLeftRunning | internal/activities/errors.go:20-91 | once such a call is answered, its row is not running |
| EndToEnd.NoEvaluationIsLeftRunning | internal/workflows/evaluate_answer.go:75-86 | nor is an evaluation running once the score its workflow sent is answered |
| EndToEnd.EvaluationsLoadJudgeableChecklists | internal/workflows/evaluate_answer.go:32-42 | loading the checklist of an existing evaluation always returns a succeeded, judgeable one |
| EndToEnd.WorkflowScoresAreNeverRejected | internal/workflows/evaluate_answer.go:75-86 | in every run the score of an evaluation workflow passes the recomputation |
| Scripts.ChecklistScriptIsOk | internal/activities/llm.go:169-245 | attempts of the modelled activities make a script the checklist workflow can rely on, whose records refer to artifacts that are there after all writes |
| Scripts.EvaluationScriptIsOk | internal/activities/llm.go:179-262 | the same for the evaluation workflow; what its load answers is one of the checklists reads have returned |
| Scoring.ScoreStands | internal/workflows/evaluate_answer.go:75-86 | in every history, no attempt to store a score computed over a checklist loaded before is rejected: it is acknowledged, fails because the row is not there or ended otherwise, or is not heard of |
| Scoring.LoadedIsJudgeable | internal/workflows/evaluate_answer.go:32-42 | in every history, what was loaded for an existing evaluation has succeeded and can be judged |
| Whole.ChecklistWorkflowIsSafe | internal/workflows/create_checklist.go:20-142 | activities, artifacts, workflow and protocol together: the verdict is what its ending returned; nil means a succeeded row with exactly the payload, a returned cause a failed row with a valid record all of whose references are stored; from then on |
| Whole.EvaluationWorkflowIsSafe | internal/workflows/evaluate_answer.go:23-99 | the same for evaluations, with the votes of all runs and their score; what is loaded comes from reads of the history, so the workflow never refuses it, and never stops at storing its score for a rejection |

## Left out

- Score.PassRate: exact division of two point counts over `real`; the rounding of the float64 column is not modelled.
- Database.TextLe: one order of texts, character by character; the results need no particular collation, only that the same rows come back.
- Endings.ReturnMeansStored: the rows of a succeeded checklist are the ones sent as multisets; their order is that of the queries.
- Protocol.StepKeepsGood: a transaction's inserts become visible at its commit and its row lock is held until then; isolation anomalies below that are not modelled.
- The immutability triggers raise for statements the code never issues: every update is guarded by `status = 'running'`. The model proves immutability of rows and records instead of modelling the exception.
- The columns' widths (32-bit integers, no NUL character in text) and `text` encoding are not modelled; a value the columns cannot hold would make the insert fail.
- Error texts: `Types.Fault` keeps which check failed; the interpolated ids and counts are not modelled, nor is the wording of the LLM client's errors.
- Of the columns, creation and completion times, record ids and the JSON encoding of diagnostics and references are left out; UUIDs are parameters.
- The older `CreateChecklist` and `CreateEvaluation` of the store, which take artifact keys from the caller, would repeat their newer forms.
- The LLM client, prompts, HTTP decoding and encoding, configuration, logging, artifact export and the object store client: input, output and text. The model's answers, the fate of every write and the replies of Temporal are parameters.
- Temporal is assumed to number attempts, to bound them by the policy and to deliver at least once; timers are covered only as attempts that time out, and a cancelled workflow as an attempt that ends cancelled and is not tried again, counted even if it had not begun.
- A run of artifact writes is one in which an input is always written with the same text, as a workflow's retries do, and no attempt of an LLM activity runs twice.
- Of an error response only the status is modelled, not the error text it carries.
- `internal/verification`, scripts and compose files: plumbing.
