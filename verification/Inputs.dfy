/** The activities around the inputs: writing them before anything else, and loading them back with a checklist. */
module Inputs {
  import opened Common
  import opened Paths
  import opened Failures
  import opened Database
  import opened Calls
  import opened Evidence
  import Store
  import Keys

  function Plain(attempt: int): ActivityError {
    ToTemporalError(OtherError, attempt, [])
  }

  /** The store after writing an input, if the write takes place. */
  function AfterInput(stored: map<string, Body>, input: Keys.Input, text: Body, fate: Fate): map<string, Body> {
    if fate.Refused? then stored else AfterWrite(stored, InputWrite(input, text))
  }

  /** Both inputs, the task first; the context is not tried unless the task is known to be written. */
  method WriteChecklistInputs(art: Artifacts, id: string, task: Body, context: Body, taskFate: Fate, contextFate: Fate, attempt: int)
    returns (err: Option<ActivityError>)
    modifies art
    ensures err == if taskFate.Written? && contextFate.Written? then None else Some(Plain(attempt))
    ensures var tried := AfterInput(old(art.stored), Keys.TaskInput(id), task, taskFate);
            art.stored == if taskFate.Written? then AfterInput(tried, Keys.ContextInput(id), context, contextFate) else tried
    ensures forall key | !Keys.IsInputKey(key, id) ::
              (key in art.stored <==> key in old(art.stored)) && (key in art.stored ==> art.stored[key] == old(art.stored)[key])
  {
    var failed := art.Write(Keys.ChecklistTaskKey(id), task, taskFate);
    if failed {
      return Some(Plain(attempt));
    }
    failed := art.Write(Keys.ChecklistContextKey(id), context, contextFate);
    return if failed then Some(Plain(attempt)) else None;
  }

  method WriteEvaluationInput(art: Artifacts, id: string, answer: Body, fate: Fate, attempt: int)
    returns (err: Option<ActivityError>)
    modifies art
    ensures err == if fate.Written? then None else Some(Plain(attempt))
    ensures art.stored == AfterInput(old(art.stored), Keys.AnswerInput(id), answer, fate)
    ensures forall key | !Keys.IsInputKey(key, id) ::
              (key in art.stored <==> key in old(art.stored)) && (key in art.stored ==> art.stored[key] == old(art.stored)[key])
  {
    var failed := art.Write(Keys.EvaluationAnswerKey(id), answer, fate);
    return if failed then Some(Plain(attempt)) else None;
  }

  datatype Loaded = Loaded(checklist: Checklist, task: Body, context: Body)

  /** `LoadChecklist`: the checklist, and once it has succeeded the two inputs its row names. After any run of writes these
      are texts that were written as this checklist's task and context. */
  method LoadChecklist(store: Store.Store, art: Artifacts, id: string, taskReachable: bool, contextReachable: bool, attempt: int,
                       ghost writes: seq<StoreWrite>)
    returns (r: Result<Loaded, ActivityError>)
    requires store.Valid() && art.stored == AfterWrites(writes)
    ensures r.Success? ==> GotChecklist(r.value.checklist) == AtomicReply(Call.GetChecklist(id), store.db)
    ensures r.Success? && r.value.checklist.status == Succeeded && WellBehaved(writes) && NoSlash(id) ==>
              InputWrite(Keys.TaskInput(id), r.value.task) in writes && InputWrite(Keys.ContextInput(id), r.value.context) in writes
    ensures r.Failure? ==> r.error == Plain(attempt)
    ensures r.Success? <==>
            && id in store.db.checklists
            && (store.db.checklists[id].status == Succeeded ==>
                  && taskReachable && Keys.ChecklistTaskKey(id) in art.stored
                  && contextReachable && Keys.ChecklistContextKey(id) in art.stored)
  {
    var read := store.GetChecklist(id);
    RowNamesItsInputs(store.db, id);
    match read {
      case GotChecklist(c) =>
        if c.status != Succeeded {
          return Success(Loaded(c, [], []));
        }
        var task := art.Read(c.taskArtifactKey, taskReachable);
        if task.None? {
          return Failure(Plain(attempt));
        }
        var context := art.Read(c.contextArtifactKey, contextReachable);
        if context.None? {
          return Failure(Plain(attempt));
        }
        WrittenForIt(writes, id);
        return Success(Loaded(c, task.value, context.value));
      case _ => return Failure(Plain(attempt));
    }
  }

  lemma WrittenForIt(writes: seq<StoreWrite>, id: string)
    ensures WellBehaved(writes) && NoSlash(id) && Keys.ChecklistTaskKey(id) in AfterWrites(writes) ==>
              InputWrite(Keys.TaskInput(id), AfterWrites(writes)[Keys.ChecklistTaskKey(id)]) in writes
    ensures WellBehaved(writes) && NoSlash(id) && Keys.ChecklistContextKey(id) in AfterWrites(writes) ==>
              InputWrite(Keys.ContextInput(id), AfterWrites(writes)[Keys.ChecklistContextKey(id)]) in writes
  {
    if WellBehaved(writes) && NoSlash(id) {
      if Keys.ChecklistTaskKey(id) in AfterWrites(writes) {
        InputIsItsOwn(writes, Keys.TaskInput(id));
      }
      if Keys.ChecklistContextKey(id) in AfterWrites(writes) {
        InputIsItsOwn(writes, Keys.ContextInput(id));
      }
    }
  }

  /** Every checklist row names the keys its inputs were written to, and can be read. */
  lemma RowNamesItsInputs(db: Db, id: string)
    requires Inv(db)
    ensures var read := ReadChecklist(Constant(db, CHECKLIST_READS), id);
            && (read.GotChecklist? <==> id in db.checklists)
            && (read.GotChecklist? ==>
                  && read.checklist.status == db.checklists[id].status
                  && read.checklist.taskArtifactKey == Keys.ChecklistTaskKey(id)
                  && read.checklist.contextArtifactKey == Keys.ChecklistContextKey(id))
  {
    assert id in db.checklists ==> ChecklistInv(db, id);
  }
}
