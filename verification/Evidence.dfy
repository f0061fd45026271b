/** The evidence of LLM calls: which bodies `runLLM` stores, what it claims to have stored, and that nothing is overwritten. */
module Evidence {
  import opened Common
  import opened Paths
  import opened Failures
  import opened Keys

  type Body = seq<bv8>

  /** What the LLM client reports about one exchange; status 0 means that no response arrived. */
  datatype Trace = Trace(requestBody: Body, responseBody: Body, httpStatus: int)

  /** How a write to the artifact store can end; the reply of a write that took place may be lost. */
  datatype Fate = Written | Refused | WrittenButLost

  /** One LLM activity attempt, with everything the outside decides. */
  datatype LlmCall = LlmCall(
    owner: Owner, prompt: Prompt, attempt: int, trace: Trace, llmError: Option<ErrorValue>, requestFate: Fate, responseFate: Fate)
  {
    function Key(side: Side): string {
      LlmKey(owner, prompt.Name(), attempt, side)
    }

    function BodyOf(side: Side): Body {
      if side.RequestSide? then trace.requestBody else trace.responseBody
    }

    function FateOf(side: Side): Fate {
      if side.RequestSide? then requestFate else responseFate
    }

    /** Whether there is a body to store. */
    predicate Has(side: Side) {
      if side.RequestSide? then trace.requestBody != [] else trace.httpStatus != 0
    }

    predicate Stores(side: Side) {
      Has(side) && !FateOf(side).Refused?
    }

    predicate Claims(side: Side) {
      Has(side) && FateOf(side).Written?
    }

    /** Every body there was to store is known to be stored. */
    predicate Complete() {
      (Has(RequestSide) ==> Claims(RequestSide)) && (Has(ResponseSide) ==> Claims(ResponseSide))
    }
  }

  /** The store after the writes of a call. */
  function Put(stored: map<string, Body>, c: LlmCall, side: Side): map<string, Body> {
    if c.Stores(side) then stored[c.Key(side) := c.BodyOf(side)] else stored
  }

  function AfterCall(stored: map<string, Body>, c: LlmCall): map<string, Body> {
    Put(Put(stored, c, RequestSide), c, ResponseSide)
  }

  function References(c: LlmCall): seq<string> {
    (if c.Claims(RequestSide) then [c.Key(RequestSide)] else []) +
    (if c.Claims(ResponseSide) then [c.Key(ResponseSide)] else [])
  }

  class Artifacts {
    var stored: map<string, Body>

    constructor ()
      ensures stored == map[]
    {
      stored := map[];
    }

    method Write(key: string, body: Body, fate: Fate) returns (failed: bool)
      modifies this
      ensures stored == if fate.Refused? then old(stored) else old(stored)[key := body]
      ensures failed <==> !fate.Written?
    {
      if !fate.Refused? {
        stored := stored[key := body];
      }
      failed := !fate.Written?;
    }

    /** A read can fail, or find nothing. */
    method Read(key: string, reachable: bool) returns (body: Option<Body>)
      ensures body == if reachable && key in stored then Some(stored[key]) else None
    {
      body := if reachable && key in stored then Some(stored[key]) else None;
    }

    /** `runLLM`. Everything it refers to is stored, and it succeeds only if everything there was to store is. */
    method RunLLM(c: LlmCall) returns (references: seq<string>, err: Option<ActivityError>)
      modifies this
      ensures stored == AfterCall(old(stored), c)
      ensures references == References(c)
      ensures err.None? <==> c.llmError.None? && c.Complete()
      ensures err.Some? && c.Complete() ==>
                c.llmError.Some? && err.value == ToTemporalError(c.llmError.value, c.attempt, references)
      ensures err.Some? && !c.Complete() ==> err.value == ToTemporalError(OtherError, c.attempt, references)
      ensures forall writes | old(stored) == AfterWrites(writes) ::
                stored == AfterWrites(writes + CallWrites(c)) && HasWritten(writes + CallWrites(c), c)
    {
      forall writes: seq<StoreWrite> {
        CallIsTwoWrites(writes, c);
      }
      references := [];
      var artifactErr := false;
      if |c.trace.requestBody| > 0 {
        var failed := Write(c.Key(RequestSide), c.trace.requestBody, c.requestFate);
        if failed {
          artifactErr := true;
        } else {
          references := references + [c.Key(RequestSide)];
        }
      }
      if c.trace.httpStatus != 0 {
        var failed := Write(c.Key(ResponseSide), c.trace.responseBody, c.responseFate);
        if failed {
          artifactErr := true;
        } else {
          references := references + [c.Key(ResponseSide)];
        }
      }
      assert artifactErr <==> !c.Complete();
      if artifactErr {
        return references, Some(ToTemporalError(OtherError, c.attempt, references));
      }
      match c.llmError {
        case Some(e) => err := Some(ToTemporalError(e, c.attempt, references));
        case None => err := None;
      }
    }
  }

  // ---------------------------------------------------------------- one call

  /** Identifiers are plain path components, as generated ids and UUIDs are. */
  predicate PlainCall(c: LlmCall) {
    PlainComponent(c.owner.id) && PlainPrompt(c.prompt)
  }

  lemma SidesDiffer(c: LlmCall)
    requires PlainCall(c)
    ensures c.Key(RequestSide) != c.Key(ResponseSide)
  {
    if c.Key(RequestSide) == c.Key(ResponseSide) {
      LlmKeyInjective(c.owner, c.prompt.Name(), c.attempt, RequestSide, c.owner, c.prompt.Name(), c.attempt, ResponseSide);
    }
  }

  /** Whatever a call refers to is stored with the body it had, and would pass as a reference of a failure record. */
  lemma {:induction false} ReferencesAreStored(stored: map<string, Body>, c: LlmCall)
    requires PlainCall(c)
    ensures forall side | c.Claims(side) :: c.Key(side) in AfterCall(stored, c) && AfterCall(stored, c)[c.Key(side)] == c.BodyOf(side)
    ensures forall i | 0 <= i < |References(c)| :: References(c)[i] in AfterCall(stored, c)
    ensures ReferencesOk(References(c))
  {
    SidesDiffer(c);
    LlmKeyIsValidReference(c.owner, c.prompt, c.attempt, RequestSide);
    LlmKeyIsValidReference(c.owner, c.prompt, c.attempt, ResponseSide);
  }

  /** What a call leaves behind, and what it claims. A request body that is not empty, and the body of any response that
      arrived, are each stored under their own key unless the write is refused, and claimed if the write is known to have
      succeeded; nothing else changes. */
  lemma {:induction false} CallStores(stored: map<string, Body>, c: LlmCall)
    requires PlainCall(c)
    ensures var after, request, response := AfterCall(stored, c), c.Key(RequestSide), c.Key(ResponseSide);
            && (forall key | key != request && key != response ::
                  (key in after <==> key in stored) && (key in stored ==> after[key] == stored[key]))
            && (c.trace.requestBody != [] && !c.requestFate.Refused? ==> request in after && after[request] == c.trace.requestBody)
            && (c.trace.requestBody == [] || c.requestFate.Refused? ==>
                  (request in after <==> request in stored) && (request in stored ==> after[request] == stored[request]))
            && (c.trace.httpStatus != 0 && !c.responseFate.Refused? ==> response in after && after[response] == c.trace.responseBody)
            && (c.trace.httpStatus == 0 || c.responseFate.Refused? ==>
                  (response in after <==> response in stored) && (response in stored ==> after[response] == stored[response]))
    ensures c.Key(RequestSide) in References(c) <==> c.trace.requestBody != [] && c.requestFate.Written?
    ensures c.Key(ResponseSide) in References(c) <==> c.trace.httpStatus != 0 && c.responseFate.Written?
    ensures forall key | key in References(c) :: key == c.Key(RequestSide) || key == c.Key(ResponseSide)
    ensures c.Complete() <==>
            (c.trace.requestBody != [] ==> c.requestFate.Written?) && (c.trace.httpStatus != 0 ==> c.responseFate.Written?)
  {
    SidesDiffer(c);
  }

  /** A successful call with a full trace has both its bodies stored. */
  lemma {:induction false} FullTraceIsStored(stored: map<string, Body>, c: LlmCall)
    requires PlainCall(c) && c.Complete() && c.trace.requestBody != [] && c.trace.httpStatus != 0
    ensures forall side :: c.Key(side) in AfterCall(stored, c) && AfterCall(stored, c)[c.Key(side)] == c.BodyOf(side)
  {
    ReferencesAreStored(stored, c);
  }

  // ---------------------------------------------------------------- whole runs

  /** One write that reaches the store: an input, or one body of a call. Writes of all checklists, evaluations and attempts
      may come in any order, and the two bodies of a call are two writes. */
  datatype StoreWrite = InputWrite(input: Input, text: Body) | BodyWrite(call: LlmCall, side: Side)
  {
    function Key(): string {
      match this
      case InputWrite(input, _) => input.Key()
      case BodyWrite(call, side) => call.Key(side)
    }

    function Content(): Body {
      match this
      case InputWrite(_, text) => text
      case BodyWrite(call, side) => call.BodyOf(side)
    }

    /** A body is written only if there is one and the write is not refused. */
    predicate TakesPlace() {
      BodyWrite? ==> call.Stores(side)
    }
  }

  function AfterWrite(stored: map<string, Body>, w: StoreWrite): map<string, Body> {
    if w.TakesPlace() then stored[w.Key() := w.Content()] else stored
  }

  function AfterWrites(writes: seq<StoreWrite>): map<string, Body> {
    if writes == [] then map[] else AfterWrite(AfterWrites(writes[..|writes| - 1]), writes[|writes| - 1])
  }

  /** The writes of a call. */
  function CallWrites(c: LlmCall): seq<StoreWrite> {
    [BodyWrite(c, RequestSide), BodyWrite(c, ResponseSide)]
  }

  /** The bodies a call claims have been written. */
  ghost predicate HasWritten(writes: seq<StoreWrite>, c: LlmCall) {
    forall side | c.Claims(side) :: BodyWrite(c, side) in writes
  }

  /** A call adds its two writes to those of the run. */
  lemma CallIsTwoWrites(writes: seq<StoreWrite>, c: LlmCall)
    ensures AfterWrites(writes + CallWrites(c)) == AfterCall(AfterWrites(writes), c)
    ensures HasWritten(writes + CallWrites(c), c)
  {
    var first := writes + [BodyWrite(c, RequestSide)];
    var both := writes + CallWrites(c);
    assert first[..|first| - 1] == writes && both[..|both| - 1] == first;
    CallIsWritten(writes, c);
  }

  lemma CallIsWritten(writes: seq<StoreWrite>, c: LlmCall)
    ensures HasWritten(writes + CallWrites(c), c)
  {
    var both := writes + CallWrites(c);
    assert both[|writes|] == BodyWrite(c, RequestSide) && both[|writes| + 1] == BodyWrite(c, ResponseSide);
  }

  ghost predicate SameAttempt(c: LlmCall, d: LlmCall) {
    c.owner == d.owner && c.prompt == d.prompt && c.attempt == d.attempt
  }

  predicate PlainWrite(w: StoreWrite) {
    match w
    case InputWrite(input, _) => NoSlash(input.id)
    case BodyWrite(call, _) => PlainCall(call)
  }

  /** Two writes of one run: an input is only ever written with its own text, since retries repeat the workflow's input, and
      no attempt of an activity runs twice, since Temporal numbers them. */
  ghost predicate Compatible(v: StoreWrite, w: StoreWrite) {
    && (v.InputWrite? && w.InputWrite? && v.input == w.input ==> v.text == w.text)
    && (v.BodyWrite? && w.BodyWrite? && v.side == w.side ==> !SameAttempt(v.call, w.call))
  }

  ghost predicate WellBehaved(writes: seq<StoreWrite>) {
    && (forall i | 0 <= i < |writes| :: PlainWrite(writes[i]))
    && forall i, j | 0 <= i < j < |writes| :: Compatible(writes[i], writes[j])
  }

  lemma {:induction false} SameKeySameCall(c: LlmCall, side: Side, d: LlmCall, side': Side)
    requires PlainCall(c) && PlainCall(d) && c.Key(side) == d.Key(side')
    ensures SameAttempt(c, d) && side == side'
  {
    LlmKeyInjective(c.owner, c.prompt.Name(), c.attempt, side, d.owner, d.prompt.Name(), d.attempt, side');
    PromptNameInjective(c.prompt, d.prompt);
  }

  /** Two writes of a run to one key write the same. */
  lemma {:induction false} SameKeySameContent(v: StoreWrite, w: StoreWrite)
    requires PlainWrite(v) && PlainWrite(w) && Compatible(v, w) && v.Key() == w.Key()
    ensures v.Content() == w.Content()
  {
    match (v, w) {
      case (InputWrite(a, _), InputWrite(b, _)) => InputKeyInjective(a, b);
      case (BodyWrite(c, side), BodyWrite(d, side')) => SameKeySameCall(c, side, d, side');
      case (InputWrite(a, _), BodyWrite(c, side)) => LlmKeyIsNoInput(c.owner, c.prompt.Name(), c.attempt, side, a.id);
      case (BodyWrite(c, side), InputWrite(b, _)) => LlmKeyIsNoInput(c.owner, c.prompt.Name(), c.attempt, side, b.id);
    }
  }

  /** Where stored content comes from. */
  lemma {:induction false} ContentOrigin(writes: seq<StoreWrite>, key: string) returns (m: nat)
    requires key in AfterWrites(writes)
    ensures m < |writes| && writes[m].TakesPlace() && writes[m].Key() == key && writes[m].Content() == AfterWrites(writes)[key]
  {
    var n := |writes| - 1;
    if writes[n].TakesPlace() && writes[n].Key() == key {
      m := n;
    } else {
      m := ContentOrigin(writes[..n], key);
    }
  }

  lemma {:induction false} OneMoreWriteKeeps(writes: seq<StoreWrite>, key: string)
    requires writes != [] && WellBehaved(writes) && key in AfterWrites(writes[..|writes| - 1])
    ensures key in AfterWrites(writes) && AfterWrites(writes)[key] == AfterWrites(writes[..|writes| - 1])[key]
  {
    var n := |writes| - 1;
    if writes[n].Key() == key {
      var m := ContentOrigin(writes[..n], key);
      assert writes[..n][m] == writes[m];
      SameKeySameContent(writes[m], writes[n]);
    }
  }

  /** The store is append-only: whatever is stored at some point of a run, input or body, is still there unchanged after any
      further writes, of any entity, prompt or attempt. */
  lemma {:induction false} EvidenceIsAppendOnly(writes: seq<StoreWrite>, n: nat, key: string)
    requires n <= |writes| && WellBehaved(writes) && key in AfterWrites(writes[..n])
    ensures key in AfterWrites(writes) && AfterWrites(writes)[key] == AfterWrites(writes[..n])[key]
    decreases |writes|
  {
    if n == |writes| {
      assert writes[..n] == writes;
    } else {
      assert writes[..|writes| - 1][..n] == writes[..n];
      EvidenceIsAppendOnly(writes[..|writes| - 1], n, key);
      OneMoreWriteKeeps(writes, key);
    }
  }

  /** Hence what was written is what is there at the end. */
  lemma {:induction false} WrittenLasts(writes: seq<StoreWrite>, m: nat)
    requires m < |writes| && WellBehaved(writes) && writes[m].TakesPlace()
    ensures writes[m].Key() in AfterWrites(writes) && AfterWrites(writes)[writes[m].Key()] == writes[m].Content()
  {
    var prefix := writes[..m + 1];
    assert prefix[..m] == writes[..m] && prefix[m] == writes[m];
    EvidenceIsAppendOnly(writes, m + 1, writes[m].Key());
  }

  /** Every body a call of the run claims is there at the end, under the key it refers to. */
  lemma {:induction false} ClaimedBodiesLast(writes: seq<StoreWrite>, c: LlmCall)
    requires WellBehaved(writes) && HasWritten(writes, c)
    ensures forall side | c.Claims(side) :: c.Key(side) in AfterWrites(writes) && AfterWrites(writes)[c.Key(side)] == c.BodyOf(side)
    ensures forall i | 0 <= i < |References(c)| :: References(c)[i] in AfterWrites(writes)
  {
    forall side | c.Claims(side) ensures c.Key(side) in AfterWrites(writes) && AfterWrites(writes)[c.Key(side)] == c.BodyOf(side) {
      var m :| 0 <= m < |writes| && writes[m] == BodyWrite(c, side);
      WrittenLasts(writes, m);
    }
  }

  /** What is read under the key of an input is the text that was written for it, whatever else was written in between. */
  lemma {:induction false} InputsSurvive(writes: seq<StoreWrite>, input: Input, text: Body)
    requires WellBehaved(writes) && InputWrite(input, text) in writes
    ensures input.Key() in AfterWrites(writes) && AfterWrites(writes)[input.Key()] == text
  {
    var m :| 0 <= m < |writes| && writes[m] == InputWrite(input, text);
    WrittenLasts(writes, m);
  }

  /** And nothing is found there that was not written for it. */
  lemma {:induction false} InputIsItsOwn(writes: seq<StoreWrite>, input: Input)
    requires WellBehaved(writes) && NoSlash(input.id) && input.Key() in AfterWrites(writes)
    ensures InputWrite(input, AfterWrites(writes)[input.Key()]) in writes
  {
    var m := ContentOrigin(writes, input.Key());
    match writes[m] {
      case InputWrite(other, _) => InputKeyInjective(other, input);
      case BodyWrite(c, side) =>
        LlmKeyIsNoInput(c.owner, c.prompt.Name(), c.attempt, side, input.id);
        assert false;
    }
  }
}
