/**
 Evaluating a model through batch requests (model-pool/tools/run_eval.py): all unfinished tasks go into one
 batch per round; a task whose answer calls tools has the calls answered and goes into the next round.
 */
module BatchEval {
  import opened Results
  import opened Text

  // ---------- Tool calls ----------

  /** The arguments text of a tool call: not a string, not JSON, not an object, or an object with these keys. */
  datatype Arguments = NotAString | InvalidJson | NotAnObject | Keys(keys: seq<string>, evidenceID: Option<string>)

  datatype Function = Function(name: string, arguments: Arguments)

  datatype RawCall = NoObject | RawCall(id: Option<string>, kind: string, function_: Option<Function>)

  datatype RawCalls = NoCalls | NoArray | Calls(calls: seq<RawCall>)

  datatype ToolCall = ToolCall(id: string, name: string, evidenceID: Option<string>)

  datatype CallError = CallsNotArray | FinishWithoutCalls | CallsWithoutFinish
    | CallNotObject(index: nat) | CallWithoutID(index: nat) | DuplicateCallID(id: string) | WrongType(id: string)
    | NoFunction(id: string) | UnknownTool(id: string) | BadArguments(id: string)

  const TOOLS := ["list_evidence", "read_evidence", "stat_evidence"]

  predicate ArgumentsFit(name: string, arguments: Arguments) {
    arguments.Keys? &&
    if name == "list_evidence" then arguments.keys == []
    else arguments.keys == ["evidence_id"] && arguments.evidenceID.Some? && arguments.evidenceID.value != ""
  }

  predicate KnownTool(name: string) {
    name in TOOLS
  }

  function ValidatedCall(seen: set<string>, index: nat, raw: RawCall): (r: Result<ToolCall, CallError>)
    ensures r.Success? ==> raw.RawCall? && raw.id == Some(r.value.id) && r.value.id !in seen && r.value.id != "" && KnownTool(r.value.name)
  {
    if raw.NoObject? then Failure(CallNotObject(index))
    else if raw.id.None? || raw.id.value == "" then Failure(CallWithoutID(index))
    else if raw.id.value in seen then Failure(DuplicateCallID(raw.id.value))
    else if raw.kind != "function" then Failure(WrongType(raw.id.value))
    else if raw.function_.None? then Failure(NoFunction(raw.id.value))
    else if !KnownTool(raw.function_.value.name) then Failure(UnknownTool(raw.id.value))
    else if !ArgumentsFit(raw.function_.value.name, raw.function_.value.arguments) then Failure(BadArguments(raw.id.value))
    else Success(ToolCall(raw.id.value, raw.function_.value.name, raw.function_.value.arguments.evidenceID))
  }

  /** The calls of a message, one after the other; a repeated identifier is an error. */
  function ValidCalls(raw: seq<RawCall>): Result<seq<ToolCall>, CallError> {
    if raw == [] then Success([]) else
      var n := |raw| - 1;
      var front := ValidCalls(raw[..n]);
      if front.Failure? then front else
        var last := ValidatedCall(Seen(front.value), n, raw[n]);
        if last.Failure? then Failure(last.error) else Success(front.value + [last.value])
  }

  function Seen(calls: seq<ToolCall>): set<string> {
    set i | 0 <= i < |calls| :: calls[i].id
  }

  /** Calls come exactly with the finish reason that announces them. */
  function Validated(raw: RawCalls, finishReason: string): Result<seq<ToolCall>, CallError> {
    var calls := if raw.Calls? then raw.calls else [];
    if raw.NoArray? then Failure(CallsNotArray)
    else if finishReason == "tool_calls" && calls == [] then Failure(FinishWithoutCalls)
    else if finishReason != "tool_calls" && calls != [] then Failure(CallsWithoutFinish)
    else ValidCalls(calls)
  }

  method ValidatedToolCalls(raw: RawCalls, finishReason: string) returns (r: Result<seq<ToolCall>, CallError>)
    ensures r == Validated(raw, finishReason)
  {
    hide ValidatedCall;
    if raw.NoArray? { return Failure(CallsNotArray); }
    var rawCalls := if raw.Calls? then raw.calls else [];
    if finishReason == "tool_calls" && rawCalls == [] { return Failure(FinishWithoutCalls); }
    if finishReason != "tool_calls" && rawCalls != [] { return Failure(CallsWithoutFinish); }
    var calls: seq<ToolCall>, seen: set<string> := [], {};
    for index := 0 to |rawCalls|
      invariant ValidCalls(rawCalls[..index]) == Success(calls) && seen == Seen(calls)
    {
      assert rawCalls[..index + 1][..index] == rawCalls[..index];
      var call := ValidatedCall(seen, index, rawCalls[index]);
      if call.Failure? {
        InvalidEarly(rawCalls, index + 1);
        return Failure(call.error);
      }
      SeenOneMore(calls, call.value);
      seen := seen + {call.value.id};
      calls := calls + [call.value];
    }
    assert rawCalls[..|rawCalls|] == rawCalls;
    return Success(calls);
  }

  lemma SeenOneMore(calls: seq<ToolCall>, call: ToolCall)
    ensures Seen(calls + [call]) == Seen(calls) + {call.id}
  {
    var more := calls + [call];
    forall id | id in Seen(calls) ensures id in Seen(more) {
      var i :| 0 <= i < |calls| && calls[i].id == id;
      assert more[i].id == id;
    }
    assert more[|calls|].id == call.id;
  }

  lemma {:induction false} InvalidEarly(raw: seq<RawCall>, k: nat)
    requires k <= |raw| && ValidCalls(raw[..k]).Failure?
    ensures ValidCalls(raw) == ValidCalls(raw[..k])
  {
    if k < |raw| {
      assert raw[..|raw| - 1][..k] == raw[..k];
      InvalidEarly(raw[..|raw| - 1], k);
    } else {
      assert raw[..k] == raw;
    }
  }

  /** A call that is acceptable by itself. */
  predicate CallFits(raw: RawCall) {
    && raw.RawCall? && raw.id.Some? && raw.id.value != "" && raw.kind == "function" && raw.function_.Some?
    && KnownTool(raw.function_.value.name) && ArgumentsFit(raw.function_.value.name, raw.function_.value.arguments)
  }

  predicate AllFit(raw: seq<RawCall>) {
    forall i :: 0 <= i < |raw| ==> CallFits(raw[i])
  }

  predicate IDsDiffer(raw: seq<RawCall>)
    requires AllFit(raw)
  {
    forall i, j :: 0 <= i < j < |raw| ==> raw[i].id != raw[j].id
  }

  /** One more call: it must fit, and its identifier must be new. */
  lemma OneMoreCall(raw: seq<RawCall>)
    requires raw != []
    ensures var front, last := raw[..|raw| - 1], raw[|raw| - 1];
            && (AllFit(raw) <==> AllFit(front) && CallFits(last))
            && (AllFit(raw) ==> (IDsDiffer(raw) <==> IDsDiffer(front) && !exists i :: 0 <= i < |front| && front[i].id == last.id))
  {
    hide KnownTool, ArgumentsFit;
    var front, n := raw[..|raw| - 1], |raw| - 1;
    forall i | 0 <= i < n ensures raw[i] == front[i] { }
    if AllFit(raw) && IDsDiffer(front) && !exists i :: 0 <= i < |front| && front[i].id == raw[n].id {
      forall i, j | 0 <= i < j < |raw| ensures raw[i].id != raw[j].id {
        assert j < n ==> front[i].id != front[j].id;
        assert front[i] == raw[i];
      }
    }
  }

  /** Calls are accepted exactly when each one fits and no two share an identifier; they keep their identifiers
      and their order. */
  lemma {:induction false} AcceptedCalls(raw: seq<RawCall>)
    ensures ValidCalls(raw).Success? <==> AllFit(raw) && IDsDiffer(raw)
    ensures ValidCalls(raw).Success? ==> SameIDs(raw, ValidCalls(raw).value)
  {
    hide CallFits, AllFit, IDsDiffer, ValidatedCall;
    if raw == [] {
      NoCallsFit();
    } else {
      var n := |raw| - 1;
      var front := raw[..n];
      AcceptedCalls(front);
      OneMoreCall(raw);
      if ValidCalls(front).Success? {
        var calls := ValidCalls(front).value;
        CallAccepted(Seen(calls), n, raw[n]);
        SeenByID(front, calls, raw[n]);
      }
    }
  }

  lemma NoCallsFit()
    ensures AllFit([]) && IDsDiffer([])
  {
  }

  predicate SameIDs(raw: seq<RawCall>, calls: seq<ToolCall>) {
    |calls| == |raw| && forall i :: 0 <= i < |raw| ==> raw[i].RawCall? && raw[i].id == Some(calls[i].id)
  }

  lemma CallAccepted(seen: set<string>, index: nat, raw: RawCall)
    ensures ValidatedCall(seen, index, raw).Success? <==> CallFits(raw) && raw.id.value !in seen
    ensures CallFits(raw) ==> raw.RawCall? && raw.id.Some?
  {
  }

  lemma SeenByID(raw: seq<RawCall>, calls: seq<ToolCall>, last: RawCall)
    requires SameIDs(raw, calls)
    ensures CallFits(last) ==> (last.id.value in Seen(calls) <==> exists i :: 0 <= i < |raw| && raw[i].id == last.id)
  {
    if CallFits(last) && last.id.value in Seen(calls) {
      var i :| 0 <= i < |calls| && calls[i].id == last.id.value;
      assert raw[i].id == last.id;
    }
  }

  // ---------- Tasks ----------

  datatype Message = System(text: string) | User(text: string) | AssistantCalls(ids: seq<string>) | Tool(callID: string, content: string)

  datatype EvalItem = EvalItem(id: string, prompt: string, toolRecord: bool)

  /** `finished` counts how often the task was finished. */
  datatype Task = Task(customID: string, item: EvalItem, trial: nat, messages: seq<Message>, usesTools: bool,
                       raw: string, done: bool, finished: nat)

  /** What came back for a task. */
  datatype Answer = ItemError(cause: string) | Body(content: string, calls: RawCalls, finishReason: string)

  /** One row of a batch's results. */
  datatype Result_ = NotObject | Row(customID: string, answer: Answer)

  datatype Batch = Terminal(cause: string) | HTTPError(cause: string) | Broken(cause: string) | Completed(results: seq<Result_>)

  datatype Request = Request(customID: string, messages: seq<Message>)

  datatype EvalError = NoItems | TransportBroken(cause: string) | ResultNotObject | UnexpectedID(id: string)
    | DuplicateID(id: string) | MissingIDs | PendingRequests | IncompleteRequests

  function Finished(t: Task, raw: string): Task {
    t.(raw := raw, done := true, finished := t.finished + 1)
  }

  /** The calls of an assistant message and their results, in order. */
  datatype Round = Round(ids: seq<string>, results: seq<string>)

  /** An assistant message with its calls, followed by one tool message for each. */
  function RoundMessages(r: Round): seq<Message>
    requires |r.ids| == |r.results|
  {
    [AssistantCalls(r.ids)] + seq(|r.ids|, i requires 0 <= i < |r.ids| => Tool(r.ids[i], r.results[i]))
  }

  predicate RoundsComplete(rounds: seq<Round>) {
    forall k :: 0 <= k < |rounds| ==> rounds[k].ids != [] && |rounds[k].ids| == |rounds[k].results|
  }

  function RoundsMessages(rounds: seq<Round>): seq<Message>
    requires RoundsComplete(rounds)
  {
    if rounds == [] then [] else RoundsMessages(rounds[..|rounds| - 1]) + RoundMessages(rounds[|rounds| - 1])
  }

  /** The prompt, and then nothing but tool calls that are each followed by exactly one answer per call. */
  predicate Transcript(messages: seq<Message>, prompt: seq<Message>, rounds: seq<Round>) {
    RoundsComplete(rounds) && messages == prompt + RoundsMessages(rounds)
  }

  /** The messages of a task: its prompt and some number of answered rounds. */
  ghost predicate WellFormed(t: Task) {
    exists rounds :: Transcript(t.messages, Prompt(t.item, t.usesTools), rounds)
  }

  function Prompt(item: EvalItem, usesTools: bool): seq<Message> {
    [System(if usesTools then "Use tools when required. Return only the requested JSON object as the final answer. No markdown."
            else "Return only the requested JSON object. No markdown."),
     User(item.prompt)]
  }

  lemma OneMoreRound(messages: seq<Message>, prompt: seq<Message>, rounds: seq<Round>, r: Round)
    requires Transcript(messages, prompt, rounds) && r.ids != [] && |r.ids| == |r.results|
    ensures Transcript(messages + RoundMessages(r), prompt, rounds + [r])
  {
    assert (rounds + [r])[..|rounds|] == rounds;
    assert messages + RoundMessages(r) == prompt + (RoundsMessages(rounds) + RoundMessages(r));
  }

  /** The round that the calls of an answer make. */
  function RoundOf(execute: (EvalItem, ToolCall) -> string, item: EvalItem, calls: seq<ToolCall>): (r: Round)
    ensures |r.ids| == |r.results| == |calls|
  {
    Round(seq(|calls|, i requires 0 <= i < |calls| => calls[i].id),
          seq(|calls|, i requires 0 <= i < |calls| => execute(item, calls[i])))
  }

  /** The calls are run one after the other and their results appended. */
  method RunCalls(t: Task, calls: seq<ToolCall>, execute: (EvalItem, ToolCall) -> string) returns (messages: seq<Message>)
    ensures messages == t.messages + RoundMessages(RoundOf(execute, t.item, calls))
  {
    ghost var round := RoundMessages(RoundOf(execute, t.item, calls));
    messages := t.messages + [AssistantCalls(seq(|calls|, i requires 0 <= i < |calls| => calls[i].id))];
    for i := 0 to |calls|
      invariant messages == t.messages + round[..i + 1]
    {
      assert round[..i + 2] == round[..i + 1] + [round[i + 1]];
      messages := messages + [Tool(calls[i].id, execute(t.item, calls[i]))];
    }
  }

  /** A task after one answer: moved on with its calls answered, or finished. */
  function Taken(t: Task, answer: Answer, lastRound: bool, execute: (EvalItem, ToolCall) -> string): Task {
    if answer.ItemError? then Finished(t, "") else
      var calls := Validated(answer.calls, answer.finishReason);
      if calls.Failure? || (calls.value != [] && !t.usesTools) then Finished(t, "")
      else if calls.value == [] then Finished(t, answer.content)
      else
        var t' := t.(messages := t.messages + RoundMessages(RoundOf(execute, t.item, calls.value)));
        if lastRound then Finished(t', "") else t'
  }

  /** The body of the task loop. */
  method TakeAnswer(t: Task, answer: Answer, lastRound: bool, execute: (EvalItem, ToolCall) -> string) returns (t': Task)
    ensures t' == Taken(t, answer, lastRound, execute)
  {
    hide RoundMessages, Validated;
    if answer.ItemError? { return Finished(t, ""); }
    var calls := ValidatedToolCalls(answer.calls, answer.finishReason);
    if calls.Failure? { return Finished(t, ""); }
    if calls.value != [] && !t.usesTools { return Finished(t, ""); }
    if calls.value == [] { return Finished(t, answer.content); }
    var messages := RunCalls(t, calls.value, execute);
    t' := t.(messages := messages);
    if lastRound { t' := Finished(t', ""); }
  }

  /** An answer leaves a task's identity alone and its conversation proper; the task is finished at most once,
      always in the last round, and goes on only with tool calls that were answered. */
  lemma TakenSound(initial: Task, t: Task, answer: Answer, lastRound: bool, execute: (EvalItem, ToolCall) -> string)
    requires TaskSound(initial, t) && !t.done
    ensures var t' := Taken(t, answer, lastRound, execute);
            && TaskSound(initial, t')
            && (lastRound ==> t'.done)
            && (!t'.done ==> t.usesTools && |t.messages| < |t'.messages|)
            && (t'.raw != t.raw && t'.raw != "" ==> answer.Body? && t'.raw == answer.content && t'.messages == t.messages)
  {
    hide RoundMessages, Prompt, Validated;
    var rounds :| Transcript(t.messages, Prompt(t.item, t.usesTools), rounds);
    var t' := Taken(t, answer, lastRound, execute);
    if t'.messages == t.messages {
      assert Transcript(t'.messages, Prompt(t'.item, t'.usesTools), rounds);
    } else {
      var round := RoundOf(execute, t.item, Validated(answer.calls, answer.finishReason).value);
      OneMoreRound(t.messages, Prompt(t.item, t.usesTools), rounds, round);
      assert Transcript(t'.messages, Prompt(t'.item, t'.usesTools), rounds + [round]);
    }
    if !t'.done { RoundNotEmpty(RoundOf(execute, t.item, Validated(answer.calls, answer.finishReason).value)); }
  }

  lemma RoundNotEmpty(r: Round)
    requires |r.ids| == |r.results|
    ensures |RoundMessages(r)| == 1 + |r.ids|
  {
  }

  /** A call fits by itself when it has an identifier, is a function call, and names one of the three tools with the
      arguments that it takes: none, or the identifier of a piece of evidence. */
  lemma CallFitsMeans(raw: RawCall)
    ensures CallFits(raw) <==>
      && raw.RawCall? && raw.id.Some? && raw.id.value != "" && raw.kind == "function" && raw.function_.Some?
      && var f := raw.function_.value;
      && f.arguments.Keys?
      && match f.name
         case "list_evidence" => f.arguments.keys == []
         case "read_evidence" => f.arguments.keys == ["evidence_id"] && f.arguments.evidenceID.Some? && f.arguments.evidenceID.value != ""
         case "stat_evidence" => f.arguments.keys == ["evidence_id"] && f.arguments.evidenceID.Some? && f.arguments.evidenceID.value != ""
         case _ => false
  {
  }

  // ---------- What an answer does ----------

  /** The model is done: it calls nothing and does not announce calls. */
  predicate FinalAnswer(a: Answer) {
    a.Body? && (a.calls == NoCalls || a.calls == Calls([])) && a.finishReason != "tool_calls"
  }

  /** The model calls tools that it has, properly. */
  predicate ToolAnswer(t: Task, a: Answer) {
    && a.Body? && t.usesTools && a.finishReason == "tool_calls"
    && a.calls.Calls? && a.calls.calls != [] && AllFit(a.calls.calls) && IDsDiffer(a.calls.calls)
  }

  /** The call as it is executed: the identifier, the tool's name and the evidence asked for. */
  function CallOf(raw: RawCall): ToolCall
    requires CallFits(raw)
  {
    ToolCall(raw.id.value, raw.function_.value.name, raw.function_.value.arguments.evidenceID)
  }

  /** These messages name the calls, and then give for each call, in order, what executing it on the item gave. */
  predicate CallsAnswered(item: EvalItem, raw: seq<RawCall>, messages: seq<Message>, execute: (EvalItem, ToolCall) -> string)
    requires AllFit(raw)
  {
    && |messages| == 1 + |raw|
    && messages[0].AssistantCalls? && |messages[0].ids| == |raw|
    && forall i :: 0 <= i < |raw| ==>
         messages[0].ids[i] == raw[i].id.value && messages[1 + i] == Tool(raw[i].id.value, execute(item, CallOf(raw[i])))
  }

  lemma {:induction false} CallsAsGiven(raw: seq<RawCall>)
    requires ValidCalls(raw).Success?
    ensures AllFit(raw) && |ValidCalls(raw).value| == |raw|
    ensures forall i :: 0 <= i < |raw| ==> ValidCalls(raw).value[i] == CallOf(raw[i])
  {
    hide KnownTool, ArgumentsFit;
    AcceptedCalls(raw);
    if raw != [] { CallsAsGiven(raw[..|raw| - 1]); }
  }

  lemma RoundAnswers(item: EvalItem, raw: seq<RawCall>, calls: seq<ToolCall>, execute: (EvalItem, ToolCall) -> string)
    requires AllFit(raw) && |calls| == |raw| && forall i :: 0 <= i < |raw| ==> calls[i] == CallOf(raw[i])
    ensures CallsAnswered(item, raw, RoundMessages(RoundOf(execute, item, calls)), execute)
  {
    hide CallFits;
  }

  /** A final answer finishes the task with its content. Proper tool calls are answered, and the task goes on unless
      this was the last round. Anything else finishes it without a response. */
  lemma TakenMeans(t: Task, a: Answer, lastRound: bool, execute: (EvalItem, ToolCall) -> string)
    ensures var t' := Taken(t, a, lastRound, execute);
            && !(FinalAnswer(a) && ToolAnswer(t, a))
            && SameTask(t, t')
            && (FinalAnswer(a) ==> t'.done && t'.raw == a.content && t'.messages == t.messages)
            && (ToolAnswer(t, a) ==>
                 && (lastRound ==> t'.done && t'.raw == "") && (!lastRound ==> t'.done == t.done && t'.raw == t.raw)
                 && t.messages <= t'.messages && CallsAnswered(t.item, a.calls.calls, t'.messages[|t.messages|..], execute))
            && (!FinalAnswer(a) && !ToolAnswer(t, a) ==> t'.done && t'.raw == "" && t'.messages == t.messages)
  {
    hide AllFit, IDsDiffer, CallsAnswered, RoundMessages, ValidCalls;
    NothingToCall();
    if a.Body? && a.calls.Calls? {
      AcceptedCalls(a.calls.calls);
      if ValidCalls(a.calls.calls).Success? {
        CallsAsGiven(a.calls.calls);
        RoundAnswers(t.item, a.calls.calls, ValidCalls(a.calls.calls).value, execute);
        var round := RoundMessages(RoundOf(execute, t.item, ValidCalls(a.calls.calls).value));
        assert (t.messages + round)[|t.messages|..] == round;
      }
    }
  }

  lemma NothingToCall()
    ensures ValidCalls([]) == Success([])
  {
  }

  /** Answers change a task's messages and state, never what it is. */
  predicate SameTask(t: Task, t': Task) {
    t'.customID == t.customID && t'.item == t.item && t'.trial == t.trial && t'.usesTools == t.usesTools
  }

  /** Every task is still the one it was made as, has a proper conversation, and is finished once or pending. */
  ghost predicate TaskSound(initial: Task, t: Task) {
    SameTask(initial, t) && WellFormed(t) && t.finished == if t.done then 1 else 0
  }

  // ---------- Results by identifier ----------

  /** The results are complete: one row for each expected identifier and no other row. */
  predicate Complete(results: seq<Result_>, expected: set<string>) {
    && (forall i :: 0 <= i < |results| ==> results[i].Row? && results[i].customID in expected)
    && (forall i, j :: 0 <= i < j < |results| && results[i].Row? && results[j].Row? ==> results[i].customID != results[j].customID)
    && (forall id :: id in expected ==> HasRow(results, id))
  }

  predicate HasRow(results: seq<Result_>, id: string) {
    exists i :: 0 <= i < |results| && results[i].Row? && results[i].customID == id
  }

  /** The first n rows by identifier. */
  function IndexedRows(results: seq<Result_>, expected: set<string>, n: nat): Result<map<string, Answer>, EvalError>
    requires n <= |results|
  {
    if n == 0 then Success(map[]) else
      var indexed, row := IndexedRows(results, expected, n - 1), results[n - 1];
      if indexed.Failure? then indexed
      else if row.NotObject? then Failure(ResultNotObject)
      else if row.customID !in expected then Failure(UnexpectedID(row.customID))
      else if row.customID in indexed.value then Failure(DuplicateID(row.customID))
      else Success(indexed.value[row.customID := row.answer])
  }

  function Indexed(results: seq<Result_>, expected: set<string>): Result<map<string, Answer>, EvalError> {
    var indexed := IndexedRows(results, expected, |results|);
    if indexed.Success? && !(expected <= indexed.value.Keys) then Failure(MissingIDs) else indexed
  }

  method IndexedResults(results: seq<Result_>, expected: set<string>) returns (r: Result<map<string, Answer>, EvalError>)
    ensures r == Indexed(results, expected)
  {
    var indexed: map<string, Answer> := map[];
    for i := 0 to |results|
      invariant IndexedRows(results, expected, i) == Success(indexed)
    {
      if results[i].NotObject? {
        IndexFails(results, expected, i + 1, |results|);
        return Failure(ResultNotObject);
      }
      var id := results[i].customID;
      if id !in expected {
        IndexFails(results, expected, i + 1, |results|);
        return Failure(UnexpectedID(id));
      }
      if id in indexed {
        IndexFails(results, expected, i + 1, |results|);
        return Failure(DuplicateID(id));
      }
      indexed := indexed[id := results[i].answer];
    }
    if expected <= indexed.Keys { return Success(indexed); }
    return Failure(MissingIDs);
  }

  lemma {:induction false} IndexFails(results: seq<Result_>, expected: set<string>, k: nat, n: nat)
    requires k <= n <= |results| && IndexedRows(results, expected, k).Failure?
    ensures IndexedRows(results, expected, n) == IndexedRows(results, expected, k)
  {
    if k < n { IndexFails(results, expected, k, n - 1); }
  }

  lemma {:induction false} RowsIndexed(results: seq<Result_>, expected: set<string>, n: nat)
    requires n <= |results|
    ensures IndexedRows(results, expected, n).Success? <==>
      (forall i :: 0 <= i < n ==> results[i].Row? && results[i].customID in expected)
      && (forall i, j :: 0 <= i < j < n ==> results[i].customID != results[j].customID)
    ensures IndexedRows(results, expected, n).Success? ==> forall i :: 0 <= i < n ==>
      results[i].Row? && results[i].customID in IndexedRows(results, expected, n).value
      && IndexedRows(results, expected, n).value[results[i].customID] == results[i].answer
    ensures IndexedRows(results, expected, n).Success? ==>
      forall id :: id in IndexedRows(results, expected, n).value ==> id in expected && exists i :: 0 <= i < n && results[i].Row? && results[i].customID == id
  {
    if n > 0 { RowsIndexed(results, expected, n - 1); }
  }

  /** Indexing succeeds exactly on complete results, and finds each answer under its identifier. */
  lemma IndexedExactly(results: seq<Result_>, expected: set<string>)
    ensures Indexed(results, expected).Success? <==> Complete(results, expected)
    ensures Indexed(results, expected).Success? ==> Indexed(results, expected).value.Keys == expected
    ensures Indexed(results, expected).Success? ==> forall i :: 0 <= i < |results| ==>
      results[i].Row? && results[i].customID in expected && Indexed(results, expected).value[results[i].customID] == results[i].answer
  {
    RowsIndexed(results, expected, |results|);
    if Complete(results, expected) {
      forall id | id in expected ensures id in IndexedRows(results, expected, |results|).value { assert HasRow(results, id); }
    }
    if Indexed(results, expected).Success? {
      forall id | id in expected ensures HasRow(results, id) { assert id in Indexed(results, expected).value; }
    }
  }

  // ---------- Request identifiers ----------

  function Zeros(n: nat): string {
    if n == 0 then "" else "0" + Zeros(n - 1)
  }

  /** request-000001, request-000002, ... */
  function RequestID(n: nat): string {
    "request-" + Zeros(Padding(n)) + Decimal(n)
  }

  lemma {:induction false} LeadingDigit(n: nat)
    requires n >= 1
    ensures Decimal(n)[0] != '0'
  {
    if n >= 10 { LeadingDigit(n / 10); }
  }

  lemma {:induction false} ZerosAre(n: nat)
    ensures |Zeros(n)| == n && forall i :: 0 <= i < n ==> Zeros(n)[i] == '0'
  {
    if n > 0 { ZerosAre(n - 1); }
  }

  function Padding(n: nat): nat {
    if |Decimal(n)| < 6 then 6 - |Decimal(n)| else 0
  }

  /** Padding keeps numerals apart: a longer numeral starts with another digit than zero. */
  lemma PaddingInjective(m: nat, n: nat)
    requires Zeros(Padding(m)) + Decimal(m) == Zeros(Padding(n)) + Decimal(n)
    ensures m == n
  {
    hide Decimal, Zeros;
    var a, b := Padding(m), Padding(n);
    var s := Zeros(a) + Decimal(m);
    ZerosAre(a);
    ZerosAre(b);
    LongNumeral(m);
    LongNumeral(n);
    assert forall i :: 0 <= i < a || 0 <= i < b ==> s[i] == '0';
    assert s[a] == Decimal(m)[0] && s[b] == Decimal(n)[0];
    assert a == b;
    assert Decimal(m) == s[a..] && Decimal(n) == s[b..];
    DecimalInjective(m, n);
  }

  lemma LongNumeral(n: nat)
    ensures |Decimal(n)| > 1 ==> Decimal(n)[0] != '0'
  {
    if n >= 1 { LeadingDigit(n); }
  }

  lemma RequestIDInjective(m: nat, n: nat)
    requires RequestID(m) == RequestID(n)
    ensures m == n
  {
    hide Decimal, Zeros;
    var p := "request-";
    assert RequestID(m)[|p|..] == Zeros(Padding(m)) + Decimal(m) && RequestID(n)[|p|..] == Zeros(Padding(n)) + Decimal(n);
    PaddingInjective(m, n);
  }

  lemma {:induction false} NumberAfterZeros(zeros: nat, s: string)
    ensures NumberOf(Zeros(zeros) + s) == NumberOf(s)
  {
    if s == "" {
      assert Zeros(zeros) + s == Zeros(zeros);
      NumberOfZeros(zeros);
    } else {
      NumberAfterZeros(zeros, s[..|s| - 1]);
      var all := Zeros(zeros) + s;
      assert all[..|all| - 1] == Zeros(zeros) + s[..|s| - 1];
    }
  }

  lemma {:induction false} NumberOfZeros(n: nat)
    ensures NumberOf(Zeros(n)) == 0
  {
    if n > 0 {
      NumberOfZeros(n - 1);
      ZerosAre(n);
      ZerosAre(n - 1);
      assert Zeros(n)[..n - 1] == Zeros(n - 1);
    }
  }

  /** A request's identifier ends in its number, in six digits or as many as it needs. */
  lemma RequestIDNumbers(n: nat)
    ensures RequestID(n)[..8] == "request-" && NumberOf(RequestID(n)[8..]) == n
    ensures |RequestID(n)| >= 14 && (|RequestID(n)| > 14 ==> RequestID(n)[8] != '0')
  {
    hide Decimal, Zeros, NumberOf;
    var digits := Zeros(Padding(n)) + Decimal(n);
    assert RequestID(n) == "request-" + digits;
    assert RequestID(n)[8..] == digits;
    ZerosAre(Padding(n));
    NumberAfterZeros(Padding(n), Decimal(n));
    DecimalStandsFor(n);
    LongNumeral(n);
    if |Decimal(n)| > 6 { assert digits[0] == Decimal(n)[0] && RequestID(n)[8] == digits[0]; }
  }

  // ---------- The evaluation ----------

  datatype EvalRow = EvalRow(itemID: string, trial: nat, raw: string)

  /** The k-th task: every trial goes through all items in order. */
  function TaskAt(items: seq<EvalItem>, functions: bool, k: nat): Task
    requires items != []
  {
    var item := items[k % |items|];
    var usesTools := item.toolRecord && functions;
    Task(RequestID(k + 1), item, k / |items| + 1, Prompt(item, usesTools), usesTools, "", false, 0)
  }

  function TaskCount(items: seq<EvalItem>, trials: int): nat {
    if trials <= 0 then 0 else trials * |items|
  }

  lemma Position(n: nat, t: nat, i: nat)
    requires i < n
    ensures (t * n + i) / n == t && (t * n + i) % n == i
  {
    var k := t * n + i;
    if k / n < t { AtLeast(n, k / n + 1, t); }
    if k / n > t { AtLeast(n, t + 1, k / n); }
  }

  lemma AtLeast(n: nat, a: nat, b: nat)
    requires a <= b
    ensures n * a <= n * b && a * n == n * a && b * n == n * b
  {
  }

  method MakeTasks(items: seq<EvalItem>, trials: int, functions: bool) returns (tasks: seq<Task>)
    requires items != []
    ensures |tasks| == TaskCount(items, trials)
    ensures forall k :: 0 <= k < |tasks| ==> tasks[k] == TaskAt(items, functions, k)
  {
    hide RequestID, Prompt;
    tasks := [];
    var trial := 0;
    while trial < trials
      invariant 0 <= trial && (trials >= 0 ==> trial <= trials) && (trials < 0 ==> trial == 0)
      invariant |tasks| == trial * |items|
      invariant forall k :: 0 <= k < |tasks| ==> tasks[k] == TaskAt(items, functions, k)
    {
      for i := 0 to |items|
        invariant |tasks| == trial * |items| + i
        invariant forall k :: 0 <= k < |tasks| ==> tasks[k] == TaskAt(items, functions, k)
      {
        Position(|items|, trial, i);
        var usesTools := items[i].toolRecord && functions;
        tasks := tasks + [Task(RequestID(|tasks| + 1), items[i], trial + 1, Prompt(items[i], usesTools), usesTools, "", false, 0)];
      }
      assert (trial + 1) * |items| == trial * |items| + |items|;
      trial := trial + 1;
    }
  }

  ghost predicate TasksSound(initial: seq<Task>, tasks: seq<Task>) {
    |tasks| == |initial| && forall k :: 0 <= k < |tasks| ==> TaskSound(initial[k], tasks[k])
  }

  /** The pending positions, in order, are exactly those of the unfinished tasks. */
  predicate PendingOf(tasks: seq<Task>, pending: seq<nat>) {
    && (forall j :: 0 <= j < |pending| ==> pending[j] < |tasks| && !tasks[pending[j]].done)
    && (forall i, j :: 0 <= i < j < |pending| ==> pending[i] < pending[j])
    && (forall k :: 0 <= k < |tasks| && !tasks[k].done ==> k in pending)
  }

  lemma FinishedSound(initial: Task, t: Task)
    requires TaskSound(initial, t) && !t.done
    ensures TaskSound(initial, Finished(t, ""))
  {
    hide Prompt;
    var rounds :| Transcript(t.messages, Prompt(t.item, t.usesTools), rounds);
    assert Transcript(Finished(t, "").messages, Prompt(t.item, t.usesTools), rounds);
  }

  /** What a round does to the task at a position, if it is among the first n pending ones. */
  function Updated(tasks: seq<Task>, pending: seq<nat>, n: nat, change: Task -> Task): (r: seq<Task>)
    requires n <= |pending|
    ensures |r| == |tasks|
  {
    seq(|tasks|, k requires 0 <= k < |tasks| => if k in pending[..n] then change(tasks[k]) else tasks[k])
  }

  /** Every pending task takes the answer under its own identifier. */
  function Taking(answers: map<string, Answer>, lastRound: bool, execute: (EvalItem, ToolCall) -> string): Task -> Task {
    (t: Task) => if t.customID in answers then Taken(t, answers[t.customID], lastRound, execute) else t
  }

  function Failing(): Task -> Task {
    (t: Task) => Finished(t, "")
  }

  /** The pending positions whose tasks are still unfinished. */
  function StillPending(tasks: seq<Task>, pending: seq<nat>): seq<nat>
    requires forall j :: 0 <= j < |pending| ==> pending[j] < |tasks|
  {
    if pending == [] then []
    else if tasks[pending[|pending| - 1]].done then StillPending(tasks, pending[..|pending| - 1])
    else StillPending(tasks, pending[..|pending| - 1]) + [pending[|pending| - 1]]
  }

  predicate Positions(tasks: seq<Task>, pending: seq<nat>) {
    && (forall j :: 0 <= j < |pending| ==> pending[j] < |tasks|)
    && (forall i, j :: 0 <= i < j < |pending| ==> pending[i] < pending[j])
  }

  lemma UpdatedOneMore(tasks: seq<Task>, pending: seq<nat>, n: nat, change: Task -> Task)
    requires Positions(tasks, pending) && n < |pending|
    ensures Updated(tasks, pending, n + 1, change) == Updated(tasks, pending, n, change)[pending[n] := change(tasks[pending[n]])]
    ensures Updated(tasks, pending, n, change)[pending[n]] == tasks[pending[n]]
  {
    assert pending[..n + 1] == pending[..n] + [pending[n]];
    assert pending[n] !in pending[..n] by {
      forall j | 0 <= j < n ensures pending[..n][j] != pending[n] { assert pending[j] < pending[n]; }
    }
  }

  lemma UpdatedNone(tasks: seq<Task>, pending: seq<nat>, change: Task -> Task)
    ensures Updated(tasks, pending, 0, change) == tasks
  {
  }

  /** A failed batch finishes every pending task with its error. */
  method FinishAll(tasks: seq<Task>, pending: seq<nat>) returns (tasks': seq<Task>)
    requires Positions(tasks, pending)
    ensures tasks' == Updated(tasks, pending, |pending|, Failing())
  {
    hide Updated;
    tasks' := tasks;
    UpdatedNone(tasks, pending, Failing());
    for j := 0 to |pending|
      invariant tasks' == Updated(tasks, pending, j, Failing()) && |tasks'| == |tasks|
    {
      UpdatedOneMore(tasks, pending, j, Failing());
      tasks' := tasks'[pending[j] := Finished(tasks'[pending[j]], "")];
    }
  }

  /** Every pending task takes its own answer; those with answered calls make up the next round. */
  method AnswerAll(tasks: seq<Task>, pending: seq<nat>, answers: map<string, Answer>, lastRound: bool,
                   execute: (EvalItem, ToolCall) -> string) returns (tasks': seq<Task>, next: seq<nat>)
    requires Positions(tasks, pending) && forall j :: 0 <= j < |pending| ==> tasks[pending[j]].customID in answers
    ensures tasks' == Updated(tasks, pending, |pending|, Taking(answers, lastRound, execute))
    ensures next == StillPending(tasks', pending)
  {
    hide Updated, Taken;
    tasks', next := tasks, [];
    ghost var change := Taking(answers, lastRound, execute);
    UpdatedNone(tasks, pending, change);
    for j := 0 to |pending|
      invariant tasks' == Updated(tasks, pending, j, change) && |tasks'| == |tasks|
      invariant next == StillPending(tasks', pending[..j])
    {
      var position := pending[j];
      UpdatedOneMore(tasks, pending, j, change);
      var t := TakeAnswer(tasks'[position], answers[tasks'[position].customID], lastRound, execute);
      ghost var before := tasks';
      tasks' := tasks'[position := t];
      assert pending[..j + 1][..j] == pending[..j];
      EarlierPending(before, tasks', pending, j, position);
      if !t.done { next := next + [position]; }
    }
    assert pending[..|pending|] == pending;
  }

  /** A change at a later position does not matter to the earlier ones. */
  lemma {:induction false} EarlierPending(tasks: seq<Task>, tasks': seq<Task>, pending: seq<nat>, n: nat, position: nat)
    requires Positions(tasks, pending) && n <= |pending| && |tasks'| == |tasks|
    requires forall j :: 0 <= j < n ==> pending[j] < position
    requires forall k :: 0 <= k < position < |tasks| ==> tasks'[k] == tasks[k]
    requires position < |tasks|
    ensures StillPending(tasks', pending[..n]) == StillPending(tasks, pending[..n])
  {
    if n > 0 {
      assert pending[..n][..n - 1] == pending[..n - 1];
      assert pending[..n][n - 1] == pending[n - 1];
      EarlierPending(tasks, tasks', pending, n - 1, position);
    }
  }

  /** One request per pending task, with its conversation so far. */
  function Requests(tasks: seq<Task>, pending: seq<nat>): (r: seq<Request>)
    requires Positions(tasks, pending)
    ensures |r| == |pending|
  {
    seq(|pending|, j requires 0 <= j < |pending| => Request(tasks[pending[j]].customID, tasks[pending[j]].messages))
  }

  function ExpectedIDs(tasks: seq<Task>, pending: seq<nat>): (r: set<string>)
    requires Positions(tasks, pending)
    ensures forall j :: 0 <= j < |pending| ==> tasks[pending[j]].customID in r
  {
    set j | 0 <= j < |pending| :: tasks[pending[j]].customID
  }

  lemma {:induction false} StillPositions(tasks: seq<Task>, pending: seq<nat>)
    requires Positions(tasks, pending)
    ensures Positions(tasks, StillPending(tasks, pending))
    ensures forall k :: k in StillPending(tasks, pending) <==> k in pending && !tasks[k].done
  {
    if pending != [] {
      var front, last := pending[..|pending| - 1], pending[|pending| - 1];
      assert pending == front + [last];
      StillPositions(tasks, front);
      var still := StillPending(tasks, front);
      forall i | 0 <= i < |still| ensures still[i] < last {
        assert still[i] in front;
        var m :| 0 <= m < |front| && front[m] == still[i];
        assert pending[m] < pending[|front|];
      }
    }
  }

  /** The rounds from one on: each asks for all pending tasks at once, until none is left or no round is. */
  function Rounds(tasks: seq<Task>, pending: seq<nat>, round: nat, maxRounds: int, upstream: (nat, seq<Request>) -> Batch,
                  execute: (EvalItem, ToolCall) -> string): Result<(seq<Task>, seq<nat>), EvalError>
    requires Positions(tasks, pending)
    decreases maxRounds - round
  {
    if round > maxRounds then Success((tasks, pending)) else
      match upstream(round, Requests(tasks, pending))
      case Broken(cause) => Failure(TransportBroken(cause))
      case Terminal(_) => Success((Updated(tasks, pending, |pending|, Failing()), []))
      case HTTPError(_) => Success((Updated(tasks, pending, |pending|, Failing()), []))
      case Completed(results) =>
        var answers := Indexed(results, ExpectedIDs(tasks, pending));
        if answers.Failure? then Failure(answers.error) else
          var tasks' := Updated(tasks, pending, |pending|, Taking(answers.value, round == maxRounds, execute));
          StillPositions(tasks', pending);
          var pending' := StillPending(tasks', pending);
          if pending' == [] then Success((tasks', pending')) else Rounds(tasks', pending', round + 1, maxRounds, upstream, execute)
  }

  method RunRounds(tasks: seq<Task>, maxRounds: int, upstream: (nat, seq<Request>) -> Batch, execute: (EvalItem, ToolCall) -> string)
    returns (error: Option<EvalError>, done: seq<Task>, pending: seq<nat>, ghost log: seq<Exchange>)
    ensures FreshTasks(tasks) && error == None ==>
      AllFollow(tasks, done, log, execute) && Logged(tasks, log, upstream, execute) && Over(tasks, log, maxRounds)
    ensures var start := (IndexesInOrder(tasks); Rounds(tasks, Indexes(|tasks|), 1, maxRounds, upstream, execute));
            match start
            case Failure(e) => error == Some(e)
            case Success(end) => error == None && done == end.0 && pending == end.1
  {
    hide Updated, Indexed, StillPending, Taken, Taking, FreshTasks, AllFollow, Logged, WaitersOpen, WaitsAt, PendingOf;
    error, done, pending, log := None, tasks, Indexes(|tasks|), [];
    IndexesInOrder(tasks);
    if FreshTasks(tasks) { StandingAtFirst(tasks, upstream, execute); }
    ghost var start := Rounds(tasks, Indexes(|tasks|), 1, maxRounds, upstream, execute);
    var round := 1;
    while round <= maxRounds
      invariant 1 <= round && Positions(done, pending)
      invariant start == Rounds(done, pending, round, maxRounds, upstream, execute)
      invariant |log| == round - 1
      invariant FreshTasks(tasks) ==> Standing(tasks, done, pending, log, upstream, execute)
      invariant FreshTasks(tasks) && round <= maxRounds ==> WaitersOpen(tasks, done, log)
      decreases maxRounds - round
    {
      var batch := upstream(round, Requests(done, pending));
      if batch.Broken? {
        error := Some(TransportBroken(batch.cause));
        return;
      }
      ghost var e := Exchange(Requests(done, pending), batch);
      if !batch.Completed? {
        if FreshTasks(tasks) { FailureStands(tasks, done, pending, log, e, upstream, execute); }
        log := log + [e];
        done := FinishAll(done, pending);
        pending := [];
        return;
      }
      var indexed := IndexedResults(batch.results, ExpectedIDs(done, pending));
      if indexed.Failure? {
        error := Some(indexed.error);
        return;
      }
      IndexedExactly(batch.results, ExpectedIDs(done, pending));
      ghost var before := pending;
      if FreshTasks(tasks) { RoundStands(tasks, done, pending, log, e, round == maxRounds, upstream, execute); }
      log := log + [e];
      done, pending := AnswerAll(done, pending, indexed.value, round == maxRounds, execute);
      StillPositions(done, before);
      if pending == [] {
        if FreshTasks(tasks) && round < maxRounds { NobodyWaits(tasks, done, log); }
        return;
      }
      round := round + 1;
    }
  }

  /** With nothing pending, nobody waits. */
  lemma NobodyWaits(initial: seq<Task>, tasks: seq<Task>, log: seq<Exchange>)
    requires WaitersOpen(initial, tasks, log) && PendingOf(tasks, [])
    ensures forall k :: 0 <= k < |initial| ==> !WaitsAt(initial, log, k)
  {
    hide WaitsAt;
  }

  function Indexes(n: nat): (r: seq<nat>)
    ensures |r| == n && forall k :: 0 <= k < n ==> r[k] == k
  {
    if n == 0 then [] else Indexes(n - 1) + [n - 1]
  }

  lemma IndexesInOrder(tasks: seq<Task>)
    ensures Positions(tasks, Indexes(|tasks|))
  {
  }

  lemma AllPending(tasks: seq<Task>)
    requires forall k :: 0 <= k < |tasks| ==> !tasks[k].done
    ensures PendingOf(tasks, Indexes(|tasks|))
  {
    forall k | 0 <= k < |tasks| ensures k in Indexes(|tasks|) { assert Indexes(|tasks|)[k] == k; }
  }

  // ---------- What the model answered ----------

  /** What was sent in a round, and what came back. */
  datatype Exchange = Exchange(requests: seq<Request>, batch: Batch)

  /** The answers among the results of a batch under an identifier, in order. */
  function AnswersIn(results: seq<Result_>, id: string): seq<Answer> {
    if results == [] then [] else
      var last := results[|results| - 1];
      AnswersIn(results[..|results| - 1], id) + if last.Row? && last.customID == id then [last.answer] else []
  }

  function AnswersOf(batch: Batch, id: string): seq<Answer> {
    if batch.Completed? then AnswersIn(batch.results, id) else []
  }

  /** All answers given under an identifier, in order. */
  function AnswersTo(log: seq<Exchange>, id: string): seq<Answer> {
    if log == [] then [] else AnswersTo(log[..|log| - 1], id) + AnswersOf(log[|log| - 1].batch, id)
  }

  /** The messages of a task after these answers: those it was made with, and the answered calls of each answer
      that called tools. */
  predicate Conversed(initial: Task, answers: seq<Answer>, messages: seq<Message>, execute: (EvalItem, ToolCall) -> string) {
    if answers == [] then messages == initial.messages
    else
      var front, last := answers[..|answers| - 1], answers[|answers| - 1];
      if ToolAnswer(initial, last) then
        exists n :: 0 <= n <= |messages| && Conversed(initial, front, messages[..n], execute)
                    && CallsAnswered(initial.item, last.calls.calls, messages[n..], execute)
      else Conversed(initial, front, messages, execute)
  }

  /** The content of the last answer, if that was final. */
  function FinalText(answers: seq<Answer>): string {
    if answers != [] && FinalAnswer(answers[|answers| - 1]) then answers[|answers| - 1].content else ""
  }

  predicate Follows(initial: Task, t: Task, answers: seq<Answer>, execute: (EvalItem, ToolCall) -> string) {
    SameTask(initial, t) && Conversed(initial, answers, t.messages, execute) && t.raw == FinalText(answers)
  }

  /** A task waits for its next answer as long as every round has brought one that called tools. */
  predicate Waiting(initial: Task, answers: seq<Answer>, rounds: nat) {
    |answers| == rounds && forall i :: 0 <= i < |answers| ==> ToolAnswer(initial, answers[i])
  }

  /** Position k of the tasks after these exchanges, each of which gave the task at most one answer. */
  predicate FollowsAt(initial: seq<Task>, tasks: seq<Task>, log: seq<Exchange>, execute: (EvalItem, ToolCall) -> string, k: nat) {
    && k < |initial| && k < |tasks| && |AnswersTo(log, initial[k].customID)| <= |log|
    && Follows(initial[k], tasks[k], AnswersTo(log, initial[k].customID), execute)
  }

  predicate WaitsAt(initial: seq<Task>, log: seq<Exchange>, k: nat) {
    k < |initial| && Waiting(initial[k], AnswersTo(log, initial[k].customID), |log|)
  }

  predicate AllFollow(initial: seq<Task>, tasks: seq<Task>, log: seq<Exchange>, execute: (EvalItem, ToolCall) -> string) {
    |tasks| == |initial| && forall k :: 0 <= k < |initial| ==> FollowsAt(initial, tasks, log, execute, k)
  }

  /** The requests of a round are those of the tasks that still wait, in order, with their messages so far. */
  ghost predicate RequestsRight(initial: seq<Task>, log: seq<Exchange>, requests: seq<Request>, waiting: seq<nat>, execute: (EvalItem, ToolCall) -> string) {
    && |requests| == |waiting|
    && (forall i, j :: 0 <= i < j < |waiting| ==> waiting[i] < waiting[j])
    && (forall k :: k in waiting <==> WaitsAt(initial, log, k))
    && forall j :: 0 <= j < |waiting| ==> RequestRight(initial, log, requests[j], waiting[j], execute)
  }

  predicate RequestRight(initial: seq<Task>, log: seq<Exchange>, request: Request, k: nat, execute: (EvalItem, ToolCall) -> string) {
    && k < |initial| && request.customID == initial[k].customID
    && Conversed(initial[k], AnswersTo(log, initial[k].customID), request.messages, execute)
  }

  /** Round n asked what was due, and the batch is what came back. */
  ghost predicate ExchangeRight(initial: seq<Task>, log: seq<Exchange>, n: nat, upstream: (nat, seq<Request>) -> Batch,
                                execute: (EvalItem, ToolCall) -> string) {
    && n < |log|
    && log[n].batch == upstream(n + 1, log[n].requests)
    && exists waiting :: RequestsRight(initial, log[..n], log[n].requests, waiting, execute)
  }

  ghost predicate Logged(initial: seq<Task>, log: seq<Exchange>, upstream: (nat, seq<Request>) -> Batch, execute: (EvalItem, ToolCall) -> string) {
    forall n :: 0 <= n < |log| ==> ExchangeRight(initial, log, n, upstream, execute)
  }

  /** The rounds go on until one fails, nobody waits any more, or no further round is allowed. */
  predicate Over(initial: seq<Task>, log: seq<Exchange>, maxRounds: int) {
    || |log| >= maxRounds
    || (log != [] && !log[|log| - 1].batch.Completed?)
    || forall k :: 0 <= k < |initial| ==> !WaitsAt(initial, log, k)
  }

  predicate FreshTasks(tasks: seq<Task>) {
    && (forall k :: 0 <= k < |tasks| ==> !tasks[k].done && tasks[k].raw == "")
    && forall j, k :: 0 <= j < k < |tasks| ==> tasks[j].customID != tasks[k].customID
  }

  /** Where the rounds stand: everybody follows the answers, and exactly the unfinished are pending. */
  ghost predicate Standing(initial: seq<Task>, tasks: seq<Task>, pending: seq<nat>, log: seq<Exchange>,
                           upstream: (nat, seq<Request>) -> Batch, execute: (EvalItem, ToolCall) -> string) {
    && AllFollow(initial, tasks, log, execute)
    && Logged(initial, log, upstream, execute)
    && PendingOf(tasks, pending)
  }

  /** Exactly those who wait are unfinished. */
  predicate WaitersOpen(initial: seq<Task>, tasks: seq<Task>, log: seq<Exchange>) {
    |tasks| == |initial| && forall k :: 0 <= k < |tasks| ==> (tasks[k].done <==> !WaitsAt(initial, log, k))
  }

  lemma AnswersLast(log: seq<Exchange>, e: Exchange, id: string)
    ensures AnswersTo(log + [e], id) == AnswersTo(log, id) + AnswersOf(e.batch, id)
  {
    assert (log + [e])[..|log|] == log;
  }

  lemma {:induction false} NoAnswerIn(results: seq<Result_>, id: string)
    requires forall i :: 0 <= i < |results| ==> results[i].Row? && results[i].customID != id
    ensures AnswersIn(results, id) == []
  {
    if results != [] { NoAnswerIn(results[..|results| - 1], id); }
  }

  lemma {:induction false} OneAnswerIn(results: seq<Result_>, id: string, i: nat)
    requires i < |results| && results[i].Row? && results[i].customID == id
    requires forall j :: 0 <= j < |results| && j != i ==> results[j].Row? && results[j].customID != id
    ensures AnswersIn(results, id) == [results[i].answer]
  {
    var n := |results| - 1;
    if i == n {
      NoAnswerIn(results[..n], id);
    } else {
      OneAnswerIn(results[..n], id, i);
    }
  }

  /** Complete results hold one answer for each identifier expected, and none for another. */
  lemma AnswersFound(results: seq<Result_>, expected: set<string>, id: string)
    requires Indexed(results, expected).Success?
    ensures Indexed(results, expected).value.Keys == expected
    ensures AnswersIn(results, id) == if id in expected then [Indexed(results, expected).value[id]] else []
  {
    hide Indexed;
    IndexedExactly(results, expected);
    if id in expected {
      assert HasRow(results, id);
      var i :| 0 <= i < |results| && results[i].Row? && results[i].customID == id;
      forall j | 0 <= j < |results| && j != i ensures results[j].customID != id { assert results[j].Row?; }
      OneAnswerIn(results, id, i);
    } else {
      NoAnswerIn(results, id);
    }
  }

  lemma StandingAtFirst(tasks: seq<Task>, upstream: (nat, seq<Request>) -> Batch, execute: (EvalItem, ToolCall) -> string)
    requires FreshTasks(tasks)
    ensures Standing(tasks, tasks, Indexes(|tasks|), [], upstream, execute) && WaitersOpen(tasks, tasks, [])
  {
    hide Conversed, Waiting, FinalText, SameTask, Indexes, PendingOf, AnswersTo;
    AllPending(tasks);
    forall k | 0 <= k < |tasks| ensures FollowsAt(tasks, tasks, [], execute, k) && WaitsAt(tasks, [], k) {
      NothingAnswered(tasks[k], execute);
    }
  }

  lemma NothingAnswered(t: Task, execute: (EvalItem, ToolCall) -> string)
    ensures AnswersTo([], t.customID) == [] && Conversed(t, [], t.messages, execute)
    ensures SameTask(t, t) && FinalText([]) == "" && Waiting(t, [], 0)
  {
  }

  /** One answer more: the messages grow with its calls, the response is its content if it is final, and the task
      goes on waiting exactly if it called tools. */
  lemma TaskAnswered(initial: Task, t: Task, answers: seq<Answer>, rounds: nat, a: Answer, lastRound: bool, execute: (EvalItem, ToolCall) -> string)
    requires Follows(initial, t, answers, execute) && Waiting(initial, answers, rounds) && !t.done
    ensures var t' := Taken(t, a, lastRound, execute);
            && Follows(initial, t', answers + [a], execute)
            && (Waiting(initial, answers + [a], rounds + 1) <==> ToolAnswer(initial, a))
            && (t'.done <==> lastRound || !ToolAnswer(initial, a))
  {
    hide Taken, CallsAnswered, ToolAnswer;
    TakenMeans(t, a, lastRound, execute);
    SameTools(initial, t, a);
    NoneFinal(initial, answers, rounds);
    var t', more := Taken(t, a, lastRound, execute), answers + [a];
    assert more[..|more| - 1] == answers;
    if Waiting(initial, more, rounds + 1) { assert ToolAnswer(initial, more[|answers|]); }
    if ToolAnswer(initial, a) { assert t'.messages[..|t.messages|] == t.messages; }
  }

  lemma SameTools(initial: Task, t: Task, a: Answer)
    requires SameTask(initial, t)
    ensures ToolAnswer(initial, a) == ToolAnswer(t, a)
  {
  }

  lemma NoneFinal(initial: Task, answers: seq<Answer>, rounds: nat)
    requires Waiting(initial, answers, rounds)
    ensures FinalText(answers) == ""
  {
  }

  /** A complete batch, seen by the task at one position. */
  lemma RoundFollows(initial: seq<Task>, tasks: seq<Task>, pending: seq<nat>, log: seq<Exchange>, e: Exchange, lastRound: bool,
                     execute: (EvalItem, ToolCall) -> string, k: nat)
    requires FreshTasks(initial) && AllFollow(initial, tasks, log, execute) && PendingOf(tasks, pending) && WaitersOpen(initial, tasks, log)
    requires e.batch.Completed? && Indexed(e.batch.results, ExpectedIDs(tasks, pending)).Success? && k < |initial|
    ensures var answers := Indexed(e.batch.results, ExpectedIDs(tasks, pending)).value;
            var tasks' := Updated(tasks, pending, |pending|, Taking(answers, lastRound, execute));
            && FollowsAt(initial, tasks', log + [e], execute, k)
            && (!lastRound ==> (tasks'[k].done <==> !WaitsAt(initial, log + [e], k)))
  {
    hide Taken, Indexed, ToolAnswer, Follows, Waiting, AnswersTo, AnswersIn;
    var expected := ExpectedIDs(tasks, pending);
    var answers, id := Indexed(e.batch.results, expected).value, initial[k].customID;
    AnswersFound(e.batch.results, expected, id);
    AnswersLast(log, e, id);
    assert FollowsAt(initial, tasks, log, execute, k);
    assert tasks[k].done <==> !WaitsAt(initial, log, k);
    assert SameTask(initial[k], tasks[k]) by { FollowsIsSame(initial[k], tasks[k], AnswersTo(log, id), execute); }
    assert pending[..|pending|] == pending;
    if k in pending {
      var j :| 0 <= j < |pending| && pending[j] == k;
      TaskAnswered(initial[k], tasks[k], AnswersTo(log, id), |log|, answers[id], lastRound, execute);
    } else {
      NotExpected(initial, tasks, pending, log, execute, k);
      assert AnswersTo(log + [e], id) == AnswersTo(log, id);
      NotYet(initial[k], AnswersTo(log, id), |log| + 1);
    }
  }

  lemma FollowsIsSame(initial: Task, t: Task, answers: seq<Answer>, execute: (EvalItem, ToolCall) -> string)
    requires Follows(initial, t, answers, execute)
    ensures SameTask(initial, t)
  {
  }

  lemma NotYet(initial: Task, answers: seq<Answer>, rounds: nat)
    requires |answers| < rounds
    ensures !Waiting(initial, answers, rounds)
  {
  }

  /** Nobody else's request carries the identifier of a finished task. */
  lemma NotExpected(initial: seq<Task>, tasks: seq<Task>, pending: seq<nat>, log: seq<Exchange>, execute: (EvalItem, ToolCall) -> string, k: nat)
    requires FreshTasks(initial) && AllFollow(initial, tasks, log, execute) && PendingOf(tasks, pending)
    requires k < |initial| && k !in pending
    ensures initial[k].customID !in ExpectedIDs(tasks, pending)
  {
    hide Conversed, FinalText;
    forall j | 0 <= j < |pending| ensures tasks[pending[j]].customID != initial[k].customID {
      assert FollowsAt(initial, tasks, log, execute, pending[j]);
    }
  }

  lemma ExchangeAdded(initial: seq<Task>, tasks: seq<Task>, pending: seq<nat>, log: seq<Exchange>, e: Exchange,
                      upstream: (nat, seq<Request>) -> Batch, execute: (EvalItem, ToolCall) -> string)
    requires Standing(initial, tasks, pending, log, upstream, execute) && WaitersOpen(initial, tasks, log)
    requires e.requests == Requests(tasks, pending) && e.batch == upstream(|log| + 1, e.requests)
    ensures Logged(initial, log + [e], upstream, execute)
  {
    hide RequestsRight, Waiting, Conversed, AnswersTo, FinalText;
    var more := log + [e];
    forall n | 0 <= n < |more| ensures ExchangeRight(initial, more, n, upstream, execute) {
      if n < |log| {
        assert ExchangeRight(initial, log, n, upstream, execute);
        assert more[..n] == log[..n];
      } else {
        assert more[..n] == log;
        AskedRightly(initial, tasks, pending, log, execute);
      }
    }
  }

  lemma AskedRightly(initial: seq<Task>, tasks: seq<Task>, pending: seq<nat>, log: seq<Exchange>, execute: (EvalItem, ToolCall) -> string)
    requires AllFollow(initial, tasks, log, execute) && PendingOf(tasks, pending) && WaitersOpen(initial, tasks, log)
    ensures RequestsRight(initial, log, Requests(tasks, pending), pending, execute)
  {
    hide Waiting, Conversed, AnswersTo, FinalText;
    forall j | 0 <= j < |pending| ensures RequestRight(initial, log, Requests(tasks, pending)[j], pending[j], execute) {
      assert FollowsAt(initial, tasks, log, execute, pending[j]);
    }
    forall k ensures k in pending <==> WaitsAt(initial, log, k) {
      if k in pending {
        var j :| 0 <= j < |pending| && pending[j] == k;
        assert !tasks[pending[j]].done;
      }
    }
  }

  /** A complete batch takes everybody one answer further. */
  lemma RoundStands(initial: seq<Task>, tasks: seq<Task>, pending: seq<nat>, log: seq<Exchange>, e: Exchange, lastRound: bool,
                    upstream: (nat, seq<Request>) -> Batch, execute: (EvalItem, ToolCall) -> string)
    requires FreshTasks(initial) && Standing(initial, tasks, pending, log, upstream, execute) && WaitersOpen(initial, tasks, log)
    requires e.requests == Requests(tasks, pending) && e.batch == upstream(|log| + 1, e.requests)
    requires e.batch.Completed? && Indexed(e.batch.results, ExpectedIDs(tasks, pending)).Success?
    ensures var answers := Indexed(e.batch.results, ExpectedIDs(tasks, pending)).value;
            var tasks' := Updated(tasks, pending, |pending|, Taking(answers, lastRound, execute));
            && Positions(tasks', pending)
            && Standing(initial, tasks', StillPending(tasks', pending), log + [e], upstream, execute)
            && (!lastRound ==> WaitersOpen(initial, tasks', log + [e]))
  {
    hide Taking, Indexed, WaitsAt, FollowsAt, Updated, StillPending, Logged;
    ExchangeAdded(initial, tasks, pending, log, e, upstream, execute);
    var answers := Indexed(e.batch.results, ExpectedIDs(tasks, pending)).value;
    var tasks' := Updated(tasks, pending, |pending|, Taking(answers, lastRound, execute));
    var more := log + [e];
    forall k | 0 <= k < |initial|
      ensures FollowsAt(initial, tasks', more, execute, k) && (!lastRound ==> (tasks'[k].done <==> !WaitsAt(initial, more, k)))
    {
      RoundFollows(initial, tasks, pending, log, e, lastRound, execute, k);
    }
    OthersStayDone(tasks, pending, Taking(answers, lastRound, execute));
    StillExact(tasks', pending);
  }

  lemma OthersStayDone(tasks: seq<Task>, pending: seq<nat>, change: Task -> Task)
    requires PendingOf(tasks, pending)
    ensures forall k :: 0 <= k < |tasks| && k !in pending ==> Updated(tasks, pending, |pending|, change)[k].done
  {
    assert pending[..|pending|] == pending;
  }

  /** A failed batch answers nobody, and leaves everybody who waited without a response. */
  lemma FailureStands(initial: seq<Task>, tasks: seq<Task>, pending: seq<nat>, log: seq<Exchange>, e: Exchange,
                      upstream: (nat, seq<Request>) -> Batch, execute: (EvalItem, ToolCall) -> string)
    requires Standing(initial, tasks, pending, log, upstream, execute) && WaitersOpen(initial, tasks, log)
    requires e.requests == Requests(tasks, pending) && e.batch == upstream(|log| + 1, e.requests) && !e.batch.Completed?
    ensures Standing(initial, Updated(tasks, pending, |pending|, Failing()), [], log + [e], upstream, execute)
  {
    hide WaitsAt, Logged, AnswersTo, Conversed;
    ExchangeAdded(initial, tasks, pending, log, e, upstream, execute);
    var tasks', more := Updated(tasks, pending, |pending|, Failing()), log + [e];
    assert pending[..|pending|] == pending;
    forall k | 0 <= k < |initial| ensures FollowsAt(initial, tasks', more, execute, k) {
      var id := initial[k].customID;
      AnswersLast(log, e, id);
      assert AnswersTo(more, id) == AnswersTo(log, id);
      assert FollowsAt(initial, tasks, log, execute, k);
      if k in pending { WaitersUnanswered(initial, tasks, log, k); }
    }
  }

  lemma WaitersUnanswered(initial: seq<Task>, tasks: seq<Task>, log: seq<Exchange>, k: nat)
    requires k < |tasks| == |initial| && WaitersOpen(initial, tasks, log)
    ensures !tasks[k].done ==> FinalText(AnswersTo(log, initial[k].customID)) == ""
  {
    hide FinalText;
    if !tasks[k].done { NoneFinal(initial[k], AnswersTo(log, initial[k].customID), |log|); }
  }

  // ---------- Every task is finished exactly once ----------

  lemma RoundTaskSound(initial: seq<Task>, tasks: seq<Task>, pending: seq<nat>, answers: map<string, Answer>, lastRound: bool,
                       execute: (EvalItem, ToolCall) -> string, k: nat)
    requires TasksSound(initial, tasks) && PendingOf(tasks, pending) && k < |tasks|
    requires forall j :: 0 <= j < |pending| ==> tasks[pending[j]].customID in answers
    ensures var t := Updated(tasks, pending, |pending|, Taking(answers, lastRound, execute))[k];
            && TaskSound(initial[k], t)
            && (k in pending && lastRound ==> t.done)
            && (k !in pending ==> t.done)
  {
    hide Taken, TaskSound;
    assert pending[..|pending|] == pending;
    assert TaskSound(initial[k], tasks[k]);
    if k in pending {
      var j :| 0 <= j < |pending| && pending[j] == k;
      TakenSound(initial[k], tasks[k], answers[tasks[k].customID], lastRound, execute);
    }
  }

  /** A round keeps every task sound, and its pending list exact. */
  lemma RoundSound(initial: seq<Task>, tasks: seq<Task>, pending: seq<nat>, answers: map<string, Answer>, lastRound: bool,
                   execute: (EvalItem, ToolCall) -> string)
    requires TasksSound(initial, tasks) && PendingOf(tasks, pending)
    requires forall j :: 0 <= j < |pending| ==> tasks[pending[j]].customID in answers
    ensures var tasks' := Updated(tasks, pending, |pending|, Taking(answers, lastRound, execute));
            && TasksSound(initial, tasks') && Positions(tasks', pending) && PendingOf(tasks', StillPending(tasks', pending))
            && (lastRound ==> StillPending(tasks', pending) == [])
  {
    hide Updated, TaskSound, StillPending, Taking, Taken;
    var tasks' := Updated(tasks, pending, |pending|, Taking(answers, lastRound, execute));
    forall k | 0 <= k < |tasks|
      ensures TaskSound(initial[k], tasks'[k]) && (k in pending && lastRound ==> tasks'[k].done) && (k !in pending ==> tasks'[k].done)
    {
      RoundTaskSound(initial, tasks, pending, answers, lastRound, execute, k);
    }
    StillPositions(tasks', pending);
    StillExact(tasks', pending);
    var still := StillPending(tasks', pending);
    if still != [] { assert still[0] in still; }
  }

  lemma StillExact(tasks: seq<Task>, pending: seq<nat>)
    requires Positions(tasks, pending) && forall k :: 0 <= k < |tasks| && k !in pending ==> tasks[k].done
    ensures PendingOf(tasks, StillPending(tasks, pending))
  {
    hide StillPending;
    StillPositions(tasks, pending);
    var still := StillPending(tasks, pending);
    forall j | 0 <= j < |still| ensures !tasks[still[j]].done { assert still[j] in still; }
  }

  lemma FailureSound(initial: seq<Task>, tasks: seq<Task>, pending: seq<nat>)
    requires TasksSound(initial, tasks) && PendingOf(tasks, pending)
    ensures var tasks' := Updated(tasks, pending, |pending|, Failing());
            TasksSound(initial, tasks') && PendingOf(tasks', [])
  {
    hide TaskSound;
    assert pending[..|pending|] == pending;
    forall k | 0 <= k < |tasks| ensures TaskSound(initial[k], Updated(tasks, pending, |pending|, Failing())[k]) {
      assert TaskSound(initial[k], tasks[k]);
      if k in pending { FinishedSound(initial[k], tasks[k]); }
    }
  }

  /** However the rounds go, they leave sound tasks, and none pending unless there was no round at all. */
  lemma {:induction false} RoundsSound(initial: seq<Task>, tasks: seq<Task>, pending: seq<nat>, round: nat, maxRounds: int,
                   upstream: (nat, seq<Request>) -> Batch, execute: (EvalItem, ToolCall) -> string)
    requires TasksSound(initial, tasks) && PendingOf(tasks, pending)
    ensures Positions(tasks, pending)
    ensures match Rounds(tasks, pending, round, maxRounds, upstream, execute)
            case Success(end) => TasksSound(initial, end.0) && PendingOf(end.0, end.1) && (round <= maxRounds ==> end.1 == [])
            case Failure(e) => round <= maxRounds && !e.NoItems? && !e.PendingRequests? && !e.IncompleteRequests?
    decreases maxRounds - round
  {
    hide Updated, StillPending, TasksSound, Taken;
    if round <= maxRounds {
      var batch := upstream(round, Requests(tasks, pending));
      FailureSound(initial, tasks, pending);
      if batch.Completed? {
        var expected := ExpectedIDs(tasks, pending);
        var answers := Indexed(batch.results, expected);
        IndexedExactly(batch.results, expected);
        IndexErrors(batch.results, expected, |batch.results|);
        if answers.Success? {
          RoundSound(initial, tasks, pending, answers.value, round == maxRounds, execute);
          var tasks' := Updated(tasks, pending, |pending|, Taking(answers.value, round == maxRounds, execute));
          RoundsSound(initial, tasks', StillPending(tasks', pending), round + 1, maxRounds, upstream, execute);
        }
      }
    }
  }

  lemma {:induction false} IndexErrors(results: seq<Result_>, expected: set<string>, n: nat)
    requires n <= |results|
    ensures IndexedRows(results, expected, n).Failure? ==>
      var e := IndexedRows(results, expected, n).error; e.ResultNotObject? || e.UnexpectedID? || e.DuplicateID?
  {
    if n > 0 { IndexErrors(results, expected, n - 1); }
  }

  /** The whole evaluation. A failure of transport or of a result's shape ends it; otherwise it gives one row for
      each trial and item, in order, each task having been finished exactly once. The closing checks for pending
      or incomplete tasks fire only if no round is allowed at all. */
  method RunBatch(items: seq<EvalItem>, functions: bool, trials: int, maxRounds: int, upstream: (nat, seq<Request>) -> Batch,
                  execute: (EvalItem, ToolCall) -> string)
    returns (r: Result<seq<EvalRow>, EvalError>, ghost tasks: seq<Task>, ghost initial: seq<Task>, ghost log: seq<Exchange>)
    ensures items == [] <==> r == Failure(NoItems)
    ensures r.Success? ==>
      && |r.value| == |tasks| == TaskCount(items, trials)
      && forall k :: 0 <= k < |tasks| ==>
        && TaskSound(TaskAt(items, functions, k), tasks[k]) && tasks[k].done && tasks[k].finished == 1
        && r.value[k] == EvalRow(items[k % |items|].id, k / |items| + 1, FinalText(AnswersTo(log, RequestID(k + 1))))
    ensures r.Success? ==>
      && |initial| == |tasks| && (forall k :: 0 <= k < |initial| ==> initial[k] == TaskAt(items, functions, k))
      && AllFollow(initial, tasks, log, execute) && Logged(initial, log, upstream, execute) && Over(initial, log, maxRounds)
    ensures r == Failure(PendingRequests) <==> items != [] && TaskCount(items, trials) > 0 && maxRounds < 1
    ensures r != Failure(IncompleteRequests)
  {
    hide TaskSound, TaskAt, TasksSound, PendingOf, TaskCount, Rounds, AllFollow, Logged, Over, FreshTasks, FinalText, AnswersTo, RequestID;
    tasks, initial, log := [], [], [];
    if items == [] { return Failure(NoItems), tasks, initial, log; }
    var all := MakeTasks(items, trials, functions);
    InitialSound(items, functions, all);
    AllPending(all);
    RoundsSound(all, all, Indexes(|all|), 1, maxRounds, upstream, execute);
    MadeFresh(items, functions, all);
    initial := all;
    var error, done, pending, exchanges := RunRounds(all, maxRounds, upstream, execute);
    log := exchanges;
    NoRounds(all, maxRounds, upstream, execute);
    if error.Some? { return Failure(error.value), tasks, initial, log; }
    tasks := done;
    if pending != [] { return Failure(PendingRequests), tasks, initial, log; }
    AllFinished(all, done);
    // The source also refuses to go on with an unfinished task; there is none.
    assert forall k :: 0 <= k < |done| ==> done[k].done;
    RowsOf(items, functions, all, done);
    RawIsFinalText(items, functions, all, done, log, execute);
    return Success(seq(|done|, k requires 0 <= k < |done| => EvalRow(done[k].item.id, done[k].trial, done[k].raw))), tasks, initial, log;
  }

  lemma MadeFresh(items: seq<EvalItem>, functions: bool, tasks: seq<Task>)
    requires items != [] && forall k :: 0 <= k < |tasks| ==> tasks[k] == TaskAt(items, functions, k)
    ensures FreshTasks(tasks)
  {
    hide RequestID, Prompt;
    forall j, k | 0 <= j < k < |tasks| ensures tasks[j].customID != tasks[k].customID {
      if tasks[j].customID == tasks[k].customID { TaskIDsDistinct(items, functions, j, k); }
    }
  }

  lemma RawIsFinalText(items: seq<EvalItem>, functions: bool, initial: seq<Task>, tasks: seq<Task>, log: seq<Exchange>,
                       execute: (EvalItem, ToolCall) -> string)
    requires items != [] && AllFollow(initial, tasks, log, execute)
    requires forall k :: 0 <= k < |initial| ==> initial[k] == TaskAt(items, functions, k)
    ensures forall k :: 0 <= k < |tasks| ==> tasks[k].raw == FinalText(AnswersTo(log, RequestID(k + 1)))
  {
    hide RequestID, Prompt, Conversed, FinalText, AnswersTo;
    forall k | 0 <= k < |tasks| ensures tasks[k].raw == FinalText(AnswersTo(log, RequestID(k + 1))) {
      assert FollowsAt(initial, tasks, log, execute, k);
      assert initial[k].customID == RequestID(k + 1);
    }
  }

  lemma NoRounds(tasks: seq<Task>, maxRounds: int, upstream: (nat, seq<Request>) -> Batch, execute: (EvalItem, ToolCall) -> string)
    ensures Positions(tasks, Indexes(|tasks|))
    ensures maxRounds < 1 ==> Rounds(tasks, Indexes(|tasks|), 1, maxRounds, upstream, execute) == Success((tasks, Indexes(|tasks|)))
  {
  }

  lemma AllFinished(initial: seq<Task>, tasks: seq<Task>)
    requires TasksSound(initial, tasks) && PendingOf(tasks, [])
    ensures |tasks| == |initial|
    ensures forall k :: 0 <= k < |tasks| ==> tasks[k].done && tasks[k].finished == 1 && TaskSound(initial[k], tasks[k])
  {
    hide WellFormed;
    forall k | 0 <= k < |tasks| ensures TaskSound(initial[k], tasks[k]) { }
  }

  lemma RowsOf(items: seq<EvalItem>, functions: bool, initial: seq<Task>, tasks: seq<Task>)
    requires items != [] && |tasks| == |initial|
    requires forall k :: 0 <= k < |initial| ==> initial[k] == TaskAt(items, functions, k)
    requires forall k :: 0 <= k < |tasks| ==> TaskSound(initial[k], tasks[k])
    ensures forall k :: 0 <= k < |tasks| ==>
      TaskSound(TaskAt(items, functions, k), tasks[k]) && tasks[k].item == items[k % |items|] && tasks[k].trial == k / |items| + 1
  {
    hide WellFormed, RequestID, Prompt;
    forall k | 0 <= k < |tasks| ensures tasks[k].item == items[k % |items|] && tasks[k].trial == k / |items| + 1 {
      assert TaskSound(initial[k], tasks[k]);
    }
  }

  lemma InitialSound(items: seq<EvalItem>, functions: bool, tasks: seq<Task>)
    requires items != [] && forall k :: 0 <= k < |tasks| ==> tasks[k] == TaskAt(items, functions, k)
    ensures TasksSound(tasks, tasks) && forall k :: 0 <= k < |tasks| ==> !tasks[k].done
  {
    hide RequestID, Prompt;
    forall k | 0 <= k < |tasks| ensures TaskSound(tasks[k], tasks[k]) {
      var t := tasks[k];
      assert Prompt(t.item, t.usesTools) + RoundsMessages([]) == Prompt(t.item, t.usesTools);
      assert Transcript(t.messages, Prompt(t.item, t.usesTools), []);
    }
  }

  /** The two messages that a task begins with. */
  predicate Begins(messages: seq<Message>, prompt: string, usesTools: bool) {
    && |messages| == 2 && messages[0].System? && messages[1] == User(prompt)
    && (if usesTools then messages[0].text == "Use tools when required. Return only the requested JSON object as the final answer. No markdown."
        else messages[0].text == "Return only the requested JSON object. No markdown.")
  }

  lemma PromptBegins(item: EvalItem, usesTools: bool)
    ensures Begins(Prompt(item, usesTools), item.prompt, usesTools)
  {
  }

  /** A task asks its item's prompt, and may use tools exactly if the item comes with a record and functions are on. */
  lemma TaskAsks(items: seq<EvalItem>, functions: bool, k: nat)
    requires items != []
    ensures var t, item := TaskAt(items, functions, k), items[k % |items|];
            && t.item == item && t.trial == k / |items| + 1
            && (t.usesTools <==> item.toolRecord && functions)
            && Begins(t.messages, item.prompt, t.usesTools)
            && !t.done && t.raw == "" && t.finished == 0
  {
    hide RequestID, Prompt, Begins;
    PromptBegins(items[k % |items|], items[k % |items|].toolRecord && functions);
  }

  /** No two tasks share an identifier, so each takes the answer meant for it. */
  lemma TaskIDsDistinct(items: seq<EvalItem>, functions: bool, j: nat, k: nat)
    requires items != [] && TaskAt(items, functions, j).customID == TaskAt(items, functions, k).customID
    ensures j == k
  {
    hide RequestID;
    RequestIDInjective(j + 1, k + 1);
  }
}
