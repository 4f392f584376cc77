/** One plan step as a bounded tool-calling conversation, and the result cache
    that outlives it (`LlmToolStepExecutor`). */
module ToolConversation {
  import opened Wrappers
  import opened Text
  import opened CanonicalJson
  import opened StepExecutor

  // Rounds beyond the grant: cached calls cost no budget.
  const CACHED_ROUND_ALLOWANCE: nat := 3

  const BUDGET_EXHAUSTED_RESULT := "tool call budget exhausted for this step; answer with what you have"

  datatype ToolCall = ToolCall(id: string, name: string, arguments: Json)

  datatype ToolDef = ToolDef(name: string, description: string, schema: Json)

  datatype ChatMessage =
    | System
    | User(request: ExecuteStepRequest)
    | AssistantCalls(content: string, calls: seq<ToolCall>)
    | ToolResult(id: string, shown: string)

  datatype ChatRequest = ChatRequest(messages: seq<ChatMessage>, tools: seq<ToolDef>, toolChoice: Option<string>)

  datatype ChatResponse = ChatResponse(content: string, toolCalls: seq<ToolCall>)

  datatype CallOutcome = Ran(value: Json) | Cached(value: Json) | Failed(error: string) | OverBudget {
    function Status(): string {
      match this
      case Ran(_) => "ok"
      case Cached(_) => "cached"
      case Failed(_) => "error"
      case OverBudget => "skipped_budget"
    }

    function ModelPayload(): Json {
      match this
      case Ran(v) => v
      case Cached(v) => v
      case Failed(e) => Object([Member("error", Str(e))])
      case OverBudget => Object([Member("error", Str(BUDGET_EXHAUSTED_RESULT))])
    }
  }

  // A tool and its canonical arguments.
  type Key = (string, Json)

  function KeyOf(name: string, arguments: Json): Key {
    (name, Canonical(arguments))
  }

  datatype HostCall = HostCall(name: string, arguments: Json, reply: Result<Json, string>) {
    function Key(): Key { KeyOf(name, arguments) }
  }

  datatype Answer = Answer(key: Key, outcome: CallOutcome)

  /** The model and the host's tools: each may answer as it likes, and remember
      anything in `W`. `show` prints a payload and cuts it to the result limit. */
  datatype ExecutorConfig<!W> = ExecutorConfig(
    chat: (W, ChatRequest) -> (W, Result<ChatResponse, string>),
    host: (W, string, Json) -> (W, Result<Json, string>),
    defs: seq<ToolDef>,
    show: Json -> string)

  // One exchange with the model or the host, and the memory around it.
  datatype Exchange<W> =
    | Chatted(before: W, request: ChatRequest, reply: Result<ChatResponse, string>, after: W)
    | Called(before: W, call: HostCall, after: W)

  /** What one executor carries from step to step: its cache, the answers it gave, and
      everything it exchanged with the model and the host; the last two are kept for
      reasoning only. */
  datatype ExecState<W> = ExecState(cache: map<Key, Json>, answers: seq<Answer>, talk: seq<Exchange<W>>, world: W) {
    // The calls that really went to the host.
    function HostCalls(): seq<HostCall> {
      HostCallsIn(talk)
    }
  }

  function HostCallsIn<W>(talk: seq<Exchange<W>>): seq<HostCall> {
    if talk == [] then []
    else
      var front, last := HostCallsIn(talk[..|talk| - 1]), talk[|talk| - 1];
      if last.Called? then front + [last.call] else front
  }

  function ResolveCall<W>(cfg: ExecutorConfig<W>, ex: ExecState<W>, call: ToolCall, used: nat, maxToolCalls: nat)
    : (ExecState<W>, CallOutcome, nat)
  {
    var key := KeyOf(call.name, call.arguments);
    if key in ex.cache then (Answered(ex, key, Cached(ex.cache[key])), Cached(ex.cache[key]), used)
    else if used >= maxToolCalls then (Answered(ex, key, OverBudget), OverBudget, used)
    else
      var (w, reply) := cfg.host(ex.world, call.name, call.arguments);
      var called :=
          ex.(talk := ex.talk + [Called(ex.world, HostCall(call.name, call.arguments, reply), w)], world := w);
      match reply
      case Ok(v) => (Answered(called.(cache := ex.cache[key := v]), key, Ran(v)), Ran(v), used + 1)
      case Err(e) =>
        var failed := Failed("tool call failed: " + e);
        (Answered(called, key, failed), failed, used + 1)
  }

  function Answered<W>(ex: ExecState<W>, key: Key, outcome: CallOutcome): ExecState<W> {
    ex.(answers := ex.answers + [Answer(key, outcome)])
  }

  // ----- The conversation -----

  datatype CallRecord = CallRecord(name: string, arguments: Json, status: string, result: string)

  // A request as sent, with the calls charged to the step before it, and the reply.
  datatype Sent = Sent(request: ChatRequest, used: nat, reply: Result<ChatResponse, string>)

  datatype Conversation<W> = Conversation(
    ex: ExecState<W>, messages: seq<ChatMessage>, used: nat, rounds: nat, records: seq<CallRecord>, sent: seq<Sent>)

  function Opening(req: ExecuteStepRequest): seq<ChatMessage> {
    [System, User(req)]
  }

  function Start<W>(ex: ExecState<W>, req: ExecuteStepRequest): Conversation<W> {
    Conversation(ex, Opening(req), 0, 0, [], [])
  }

  function RoundLimit(req: ExecuteStepRequest): nat {
    SaturatingAdd(req.maxToolCalls, CACHED_ROUND_ALLOWANCE)
  }

  predicate OfferTools<W>(req: ExecuteStepRequest, c: Conversation<W>) {
    c.used < req.maxToolCalls && c.rounds < RoundLimit(req)
  }

  function NextRequest<W>(cfg: ExecutorConfig<W>, req: ExecuteStepRequest, c: Conversation<W>): ChatRequest {
    if OfferTools(req, c) then ChatRequest(c.messages, cfg.defs, Some("auto"))
    else if c.records != [] then ChatRequest(c.messages, cfg.defs, Some("none"))
    else ChatRequest(c.messages, [], None)
  }

  function ResolveOne<W>(
    cfg: ExecutorConfig<W>, req: ExecuteStepRequest, c: Conversation<W>, call: ToolCall): Conversation<W>
  {
    var (ex, outcome, used) := ResolveCall(cfg, c.ex, call, c.used, req.maxToolCalls);
    var shown := cfg.show(outcome.ModelPayload());
    c.(ex := ex, used := used,
       records := c.records + [CallRecord(call.name, call.arguments, outcome.Status(), shown)],
       messages := c.messages + [ToolResult(call.id, shown)])
  }

  function ResolveAll<W>(
    cfg: ExecutorConfig<W>, req: ExecuteStepRequest, c: Conversation<W>, calls: seq<ToolCall>): Conversation<W>
    decreases |calls|
  {
    if calls == [] then c else ResolveAll(cfg, req, ResolveOne(cfg, req, c, calls[0]), calls[1..])
  }

  function RecordJson(r: CallRecord): Json {
    Object([Member("name", Str(r.name)), Member("arguments", r.arguments),
            Member("status", Str(r.status)), Member("result", Str(r.result))])
  }

  function Body(stepId: string, content: string, records: seq<CallRecord>): Json {
    var members := [Member("step_id", Str(stepId)), Member("output", Str(Trim(content)))];
    if records == [] then Object(members)
    else Object(members +
        [Member("tool_calls", Array(seq(|records|, i requires 0 <= i < |records| => RecordJson(records[i]))))])
  }

  function Asked<W>(
    cfg: ExecutorConfig<W>, req: ExecuteStepRequest, c: Conversation<W>, w: W, reply: Result<ChatResponse, string>)
    : Conversation<W>
  {
    var request := NextRequest(cfg, req, c);
    c.(ex := c.ex.(talk := c.ex.talk + [Chatted(c.ex.world, request, reply, w)], world := w),
       rounds := c.rounds + 1, sent := c.sent + [Sent(request, c.used, reply)])
  }

  function Replied<W>(c: Conversation<W>, reply: ChatResponse): Conversation<W> {
    c.(messages := c.messages + [AssistantCalls(reply.content, reply.toolCalls)])
  }

  function Converse<W>(cfg: ExecutorConfig<W>, req: ExecuteStepRequest, c: Conversation<W>)
    : (Conversation<W>, Result<StepExecution, StepExecutionError>)
    decreases RoundLimit(req) - c.rounds
  {
    var (w, reply) := cfg.chat(c.ex.world, NextRequest(cfg, req, c));
    var asked := Asked(cfg, req, c, w, reply);
    if reply.Err? then (asked, Err(Backend("step execution chat: " + reply.error)))
    else if !OfferTools(req, c) || reply.value.toolCalls == [] then
      (asked, Ok(StepExecution(Body(req.step.stepId, reply.value.content, c.records), c.used)))
    else
      RoundsKept(cfg, req, Replied(asked, reply.value), reply.value.toolCalls);
      Converse(cfg, req, ResolveAll(cfg, req, Replied(asked, reply.value), reply.value.toolCalls))
  }

  lemma {:induction false} RoundsKept<W>(
    cfg: ExecutorConfig<W>, req: ExecuteStepRequest, c: Conversation<W>, calls: seq<ToolCall>)
    ensures ResolveAll(cfg, req, c, calls).rounds == c.rounds
    ensures ResolveAll(cfg, req, c, calls).sent == c.sent
    decreases |calls|
  {
    if calls != [] { RoundsKept(cfg, req, ResolveOne(cfg, req, c, calls[0]), calls[1..]); }
  }

  function ExecuteStep<W>(cfg: ExecutorConfig<W>, ex: ExecState<W>, req: ExecuteStepRequest)
    : (ExecState<W>, Result<StepExecution, StepExecutionError>)
  {
    var (c, r) := Converse(cfg, req, Start(ex, req));
    (c.ex, r)
  }

  // ----- The cache refines the log of host calls -----

  /** A call that succeeded is never made again. */
  ghost predicate SuccessIsFinal(calls: seq<HostCall>) {
    forall i, j :: 0 <= i < j < |calls| && calls[i].reply.Ok? ==> calls[i].Key() != calls[j].Key()
  }

  ghost predicate SucceededWith(calls: seq<HostCall>, key: Key, v: Json) {
    exists i :: 0 <= i < |calls| && calls[i].reply == Ok(v) && calls[i].Key() == key
  }

  /** The cache holds the successes of the log, and nothing else. */
  ghost predicate CacheIsSuccesses(cache: map<Key, Json>, calls: seq<HostCall>) {
    && (forall k :: k in cache ==> SucceededWith(calls, k, cache[k]))
    && (forall i :: 0 <= i < |calls| && calls[i].reply.Ok? ==>
        calls[i].Key() in cache && cache[calls[i].Key()] == calls[i].reply.value)
  }

  /** Every value an answer carried is the cached one, and once a key has been
      answered with a value, it is answered from the cache ever after. */
  ghost predicate AnswersAgree(cache: map<Key, Json>, answers: seq<Answer>) {
    && (forall i :: 0 <= i < |answers| && (answers[i].outcome.Ran? || answers[i].outcome.Cached?) ==>
          answers[i].key in cache && answers[i].outcome.value == cache[answers[i].key])
    && (forall i, j :: 0 <= i < j < |answers| && answers[i].key == answers[j].key && answers[i].outcome.Ran? ==>
          answers[j].outcome == Cached(answers[i].outcome.value))
  }

  ghost predicate CacheRefinesLog<W>(ex: ExecState<W>) {
    && SuccessIsFinal(ex.HostCalls())
    && CacheIsSuccesses(ex.cache, ex.HostCalls())
    && AnswersAgree(ex.cache, ex.answers)
  }

  // The log and the cache only ever grow.
  ghost predicate Grows<W>(before: ExecState<W>, after: ExecState<W>) {
    && before.talk <= after.talk && before.answers <= after.answers
    && forall k :: k in before.cache ==> k in after.cache && after.cache[k] == before.cache[k]
  }

  lemma SuccessLogged(cache: map<Key, Json>, calls: seq<HostCall>, call: HostCall)
    requires SuccessIsFinal(calls) && CacheIsSuccesses(cache, calls) && call.Key() !in cache
    ensures SuccessIsFinal(calls + [call])
    ensures call.reply.Err? ==> CacheIsSuccesses(cache, calls + [call])
    ensures call.reply.Ok? ==> CacheIsSuccesses(cache[call.Key() := call.reply.value], calls + [call])
  {
    var longer := calls + [call];
    forall k, v | SucceededWith(calls, k, v) ensures SucceededWith(longer, k, v) {
      var i :| 0 <= i < |calls| && calls[i].reply == Ok(v) && calls[i].Key() == k;
      assert longer[i] == calls[i];
    }
    if call.reply.Ok? {
      assert longer[|calls|].reply == Ok(call.reply.value);
      assert SucceededWith(longer, call.Key(), call.reply.value);
    }
  }

  lemma AnswerLogged(cache: map<Key, Json>, cache': map<Key, Json>, answers: seq<Answer>, a: Answer)
    requires AnswersAgree(cache, answers)
    requires forall k :: k in cache ==> k in cache' && cache'[k] == cache[k]
    requires a.key in cache ==> a.outcome == Cached(cache[a.key])
    requires a.outcome.Ran? || a.outcome.Cached? ==> a.key in cache' && a.outcome.value == cache'[a.key]
    ensures AnswersAgree(cache', answers + [a])
  {
  }

  // The answers a call may get, and the model is shown of them.
  lemma OutcomesInWords(o: CallOutcome)
    ensures o.Status() == "ok" <==> o.Ran?
    ensures o.Status() == "cached" <==> o.Cached?
    ensures o.Status() == "error" <==> o.Failed?
    ensures o.Status() == "skipped_budget" <==> o.OverBudget?
    ensures o.Ran? || o.Cached? ==> o.ModelPayload() == o.value
    ensures o.Failed? ==> o.ModelPayload() == Object([Member("error", Str(o.error))])
    ensures o.OverBudget? ==> o.ModelPayload() == Object([Member("error",
      Str("tool call budget exhausted for this step; answer with what you have"))])
  {
  }

  /** How a call must be resolved, told by the log of host calls alone: a call whose tool
      and canonical arguments once succeeded is answered with that success; otherwise,
      within the budget, the host is called with the very arguments of the call, once, and
      its reply is the answer. */
  ghost predicate ResolvedByLog<W>(
    cfg: ExecutorConfig<W>, ex: ExecState<W>, call: ToolCall, used: nat, maxToolCalls: nat,
    ex': ExecState<W>, outcome: CallOutcome, used': nat)
  {
    var key := (call.name, Canonical(call.arguments));
    var (w, reply) := cfg.host(ex.world, call.name, call.arguments);
    if exists v :: SucceededWith(ex.HostCalls(), key, v) then
      outcome.Cached? && SucceededWith(ex.HostCalls(), key, outcome.value) && used' == used &&
      ex'.talk == ex.talk && ex'.world == ex.world
    else if used >= maxToolCalls then
      outcome.OverBudget? && used' == used && ex'.talk == ex.talk && ex'.world == ex.world
    else
      && used' == used + 1 && ex'.world == w
      && ex'.talk == ex.talk + [Called(ex.world, HostCall(call.name, call.arguments, reply), w)]
      && outcome == match reply { case Ok(v) => Ran(v) case Err(e) => Failed("tool call failed: " + e) }
  }

  lemma CachedIffSucceeded(cache: map<Key, Json>, calls: seq<HostCall>, key: Key)
    requires CacheIsSuccesses(cache, calls)
    ensures key in cache <==> exists v :: SucceededWith(calls, key, v)
  {
    if key in cache { assert SucceededWith(calls, key, cache[key]); }
  }

  /** Resolving a call keeps the cache a refinement of the log, reaches the host exactly
      when it charges the step, and answers as the log of host calls alone demands. */
  lemma ResolveKeepsRefinement<W>(
    cfg: ExecutorConfig<W>, ex: ExecState<W>, call: ToolCall, used: nat, maxToolCalls: nat)
    requires CacheRefinesLog(ex) && used <= maxToolCalls
    ensures var (ex', outcome, used') := ResolveCall(cfg, ex, call, used, maxToolCalls);
      && CacheRefinesLog(ex') && Grows(ex, ex')
      && used' <= maxToolCalls
      && |ex'.HostCalls()| - |ex.HostCalls()| == used' - used
      && used' - used == (if outcome.Ran? || outcome.Failed? then 1 else 0)
      && ResolvedByLog(cfg, ex, call, used, maxToolCalls, ex', outcome, used')
  {
    var key := KeyOf(call.name, call.arguments);
    var (ex', outcome, used') := ResolveCall(cfg, ex, call, used, maxToolCalls);
    CachedIffSucceeded(ex.cache, ex.HostCalls(), key);
    if key !in ex.cache && used < maxToolCalls {
      var (w, reply) := cfg.host(ex.world, call.name, call.arguments);
      SuccessLogged(ex.cache, ex.HostCalls(), HostCall(call.name, call.arguments, reply));
      assert (ex.talk + [Called(ex.world, HostCall(call.name, call.arguments, reply), w)])[..|ex.talk|] == ex.talk;
    }
    AnswerLogged(ex.cache, ex'.cache, ex.answers, Answer(key, outcome));
  }

  // ----- The executor as the program runs it -----

  /** One instance serves one dispatch; its cache is what keeps a step that is
      executed again from repeating a side effect. */
  class LlmToolStepExecutor<W> {
    const cfg: ExecutorConfig<W>
    var cache: map<Key, Json>
    var answers: seq<Answer>
    ghost var talk: seq<Exchange<W>>
    var world: W

    constructor (cfg: ExecutorConfig<W>, world: W)
      ensures this.cfg == cfg && State() == ExecState(map[], [], [], world)
      ensures CacheRefinesLog(State())
    {
      this.cfg, this.cache, this.answers, this.talk, this.world := cfg, map[], [], [], world;
    }

    ghost function State(): ExecState<W>
      reads this
    {
      ExecState(cache, answers, talk, world)
    }

    method Resolve(call: ToolCall, used: nat, maxToolCalls: nat) returns (outcome: CallOutcome, used': nat)
      modifies this
      ensures (State(), outcome, used') == ResolveCall(cfg, old(State()), call, used, maxToolCalls)
    {
      used' := used;
      var key := KeyOf(call.name, call.arguments);
      if key in cache {
        outcome := Cached(cache[key]);
      } else if used >= maxToolCalls {
        outcome := OverBudget;
      } else {
        used' := used + 1;
        var (w, reply) := cfg.host(world, call.name, call.arguments);
        talk := talk + [Called(world, HostCall(call.name, call.arguments, reply), w)];
        world := w;
        if reply.Ok? {
          cache := cache[key := reply.value];
          outcome := Ran(reply.value);
        } else {
          outcome := Failed("tool call failed: " + reply.error);
        }
      }
      answers := answers + [Answer(key, outcome)];
    }

    method Execute(req: ExecuteStepRequest) returns (r: Result<StepExecution, StepExecutionError>)
      modifies this
      ensures (State(), r) == ExecuteStep(cfg, old(State()), req)
    {
      var messages := Opening(req);
      var used: nat, rounds: nat := 0, 0;
      var records: seq<CallRecord> := [];
      ghost var sent: seq<Sent> := [];
      while true
        invariant Converse(cfg, req, Start(old(State()), req)) ==
          Converse(cfg, req, Conversation(State(), messages, used, rounds, records, sent))
        decreases RoundLimit(req) - rounds
      {
        ghost var c := Conversation(State(), messages, used, rounds, records, sent);
        var offerTools := used < req.maxToolCalls && rounds < RoundLimit(req);
        var request :=
          if offerTools then ChatRequest(messages, cfg.defs, Some("auto"))
          else if records != [] then ChatRequest(messages, cfg.defs, Some("none"))
          else ChatRequest(messages, [], None);
        var (w, reply) := cfg.chat(world, request);
        talk := talk + [Chatted(world, request, reply, w)];
        world, rounds, sent := w, rounds + 1, sent + [Sent(request, used, reply)];
        assert Asked(cfg, req, c, w, reply) == Conversation(State(), messages, used, rounds, records, sent);
        if reply.Err? {
          return Err(Backend("step execution chat: " + reply.error));
        }
        if !offerTools || reply.value.toolCalls == [] {
          return Ok(StepExecution(Body(req.step.stepId, reply.value.content, records), used));
        }
        messages := messages + [AssistantCalls(reply.value.content, reply.value.toolCalls)];
        var calls := reply.value.toolCalls;
        ghost var replied := Conversation(State(), messages, used, rounds, records, sent);
        for i := 0 to |calls|
          invariant ResolveAll(cfg, req, replied, calls) ==
            ResolveAll(cfg, req, Conversation(State(), messages, used, rounds, records, sent), calls[i..])
        {
          assert calls[i..][1..] == calls[i + 1..];
          var outcome;
          outcome, used := Resolve(calls[i], used, req.maxToolCalls);
          var shown := cfg.show(outcome.ModelPayload());
          records := records + [CallRecord(calls[i].name, calls[i].arguments, outcome.Status(), shown)];
          messages := messages + [ToolResult(calls[i].id, shown)];
        }
      }
    }
  }
}
