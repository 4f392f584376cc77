/** What a tool conversation says: each step's requests, answers, records and output,
    told from nothing but what the model and the host replied. */
module ToolDialogue {
  import opened Wrappers
  import opened Text
  import opened CanonicalJson
  import opened StepExecutor
  import opened ToolConversation

  // ----- A dialogue, as its replies and answers determine it -----

  /** Every call the model asked for, in order. */
  ghost function CallsIn(replies: seq<ChatResponse>): seq<ToolCall> {
    if replies == [] then []
    else CallsIn(replies[..|replies| - 1]) + replies[|replies| - 1].toolCalls
  }

  // What the model is shown of an answer.
  ghost function ShownAs<W>(cfg: ExecutorConfig<W>, answer: Answer): string {
    cfg.show(answer.outcome.ModelPayload())
  }

  ghost function Results<W>(cfg: ExecutorConfig<W>, calls: seq<ToolCall>, answers: seq<Answer>): (r: seq<ChatMessage>)
    requires |calls| == |answers|
    ensures |r| == |calls|
  {
    seq(|calls|, i requires 0 <= i < |calls| => ToolResult(calls[i].id, ShownAs(cfg, answers[i])))
  }

  /** The messages after these replies and answers: the opening, then each reply as it
      came, followed by one result per call, in order, under its id, showing its answer. */
  ghost function Dialogue<W>(
    cfg: ExecutorConfig<W>, req: ExecuteStepRequest, replies: seq<ChatResponse>, answers: seq<Answer>): seq<ChatMessage>
    requires |answers| == |CallsIn(replies)|
  {
    if replies == [] then [System, User(req)]
    else
      var last := replies[|replies| - 1];
      var k := |answers| - |last.toolCalls|;
      Dialogue(cfg, req, replies[..|replies| - 1], answers[..k]) +
      [AssistantCalls(last.content, last.toolCalls)] + Results(cfg, last.toolCalls, answers[k..])
  }

  /** The records tell call by call what was asked for and what came of it. */
  ghost predicate RecordsTell<W>(
    cfg: ExecutorConfig<W>, calls: seq<ToolCall>, answers: seq<Answer>, records: seq<CallRecord>)
  {
    && |calls| == |answers| == |records|
    && forall i :: 0 <= i < |calls| ==>
      && answers[i].key == (calls[i].name, Canonical(calls[i].arguments))
      && records[i] ==
          CallRecord(calls[i].name, calls[i].arguments, answers[i].outcome.Status(), ShownAs(cfg, answers[i]))
  }

  // The host call an answer stands for.
  ghost predicate StandsFor(call: ToolCall, outcome: CallOutcome, made: HostCall) {
    && (made.name, made.arguments) == (call.name, call.arguments)
    && match made.reply
       case Ok(v) => outcome == Ran(v)
       case Err(e) => outcome == Failed("tool call failed: " + e)
  }

  /** The host was called for exactly the calls answered by running or failing, in order. */
  ghost predicate MadeBy(calls: seq<ToolCall>, answers: seq<Answer>, made: seq<HostCall>)
    decreases |calls|
  {
    if calls == [] || answers == [] then calls == [] && answers == [] && made == []
    else if answers[0].outcome.Ran? || answers[0].outcome.Failed? then
      made != [] && StandsFor(calls[0], answers[0].outcome, made[0]) && MadeBy(calls[1..], answers[1..], made[1..])
    else MadeBy(calls[1..], answers[1..], made)
  }

  // The answers that cost the step a call: those that reached the host.
  ghost function Spent(answers: seq<Answer>): nat {
    if answers == [] then 0
    else
      var last := answers[|answers| - 1].outcome;
      Spent(answers[..|answers| - 1]) + if last.Ran? || last.Failed? then 1 else 0
  }

  /** Each exchange is what the model or the host replied in the memory it found, and
      left the memory the next one found. */
  ghost predicate MemoryFlows<W>(cfg: ExecutorConfig<W>, start: W, talk: seq<Exchange<W>>, now: W) {
    if talk == [] then start == now
    else
      var last := talk[|talk| - 1];
      && last.after == now && MemoryFlows(cfg, start, talk[..|talk| - 1], last.before)
      && match last
         case Chatted(before, request, reply, after) => cfg.chat(before, request) == (after, reply)
         case Called(before, call, after) => cfg.host(before, call.name, call.arguments) == (after, call.reply)
  }

  // The requests sent to the model, and its replies.
  ghost function ChatsIn<W>(talk: seq<Exchange<W>>): seq<(ChatRequest, Result<ChatResponse, string>)> {
    if talk == [] then []
    else
      var front, last := ChatsIn(talk[..|talk| - 1]), talk[|talk| - 1];
      if last.Chatted? then front + [(last.request, last.reply)] else front
  }

  ghost function Chats(sent: seq<Sent>): (r: seq<(ChatRequest, Result<ChatResponse, string>)>)
    ensures |r| == |sent|
  {
    seq(|sent|, i requires 0 <= i < |sent| => (sent[i].request, sent[i].reply))
  }

  // ----- Putting dialogues together -----

  lemma {:induction false} MadeByJoins(
    c1: seq<ToolCall>, a1: seq<Answer>, m1: seq<HostCall>, c2: seq<ToolCall>, a2: seq<Answer>, m2: seq<HostCall>)
    requires MadeBy(c1, a1, m1) && MadeBy(c2, a2, m2)
    ensures MadeBy(c1 + c2, a1 + a2, m1 + m2)
    decreases |c1|
  {
    hide StandsFor;
    if c1 == [] {
      assert c1 + c2 == c2 && a1 + a2 == a2 && m1 + m2 == m2;
    } else {
      assert (c1 + c2)[1..] == c1[1..] + c2 && (a1 + a2)[1..] == a1[1..] + a2;
      if a1[0].outcome.Ran? || a1[0].outcome.Failed? {
        assert (m1 + m2)[1..] == m1[1..] + m2;
        MadeByJoins(c1[1..], a1[1..], m1[1..], c2, a2, m2);
      } else {
        MadeByJoins(c1[1..], a1[1..], m1, c2, a2, m2);
      }
    }
  }

  lemma {:induction false} SpentJoins(a: seq<Answer>, b: seq<Answer>)
    ensures Spent(a + b) == Spent(a) + Spent(b)
    decreases |b|
  {
    if b == [] {
      assert a + b == a;
    } else {
      assert (a + b)[..|a + b| - 1] == a + b[..|b| - 1];
      SpentJoins(a, b[..|b| - 1]);
    }
  }

  lemma {:induction false} FlowsJoin<W>(
    cfg: ExecutorConfig<W>, w0: W, t1: seq<Exchange<W>>, w1: W, t2: seq<Exchange<W>>, w2: W)
    requires MemoryFlows(cfg, w0, t1, w1) && MemoryFlows(cfg, w1, t2, w2)
    ensures MemoryFlows(cfg, w0, t1 + t2, w2)
    ensures HostCallsIn(t1 + t2) == HostCallsIn(t1) + HostCallsIn(t2)
    ensures ChatsIn(t1 + t2) == ChatsIn(t1) + ChatsIn(t2)
    decreases |t2|
  {
    HostCallsJoin(t1, t2);
    ChatsJoin(t1, t2);
    hide HostCallsIn, ChatsIn;
    if t2 == [] {
      assert t1 + t2 == t1;
    } else {
      var front, last := t2[..|t2| - 1], t2[|t2| - 1];
      assert (t1 + t2)[..|t1 + t2| - 1] == t1 + front;
      FlowsJoin(cfg, w0, t1, w1, front, last.before);
    }
  }

  lemma {:induction false} HostCallsJoin<W>(a: seq<Exchange<W>>, b: seq<Exchange<W>>)
    ensures HostCallsIn(a + b) == HostCallsIn(a) + HostCallsIn(b)
    decreases |b|
  {
    if b == [] {
      assert a + b == a;
    } else {
      assert (a + b)[..|a + b| - 1] == a + b[..|b| - 1];
      HostCallsJoin(a, b[..|b| - 1]);
    }
  }

  lemma {:induction false} ChatsJoin<W>(a: seq<Exchange<W>>, b: seq<Exchange<W>>)
    ensures ChatsIn(a + b) == ChatsIn(a) + ChatsIn(b)
    decreases |b|
  {
    if b == [] {
      assert a + b == a;
    } else {
      assert (a + b)[..|a + b| - 1] == a + b[..|b| - 1];
      ChatsJoin(a, b[..|b| - 1]);
    }
  }

  lemma OneExchange<W>(cfg: ExecutorConfig<W>, x: Exchange<W>)
    requires match x
      case Chatted(before, request, reply, after) => cfg.chat(before, request) == (after, reply)
      case Called(before, call, after) => cfg.host(before, call.name, call.arguments) == (after, call.reply)
    ensures MemoryFlows(cfg, x.before, [x], x.after)
    ensures HostCallsIn([x]) == (if x.Called? then [x.call] else [])
    ensures ChatsIn([x]) == (if x.Chatted? then [(x.request, x.reply)] else [])
  {
    assert [x][..0] == [];
  }

  // ----- One round -----

  /** What resolving some calls adds: an answer, a record and a result message to each,
      and the host calls they stand for. */
  ghost predicate Resolves<W>(
    cfg: ExecutorConfig<W>, c: Conversation<W>, c': Conversation<W>, calls: seq<ToolCall>, answers: seq<Answer>,
    records: seq<CallRecord>, talk: seq<Exchange<W>>)
  {
    && c'.ex.answers == c.ex.answers + answers && c'.records == c.records + records && c'.ex.talk == c.ex.talk + talk
    && RecordsTell(cfg, calls, answers, records)
    && c'.messages == c.messages + Results(cfg, calls, answers)
    && MadeBy(calls, answers, HostCallsIn(talk)) && ChatsIn(talk) == []
    && MemoryFlows(cfg, c.ex.world, talk, c'.ex.world)
    && c'.sent == c.sent && c'.rounds == c.rounds && c'.used == c.used + Spent(answers)
  }

  lemma ResolveOneTells<W>(cfg: ExecutorConfig<W>, req: ExecuteStepRequest, c: Conversation<W>, call: ToolCall)
    returns (answer: Answer, record: CallRecord, talk: seq<Exchange<W>>)
    ensures Resolves(cfg, c, ResolveOne(cfg, req, c, call), [call], [answer], [record], talk)
  {
    var (ex, outcome, used) := ResolveCall(cfg, c.ex, call, c.used, req.maxToolCalls);
    answer := Answer(KeyOf(call.name, call.arguments), outcome);
    record := CallRecord(call.name, call.arguments, outcome.Status(), ShownAs(cfg, answer));
    assert MadeBy([call][1..], [answer][1..], []);
    if outcome.Ran? || outcome.Failed? {
      var (w, reply) := cfg.host(c.ex.world, call.name, call.arguments);
      var made := HostCall(call.name, call.arguments, reply);
      talk := [Called(c.ex.world, made, w)];
      OneExchange(cfg, talk[0]);
      assert [made][1..] == [];
      assert MadeBy([call], [answer], [made]);
    } else {
      talk := [];
      assert MadeBy([call], [answer], []);
      assert ex.talk == c.ex.talk + talk;
    }
    assert Results(cfg, [call], [answer]) == [ToolResult(call.id, ShownAs(cfg, answer))];
  }

  lemma {:induction false} ResolveAllTells<W>(
    cfg: ExecutorConfig<W>, req: ExecuteStepRequest, c: Conversation<W>, calls: seq<ToolCall>)
    returns (answers: seq<Answer>, records: seq<CallRecord>, talk: seq<Exchange<W>>)
    ensures Resolves(cfg, c, ResolveAll(cfg, req, c, calls), calls, answers, records, talk)
    decreases |calls|
  {
    hide ResolveOne;
    if calls == [] {
      answers, records, talk := [], [], [];
      assert c.messages == c.messages + Results(cfg, calls, answers);
    } else {
      var c1, c' := ResolveOne(cfg, req, c, calls[0]), ResolveAll(cfg, req, c, calls);
      var answer, record, first := ResolveOneTells(cfg, req, c, calls[0]);
      var later, rest, second := ResolveAllTells(cfg, req, c1, calls[1..]);
      answers, records, talk := [answer] + later, [record] + rest, first + second;
      ResolvesJoin(cfg, c, c1, c', calls[0], calls[1..], answer, later, record, rest, first, second);
    }
  }

  lemma ResolvesJoin<W>(
    cfg: ExecutorConfig<W>, c: Conversation<W>, c1: Conversation<W>, c2: Conversation<W>,
    call: ToolCall, calls: seq<ToolCall>, answer: Answer, answers: seq<Answer>,
    record: CallRecord, records: seq<CallRecord>, t1: seq<Exchange<W>>, t2: seq<Exchange<W>>)
    requires Resolves(cfg, c, c1, [call], [answer], [record], t1)
    requires Resolves(cfg, c1, c2, calls, answers, records, t2)
    ensures Resolves(cfg, c, c2, [call] + calls, [answer] + answers, [record] + records, t1 + t2)
  {
    hide MadeBy, MemoryFlows, ShownAs, HostCallsIn, ChatsIn, Spent, RecordsTell;
    AnswerEach(cfg, [call], [answer], [record]);
    AnswerEach(cfg, calls, answers, records);
    RecordsJoin(cfg, [call], [answer], [record], calls, answers, records);
    MadeByJoins([call], [answer], HostCallsIn(t1), calls, answers, HostCallsIn(t2));
    FlowsJoin(cfg, c.ex.world, t1, c1.ex.world, t2, c2.ex.world);
    SpentJoins([answer], answers);
    assert Results(cfg, [call] + calls, [answer] + answers) ==
        Results(cfg, [call], [answer]) + Results(cfg, calls, answers);
  }

  // ----- The cache and the budget through a step -----

  function Charged(records: seq<CallRecord>): nat {
    if records == [] then 0
    else Charged(records[..|records| - 1]) + if records[|records| - 1].status in {"ok", "error"} then 1 else 0
  }

  // Calls charged, host calls made and records agree; the cache is sound.
  ghost predicate Accounted<W>(req: ExecuteStepRequest, ex0: ExecState<W>, c: Conversation<W>) {
    && CacheRefinesLog(c.ex) && Grows(ex0, c.ex)
    && c.used <= req.maxToolCalls
    && |c.ex.HostCalls()| == |ex0.HostCalls()| + c.used
    && c.used == Charged(c.records)
  }

  lemma ResolveOneAccounted<W>(
    cfg: ExecutorConfig<W>, req: ExecuteStepRequest, ex0: ExecState<W>, c: Conversation<W>, call: ToolCall)
    requires Accounted(req, ex0, c)
    ensures Accounted(req, ex0, ResolveOne(cfg, req, c, call))
  {
    hide CacheRefinesLog, ResolveCall, ResolvedByLog, HostCallsIn;
    ResolveKeepsRefinement(cfg, c.ex, call, c.used, req.maxToolCalls);
    var c' := ResolveOne(cfg, req, c, call);
    GrowsOn(ex0, c.ex, c'.ex);
    assert c'.records[..|c'.records| - 1] == c.records;
  }

  lemma GrowsOn<W>(a: ExecState<W>, b: ExecState<W>, c: ExecState<W>)
    requires Grows(a, b) && Grows(b, c)
    ensures Grows(a, c)
  {
  }

  lemma {:induction false} ResolveAllAccounted<W>(
    cfg: ExecutorConfig<W>, req: ExecuteStepRequest, ex0: ExecState<W>, c: Conversation<W>, calls: seq<ToolCall>)
    requires Accounted(req, ex0, c)
    ensures Accounted(req, ex0, ResolveAll(cfg, req, c, calls))
    decreases |calls|
  {
    hide Accounted, ResolveOne;
    if calls != [] {
      ResolveOneAccounted(cfg, req, ex0, c, calls[0]);
      ResolveAllAccounted(cfg, req, ex0, ResolveOne(cfg, req, c, calls[0]), calls[1..]);
    }
  }

  lemma AskedAccounted<W>(
    cfg: ExecutorConfig<W>, req: ExecuteStepRequest, ex0: ExecState<W>, c: Conversation<W>, w: W,
    reply: Result<ChatResponse, string>)
    requires Accounted(req, ex0, c)
    ensures Accounted(req, ex0, Asked(cfg, req, c, w, reply))
  {
    var c' := Asked(cfg, req, c, w, reply);
    assert c'.ex.talk[..|c.ex.talk|] == c.ex.talk;
    assert c'.ex.HostCalls() == c.ex.HostCalls();
  }

  // ----- What has been said in a step -----

  // Every request so far offered the tools and was answered with calls.
  ghost predicate AllCalling(sent: seq<Sent>) {
    forall k :: 0 <= k < |sent| ==>
      sent[k].reply.Ok? && sent[k].reply.value.toolCalls != [] && sent[k].request.toolChoice == Some("auto")
  }

  ghost function Replies(sent: seq<Sent>): (r: seq<ChatResponse>)
    requires AllCalling(sent)
    ensures |r| == |sent|
  {
    seq(|sent|, k requires 0 <= k < |sent| => sent[k].reply.value)
  }

  // What the counter of rounds can hold.
  function Capped(n: nat): nat {
    if n <= USIZE_MAX then n else USIZE_MAX
  }

  /** The request sent after these replies and answers: the dialogue so far, offering
      the tools while budget and rounds remain, naming them without offering once there
      have been calls, and neither otherwise. */
  ghost predicate RightRequest<W>(
    cfg: ExecutorConfig<W>, req: ExecuteStepRequest, replies: seq<ChatResponse>, answers: seq<Answer>, s: Sent)
  {
    && |answers| == |CallsIn(replies)|
    && s.request.messages == Dialogue(cfg, req, replies, answers)
    && s.used == Spent(answers)
    && var offered := Spent(answers) < req.maxToolCalls && |replies| < Capped(req.maxToolCalls + 3);
       && s.request.toolChoice ==
          (if offered then Some("auto") else if CallsIn(replies) != [] then Some("none") else None)
       && s.request.tools == if offered || CallsIn(replies) != [] then cfg.defs else []
  }

  // The k-th request was right, given the answers of the step so far.
  ghost predicate RightSoFar<W>(
    cfg: ExecutorConfig<W>, req: ExecuteStepRequest, replies: seq<ChatResponse>, answers: seq<Answer>, s: Sent, k: nat)
  {
    k <= |replies| && |CallsIn(replies[..k])| <= |answers| &&
    RightRequest(cfg, req, replies[..k], answers[..|CallsIn(replies[..k])|], s)
  }

  /** Where a step stands between two rounds, given what it has added to the executor. */
  ghost predicate Spoken<W>(
    cfg: ExecutorConfig<W>, req: ExecuteStepRequest, ex0: ExecState<W>, c: Conversation<W>, answers: seq<Answer>,
    talk: seq<Exchange<W>>)
  {
    && c.ex.answers == ex0.answers + answers && c.ex.talk == ex0.talk + talk
    && c.rounds == |c.sent| && AllCalling(c.sent) && c.used == Spent(answers)
    && var (replies, calls) := (Replies(c.sent), CallsIn(Replies(c.sent)));
       && RecordsTell(cfg, calls, answers, c.records)
       && c.messages == Dialogue(cfg, req, replies, answers)
       && MadeBy(calls, answers, HostCallsIn(talk))
       && MemoryFlows(cfg, ex0.world, talk, c.ex.world)
       && ChatsIn(talk) == Chats(c.sent)
       && AllRight(cfg, req, replies, answers, c.sent)
  }

  ghost predicate AllRight<W>(
    cfg: ExecutorConfig<W>, req: ExecuteStepRequest, replies: seq<ChatResponse>, answers: seq<Answer>, sent: seq<Sent>)
  {
    forall k :: 0 <= k < |sent| ==> RightSoFar(cfg, req, replies, answers, sent[k], k)
  }

  lemma AllRightGrows<W>(
    cfg: ExecutorConfig<W>, req: ExecuteStepRequest, replies: seq<ChatResponse>, answers: seq<Answer>,
    sent: seq<Sent>, s: Sent, reply: ChatResponse, more: seq<Answer>)
    requires AllRight(cfg, req, replies, answers, sent) && RightRequest(cfg, req, replies, answers, s)
    requires |sent| == |replies|
    ensures AllRight(cfg, req, replies + [reply], answers + more, sent + [s])
  {
    hide RightSoFar, RightRequest;
    forall k | 0 <= k < |sent + [s]|
      ensures RightSoFar(cfg, req, replies + [reply], answers + more, (sent + [s])[k], k)
    {
      if k < |sent| {
        RightStays(cfg, req, replies, answers, sent[k], k, reply, more);
      } else {
        NowRight(cfg, req, replies, answers, s, reply, more);
      }
    }
  }

  lemma NowRight<W>(
    cfg: ExecutorConfig<W>, req: ExecuteStepRequest, replies: seq<ChatResponse>, answers: seq<Answer>, s: Sent,
    reply: ChatResponse, more: seq<Answer>)
    requires RightRequest(cfg, req, replies, answers, s)
    ensures RightSoFar(cfg, req, replies + [reply], answers + more, s, |replies|)
  {
    assert (replies + [reply])[..|replies|] == replies && (answers + more)[..|answers|] == answers;
  }

  lemma RecordsJoin<W>(
    cfg: ExecutorConfig<W>, c1: seq<ToolCall>, a1: seq<Answer>, r1: seq<CallRecord>,
    c2: seq<ToolCall>, a2: seq<Answer>, r2: seq<CallRecord>)
    requires RecordsTell(cfg, c1, a1, r1) && RecordsTell(cfg, c2, a2, r2)
    ensures RecordsTell(cfg, c1 + c2, a1 + a2, r1 + r2)
  {
  }

  lemma CallsInGrows(replies: seq<ChatResponse>, reply: ChatResponse)
    ensures CallsIn(replies + [reply]) == CallsIn(replies) + reply.toolCalls
  {
    assert (replies + [reply])[..|replies|] == replies;
  }

  lemma DialogueGrows<W>(
    cfg: ExecutorConfig<W>, req: ExecuteStepRequest, replies: seq<ChatResponse>, answers: seq<Answer>,
    reply: ChatResponse, more: seq<Answer>)
    requires |answers| == |CallsIn(replies)| && |more| == |reply.toolCalls|
    ensures |answers + more| == |CallsIn(replies + [reply])|
    ensures Dialogue(cfg, req, replies + [reply], answers + more) ==
      Dialogue(cfg, req, replies, answers) + [AssistantCalls(reply.content, reply.toolCalls)] +
      Results(cfg, reply.toolCalls, more)
  {
    CallsInGrows(replies, reply);
    assert (replies + [reply])[..|replies|] == replies;
    assert (answers + more)[..|answers|] == answers && (answers + more)[|answers|..] == more;
  }

  lemma RightStays<W>(
    cfg: ExecutorConfig<W>, req: ExecuteStepRequest, replies: seq<ChatResponse>, answers: seq<Answer>, s: Sent, k: nat,
    reply: ChatResponse, more: seq<Answer>)
    requires RightSoFar(cfg, req, replies, answers, s, k)
    ensures RightSoFar(cfg, req, replies + [reply], answers + more, s, k)
  {
    hide RightRequest;
    assert (replies + [reply])[..k] == replies[..k];
    var n := |CallsIn(replies[..k])|;
    assert (answers + more)[..n] == answers[..n];
  }

  lemma NextIsRight<W>(
    cfg: ExecutorConfig<W>, req: ExecuteStepRequest, ex0: ExecState<W>, c: Conversation<W>, answers: seq<Answer>,
    talk: seq<Exchange<W>>, reply: Result<ChatResponse, string>)
    requires Spoken(cfg, req, ex0, c, answers, talk)
    ensures RightRequest(cfg, req, Replies(c.sent), answers, Sent(NextRequest(cfg, req, c), c.used, reply))
  {
    hide MadeBy, MemoryFlows, Dialogue, RightSoFar;
  }

  // A round that asks for calls adds its reply, its answers and its exchanges.
  lemma RoundSpoken<W>(
    cfg: ExecutorConfig<W>, req: ExecuteStepRequest, ex0: ExecState<W>, c: Conversation<W>, answers: seq<Answer>,
    talk: seq<Exchange<W>>, w: W, reply: ChatResponse)
    returns (answers': seq<Answer>, talk': seq<Exchange<W>>)
    requires Spoken(cfg, req, ex0, c, answers, talk) && OfferTools(req, c) && reply.toolCalls != []
    requires cfg.chat(c.ex.world, NextRequest(cfg, req, c)) == (w, Ok(reply))
    ensures Spoken(cfg, req, ex0,
      ResolveAll(cfg, req, Replied(Asked(cfg, req, c, w, Ok(reply)), reply), reply.toolCalls),
      answers', talk')
  {
    hide MadeBy, MemoryFlows, ResolveAll, NextRequest, HostCallsIn, ChatsIn, CallsIn, Dialogue, RightRequest, ShownAs;
    hide AllRight, RecordsTell;
    var request := NextRequest(cfg, req, c);
    assert request.toolChoice == Some("auto") by { OfferedIsAuto(cfg, req, c); }
    var replied := Replied(Asked(cfg, req, c, w, Ok(reply)), reply);
    var c' := ResolveAll(cfg, req, replied, reply.toolCalls);
    var more, records, made := ResolveAllTells(cfg, req, replied, reply.toolCalls);
    var chat := Chatted(c.ex.world, request, Ok(reply), w);
    answers', talk' := answers + more, talk + [chat] + made;
    var replies := Replies(c.sent);
    assert Replies(c'.sent) == replies + [reply];
    assert |more| == |reply.toolCalls| by { AnswerEach(cfg, reply.toolCalls, more, records); }
    assert |answers| == |CallsIn(replies)| by { AnswerEach(cfg, CallsIn(replies), answers, c.records); }
    CallsInGrows(replies, reply);
    DialogueGrows(cfg, req, replies, answers, reply, more);
    RecordsJoin(cfg, CallsIn(replies), answers, c.records, reply.toolCalls, more, records);
    NextIsRight(cfg, req, ex0, c, answers, talk, Ok(reply));
    AllRightGrows(cfg, req, replies, answers, c.sent, Sent(request, c.used, Ok(reply)), reply, more);
    TalkGrows(cfg, ex0.world, talk, c.ex.world, chat, made, c'.ex.world);
    MadeByJoins(CallsIn(replies), answers, HostCallsIn(talk), reply.toolCalls, more, HostCallsIn(made));
    assert Chats(c'.sent) == Chats(c.sent) + [(request, Ok(reply))];
    SpentJoins(answers, more);
  }

  lemma AnswerEach<W>(cfg: ExecutorConfig<W>, calls: seq<ToolCall>, answers: seq<Answer>, records: seq<CallRecord>)
    requires RecordsTell(cfg, calls, answers, records)
    ensures |calls| == |answers| == |records|
  {
  }

  lemma TalkGrows<W>(
    cfg: ExecutorConfig<W>, w0: W, talk: seq<Exchange<W>>, w1: W, chat: Exchange<W>, made: seq<Exchange<W>>, w2: W)
    requires MemoryFlows(cfg, w0, talk, w1) && MemoryFlows(cfg, chat.after, made, w2)
    requires chat.Chatted? && chat.before == w1 && cfg.chat(w1, chat.request) == (chat.after, chat.reply)
    ensures MemoryFlows(cfg, w0, talk + [chat] + made, w2)
    ensures HostCallsIn(talk + [chat] + made) == HostCallsIn(talk) + HostCallsIn(made)
    ensures ChatsIn(talk + [chat] + made) == ChatsIn(talk) + [(chat.request, chat.reply)] + ChatsIn(made)
  {
    OneExchange(cfg, chat);
    FlowsJoin(cfg, w0, talk, w1, [chat], chat.after);
    FlowsJoin(cfg, w0, talk + [chat], chat.after, made, w2);
  }

  lemma OfferedIsAuto<W>(cfg: ExecutorConfig<W>, req: ExecuteStepRequest, c: Conversation<W>)
    requires OfferTools(req, c)
    ensures NextRequest(cfg, req, c).toolChoice == Some("auto")
  {
  }

  // ----- A whole step -----

  function RecordMembers(r: CallRecord): Json {
    Object([Member("name", Str(r.name)), Member("arguments", r.arguments),
            Member("status", Str(r.status)), Member("result", Str(r.result))])
  }

  /** What a step stores: its id, the text of the last reply stripped of white space at
      both ends, and, if there were calls, what came of each. */
  ghost predicate OutputOf(stepId: string, content: string, records: seq<CallRecord>, body: Json) {
    exists output :: Strips(content, output) &&
      body == Object([Member("step_id", Str(stepId)), Member("output", Str(output))] +
        if records == [] then []
        else [Member("tool_calls", Array(seq(|records|, i requires 0 <= i < |records| => RecordMembers(records[i]))))])
  }

  /** How a step ends, given what it added to the executor. Every request was right and
      all but the last were answered with calls; every exchange is what the model or the
      host replied; the records tell each call and its answer; the host was called for
      exactly the answers that ran or failed; and the step comes to what the last reply
      says, calls in it being heeded no more, or to its error. */
  ghost predicate StepEnds<W>(
    cfg: ExecutorConfig<W>, req: ExecuteStepRequest, ex0: ExecState<W>, c: Conversation<W>,
    r: Result<StepExecution, StepExecutionError>, answers: seq<Answer>, talk: seq<Exchange<W>>)
  {
    && c.ex.answers == ex0.answers + answers && c.ex.talk == ex0.talk + talk
    && c.sent != [] && AllCalling(c.sent[..|c.sent| - 1])
    && MemoryFlows(cfg, ex0.world, talk, c.ex.world) && ChatsIn(talk) == Chats(c.sent)
    && var (replies, last) := (Replies(c.sent[..|c.sent| - 1]), c.sent[|c.sent| - 1]);
       && AllRight(cfg, req, replies, answers, c.sent[..|c.sent| - 1])
       && RightRequest(cfg, req, replies, answers, last)
       && RecordsTell(cfg, CallsIn(replies), answers, c.records)
       && MadeBy(CallsIn(replies), answers, HostCallsIn(talk))
       && match last.reply
          case Err(e) => r == Err(Backend("step execution chat: " + e))
          case Ok(reply) =>
            && (last.request.toolChoice == Some("auto") ==> reply.toolCalls == [])
            && r.Ok? && r.value.toolCallsUsed == |HostCallsIn(talk)|
            && OutputOf(req.step.stepId, reply.content, c.records, r.value.body)
  }

  lemma BodyIsOutput(stepId: string, content: string, records: seq<CallRecord>)
    ensures OutputOf(stepId, content, records, Body(stepId, content, records))
  {
    TrimStrips(content);
    var told := seq(|records|, i requires 0 <= i < |records| => RecordMembers(records[i]));
    assert records != [] ==> told == seq(|records|, i requires 0 <= i < |records| => RecordJson(records[i]));
    var members := [Member("step_id", Str(stepId)), Member("output", Str(Trim(content)))];
    assert members + [] == members;
  }

  lemma LastAsked<W>(
    cfg: ExecutorConfig<W>, req: ExecuteStepRequest, ex0: ExecState<W>, c: Conversation<W>, answers: seq<Answer>,
    talk: seq<Exchange<W>>, w: W, reply: Result<ChatResponse, string>)
    requires Spoken(cfg, req, ex0, c, answers, talk) && Accounted(req, ex0, c)
    requires cfg.chat(c.ex.world, NextRequest(cfg, req, c)) == (w, reply)
    requires reply.Ok? ==> !OfferTools(req, c) || reply.value.toolCalls == []
    ensures var r := if reply.Err? then Err(Backend("step execution chat: " + reply.error))
                     else Ok(StepExecution(Body(req.step.stepId, reply.value.content, c.records), c.used));
      StepEnds(cfg, req, ex0, Asked(cfg, req, c, w, reply), r, answers,
        talk + [Chatted(c.ex.world, NextRequest(cfg, req, c), reply, w)])
  {
    hide MadeBy, MemoryFlows, HostCallsIn, ChatsIn, CallsIn, RightRequest, RecordsTell, AllRight, Body, OutputOf,
        Strips;
    hide CacheRefinesLog, Charged, RecordMembers;
    var chat := Chatted(c.ex.world, NextRequest(cfg, req, c), reply, w);
    var c' := Asked(cfg, req, c, w, reply);
    assert c'.sent[..|c.sent|] == c.sent;
    NextIsRight(cfg, req, ex0, c, answers, talk, reply);
    NothingMore(cfg, w);
    TalkGrows(cfg, ex0.world, talk, c.ex.world, chat, [], w);
    assert talk + [chat] + [] == talk + [chat];
    assert c'.ex.talk == ex0.talk + (talk + [chat]);
    assert HostCallsIn(talk + [chat]) == HostCallsIn(talk);
    assert c'.sent == c.sent + [Sent(chat.request, c.used, reply)];
    assert Chats(c'.sent) == Chats(c.sent) + [(chat.request, reply)];
    if reply.Ok? { BodyIsOutput(req.step.stepId, reply.value.content, c.records); }
    CallsCounted(ex0, c, talk);
    UnofferedIsNotAuto(cfg, req, c);
  }

  lemma NothingMore<W>(cfg: ExecutorConfig<W>, w: W)
    ensures MemoryFlows(cfg, w, [], w) && HostCallsIn<W>([]) == [] && ChatsIn<W>([]) == []
  {
  }

  lemma UnofferedIsNotAuto<W>(cfg: ExecutorConfig<W>, req: ExecuteStepRequest, c: Conversation<W>)
    ensures !OfferTools(req, c) ==> NextRequest(cfg, req, c).toolChoice != Some("auto")
  {
  }

  lemma CallsCounted<W>(ex0: ExecState<W>, c: Conversation<W>, talk: seq<Exchange<W>>)
    requires c.ex.talk == ex0.talk + talk && |c.ex.HostCalls()| == |ex0.HostCalls()| + c.used
    ensures |HostCallsIn(talk)| == c.used
  {
    HostCallsJoin(ex0.talk, talk);
  }

  lemma {:induction false} ConverseEnds<W>(
    cfg: ExecutorConfig<W>, req: ExecuteStepRequest, ex0: ExecState<W>, c: Conversation<W>, answers: seq<Answer>,
    talk: seq<Exchange<W>>)
    returns (answers': seq<Answer>, talk': seq<Exchange<W>>)
    requires Spoken(cfg, req, ex0, c, answers, talk) && Accounted(req, ex0, c) && c.rounds <= RoundLimit(req)
    ensures var (c', r) := Converse(cfg, req, c);
      StepEnds(cfg, req, ex0, c', r, answers', talk') && Accounted(req, ex0, c') && |c'.sent| <= RoundLimit(req) + 1
    decreases RoundLimit(req) - c.rounds
  {
    hide Spoken, Accounted, StepEnds, NextRequest, ResolveAll;
    assert |c.sent| == c.rounds by { RoundsSent(cfg, req, ex0, c, answers, talk); }
    var (w, reply) := cfg.chat(c.ex.world, NextRequest(cfg, req, c));
    var asked := Asked(cfg, req, c, w, reply);
    AskedAccounted(cfg, req, ex0, c, w, reply);
    if reply.Ok? && OfferTools(req, c) && reply.value.toolCalls != [] {
      var replied := Replied(asked, reply.value);
      var next := ResolveAll(cfg, req, replied, reply.value.toolCalls);
      var more, said := RoundSpoken(cfg, req, ex0, c, answers, talk, w, reply.value);
      RepliedAccounted(req, ex0, asked, reply.value);
      ResolveAllAccounted(cfg, req, ex0, replied, reply.value.toolCalls);
      RoundsKept(cfg, req, replied, reply.value.toolCalls);
      answers', talk' := ConverseEnds(cfg, req, ex0, next, more, said);
    } else {
      LastAsked(cfg, req, ex0, c, answers, talk, w, reply);
      answers', talk' := answers, talk + [Chatted(c.ex.world, NextRequest(cfg, req, c), reply, w)];
    }
  }

  lemma RoundsSent<W>(
    cfg: ExecutorConfig<W>, req: ExecuteStepRequest, ex0: ExecState<W>, c: Conversation<W>, answers: seq<Answer>,
    talk: seq<Exchange<W>>)
    requires Spoken(cfg, req, ex0, c, answers, talk)
    ensures |c.sent| == c.rounds
  {
  }

  lemma RepliedAccounted<W>(req: ExecuteStepRequest, ex0: ExecState<W>, c: Conversation<W>, reply: ChatResponse)
    requires Accounted(req, ex0, c)
    ensures Accounted(req, ex0, Replied(c, reply))
  {
  }

  lemma StartSpoken<W>(cfg: ExecutorConfig<W>, ex: ExecState<W>, req: ExecuteStepRequest)
    requires CacheRefinesLog(ex)
    ensures Spoken(cfg, req, ex, Start(ex, req), [], []) && Accounted(req, ex, Start(ex, req))
  {
    hide CacheRefinesLog;
    assert ex.answers + [] == ex.answers && ex.talk + [] == ex.talk;
  }

  /** Whatever the model and the tools answer, a step ends as it must, within four model
      calls of its grant; its host calls are at most the grant, are the records marked ok
      or error, and are reported exactly; and the cache still refines the log. */
  lemma StepBounded<W>(cfg: ExecutorConfig<W>, ex: ExecState<W>, req: ExecuteStepRequest)
    returns (answers: seq<Answer>, talk: seq<Exchange<W>>)
    requires CacheRefinesLog(ex)
    ensures var (c, r) := Converse(cfg, req, Start(ex, req));
      && StepEnds(cfg, req, ex, c, r, answers, talk)
      && |c.sent| <= req.maxToolCalls + 4
      && |c.ex.HostCalls()| - |ex.HostCalls()| == Charged(c.records) <= req.maxToolCalls
      && (r.Ok? ==> r.value.toolCallsUsed == |c.ex.HostCalls()| - |ex.HostCalls()|)
      && CacheRefinesLog(c.ex) && Grows(ex, c.ex)
  {
    hide Spoken, Converse, CacheRefinesLog, Charged, OutputOf, MadeBy, MemoryFlows, RecordsTell, AllRight, RightRequest;
    StartSpoken(cfg, ex, req);
    answers, talk := ConverseEnds(cfg, req, ex, Start(ex, req), [], []);
    HostCallsJoin(ex.talk, talk);
  }
}
