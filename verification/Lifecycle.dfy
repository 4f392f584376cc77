/** The runtime kernel: lifecycle operations mediated by hooks, observers and a
    state store (`greentic-dw-core`, and `tick`/`apply_*` of the runtime). */
module Lifecycle {
  import opened Wrappers

  datatype TaskLifecycleState = Created | Running | Waiting | Delegated | Completed | Failed | Cancelled

  predicate CanTransition(from: TaskLifecycleState, to: TaskLifecycleState) {
    match from
    case Created => to.Running? || to.Cancelled?
    case Running => to.Waiting? || to.Delegated? || to.Completed? || to.Failed? || to.Cancelled?
    case Waiting => to.Running? || to.Failed? || to.Cancelled?
    case Delegated => to.Running? || to.Failed? || to.Cancelled?
    case _ => false
  }

  predicate IsTerminal(s: TaskLifecycleState) {
    s.Completed? || s.Failed? || s.Cancelled?
  }

  datatype RuntimeOperation =
    | Start | Step | Wait | Delegate(worker: string) | Observe(eventName: string)
    | Complete | Fail(reason: string) | Cancel

  function TargetState(op: RuntimeOperation, current: TaskLifecycleState): TaskLifecycleState {
    match op
    case Start => Running
    case Step => current
    case Wait => Waiting
    case Delegate(_) => Delegated
    case Observe(_) => current
    case Complete => Completed
    case Fail(_) => Failed
    case Cancel => Cancelled
  }

  datatype TaskEnvelope = TaskEnvelope(taskId: string, workerId: string, tenant: string, state: TaskLifecycleState)

  datatype RuntimeEvent = RuntimeEvent(
    taskId: string, workerId: string, operation: RuntimeOperation,
    from: TaskLifecycleState, to: TaskLifecycleState)

  datatype EngineDecision = Noop | Operation(op: RuntimeOperation) | Batch(ops: seq<RuntimeOperation>)

  datatype RuntimeError =
    | EngineFailed(message: string)
    | Blocked(reason: string)
    | IllegalTransition(op: RuntimeOperation, from: TaskLifecycleState, to: TaskLifecycleState)
    | SaveFailed(message: string)

  /** What a host plugs into the runtime. `W` is whatever the plugged-in parts
      remember; each of them may read and change it, and answer as it likes. */
  datatype RuntimeConfig<!W> = RuntimeConfig(
    decide: (W, TaskEnvelope) -> (W, Result<EngineDecision, string>),
    preHook: (W, TaskEnvelope, RuntimeOperation) -> (W, Option<string>),
    postHook: (W, TaskEnvelope, RuntimeEvent) -> W,
    save: Option<(W, TaskEnvelope) -> (W, Option<string>)>)

  // The envelope, what observers have been told, and the host's memory.
  datatype Kernel<W> = Kernel(env: TaskEnvelope, observed: seq<RuntimeEvent>, world: W)

  type Outcome<T> = Result<T, RuntimeError>

  function ApplyOperation<W>(
    cfg: RuntimeConfig<W>, k: Kernel<W>, op: RuntimeOperation): (Kernel<W>, Outcome<RuntimeEvent>)
  {
    var (w, blocked) := cfg.preHook(k.world, k.env, op);
    var from, to := k.env.state, TargetState(op, k.env.state);
    if blocked.Some? then (k.(world := w), Err(Blocked(blocked.value)))
    else if from != to && !CanTransition(from, to) then (k.(world := w), Err(IllegalTransition(op, from, to)))
    else
      var env := k.env.(state := to);
      var event := RuntimeEvent(env.taskId, env.workerId, op, from, to);
      SaveApplied(cfg, Kernel(env, k.observed + [event], cfg.postHook(w, env, event)), event)
  }

  function SaveApplied<W>(
    cfg: RuntimeConfig<W>, k: Kernel<W>, event: RuntimeEvent): (Kernel<W>, Outcome<RuntimeEvent>)
  {
    if cfg.save.None? then (k, Ok(event))
    else
      var (w, failure) := cfg.save.value(k.world, k.env);
      (k.(world := w), if failure.Some? then Err(SaveFailed(failure.value)) else Ok(event))
  }

  function ApplyBatch<W>(
    cfg: RuntimeConfig<W>, k: Kernel<W>, ops: seq<RuntimeOperation>): (Kernel<W>, Outcome<seq<RuntimeEvent>>)
    decreases |ops|
  {
    if ops == [] then (k, Ok([]))
    else
      var (k1, first) := ApplyOperation(cfg, k, ops[0]);
      if first.Err? then (k1, Err(first.error))
      else
        var (k2, rest) := ApplyBatch(cfg, k1, ops[1..]);
        (k2, if rest.Err? then Err(rest.error) else Ok([first.value] + rest.value))
  }

  function ApplyDecision<W>(
    cfg: RuntimeConfig<W>, k: Kernel<W>, d: EngineDecision): (Kernel<W>, Outcome<seq<RuntimeEvent>>)
  {
    match d
    case Noop => (k, Ok([]))
    case Operation(op) =>
      var (k1, r) := ApplyOperation(cfg, k, op);
      (k1, if r.Err? then Err(r.error) else Ok([r.value]))
    case Batch(ops) => ApplyBatch(cfg, k, ops)
  }

  function Tick<W>(cfg: RuntimeConfig<W>, k: Kernel<W>): (Kernel<W>, Outcome<seq<RuntimeEvent>>) {
    var (w, decision) := cfg.decide(k.world, k.env);
    if decision.Err? then (k.(world := w), Err(EngineFailed(decision.error)))
    else ApplyDecision(cfg, k.(world := w), decision.value)
  }

  // ----- The lifecycle in words -----

  /** Nothing leaves a final state and nothing returns to `Created`; a new task can only
      be started or cancelled; a task that waits or is delegated can only resume or end
      without completing; anything else a running task may do. */
  lemma TransitionsInWords(from: TaskLifecycleState, to: TaskLifecycleState)
    ensures CanTransition(from, to) <==>
      && !IsTerminal(from) && !to.Created? && to != from
      && (from.Created? ==> to.Running? || to.Cancelled?)
      && (from.Waiting? || from.Delegated? ==> to.Running? || to.Failed? || to.Cancelled?)
  {
  }

  /** Stepping and observing leave any task where it is; every other operation leads
      from a task that may undergo it to the one state named for it. */
  lemma OperationsInWords(op: RuntimeOperation, s: TaskLifecycleState)
    ensures op.Step? || op.Observe? ==> TargetState(op, s) == s
    ensures TargetState(op, s).Cancelled? <==> op.Cancel? || ((op.Step? || op.Observe?) && s.Cancelled?)
    ensures TargetState(op, s).Waiting? <==> op.Wait? || ((op.Step? || op.Observe?) && s.Waiting?)
    ensures TargetState(op, s).Delegated? <==> op.Delegate? || ((op.Step? || op.Observe?) && s.Delegated?)
    ensures TargetState(op, s).Running? <==> op.Start? || ((op.Step? || op.Observe?) && s.Running?)
    ensures TargetState(op, s).Completed? <==> op.Complete? || ((op.Step? || op.Observe?) && s.Completed?)
    ensures TargetState(op, s).Failed? <==> op.Fail? || ((op.Step? || op.Observe?) && s.Failed?)
  {
  }

  // ----- What decides an operation -----

  // The operation is refused and leaves nothing but the hook's memory behind.
  ghost predicate Refused<W>(cfg: RuntimeConfig<W>, k: Kernel<W>, op: RuntimeOperation, k': Kernel<W>) {
    k'.env == k.env && k'.observed == k.observed && k'.world == cfg.preHook(k.world, k.env, op).0
  }

  // The operation takes effect: hooks, observers and the state store are told, in that order.
  ghost predicate TakesEffect<W>(
    cfg: RuntimeConfig<W>, k: Kernel<W>, op: RuntimeOperation, k': Kernel<W>, r: Outcome<RuntimeEvent>)
  {
    var from, to := k.env.state, TargetState(op, k.env.state);
    var event := RuntimeEvent(k.env.taskId, k.env.workerId, op, from, to);
    var told := cfg.postHook(cfg.preHook(k.world, k.env, op).0, k'.env, event);
    && k'.env == TaskEnvelope(k.env.taskId, k.env.workerId, k.env.tenant, to)
    && k'.observed == k.observed + [event]
    && match cfg.save {
         case None => k'.world == told && r == Ok(event)
         case Some(save) =>
           var (w, failure) := save(told, k'.env);
           k'.world == w && r == if failure.Some? then Err(SaveFailed(failure.value)) else Ok(event)
       }
  }

  /** The hook is asked first and has the last word: an operation is answered as blocked
      if and only if the hook blocks it, and illegal if and only if the hook lets through
      a transition that is not allowed; either way nothing happens. Any other operation
      takes effect. */
  lemma HookDecides<W>(cfg: RuntimeConfig<W>, k: Kernel<W>, op: RuntimeOperation)
    ensures var (k', r) := ApplyOperation(cfg, k, op);
      var (blocked, from, to) := (cfg.preHook(k.world, k.env, op).1, k.env.state, TargetState(op, k.env.state));
      && (blocked.Some? <==> r.Err? && r.error.Blocked?)
      && (blocked.Some? ==> r == Err(Blocked(blocked.value)))
      && (blocked.None? && from != to && !CanTransition(from, to) <==> r.Err? && r.error.IllegalTransition?)
      && (r.Err? && r.error.IllegalTransition? ==> r.error == IllegalTransition(op, from, to))
      && if r.Err? && !r.error.SaveFailed? then Refused(cfg, k, op, k') else TakesEffect(cfg, k, op, k', r)
  {
  }

  /** The i-th event of a log belongs to an operation that the hook, asked about it when
      the events before it had been observed, let through. */
  ghost predicate LetThrough<W(!new)>(cfg: RuntimeConfig<W>, log: seq<RuntimeEvent>, i: nat)
    requires i < |log|
  {
    exists k: Kernel<W> ::
      && k.observed == log[..i] && cfg.preHook(k.world, k.env, log[i].operation).1.None?
      && log[i] == RuntimeEvent(k.env.taskId, k.env.workerId, log[i].operation, k.env.state, log[i].to)
  }

  ghost predicate AllLetThrough<W(!new)>(cfg: RuntimeConfig<W>, before: seq<RuntimeEvent>, log: seq<RuntimeEvent>) {
    before <= log && forall i :: |before| <= i < |log| ==> LetThrough(cfg, log, i)
  }

  lemma LetThroughOn<W(!new)>(
    cfg: RuntimeConfig<W>, a: seq<RuntimeEvent>, b: seq<RuntimeEvent>, c: seq<RuntimeEvent>)
    requires AllLetThrough(cfg, a, b) && AllLetThrough(cfg, b, c)
    ensures AllLetThrough(cfg, a, c)
  {
    forall i | |a| <= i < |c| ensures LetThrough(cfg, c, i) {
      if i < |b| {
        assert LetThrough(cfg, b, i);
        assert b[..i] == c[..i] && b[i] == c[i];
      }
    }
  }

  lemma OperationLetThrough<W(!new)>(cfg: RuntimeConfig<W>, k: Kernel<W>, op: RuntimeOperation)
    ensures AllLetThrough(cfg, k.observed, ApplyOperation(cfg, k, op).0.observed)
  {
    var (k', r) := ApplyOperation(cfg, k, op);
    HookDecides(cfg, k, op);
    if k'.observed != k.observed {
      assert k'.observed[..|k.observed|] == k.observed;
      assert LetThrough(cfg, k'.observed, |k.observed|);
    }
  }

  lemma {:induction false} BatchLetThrough<W(!new)>(cfg: RuntimeConfig<W>, k: Kernel<W>, ops: seq<RuntimeOperation>)
    ensures AllLetThrough(cfg, k.observed, ApplyBatch(cfg, k, ops).0.observed)
    decreases |ops|
  {
    hide ApplyOperation;
    if ops != [] {
      OperationLetThrough(cfg, k, ops[0]);
      var (k1, first) := ApplyOperation(cfg, k, ops[0]);
      if first.Ok? {
        BatchLetThrough(cfg, k1, ops[1..]);
        LetThroughOn(cfg, k.observed, k1.observed, ApplyBatch(cfg, k1, ops[1..]).0.observed);
      }
    }
  }

  lemma TickLetThrough<W(!new)>(cfg: RuntimeConfig<W>, k: Kernel<W>)
    ensures AllLetThrough(cfg, k.observed, Tick(cfg, k).0.observed)
  {
    hide ApplyOperation, ApplyBatch, LetThrough;
    var (w, decision) := cfg.decide(k.world, k.env);
    if decision.Ok? {
      match decision.value
      case Noop =>
      case Operation(op) => OperationLetThrough(cfg, k.(world := w), op);
      case Batch(ops) => BatchLetThrough(cfg, k.(world := w), ops);
    }
  }

  // ----- The observer log is a path through the lifecycle -----

  ghost predicate Mediated(e: RuntimeEvent) {
    e.to == TargetState(e.operation, e.from) && (e.from == e.to || CanTransition(e.from, e.to))
  }

  /** The log leads from `start` to `now`, every edge a self-loop or a legal transition. */
  ghost predicate ConnectedPath(start: TaskLifecycleState, log: seq<RuntimeEvent>, now: TaskLifecycleState) {
    && (forall i :: 0 <= i < |log| ==> Mediated(log[i]))
    && (forall i :: 0 <= i < |log| - 1 ==> log[i].to == log[i + 1].from)
    && (if log == [] then start == now else log[0].from == start && log[|log| - 1].to == now)
  }

  ghost predicate OnPath<W>(start: TaskLifecycleState, k: Kernel<W>) {
    ConnectedPath(start, k.observed, k.env.state)
  }

  lemma OperationKeepsPath<W>(cfg: RuntimeConfig<W>, k: Kernel<W>, op: RuntimeOperation, start: TaskLifecycleState)
    requires OnPath(start, k)
    ensures OnPath(start, ApplyOperation(cfg, k, op).0)
  {
  }

  lemma {:induction false} BatchKeepsPath<W>(
    cfg: RuntimeConfig<W>, k: Kernel<W>, ops: seq<RuntimeOperation>, start: TaskLifecycleState)
    requires OnPath(start, k)
    ensures OnPath(start, ApplyBatch(cfg, k, ops).0)
    decreases |ops|
  {
    if ops != [] {
      OperationKeepsPath(cfg, k, ops[0], start);
      BatchKeepsPath(cfg, ApplyOperation(cfg, k, ops[0]).0, ops[1..], start);
    }
  }

  lemma TickKeepsPath<W>(cfg: RuntimeConfig<W>, k: Kernel<W>, start: TaskLifecycleState)
    requires OnPath(start, k)
    ensures OnPath(start, Tick(cfg, k).0)
  {
    var (w, decision) := cfg.decide(k.world, k.env);
    if decision.Ok? {
      match decision.value
      case Noop =>
      case Operation(op) => OperationKeepsPath(cfg, k.(world := w), op, start);
      case Batch(ops) => BatchKeepsPath(cfg, k.(world := w), ops, start);
    }
  }

  // A host drives the runtime with operations and engine ticks, failed ones included.
  datatype Command = Apply(op: RuntimeOperation) | TickOnce

  function Drive<W>(cfg: RuntimeConfig<W>, k: Kernel<W>, commands: seq<Command>): Kernel<W>
    decreases |commands|
  {
    if commands == [] then k
    else
      var next := if commands[0].TickOnce? then Tick(cfg, k).0 else ApplyOperation(cfg, k, commands[0].op).0;
      Drive(cfg, next, commands[1..])
  }

  /** However a fresh runtime is driven, its observers see one connected path. */
  lemma {:induction false} DrivenOnPath<W>(
    cfg: RuntimeConfig<W>, k: Kernel<W>, commands: seq<Command>, start: TaskLifecycleState)
    requires OnPath(start, k)
    ensures OnPath(start, Drive(cfg, k, commands))
    decreases |commands|
  {
    if commands != [] {
      if commands[0].TickOnce? {
        TickKeepsPath(cfg, k, start);
        DrivenOnPath(cfg, Tick(cfg, k).0, commands[1..], start);
      } else {
        OperationKeepsPath(cfg, k, commands[0].op, start);
        DrivenOnPath(cfg, ApplyOperation(cfg, k, commands[0].op).0, commands[1..], start);
      }
    }
  }

  /** However a runtime is driven, observers see only what the hook let through. */
  lemma {:induction false} DrivenLetThrough<W(!new)>(cfg: RuntimeConfig<W>, k: Kernel<W>, commands: seq<Command>)
    ensures AllLetThrough(cfg, k.observed, Drive(cfg, k, commands).observed)
    decreases |commands|
  {
    hide ApplyOperation, Tick, LetThrough;
    if commands != [] {
      var next := if commands[0].TickOnce? then Tick(cfg, k).0 else ApplyOperation(cfg, k, commands[0].op).0;
      if commands[0].TickOnce? { TickLetThrough(cfg, k); } else { OperationLetThrough(cfg, k, commands[0].op); }
      DrivenLetThrough(cfg, next, commands[1..]);
      LetThroughOn(cfg, k.observed, next.observed, Drive(cfg, next, commands[1..]).observed);
    }
  }

  /** Once an observer has seen a final state, the state never changes again. */
  lemma {:induction false} FinalStatesAbsorb(
    start: TaskLifecycleState, log: seq<RuntimeEvent>, now: TaskLifecycleState, i: nat, j: nat)
    requires ConnectedPath(start, log, now) && i <= j < |log| && IsTerminal(log[i].to)
    ensures log[j].to == log[i].to
    ensures log[|log| - 1].to == now
  {
    if i < j { FinalStatesAbsorb(start, log, now, i, j - 1); }
  }

  // ----- A failing batch leaves its applied prefix -----

  function StateAfter(s: TaskLifecycleState, ops: seq<RuntimeOperation>): TaskLifecycleState
    decreases |ops|
  {
    if ops == [] then s else StateAfter(TargetState(ops[0], s), ops[1..])
  }

  /** `n` operations of `ops` took effect between `before` and `after`, in order. */
  ghost predicate AppliedPrefix<W>(before: Kernel<W>, after: Kernel<W>, ops: seq<RuntimeOperation>, n: nat) {
    && n <= |ops|
    && |after.observed| == |before.observed| + n
    && before.observed <= after.observed
    && (forall i :: 0 <= i < n ==> after.observed[|before.observed| + i].operation == ops[i])
    && after.env == before.env.(state := StateAfter(before.env.state, ops[..n]))
  }

  lemma PrefixGrows<W>(k: Kernel<W>, k1: Kernel<W>, k': Kernel<W>, ops: seq<RuntimeOperation>, n: nat)
    requires ops != [] && AppliedPrefix(k, k1, ops, 1) && AppliedPrefix(k1, k', ops[1..], n)
    ensures AppliedPrefix(k, k', ops, n + 1)
  {
    var s := k.env.state;
    assert StateAfter(s, ops[..1]) == TargetState(ops[0], s) by {
      assert ops[..1] == [ops[0]] && [ops[0]][1..] == [];
    }
    assert ops[..n + 1] == [ops[0]] + ops[1..][..n];
    assert StateAfter(s, ops[..n + 1]) == StateAfter(TargetState(ops[0], s), ops[1..][..n]) by {
      assert ops[..n + 1][1..] == ops[1..][..n];
    }
    forall i | 0 <= i < n + 1 ensures k'.observed[|k.observed| + i].operation == ops[i] {
      if i == 0 {
        assert k'.observed[|k.observed|] == k1.observed[|k.observed|];
      } else {
        assert k'.observed[|k1.observed| + (i - 1)].operation == ops[1..][i - 1];
      }
    }
  }

  // What one operation leaves behind, by how it ended.
  lemma OperationEffect<W>(cfg: RuntimeConfig<W>, k: Kernel<W>, ops: seq<RuntimeOperation>)
    requires ops != []
    ensures var (k1, r) := ApplyOperation(cfg, k, ops[0]);
      var applied := r.Ok? || r.error.SaveFailed?;
      && AppliedPrefix(k, k1, ops, if applied then 1 else 0)
      && (r.Ok? ==> k1.observed[|k.observed|..] == [r.value])
      && (applied ==>
            k1.observed[|k.observed|] ==
                RuntimeEvent(k.env.taskId, k.env.workerId, ops[0], k.env.state, TargetState(ops[0], k.env.state)))
      && (r.Err? && r.error.IllegalTransition? ==>
          r.error == IllegalTransition(ops[0], k.env.state, TargetState(ops[0], k.env.state)))
      && (r.Err? ==> !r.error.EngineFailed?)
  {
    assert ops[..1][1..] == [] && ops[..0] == [];
  }

  // What a batch leaves behind, `n` of its operations having taken effect.
  ghost predicate BatchEffect<W>(
    k: Kernel<W>, k': Kernel<W>, ops: seq<RuntimeOperation>, r: Outcome<seq<RuntimeEvent>>, n: nat)
  {
    && AppliedPrefix(k, k', ops, n)
    && (r.Ok? ==> n == |ops| && r.value == k'.observed[|k.observed|..])
    && (r.Err? ==> if r.error.SaveFailed? then n >= 1 else n < |ops|)
    && (r.Err? && r.error.IllegalTransition? ==>
          r.error == IllegalTransition(ops[n], k'.env.state, TargetState(ops[n], k'.env.state)))
    && (r.Err? ==> !r.error.EngineFailed?)
  }

  // The hook, asked about the operation, blocked it and left this memory.
  ghost predicate BlockedHere<W(!new)>(
    cfg: RuntimeConfig<W>, env: TaskEnvelope, op: RuntimeOperation, reason: string, after: W)
  {
    exists w :: cfg.preHook(w, env, op).0 == after && cfg.preHook(w, env, op).1 == Some(reason)
  }

  /** A batch that is blocked stops where the hook, asked about the next operation in the
      state reached, blocked it. */
  lemma {:induction false} BatchStopsWhereBlocked<W(!new)>(
    cfg: RuntimeConfig<W>, k: Kernel<W>, ops: seq<RuntimeOperation>)
    ensures var (k', r) := ApplyBatch(cfg, k, ops);
      var n := |k'.observed| - |k.observed|;
      r.Err? && r.error.Blocked? ==> 0 <= n < |ops| && BlockedHere(cfg, k'.env, ops[n], r.error.reason, k'.world)
    decreases |ops|
  {
    hide ApplyOperation, BlockedHere;
    if ops != [] {
      OperationBlocked(cfg, k, ops[0]);
      var (k1, first) := ApplyOperation(cfg, k, ops[0]);
      if first.Ok? {
        BatchStopsWhereBlocked(cfg, k1, ops[1..]);
      }
    }
  }

  lemma OperationBlocked<W(!new)>(cfg: RuntimeConfig<W>, k: Kernel<W>, op: RuntimeOperation)
    ensures var (k', r) := ApplyOperation(cfg, k, op);
      && (r.Ok? ==> |k'.observed| == |k.observed| + 1)
      && (r.Err? && r.error.Blocked? ==>
            k'.observed == k.observed && BlockedHere(cfg, k'.env, op, r.error.reason, k'.world))
  {
    HookDecides(cfg, k, op);
  }

  /** A batch applies operations up to the first that fails. The failing one has
      no effect unless only saving it failed: then it took effect and stays. */
  lemma {:induction false} BatchAppliesPrefix<W>(cfg: RuntimeConfig<W>, k: Kernel<W>, ops: seq<RuntimeOperation>)
    ensures var (k', r) := ApplyBatch(cfg, k, ops);
      |k'.observed| >= |k.observed| && BatchEffect(k, k', ops, r, |k'.observed| - |k.observed|)
    decreases |ops|
  {
    hide ApplyOperation;
    if ops != [] {
      OperationEffect(cfg, k, ops);
      var (k1, first) := ApplyOperation(cfg, k, ops[0]);
      if first.Ok? {
        BatchAppliesPrefix(cfg, k1, ops[1..]);
        var (k', r) := ApplyBatch(cfg, k1, ops[1..]);
        PrefixGrows(k, k1, k', ops, |k'.observed| - |k1.observed|);
        assert k'.observed[|k.observed|..] == k1.observed[|k.observed|..] + k'.observed[|k1.observed|..];
      }
    }
  }

  // The operations an engine's decision asks for.
  function Decided(d: EngineDecision): seq<RuntimeOperation> {
    match d
    case Noop => []
    case Operation(op) => [op]
    case Batch(ops) => ops
  }

  /** A tick asks the engine once and applies exactly what it decided, as a batch. */
  lemma TickAppliesDecision<W>(cfg: RuntimeConfig<W>, k: Kernel<W>)
    ensures var ((w, decision), (k', r)) := (cfg.decide(k.world, k.env), Tick(cfg, k));
      match decision
      case Err(e) => k' == k.(world := w) && r == Err(EngineFailed(e))
      case Ok(d) =>
        && (Decided(d) == [] ==> k' == k.(world := w))
        && |k'.observed| >= |k.observed|
        && BatchEffect(k.(world := w), k', Decided(d), r, |k'.observed| - |k.observed|)
  {
    hide ApplyOperation;
    var (w, decision) := cfg.decide(k.world, k.env);
    if decision.Ok? {
      match decision.value
      case Noop => BatchAppliesPrefix(cfg, k.(world := w), []);
      case Operation(op) =>
        BatchAppliesPrefix(cfg, k.(world := w), [op]);
        assert [op][1..] == [];
      case Batch(ops) => BatchAppliesPrefix(cfg, k.(world := w), ops);
    }
  }

  // ----- The state store follows the envelope -----

  /** How to read the stored state out of a host's memory: a save that succeeds stores
      the envelope, and nothing else touches it. */
  ghost predicate StoresState<W(!new)>(cfg: RuntimeConfig<W>, stored: W -> Option<TaskEnvelope>) {
    && (forall w, env :: stored(cfg.decide(w, env).0) == stored(w))
    && (forall w, env, op :: stored(cfg.preHook(w, env, op).0) == stored(w))
    && (forall w, env, e :: stored(cfg.postHook(w, env, e)) == stored(w))
    && cfg.save.Some?
    && (forall w, env :: var (w', failure) := cfg.save.value(w, env);
          stored(w') == if failure.None? then Some(env) else stored(w))
  }

  /** An operation that succeeds leaves the store holding the new envelope; one that
      fails, whatever the reason, leaves the store as it was. */
  lemma StoreFollows<W(!new)>(
    cfg: RuntimeConfig<W>, stored: W -> Option<TaskEnvelope>, k: Kernel<W>, op: RuntimeOperation)
    requires StoresState(cfg, stored)
    ensures var (k', r) := ApplyOperation(cfg, k, op);
      stored(k'.world) == if r.Ok? then Some(k'.env) else stored(k.world)
  {
    var (w, blocked) := cfg.preHook(k.world, k.env, op);
    assert stored(w) == stored(k.world);
    var env := k.env.(state := TargetState(op, k.env.state));
    var w1 := cfg.postHook(w, env, RuntimeEvent(env.taskId, env.workerId, op, k.env.state, env.state));
    assert stored(w1) == stored(w);
    var (w2, failure) := cfg.save.value(w1, env);
    assert stored(w2) == if failure.None? then Some(env) else stored(w1);
  }

  /** After a batch the store holds the envelope as of the last operation that was
      saved: the final one, unless the batch failed in saving. */
  lemma {:induction false} StoreFollowsBatch<W(!new)>(
    cfg: RuntimeConfig<W>, stored: W -> Option<TaskEnvelope>, k: Kernel<W>, ops: seq<RuntimeOperation>)
    requires StoresState(cfg, stored) && stored(k.world) == Some(k.env)
    ensures var (k', r) := ApplyBatch(cfg, k, ops);
      r.Ok? || !r.error.SaveFailed? ==> stored(k'.world) == Some(k'.env)
    decreases |ops|
  {
    if ops != [] {
      StoreFollows(cfg, stored, k, ops[0]);
      var (k1, first) := ApplyOperation(cfg, k, ops[0]);
      if first.Ok? { StoreFollowsBatch(cfg, stored, k1, ops[1..]); }
    }
  }

  // ----- The runtime as the program runs it -----

  /** Owns an envelope and mediates every change to it. */
  class DwRuntime<W> {
    const cfg: RuntimeConfig<W>
    var env: TaskEnvelope
    var observed: seq<RuntimeEvent>
    var world: W

    constructor (cfg: RuntimeConfig<W>, env: TaskEnvelope, world: W)
      ensures this.cfg == cfg && State() == Kernel(env, [], world)
    {
      this.cfg, this.env, this.observed, this.world := cfg, env, [], world;
    }

    ghost function State(): Kernel<W>
      reads this
    {
      Kernel(env, observed, world)
    }

    method Apply(op: RuntimeOperation) returns (r: Outcome<RuntimeEvent>)
      modifies this
      ensures (State(), r) == ApplyOperation(cfg, old(State()), op)
    {
      var (w, blocked) := cfg.preHook(world, env, op);
      world := w;
      if blocked.Some? {
        return Err(Blocked(blocked.value));
      }
      var from := env.state;
      var to := TargetState(op, from);
      if from != to && !CanTransition(from, to) {
        return Err(IllegalTransition(op, from, to));
      }
      env := env.(state := to);
      var event := RuntimeEvent(env.taskId, env.workerId, op, from, to);
      world := cfg.postHook(world, env, event);
      observed := observed + [event];
      if cfg.save.Some? {
        var (saved, failure) := cfg.save.value(world, env);
        world := saved;
        if failure.Some? {
          return Err(SaveFailed(failure.value));
        }
      }
      return Ok(event);
    }

    method ApplyAll(ops: seq<RuntimeOperation>) returns (r: Outcome<seq<RuntimeEvent>>)
      modifies this
      ensures (State(), r) == ApplyBatch(cfg, old(State()), ops)
    {
      var events: seq<RuntimeEvent> := [];
      assert ops[0..] == ops && forall es: seq<RuntimeEvent> :: events + es == es;
      for i := 0 to |ops|
        invariant ApplyBatch(cfg, old(State()), ops) ==
          var (k, rest) := ApplyBatch(cfg, State(), ops[i..]);
          (k, if rest.Err? then Err(rest.error) else Ok(events + rest.value))
      {
        assert ops[i..][1..] == ops[i + 1..];
        var applied := Apply(ops[i]);
        if applied.Err? {
          return Err(applied.error);
        }
        events := events + [applied.value];
        assert forall es: seq<RuntimeEvent> :: events + es == events[..|events| - 1] + ([applied.value] + es);
      }
      assert ops[|ops|..] == [] && events + [] == events;
      return Ok(events);
    }

    method TickEngine() returns (r: Outcome<seq<RuntimeEvent>>)
      modifies this
      ensures (State(), r) == Tick(cfg, old(State()))
    {
      var (w, decision) := cfg.decide(world, env);
      world := w;
      if decision.Err? {
        return Err(EngineFailed(decision.error));
      }
      match decision.value
      case Noop => return Ok([]);
      case Operation(op) =>
        var applied := Apply(op);
        return if applied.Err? then Err(applied.error) else Ok([applied.value]);
      case Batch(ops) =>
        r := ApplyAll(ops);
    }
  }
}
