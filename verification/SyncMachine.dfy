/**
The mutex wrapper around a machine (backend/utils/FSM.go), as a state machine over the
steps of its callers. Any number of threads call Send and the read-only methods; a Send
runs hook by hook while it holds the exclusive lock, so other threads may be scheduled
between any two hooks, and Can may run guard by guard among other readers. Hooks do not
call back into the wrapper.
*/
module SyncMachine {
  import opened Wrappers
  import opened Fsm
  import opened FsmLaws

  type Tid = nat

  datatype Op<E> =
    | CallSend(env: Envelope<E>)
    | CallState
    | CallIsTerminal
    | CallCan(event: E, env: Envelope<E>)
    | CallHistory

  datatype Answer<S, E> =
    | SendAnswer(error: Option<SendError<S, E>>)
    | StateAnswer(state: S)
    | BoolAnswer(value: bool)
    | HistoryAnswer(history: seq<Record<S, E>>)

  /** The serial meaning of one call. */
  function Perform<C, S(==), E(==)>(def: Definition<C, S, E>, m: MachineState<C, S, E>, op: Op<E>)
    : (MachineState<C, S, E>, Answer<S, E>)
  {
    match op
    case CallSend(env) => var r := Dispatch(def, m, env); (r.state, SendAnswer(r.error))
    case CallState => (m, StateAnswer(m.current))
    case CallIsTerminal => (m, BoolAnswer(IsTerminal(def, m.current)))
    case CallCan(event, env) => var r := Probed(def, m, event, env); (m.(obj := r.0), BoolAnswer(r.1))
    case CallHistory => (m, HistoryAnswer(m.history))
  }

  // ---------------------------------------------------------------------------
  // Send, one hook at a time
  // ---------------------------------------------------------------------------

  /** Where a Send that holds the lock has got to. */
  datatype Work<!C, !S, !E> =
    | Entering
    | Aborting(steps: seq<Step<C, S, E>>, t: Transition<C, S, E>, record: Record<S, E>)
    | Settling(hooks: seq<HookFunc<C, S, E>>, record: Record<S, E>)
    | Recording(record: Record<S, E>)
    | Observing(observers: seq<ObserverFunc<C, S, E>>, record: Record<S, E>)
    | Leaving(error: Option<SendError<S, E>>, clear: bool)

  function PostHooks<C, S(==), E(==)>(def: Definition<C, S, E>, t: Transition<C, S, E>): seq<HookFunc<C, S, E>> {
    OnEntry(def, t.to) + (t.afterExit + t.afterEnter)
  }

  /** One step of a Send; each runs at most one hook. */
  function Advance<C, S(==), E(==)>(
      def: Definition<C, S, E>, m: MachineState<C, S, E>, env: Envelope<E>, w: Work<C, S, E>)
    : (MachineState<C, S, E>, Work<C, S, E>)
  {
    match w
    case Entering =>
      if m.inFlight then (m, Leaving(Some(ConcurrentTransition), false))
      else
        var entered := m.(inFlight := true);
        if IsTerminal(def, m.current) then (entered, Leaving(Some(TerminalState), true))
        else if (m.current, env.event) !in def.index then
          (entered, Leaving(Some(InvalidTransition(m.current, env.event)), true))
        else
          var t := def.index[(m.current, env.event)];
          (entered, Aborting(PipelineSteps(def, t, m.current), t, RecordFor(m, t, env)))
    case Aborting(steps, t, record) =>
      if steps == [] then
        (m.(current := t.to, seqNo := m.seqNo + 1), Settling(PostHooks(def, t), record))
      else
        var out := RunStep(steps[0], m.obj, record);
        var written := m.(obj := out.obj);
        (match out.failure
         case Some(cause) =>
           (written, Leaving(Some(TransitionFailed(record.from, t.to, env.event, steps[0].phase, cause)), true))
         case None => (written, Aborting(steps[1..], t, record)))
    case Settling(hooks, record) =>
      if hooks == [] then (m, Recording(record))
      else (m.(obj := hooks[0](m.obj, record).obj), Settling(hooks[1..], record))
    case Recording(record) =>
      (m.(history := Appended(def.capacity, m.history, record)), Observing(def.observers, record))
    case Observing(observers, record) =>
      if observers == [] then (m, Leaving(None, true))
      else (m.(obj := observers[0](m.obj, record)), Observing(observers[1..], record))
    case Leaving(_, _) => (m, w)
  }

  /** Releasing the lock; the in-flight flag goes down unless this Send never raised it. */
  function Departed<C, S, E>(m: MachineState<C, S, E>, clear: bool): MachineState<C, S, E> {
    if clear then m.(inFlight := false) else m
  }

  /** What the Send will have done once it has left, if nobody else writes to the machine. */
  ghost function Finish<C, S, E>(
      def: Definition<C, S, E>, m: MachineState<C, S, E>, env: Envelope<E>, w: Work<C, S, E>)
    : SendResult<C, S, E>
  {
    match w
    case Entering => Dispatch(def, m, env)
    case Aborting(steps, t, record) =>
      (match RunPipeline(steps, m.obj, record)
       case Aborted(obj, phase, cause) =>
         SendResult(m.(obj := obj, inFlight := false),
                    Some(TransitionFailed(record.from, t.to, env.event, phase, cause)))
       case Passed(obj) =>
         var committed := m.(current := t.to, seqNo := m.seqNo + 1, obj := obj);
         SendResult(Settled(def, committed, PostHooks(def, t), record), None))
    case Settling(hooks, record) => SendResult(Settled(def, m, hooks, record), None)
    case Recording(record) => SendResult(Settled(def, m, [], record), None)
    case Observing(observers, record) =>
      SendResult(m.(obj := RunObservers(observers, m.obj, record), inFlight := false), None)
    case Leaving(error, clear) => SendResult(Departed(m, clear), error)
  }

  ghost function Settled<C, S, E>(
      def: Definition<C, S, E>, m: MachineState<C, S, E>, hooks: seq<HookFunc<C, S, E>>, record: Record<S, E>)
    : MachineState<C, S, E>
  {
    m.(obj := RunObservers(def.observers, RunHooks(hooks, m.obj, record), record),
       history := Appended(def.capacity, m.history, record), inFlight := false)
  }

  lemma {:induction false} RunHooksConcat<C, S, E>(
      a: seq<HookFunc<C, S, E>>, b: seq<HookFunc<C, S, E>>, obj: C, record: Record<S, E>)
    ensures RunHooks(a + b, obj, record) == RunHooks(b, RunHooks(a, obj, record), record)
  {
    if a == [] {
      assert a + b == b;
    } else {
      assert (a + b)[1..] == a[1..] + b;
      RunHooksConcat(a[1..], b, a[0](obj, record).obj, record);
    }
  }

  /** The four lists of hooks behind the commit point run as the one list of the hook-by-hook Send. */
  lemma PostHooksInOrder<C, S, E>(
      def: Definition<C, S, E>, t: Transition<C, S, E>, obj: C, record: Record<S, E>)
    ensures RunHooks(PostHooks(def, t), obj, record) ==
            RunHooks(t.afterEnter, RunHooks(t.afterExit, RunHooks(OnEntry(def, t.to), obj, record), record), record)
  {
    RunHooksConcat(OnEntry(def, t.to), t.afterExit + t.afterEnter, obj, record);
    RunHooksConcat(t.afterExit, t.afterEnter, RunHooks(OnEntry(def, t.to), obj, record), record);
  }

  lemma EnteringKeepsFinish<C, S, E>(def: Definition<C, S, E>, m: MachineState<C, S, E>, env: Envelope<E>)
    ensures var (m', w') := Advance(def, m, env, Entering); Finish(def, m', env, w') == Dispatch(def, m, env)
  {
    if !m.inFlight && !IsTerminal(def, m.current) && (m.current, env.event) in def.index {
      var t := def.index[(m.current, env.event)];
      var record := RecordFor(m, t, env);
      var r := RunPipeline(PipelineSteps(def, t, m.current), m.obj, record);
      PostHooksInOrder(def, t, r.obj, record);
    }
  }

  /** Small steps and the big step agree: one step does not change where the Send will end. */
  lemma AdvanceKeepsFinish<C, S, E>(
      def: Definition<C, S, E>, m: MachineState<C, S, E>, env: Envelope<E>, w: Work<C, S, E>)
    ensures var (m', w') := Advance(def, m, env, w); Finish(def, m', env, w') == Finish(def, m, env, w)
  {
    if w.Entering? {
      EnteringKeepsFinish(def, m, env);
    }
  }

  // ---------------------------------------------------------------------------
  // The threads
  // ---------------------------------------------------------------------------

  /** One call that has taken effect. */
  datatype Entry<S, E> = Entry(tid: Tid, op: Op<E>, answer: Answer<S, E>)

  /** Where a thread is in its call; `slot` is the place of the call among those that have taken effect. */
  datatype Pc<!C, !S, !E> =
    | Idle
    | Waiting(op: Op<E>)
    | Sending(env: Envelope<E>, work: Work<C, S, E>)
    | Reading(op: Op<E>)
    | Probing(event: E, env: Envelope<E>, steps: seq<Step<C, S, E>>, record: Record<S, E>)
    | ReadDone(op: Op<E>, slot: nat)
    | Returning(op: Op<E>, slot: nat)

  /** The call that a thread has under way. */
  function CallOf<C, S, E>(pc: Pc<C, S, E>): Op<E>
    requires !pc.Idle?
  {
    match pc
    case Waiting(op) => op
    case Sending(env, _) => CallSend(env)
    case Reading(op) => op
    case Probing(event, env, _, _) => CallCan(event, env)
    case ReadDone(op, _) => op
    case Returning(op, _) => op
  }

  /** `calls` is a history variable: the order in which calls took effect. */
  datatype Sys<!C, !S, !E> = Sys(
    machine: MachineState<C, S, E>, writer: Option<Tid>, readers: set<Tid>,
    threads: map<Tid, Pc<C, S, E>>, calls: seq<Entry<S, E>>)

  function PcOf<C, S, E>(sys: Sys<C, S, E>, t: Tid): Pc<C, S, E> {
    if t in sys.threads then sys.threads[t] else Idle
  }

  datatype Action<E> =
    | Invoke(tid: Tid, op: Op<E>)
    | Lock(tid: Tid)
    | Work(tid: Tid)
    | Unlock(tid: Tid)
    | RLock(tid: Tid)
    | Read(tid: Tid)
    | Probe(tid: Tid)
    | RUnlock(tid: Tid)
    | Return(tid: Tid)

  predicate Enabled<C, S, E>(sys: Sys<C, S, E>, a: Action<E>) {
    var pc := PcOf(sys, a.tid);
    match a
    case Invoke(_, _) => pc.Idle?
    case Lock(_) => pc.Waiting? && pc.op.CallSend? && sys.writer.None? && sys.readers == {}
    case Work(_) => pc.Sending? && !pc.work.Leaving?
    case Unlock(_) => pc.Sending? && pc.work.Leaving?
    case RLock(_) => pc.Waiting? && !pc.op.CallSend? && sys.writer.None?
    case Read(_) => pc.Reading?
    case Probe(_) => pc.Probing? || (pc.Reading? && pc.op.CallCan?)
    case RUnlock(_) => pc.ReadDone?
    case Return(_) => pc.Returning?
  }

  /** A reader takes effect with this answer. */
  function Answered<C, S, E>(sys: Sys<C, S, E>, t: Tid, op: Op<E>, answer: Answer<S, E>): Sys<C, S, E> {
    sys.(threads := sys.threads[t := ReadDone(op, |sys.calls|)], calls := sys.calls + [Entry(t, op, answer)])
  }

  /** One step of a Can that runs its guards one by one: the lookup, a guard, or the verdict after the last. */
  function ProbeNext<C, S(==), E(==)>(def: Definition<C, S, E>, sys: Sys<C, S, E>, t: Tid): Sys<C, S, E>
    requires Enabled(sys, Probe(t))
  {
    var m := sys.machine;
    match PcOf(sys, t)
    case Reading(CallCan(event, env)) =>
      if IsTerminal(def, m.current) || (m.current, event) !in def.index then
        Answered(sys, t, CallCan(event, env), BoolAnswer(false))
      else
        var edge := def.index[(m.current, event)];
        sys.(threads := sys.threads[t := Probing(event, env, GuardSteps(def, edge), RecordFor(m, edge, env))])
    case Probing(event, env, steps, record) =>
      if steps == [] then Answered(sys, t, CallCan(event, env), BoolAnswer(true))
      else
        var out := RunStep(steps[0], m.obj, record);
        var written := sys.(machine := m.(obj := out.obj));
        if out.failure.Some? then Answered(written, t, CallCan(event, env), BoolAnswer(false))
        else written.(threads := sys.threads[t := Probing(event, env, steps[1..], record)])
  }

  function Next<C, S(==), E(==)>(def: Definition<C, S, E>, sys: Sys<C, S, E>, a: Action<E>): Sys<C, S, E>
    requires Enabled(sys, a)
  {
    var t := a.tid;
    var pc := PcOf(sys, t);
    match a
    case Invoke(_, op) => sys.(threads := sys.threads[t := Waiting(op)])
    case Lock(_) => sys.(writer := Some(t), threads := sys.threads[t := Sending(pc.op.env, Entering)])
    case Work(_) =>
      var (m, w) := Advance(def, sys.machine, pc.env, pc.work);
      sys.(machine := m, threads := sys.threads[t := Sending(pc.env, w)])
    case Unlock(_) =>
      sys.(machine := Departed(sys.machine, pc.work.clear), writer := None,
           threads := sys.threads[t := Returning(CallSend(pc.env), |sys.calls|)],
           calls := sys.calls + [Entry(t, CallSend(pc.env), SendAnswer(pc.work.error))])
    case RLock(_) => sys.(readers := sys.readers + {t}, threads := sys.threads[t := Reading(pc.op)])
    case Read(_) =>
      var (m, answer) := Perform(def, sys.machine, pc.op);
      Answered(sys.(machine := m), t, pc.op, answer)
    case Probe(_) => ProbeNext(def, sys, t)
    case RUnlock(_) => sys.(readers := sys.readers - {t}, threads := sys.threads[t := Returning(pc.op, pc.slot)])
    case Return(_) => sys.(threads := sys.threads[t := Idle])
  }

  function Init<C, S, E>(m: MachineState<C, S, E>): Sys<C, S, E> {
    Sys(m, None, {}, map[], [])
  }

  // ---------------------------------------------------------------------------
  // Linearizability
  // ---------------------------------------------------------------------------

  /** The machine after the calls ran one at a time in this order. */
  ghost function Serial<C, S, E>(def: Definition<C, S, E>, m: MachineState<C, S, E>, calls: seq<Entry<S, E>>)
    : MachineState<C, S, E>
  {
    if calls == [] then m
    else Perform(def, Serial(def, m, calls[..|calls| - 1]), calls[|calls| - 1].op).0
  }

  /** Every answer is the one the serial execution gives at that point. */
  ghost predicate SerialAnswers<C, S, E>(
      def: Definition<C, S, E>, m: MachineState<C, S, E>, calls: seq<Entry<S, E>>)
  {
    forall i :: 0 <= i < |calls| ==>
      calls[i].answer == Perform(def, Serial(def, m, calls[..i]), calls[i].op).1
  }

  ghost predicate LockInv<C, S, E>(sys: Sys<C, S, E>) {
    && (sys.writer.Some? ==> sys.readers == {} && PcOf(sys, sys.writer.value).Sending?)
    && (forall t: Tid :: PcOf(sys, t).Sending? ==> sys.writer == Some(t))
    && (forall t: Tid :: t in sys.readers <==> PcOf(sys, t).Reading? || PcOf(sys, t).Probing? || PcOf(sys, t).ReadDone?)
    && (forall t: Tid :: PcOf(sys, t).Sending? && PcOf(sys, t).work.Leaving? ==> PcOf(sys, t).work.clear)
    && (forall t: Tid :: PcOf(sys, t).Reading? ==> !PcOf(sys, t).op.CallSend?)
  }

  ghost predicate MachineInv<C, S, E>(def: Definition<C, S, E>, m0: MachineState<C, S, E>, sys: Sys<C, S, E>)
    requires LockInv(sys)
  {
    var base := Serial(def, m0, sys.calls);
    && !base.inFlight
    && match sys.writer
       case None => sys.machine == base
       case Some(t) =>
         var pc := PcOf(sys, t);
         && (pc.work.Entering? ==> sys.machine == base)
         && Finish(def, sys.machine, pc.env, pc.work) == Dispatch(def, base, pc.env)
  }

  /** A thread whose call has taken effect finds it, as it made it, at its place. */
  ghost predicate SlotInv<C, S, E>(sys: Sys<C, S, E>) {
    forall t: Tid ::
      var pc := PcOf(sys, t);
      pc.ReadDone? || pc.Returning? ==>
        pc.slot < |sys.calls| && sys.calls[pc.slot].tid == t && sys.calls[pc.slot].op == pc.op
  }

  /** The guards a Can has still to run only look, and decide what the whole Can would answer now. */
  ghost predicate Probes<C(!new), S(!new), E(!new)>(
      def: Definition<C, S, E>, m: MachineState<C, S, E>, pc: Pc<C, S, E>)
    requires pc.Probing?
  {
    && (forall step :: step in pc.steps ==> Pure(step))
    && (RunPipeline(pc.steps, m.obj, pc.record).Passed? <==> Probed(def, m, pc.event, pc.env).1)
  }

  ghost predicate ProbeInv<C(!new), S(!new), E(!new)>(def: Definition<C, S, E>, sys: Sys<C, S, E>) {
    forall t: Tid :: PcOf(sys, t).Probing? ==> PureGuards(def) && Probes(def, sys.machine, PcOf(sys, t))
  }

  ghost predicate Inv<C(!new), S(!new), E(!new)>(
      def: Definition<C, S, E>, m0: MachineState<C, S, E>, sys: Sys<C, S, E>)
  {
    && LockInv(sys) && MachineInv(def, m0, sys) && SerialAnswers(def, m0, sys.calls)
    && SlotInv(sys) && ProbeInv(def, sys)
  }

  lemma SerialAppend<C, S, E>(
      def: Definition<C, S, E>, m: MachineState<C, S, E>, calls: seq<Entry<S, E>>, e: Entry<S, E>)
    ensures Serial(def, m, calls + [e]) == Perform(def, Serial(def, m, calls), e.op).0
    ensures SerialAnswers(def, m, calls) && e.answer == Perform(def, Serial(def, m, calls), e.op).1 ==>
              SerialAnswers(def, m, calls + [e])
  {
    var all := calls + [e];
    assert all[..|all| - 1] == calls;
    if SerialAnswers(def, m, calls) && e.answer == Perform(def, Serial(def, m, calls), e.op).1 {
      forall i | 0 <= i < |all| ensures all[i].answer == Perform(def, Serial(def, m, all[..i]), all[i].op).1 {
        assert i < |calls| ==> all[..i] == calls[..i];
      }
    }
  }

  lemma LockStep<C, S, E>(def: Definition<C, S, E>, sys: Sys<C, S, E>, a: Action<E>)
    requires LockInv(sys) && Enabled(sys, a)
    requires a.Work? && Advance(def, sys.machine, PcOf(sys, a.tid).env, PcOf(sys, a.tid).work).1.Leaving? ==>
               Advance(def, sys.machine, PcOf(sys, a.tid).env, PcOf(sys, a.tid).work).1.clear
    ensures LockInv(Next(def, sys, a))
  {
    var next := Next(def, sys, a);
    forall t: Tid | t != a.tid ensures PcOf(next, t) == PcOf(sys, t) {
    }
  }

  lemma SlotStep<C, S, E>(def: Definition<C, S, E>, sys: Sys<C, S, E>, a: Action<E>)
    requires SlotInv(sys) && Enabled(sys, a)
    ensures SlotInv(Next(def, sys, a))
  {
    var next := Next(def, sys, a);
    forall t: Tid | t != a.tid ensures PcOf(next, t) == PcOf(sys, t) {
    }
  }

  /** Only a Send that found the flag raised leaves without lowering it. */
  lemma WorkClears<C, S, E>(def: Definition<C, S, E>, m: MachineState<C, S, E>, env: Envelope<E>, w: Work<C, S, E>)
    requires !w.Leaving? && (w.Entering? ==> !m.inFlight)
    ensures var (_, w') := Advance(def, m, env, w); !w'.Entering? && (w'.Leaving? ==> w'.clear)
  {
  }

  lemma ReadsKeepMachine<C(!new), S(!new), E(!new)>(def: Definition<C, S, E>, m: MachineState<C, S, E>, op: Op<E>)
    requires PureGuards(def) && !op.CallSend?
    ensures Perform(def, m, op).0 == m
  {
    if op.CallCan? && !IsTerminal(def, m.current) && (m.current, op.event) in def.index {
      var t := def.index[(m.current, op.event)];
      PureStepsKeepEntity(GuardSteps(def, t), m.obj, RecordFor(m, t, op.env));
    }
  }

  /** Whatever else is scheduled, a Can under way keeps its meaning. */
  lemma ProbesStay<C(!new), S(!new), E(!new)>(def: Definition<C, S, E>, sys: Sys<C, S, E>, a: Action<E>)
    requires LockInv(sys) && ProbeInv(def, sys) && Enabled(sys, a) && !a.Probe?
    ensures ProbeInv(def, Next(def, sys, a))
  {
    var next := Next(def, sys, a);
    forall t: Tid | PcOf(next, t).Probing? ensures PureGuards(def) && Probes(def, next.machine, PcOf(next, t)) {
      assert PcOf(sys, t) == PcOf(next, t);
      if a.Read? {
        ReadsKeepMachine(def, sys.machine, PcOf(sys, a.tid).op);
      }
    }
  }

  /** A guard only looks, so the machine stays as it is, and the verdict is what Can answers in one step. */
  lemma ProbeOne<C(!new), S(!new), E(!new)>(def: Definition<C, S, E>, sys: Sys<C, S, E>, a: Action<E>)
    requires LockInv(sys) && ProbeInv(def, sys) && Enabled(sys, a) && a.Probe? && PureGuards(def)
    ensures var next, pc := Next(def, sys, a), PcOf(sys, a.tid);
            && next.machine == sys.machine
            && (PcOf(next, a.tid).Probing? ==> Probes(def, sys.machine, PcOf(next, a.tid)) && next.calls == sys.calls)
            && (!PcOf(next, a.tid).Probing? ==>
                  var op := CallOf(pc);
                  next.calls == sys.calls + [Entry(a.tid, op, Perform(def, sys.machine, op).1)])
  {
    var pc := PcOf(sys, a.tid);
    if pc.Probing? && pc.steps != [] {
      assert Pure(pc.steps[0]);
    }
  }

  lemma ProbesGoOn<C(!new), S(!new), E(!new)>(def: Definition<C, S, E>, sys: Sys<C, S, E>, a: Action<E>)
    requires LockInv(sys) && ProbeInv(def, sys) && Enabled(sys, a) && a.Probe? && PureGuards(def)
    ensures ProbeInv(def, Next(def, sys, a))
  {
    var next := Next(def, sys, a);
    ProbeOne(def, sys, a);
    forall t: Tid | PcOf(next, t).Probing? ensures Probes(def, next.machine, PcOf(next, t)) {
      assert t != a.tid ==> PcOf(sys, t) == PcOf(next, t);
    }
  }

  lemma ProbeOnMachine<C(!new), S(!new), E(!new)>(
      def: Definition<C, S, E>, m0: MachineState<C, S, E>, sys: Sys<C, S, E>, a: Action<E>)
    requires LockInv(sys) && MachineInv(def, m0, sys) && SerialAnswers(def, m0, sys.calls) && ProbeInv(def, sys)
    requires Enabled(sys, a) && a.Probe? && PureGuards(def) && LockInv(Next(def, sys, a))
    ensures MachineInv(def, m0, Next(def, sys, a)) && SerialAnswers(def, m0, Next(def, sys, a).calls)
  {
    ProbeOne(def, sys, a);
    var pc := PcOf(sys, a.tid);
    var op := CallOf(pc);
    assert sys.writer.None?;
    ReadsKeepMachine(def, sys.machine, op);
    SerialAppend(def, m0, sys.calls, Entry(a.tid, op, Perform(def, sys.machine, op).1));
  }

  lemma WorkStep<C(!new), S(!new), E(!new)>(
      def: Definition<C, S, E>, m0: MachineState<C, S, E>, sys: Sys<C, S, E>, a: Action<E>)
    requires Inv(def, m0, sys) && Enabled(sys, a) && a.Work?
    ensures Inv(def, m0, Next(def, sys, a))
  {
    var pc := PcOf(sys, a.tid);
    WorkClears(def, sys.machine, pc.env, pc.work);
    AdvanceKeepsFinish(def, sys.machine, pc.env, pc.work);
    LockStep(def, sys, a);
    SlotStep(def, sys, a);
    ProbesStay(def, sys, a);
  }

  lemma UnlockStep<C(!new), S(!new), E(!new)>(
      def: Definition<C, S, E>, m0: MachineState<C, S, E>, sys: Sys<C, S, E>, a: Action<E>)
    requires Inv(def, m0, sys) && Enabled(sys, a) && a.Unlock?
    ensures Inv(def, m0, Next(def, sys, a))
  {
    var pc := PcOf(sys, a.tid);
    SerialAppend(def, m0, sys.calls, Entry(a.tid, CallSend(pc.env), SendAnswer(pc.work.error)));
    SendAllOrNothing(def, Serial(def, m0, sys.calls), pc.env);
    LockStep(def, sys, a);
    SlotStep(def, sys, a);
    ProbesStay(def, sys, a);
  }

  /** Reading may write to the entity, through a guard, but not to the in-flight flag. */
  lemma ReadKeepsFlag<C, S, E>(def: Definition<C, S, E>, m: MachineState<C, S, E>, op: Op<E>)
    requires !op.CallSend?
    ensures Perform(def, m, op).0.inFlight == m.inFlight
  {
  }

  lemma ReadOnMachine<C, S, E>(def: Definition<C, S, E>, m0: MachineState<C, S, E>, sys: Sys<C, S, E>, a: Action<E>)
    requires LockInv(sys) && MachineInv(def, m0, sys) && SerialAnswers(def, m0, sys.calls)
    requires Enabled(sys, a) && a.Read? && LockInv(Next(def, sys, a))
    ensures MachineInv(def, m0, Next(def, sys, a)) && SerialAnswers(def, m0, Next(def, sys, a).calls)
  {
    var pc := PcOf(sys, a.tid);
    assert sys.writer.None?;
    SerialAppend(def, m0, sys.calls, Entry(a.tid, pc.op, Perform(def, sys.machine, pc.op).1));
    ReadKeepsFlag(def, sys.machine, pc.op);
  }

  lemma ReadStep<C(!new), S(!new), E(!new)>(
      def: Definition<C, S, E>, m0: MachineState<C, S, E>, sys: Sys<C, S, E>, a: Action<E>)
    requires Inv(def, m0, sys) && Enabled(sys, a) && a.Read?
    ensures Inv(def, m0, Next(def, sys, a))
  {
    LockStep(def, sys, a);
    SlotStep(def, sys, a);
    ProbesStay(def, sys, a);
    ReadOnMachine(def, m0, sys, a);
  }

  lemma OtherStep<C(!new), S(!new), E(!new)>(
      def: Definition<C, S, E>, m0: MachineState<C, S, E>, sys: Sys<C, S, E>, a: Action<E>)
    requires Inv(def, m0, sys) && Enabled(sys, a) && !a.Work? && !a.Unlock? && !a.Read? && !a.Probe?
    ensures Inv(def, m0, Next(def, sys, a))
  {
    LockStep(def, sys, a);
    SlotStep(def, sys, a);
    ProbesStay(def, sys, a);
  }

  lemma ProbeStep<C(!new), S(!new), E(!new)>(
      def: Definition<C, S, E>, m0: MachineState<C, S, E>, sys: Sys<C, S, E>, a: Action<E>)
    requires Inv(def, m0, sys) && Enabled(sys, a) && a.Probe? && PureGuards(def)
    ensures Inv(def, m0, Next(def, sys, a))
  {
    LockStep(def, sys, a);
    SlotStep(def, sys, a);
    ProbesGoOn(def, sys, a);
    ProbeOnMachine(def, m0, sys, a);
  }

  lemma StepKeepsInv<C(!new), S(!new), E(!new)>(
      def: Definition<C, S, E>, m0: MachineState<C, S, E>, sys: Sys<C, S, E>, a: Action<E>)
    requires Inv(def, m0, sys) && Enabled(sys, a) && (a.Probe? ==> PureGuards(def))
    ensures Inv(def, m0, Next(def, sys, a))
  {
    match a
    case Work(_) => WorkStep(def, m0, sys, a);
    case Unlock(_) => UnlockStep(def, m0, sys, a);
    case Read(_) => ReadStep(def, m0, sys, a);
    case Probe(_) => ProbeStep(def, m0, sys, a);
    case _ => OtherStep(def, m0, sys, a);
  }

  lemma CallsOnlyGrow<C, S, E>(def: Definition<C, S, E>, sys: Sys<C, S, E>, a: Action<E>)
    requires Enabled(sys, a)
    ensures sys.calls <= Next(def, sys, a).calls
  {
  }

  /** A schedule is a list of actions each enabled when its turn comes. */
  ghost predicate Schedulable<C, S, E>(def: Definition<C, S, E>, sys: Sys<C, S, E>, schedule: seq<Action<E>>)
    decreases |schedule|
  {
    schedule == [] || (Enabled(sys, schedule[0]) && Schedulable(def, Next(def, sys, schedule[0]), schedule[1..]))
  }

  ghost function Execute<C, S, E>(def: Definition<C, S, E>, sys: Sys<C, S, E>, schedule: seq<Action<E>>): Sys<C, S, E>
    requires Schedulable(def, sys, schedule)
    decreases |schedule|
  {
    if schedule == [] then sys else Execute(def, Next(def, sys, schedule[0]), schedule[1..])
  }

  /** Guards run one by one among other readers only if they just look. */
  ghost predicate MayProbe<C(!new), S(!new), E(!new)>(def: Definition<C, S, E>, schedule: seq<Action<E>>) {
    PureGuards(def) || forall i :: 0 <= i < |schedule| ==> !schedule[i].Probe?
  }

  lemma MayProbeParts<C(!new), S(!new), E(!new)>(
      def: Definition<C, S, E>, first: seq<Action<E>>, second: seq<Action<E>>)
    requires MayProbe(def, first + second)
    ensures MayProbe(def, first) && MayProbe(def, second)
  {
    if !PureGuards(def) {
      forall i | 0 <= i < |first| ensures !first[i].Probe? {
        assert first[i] == (first + second)[i];
      }
      forall i | 0 <= i < |second| ensures !second[i].Probe? {
        assert second[i] == (first + second)[|first| + i];
      }
    }
  }

  lemma {:induction false} ExecuteKeepsInv<C(!new), S(!new), E(!new)>(
      def: Definition<C, S, E>, m0: MachineState<C, S, E>, sys: Sys<C, S, E>, schedule: seq<Action<E>>)
    requires Inv(def, m0, sys) && Schedulable(def, sys, schedule) && MayProbe(def, schedule)
    ensures Inv(def, m0, Execute(def, sys, schedule))
    decreases |schedule|
  {
    if schedule == [] {
    } else {
      StepKeepsInv(def, m0, sys, schedule[0]);
      ExecuteKeepsInv(def, m0, Next(def, sys, schedule[0]), schedule[1..]);
    }
  }

  lemma {:induction false} ExecuteGrows<C, S, E>(
      def: Definition<C, S, E>, sys: Sys<C, S, E>, schedule: seq<Action<E>>)
    requires Schedulable(def, sys, schedule)
    ensures sys.calls <= Execute(def, sys, schedule).calls
    decreases |schedule|
  {
    if schedule == [] {
    } else {
      CallsOnlyGrow(def, sys, schedule[0]);
      ExecuteGrows(def, Next(def, sys, schedule[0]), schedule[1..]);
    }
  }

  lemma InitInv<C(!new), S(!new), E(!new)>(def: Definition<C, S, E>, m0: MachineState<C, S, E>)
    requires !m0.inFlight
    ensures Inv(def, m0, Init(m0))
  {
  }

  /**
  The wrapper is linearizable under every interleaving. The calls, in the order in which
  they took effect, form a serial execution that gives each caller exactly the answer it
  got and ends in the shared machine's state whenever no Send holds the lock.
  */
  lemma Linearizable<C(!new), S(!new), E(!new)>(
      def: Definition<C, S, E>, m0: MachineState<C, S, E>, schedule: seq<Action<E>>)
    requires !m0.inFlight && Schedulable(def, Init(m0), schedule) && MayProbe(def, schedule)
    ensures var end := Execute(def, Init(m0), schedule);
            && SerialAnswers(def, m0, end.calls)
            && (end.writer.None? ==> end.machine == Serial(def, m0, end.calls))
            && forall t: Tid :: PcOf(end, t).Returning? ==>
                 && PcOf(end, t).slot < |end.calls|
                 && end.calls[PcOf(end, t).slot].tid == t && end.calls[PcOf(end, t).slot].op == PcOf(end, t).op
  {
    InitInv(def, m0);
    ExecuteKeepsInv(def, m0, Init(m0), schedule);
  }

  /** A Send in flight holds the exclusive lock with no reader inside, and it is the only one. */
  lemma InFlightMeansLocked<C(!new), S(!new), E(!new)>(
      def: Definition<C, S, E>, m0: MachineState<C, S, E>, schedule: seq<Action<E>>)
    requires !m0.inFlight && Schedulable(def, Init(m0), schedule) && MayProbe(def, schedule)
    ensures var end := Execute(def, Init(m0), schedule);
            && (end.machine.inFlight ==> end.writer.Some? && end.readers == {})
            && forall t, u: Tid :: PcOf(end, t).Sending? ==>
                 && end.writer == Some(t) && (PcOf(end, u).Sending? ==> t == u)
                 && !PcOf(end, u).Reading? && !PcOf(end, u).Probing?
  {
    InitInv(def, m0);
    ExecuteKeepsInv(def, m0, Init(m0), schedule);
  }

  lemma {:induction false} SerialNotInFlight<C, S, E>(
      def: Definition<C, S, E>, m: MachineState<C, S, E>, calls: seq<Entry<S, E>>)
    requires !m.inFlight
    ensures !Serial(def, m, calls).inFlight
  {
    if calls == [] {
    } else {
      var before := Serial(def, m, calls[..|calls| - 1]);
      SerialNotInFlight(def, m, calls[..|calls| - 1]);
      var op := calls[|calls| - 1].op;
      if op.CallSend? {
        SendAllOrNothing(def, before, op.env);
      }
    }
  }

  /** No Send through the wrapper is ever turned away because another one is in progress. */
  lemma NeverConcurrent<C(!new), S(!new), E(!new)>(
      def: Definition<C, S, E>, m0: MachineState<C, S, E>, schedule: seq<Action<E>>, i: nat)
    requires !m0.inFlight && Schedulable(def, Init(m0), schedule) && MayProbe(def, schedule)
    requires i < |Execute(def, Init(m0), schedule).calls|
    ensures Execute(def, Init(m0), schedule).calls[i].answer != SendAnswer(Some(ConcurrentTransition))
  {
    Linearizable(def, m0, schedule);
    var calls := Execute(def, Init(m0), schedule).calls;
    SerialNotInFlight(def, m0, calls[..i]);
    var before := Serial(def, m0, calls[..i]);
    if calls[i].op.CallSend? {
      SendAllOrNothing(def, before, calls[i].op.env);
    }
  }

  lemma {:induction false} ExecuteConcat<C, S, E>(
      def: Definition<C, S, E>, sys: Sys<C, S, E>, first: seq<Action<E>>, second: seq<Action<E>>)
    requires Schedulable(def, sys, first + second)
    ensures Schedulable(def, sys, first) && Schedulable(def, Execute(def, sys, first), second)
    ensures Execute(def, sys, first + second) == Execute(def, Execute(def, sys, first), second)
    decreases |first|
  {
    if first == [] {
      assert first + second == second;
    } else {
      assert (first + second)[1..] == first[1..] + second;
      ExecuteConcat(def, Next(def, sys, first[0]), first[1..], second);
    }
  }

  /** From its call to its return a thread keeps the operation it called. */
  lemma CallIsKept<C, S, E>(def: Definition<C, S, E>, sys: Sys<C, S, E>, a: Action<E>, t: Tid)
    requires Enabled(sys, a) && !PcOf(Next(def, sys, a), t).Idle?
    ensures var next := Next(def, sys, a);
            CallOf(PcOf(next, t)) == if a.Invoke? && a.tid == t then a.op else CallOf(PcOf(sys, t))
  {
  }

  /** The thread has called and the call has not yet taken effect, or it has. */
  predicate UnderWay<C, S, E>(pc: Pc<C, S, E>) { pc.Waiting? || pc.Sending? || pc.Reading? || pc.Probing? }

  predicate Done<C, S, E>(pc: Pc<C, S, E>) { pc.ReadDone? || pc.Returning? }

  /**
  Every call takes effect once. A step records a call, as the latest, exactly when it takes a
  thread from under way to done; a thread that is done keeps its place until it has returned,
  and no thread becomes idle before that.
  */
  lemma TakesEffectOnce<C, S, E>(def: Definition<C, S, E>, sys: Sys<C, S, E>, a: Action<E>)
    requires Enabled(sys, a)
    ensures var next := Next(def, sys, a);
            var before, after := PcOf(sys, a.tid), PcOf(next, a.tid);
            && (UnderWay(before) && Done(after) ==>
                  |next.calls| == |sys.calls| + 1 && sys.calls <= next.calls && after.slot == |sys.calls|)
            && (!(UnderWay(before) && Done(after)) ==> next.calls == sys.calls)
            && (Done(before) ==> after.Idle? || (Done(after) && after.slot == before.slot))
            && (before.Idle? ==> UnderWay(after))
            && (after.Idle? ==> before.Returning?)
  {
  }

  /** A call made after the first `n` had taken effect is placed behind them. */
  ghost predicate PlacedBehind<C, S, E>(sys: Sys<C, S, E>, t: Tid, n: nat) {
    var pc := PcOf(sys, t);
    n <= |sys.calls| && (pc.ReadDone? || pc.Returning? ==> n <= pc.slot)
  }

  lemma {:induction false} StaysBehind<C, S, E>(
      def: Definition<C, S, E>, sys: Sys<C, S, E>, schedule: seq<Action<E>>, t: Tid, n: nat)
    requires Schedulable(def, sys, schedule) && PlacedBehind(sys, t, n)
    ensures PlacedBehind(Execute(def, sys, schedule), t, n)
    decreases |schedule|
  {
    if schedule == [] {
    } else {
      StaysBehind(def, Next(def, sys, schedule[0]), schedule[1..], t, n);
    }
  }

  /**
  The serial order respects real time: the calls that had taken effect when some point of
  the schedule was reached stay where they are, those that were about to return among them,
  and a call that a thread makes after that point is placed behind all of them.
  */
  lemma RealTimeOrder<C(!new), S(!new), E(!new)>(
      def: Definition<C, S, E>, m0: MachineState<C, S, E>, first: seq<Action<E>>, second: seq<Action<E>>)
    requires !m0.inFlight && Schedulable(def, Init(m0), first + second) && MayProbe(def, first + second)
    ensures Schedulable(def, Init(m0), first)
    ensures var mid, end := Execute(def, Init(m0), first), Execute(def, Init(m0), first + second);
            && mid.calls <= end.calls
            && (forall t: Tid :: PcOf(mid, t).Returning? ==> PcOf(mid, t).slot < |mid.calls|)
            && (forall t: Tid :: PcOf(mid, t).Idle? && PcOf(end, t).Returning? ==> |mid.calls| <= PcOf(end, t).slot)
  {
    ExecuteConcat(def, Init(m0), first, second);
    MayProbeParts(def, first, second);
    InitInv(def, m0);
    ExecuteKeepsInv(def, m0, Init(m0), first);
    var mid := Execute(def, Init(m0), first);
    ExecuteGrows(def, mid, second);
    forall t: Tid | PcOf(mid, t).Idle? ensures PlacedBehind(Execute(def, mid, second), t, |mid.calls|) {
      StaysBehind(def, mid, second, t, |mid.calls|);
    }
  }

  // ---------------------------------------------------------------------------
  // Progress
  // ---------------------------------------------------------------------------

  /** How far a call is from its end: its stage, counted down, and the functions left to run in it. */
  function Left<C, S, E>(pc: Pc<C, S, E>): (nat, nat) {
    match pc
    case Idle => (0, 0)
    case Returning(_, _) => (1, 0)
    case ReadDone(_, _) => (2, 0)
    case Probing(_, _, steps, _) => (3, |steps|)
    case Reading(_) => (4, 0)
    case Waiting(_) => (8, 0)
    case Sending(_, work) =>
      match work
      case Leaving(_, _) => (2, 0)
      case Observing(observers, _) => (3, |observers|)
      case Recording(_) => (4, 0)
      case Settling(hooks, _) => (5, |hooks|)
      case Aborting(steps, _, _) => (6, |steps|)
      case Entering => (7, 0)
  }

  predicate Less(a: (nat, nat), b: (nat, nat)) { a.0 < b.0 || (a.0 == b.0 && a.1 < b.1) }

  /** Every step of a call brings it closer to its end, and no other call further from its own. */
  lemma StepsBringCloser<C, S, E>(def: Definition<C, S, E>, sys: Sys<C, S, E>, a: Action<E>)
    requires Enabled(sys, a) && !a.Invoke?
    ensures var next := Next(def, sys, a);
            && Less(Left(PcOf(next, a.tid)), Left(PcOf(sys, a.tid)))
            && forall t: Tid :: t != a.tid ==> PcOf(next, t) == PcOf(sys, t)
  {
  }

  ghost predicate CanStep<C, S, E>(sys: Sys<C, S, E>, a: Action<E>) { Enabled(sys, a) && !a.Invoke? }

  lemma SomeoneCanStep<C, S, E>(sys: Sys<C, S, E>, t: Tid) returns (a: Action<E>)
    requires LockInv(sys) && !PcOf(sys, t).Idle?
    ensures CanStep(sys, a)
  {
    if sys.writer.Some? {
      var w := sys.writer.value;
      a := if PcOf(sys, w).work.Leaving? then Unlock(w) else Work(w);
    } else if sys.readers != {} {
      var r :| r in sys.readers;
      a := if PcOf(sys, r).Reading? then Read(r) else if PcOf(sys, r).Probing? then Probe(r) else RUnlock(r);
    } else {
      var pc := PcOf(sys, t);
      a := if pc.Returning? then Return(t) else if pc.op.CallSend? then Lock(t) else RLock(t);
    }
  }

  /** Nobody waits without need: an idle thread can call, and a reader is let in while no Send holds the lock. */
  lemma CallersAndReadersGetIn<C, S, E>(sys: Sys<C, S, E>, t: Tid, op: Op<E>)
    ensures PcOf(sys, t).Idle? ==> Enabled(sys, Invoke(t, op))
    ensures PcOf(sys, t) == Waiting(op) && !op.CallSend? && sys.writer.None? ==> Enabled(sys, RLock(t))
    ensures PcOf(sys, t) == Waiting(op) && op.CallSend? && sys.writer.None? && sys.readers == {} ==>
              Enabled(sys, Lock(t))
  {
  }

  /** No deadlock: under every interleaving, as long as some call has not returned, some call can go on. */
  lemma NoDeadlock<C(!new), S(!new), E(!new)>(
      def: Definition<C, S, E>, m0: MachineState<C, S, E>, schedule: seq<Action<E>>, t: Tid)
    requires !m0.inFlight && Schedulable(def, Init(m0), schedule) && MayProbe(def, schedule)
    requires !PcOf(Execute(def, Init(m0), schedule), t).Idle?
    ensures exists a :: CanStep(Execute(def, Init(m0), schedule), a)
  {
    InitInv(def, m0);
    ExecuteKeepsInv(def, m0, Init(m0), schedule);
    var a := SomeoneCanStep(Execute(def, Init(m0), schedule), t);
  }

  // ---------------------------------------------------------------------------
  // What the answers say about each other
  // ---------------------------------------------------------------------------

  lemma {:induction false} TerminalStays<C, S, E>(
      def: Definition<C, S, E>, m: MachineState<C, S, E>, calls: seq<Entry<S, E>>, i: nat)
    requires !m.inFlight && i <= |calls|
    requires var s := Serial(def, m, calls[..i]).current; s in def.states && def.states[s].isTerminal
    ensures Serial(def, m, calls).current == Serial(def, m, calls[..i]).current
    decreases |calls|
  {
    if i == |calls| {
      assert calls[..i] == calls;
    } else {
      var n := |calls| - 1;
      assert calls[..n][..i] == calls[..i];
      TerminalStays(def, m, calls[..n], i);
      var before := Serial(def, m, calls[..n]);
      SerialNotInFlight(def, m, calls[..n]);
      if calls[n].op.CallSend? {
        RefusalsAreNamed(def, before, calls[n].op.env);
      }
    }
  }

  /** Once some caller has been told that the machine is in a terminal state, every later Send is refused for it. */
  lemma TerminalIsFinal<C(!new), S(!new), E(!new)>(
      def: Definition<C, S, E>, m0: MachineState<C, S, E>, schedule: seq<Action<E>>, i: nat, j: nat)
    requires !m0.inFlight && Schedulable(def, Init(m0), schedule) && MayProbe(def, schedule)
    requires i < j < |Execute(def, Init(m0), schedule).calls|
    requires var calls := Execute(def, Init(m0), schedule).calls;
             calls[i].op.CallIsTerminal? && calls[i].answer == BoolAnswer(true) && calls[j].op.CallSend?
    ensures Execute(def, Init(m0), schedule).calls[j].answer == SendAnswer(Some(TerminalState))
  {
    Linearizable(def, m0, schedule);
    var calls := Execute(def, Init(m0), schedule).calls;
    assert calls[..j][..i] == calls[..i];
    TerminalStays(def, m0, calls[..j], i);
    SerialNotInFlight(def, m0, calls[..j]);
    RefusalsAreNamed(def, Serial(def, m0, calls[..j]), calls[j].op.env);
  }

  /** The history is empty as long as nothing was committed, and ends where the machine is. */
  ghost predicate HistoryLeadsTo<C, S, E>(start: S, m: MachineState<C, S, E>) {
    m.current == if m.history == [] then start else m.history[|m.history| - 1].to
  }

  lemma {:induction false} HistoryLeads<C, S, E>(
      def: Definition<C, S, E>, m: MachineState<C, S, E>, calls: seq<Entry<S, E>>)
    requires !m.inFlight && m.history == []
    ensures HistoryLeadsTo(m.current, Serial(def, m, calls))
  {
    if calls == [] {
    } else {
      var n := |calls| - 1;
      HistoryLeads(def, m, calls[..n]);
      SerialNotInFlight(def, m, calls[..n]);
      if calls[n].op.CallSend? {
        SendAllOrNothing(def, Serial(def, m, calls[..n]), calls[n].op.env);
      }
    }
  }

  /** On a machine that started without a history, State answers where the History just answered has led. */
  lemma HistoryShowsState<C(!new), S(!new), E(!new)>(
      def: Definition<C, S, E>, m0: MachineState<C, S, E>, schedule: seq<Action<E>>, i: nat)
    requires !m0.inFlight && m0.history == [] && Schedulable(def, Init(m0), schedule) && MayProbe(def, schedule)
    requires i + 1 < |Execute(def, Init(m0), schedule).calls|
    requires var calls := Execute(def, Init(m0), schedule).calls;
             calls[i].op.CallHistory? && calls[i + 1].op.CallState?
    ensures var calls := Execute(def, Init(m0), schedule).calls;
            && calls[i].answer.HistoryAnswer? && calls[i + 1].answer.StateAnswer?
            && var history := calls[i].answer.history;
               calls[i + 1].answer.state == if history == [] then m0.current else history[|history| - 1].to
  {
    Linearizable(def, m0, schedule);
    var calls := Execute(def, Init(m0), schedule).calls;
    HistoryLeads(def, m0, calls[..i]);
    assert calls[..i + 1][..i] == calls[..i];
    assert Serial(def, m0, calls[..i + 1]) == Serial(def, m0, calls[..i]);
  }

  // ---------------------------------------------------------------------------
  // Guards that write
  // ---------------------------------------------------------------------------

  lemma {:induction false} ExecuteThen<C, S, E>(
      def: Definition<C, S, E>, sys: Sys<C, S, E>, schedule: seq<Action<E>>, a: Action<E>)
    requires Schedulable(def, sys, schedule) && Enabled(Execute(def, sys, schedule), a)
    ensures Schedulable(def, sys, schedule + [a])
    ensures Execute(def, sys, schedule + [a]) == Next(def, Execute(def, sys, schedule), a)
    decreases |schedule|
  {
    if schedule == [] {
      assert Execute(def, Next(def, sys, a), []) == Next(def, sys, a);
    } else {
      assert (schedule + [a])[1..] == schedule[1..] + [a];
      ExecuteThen(def, Next(def, sys, schedule[0]), schedule[1..], a);
    }
  }

  ghost predicate Reachable<C, S, E(!new)>(def: Definition<C, S, E>, m0: MachineState<C, S, E>, sys: Sys<C, S, E>) {
    exists schedule :: Schedulable(def, Init(m0), schedule) && Execute(def, Init(m0), schedule) == sys
  }

  lemma ReachableThen<C, S, E(!new)>(
      def: Definition<C, S, E>, m0: MachineState<C, S, E>, sys: Sys<C, S, E>, a: Action<E>)
    requires Reachable(def, m0, sys) && Enabled(sys, a)
    ensures Reachable(def, m0, Next(def, sys, a))
  {
    var schedule :| Schedulable(def, Init(m0), schedule) && Execute(def, Init(m0), schedule) == sys;
    ExecuteThen(def, Init(m0), schedule, a);
  }

  function CountUp(n: int, env: Envelope<bool>): Outcome<int> { Outcome(n + 1, None) }

  function FirstOnly(n: int, env: Envelope<bool>): Outcome<int> {
    Outcome(n, if n == 1 then None else Some("taken"))
  }

  /** One edge, whose guards count the askers and let the first one through. */
  function Turnstile(): Definition<int, bool, bool> {
    Definition(map[], map[(true, true) := Transition(true, true, true, [CountUp, FirstOnly], [], [], [], [], [])],
               [], [], [], 0)
  }

  const PUSH: Envelope<bool> := Envelope(true, map[])
  const ASK: Op<bool> := CallCan(true, PUSH)
  const NOBODY: MachineState<int, bool, bool> := Fresh(0, true)
  const GUARDS: seq<Step<int, bool, bool>> := [EnvelopeStep(GuardPhase, CountUp), EnvelopeStep(GuardPhase, FirstOnly)]

  lemma TurnstileGuards()
    ensures GuardSteps(Turnstile(), Turnstile().index[(true, true)]) == GUARDS
  {
    var fns: seq<EnvelopeFunc<int, bool>> := [CountUp, FirstOnly];
    assert fns[1..] == [FirstOnly] && fns[1..][1..] == [];
    assert EnvelopeSteps<int, bool, bool>(GuardPhase, fns[1..]) == GUARDS[1..];
    assert EnvelopeSteps<int, bool, bool>(GuardPhase, []) == [];
  }

  /** Two threads that hold the read lock. */
  function Askers(n: int, pc0: Pc<int, bool, bool>, pc1: Pc<int, bool, bool>): Sys<int, bool, bool> {
    Sys(Fresh(n, true), None, {0, 1}, map[0 := pc0, 1 := pc1], [])
  }

  function At(steps: seq<Step<int, bool, bool>>): Pc<int, bool, bool> {
    Probing(true, PUSH, steps, Record(1, true, true, PUSH))
  }

  lemma StepTo(sys: Sys<int, bool, bool>, a: Action<bool>, next: Sys<int, bool, bool>)
    requires Reachable(Turnstile(), NOBODY, sys) && Enabled(sys, a) && Next(Turnstile(), sys, a) == next
    ensures Reachable(Turnstile(), NOBODY, next)
  {
    ReachableThen(Turnstile(), NOBODY, sys, a);
  }

  lemma BothCall()
    ensures Reachable(Turnstile(), NOBODY, Sys(NOBODY, None, {}, map[0 := Waiting(ASK), 1 := Waiting(ASK)], []))
  {
    var s0 := Init<int, bool, bool>(NOBODY);
    assert Schedulable(Turnstile(), s0, []) && Execute(Turnstile(), s0, []) == s0;
    var s1 := s0.(threads := map[0 := Waiting(ASK)]);
    StepTo(s0, Invoke(0, ASK), s1);
    StepTo(s1, Invoke(1, ASK), s1.(threads := map[0 := Waiting(ASK), 1 := Waiting(ASK)]));
  }

  lemma BothAsk()
    ensures Reachable(Turnstile(), NOBODY, Askers(0, Reading(ASK), Reading(ASK)))
  {
    BothCall();
    var s0 := Sys(NOBODY, None, {}, map[0 := Waiting(ASK), 1 := Waiting(ASK)], []);
    var s1 := s0.(readers := {0}, threads := s0.threads[0 := Reading(ASK)]);
    StepTo(s0, RLock(0), s1);
    StepTo(s1, RLock(1), Askers(0, Reading(ASK), Reading(ASK)));
  }

  lemma BothLookUp()
    ensures Reachable(Turnstile(), NOBODY, Askers(0, At(GUARDS), At(GUARDS)))
  {
    BothAsk();
    TurnstileGuards();
    StepTo(Askers(0, Reading(ASK), Reading(ASK)), Probe(0), Askers(0, At(GUARDS), Reading(ASK)));
    StepTo(Askers(0, At(GUARDS), Reading(ASK)), Probe(1), Askers(0, At(GUARDS), At(GUARDS)));
  }

  lemma BothCount()
    ensures Reachable(Turnstile(), NOBODY, Askers(2, At(GUARDS[1..]), At(GUARDS[1..])))
  {
    BothLookUp();
    StepTo(Askers(0, At(GUARDS), At(GUARDS)), Probe(0), Askers(1, At(GUARDS[1..]), At(GUARDS)));
    StepTo(Askers(1, At(GUARDS[1..]), At(GUARDS)), Probe(1), Askers(2, At(GUARDS[1..]), At(GUARDS[1..])));
  }

  lemma FirstIsLetThrough()
    ensures Perform(Turnstile(), NOBODY, ASK).1 == BoolAnswer(true)
    ensures !PureGuards(Turnstile())
  {
    var edge := Turnstile().index[(true, true)];
    var record := RecordFor(NOBODY, edge, PUSH);
    TurnstileGuards();
    assert RunStep(GUARDS[0], 0, record).obj == 1 && GUARDS[0] in GuardSteps(Turnstile(), edge);
    assert !Pure(GUARDS[0]);
    assert RunPipeline(GUARDS[1..], 1, record) == Passed(1);
  }

  /**
  Guards that write have no such order. Two askers whose guards count them can both be turned away by
  the second guard, although whichever comes first in a serial execution is let through.
  */
  lemma WritingGuardsHaveNoOrder()
    ensures !PureGuards(Turnstile()) && Perform(Turnstile(), NOBODY, ASK).1 == BoolAnswer(true)
    ensures exists end :: Reachable(Turnstile(), NOBODY, end) &&
              end.calls == [Entry(0, ASK, BoolAnswer(false)), Entry(1, ASK, BoolAnswer(false))]
  {
    FirstIsLetThrough();
    BothCount();
    var s0 := Askers(2, At(GUARDS[1..]), At(GUARDS[1..]));
    var s1 := Answered(s0, 0, ASK, BoolAnswer(false));
    StepTo(s0, Probe(0), s1);
    StepTo(s1, Probe(1), Answered(s1, 1, ASK, BoolAnswer(false)));
  }
}
