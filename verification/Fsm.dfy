/**
The generic finite state machine engine of backend/utils/FSM.go.

`C` stands for the domain entity together with everything its hooks may write.
A guard, effect or hook is a function from the entity (and the envelope or
record it is shown) to the entity it leaves behind and an optional error, so
hooks that write before they fail are covered. Timestamps, durations, event
identifiers and payloads are not modelled.
*/
module Fsm {
  import opened Wrappers

  datatype Envelope<E> = Envelope(event: E, metadata: map<string, string>)

  datatype Record<S, E> = Record(number: nat, from: S, to: S, envelope: Envelope<E>)

  datatype Outcome<C> = Outcome(obj: C, failure: Option<string>)

  type EnvelopeFunc<!C, !E> = (C, Envelope<E>) -> Outcome<C>
  type HookFunc<!C, !S, !E> = (C, Record<S, E>) -> Outcome<C>
  type ObserverFunc<!C, !S, !E> = (C, Record<S, E>) -> C

  /** The phases that can abort a transition. */
  datatype Phase = GuardPhase | BeforeExitPhase | BeforeEnterPhase | EffectPhase

  datatype SendError<S, E> =
    | ConcurrentTransition
    | TerminalState
    | InvalidTransition(state: S, event: E)
    | TransitionFailed(from: S, to: S, event: E, phase: Phase, cause: string)

  datatype StateMeta<!C, !S, !E> = StateMeta(
    isTerminal: bool, isInitial: bool, onEntry: seq<HookFunc<C, S, E>>, onExit: seq<HookFunc<C, S, E>>)

  datatype Transition<!C, !S, !E> = Transition(
    from: S, event: E, to: S,
    guards: seq<EnvelopeFunc<C, E>>,
    effects: seq<EnvelopeFunc<C, E>>,
    beforeExit: seq<HookFunc<C, S, E>>,
    beforeEnter: seq<HookFunc<C, S, E>>,
    afterExit: seq<HookFunc<C, S, E>>,
    afterEnter: seq<HookFunc<C, S, E>>)

  datatype Definition<!C, !S(==), !E(==)> = Definition(
    states: map<S, StateMeta<C, S, E>>,
    index: map<(S, E), Transition<C, S, E>>,
    observers: seq<ObserverFunc<C, S, E>>,
    globalGuards: seq<EnvelopeFunc<C, E>>,
    globalEffects: seq<EnvelopeFunc<C, E>>,
    capacity: nat)

  predicate IsTerminal<C, S(==), E(==)>(def: Definition<C, S, E>, s: S) {
    s in def.states && def.states[s].isTerminal
  }

  // ---------------------------------------------------------------------------
  // The abortable part of the pipeline, flattened into one list of steps.
  // ---------------------------------------------------------------------------

  datatype Step<!C, !S, !E> =
    | EnvelopeStep(phase: Phase, fn: EnvelopeFunc<C, E>)
    | RecordStep(phase: Phase, hook: HookFunc<C, S, E>)

  datatype PipelineResult<C> = Passed(obj: C) | Aborted(obj: C, phase: Phase, cause: string)

  function RunStep<C, S, E>(step: Step<C, S, E>, obj: C, record: Record<S, E>): Outcome<C> {
    match step
    case EnvelopeStep(_, fn) => fn(obj, record.envelope)
    case RecordStep(_, hook) => hook(obj, record)
  }

  /** Runs steps in order and stops at the first failure. */
  function RunPipeline<C, S, E>(steps: seq<Step<C, S, E>>, obj: C, record: Record<S, E>): PipelineResult<C> {
    if steps == [] then Passed(obj)
    else
      var out := RunStep(steps[0], obj, record);
      match out.failure
      case Some(cause) => Aborted(out.obj, steps[0].phase, cause)
      case None => RunPipeline(steps[1..], out.obj, record)
  }

  function EnvelopeSteps<C, S, E>(phase: Phase, fns: seq<EnvelopeFunc<C, E>>): seq<Step<C, S, E>> {
    if fns == [] then [] else [EnvelopeStep(phase, fns[0])] + EnvelopeSteps(phase, fns[1..])
  }

  function RecordSteps<C, S, E>(phase: Phase, hooks: seq<HookFunc<C, S, E>>): seq<Step<C, S, E>> {
    if hooks == [] then [] else [RecordStep(phase, hooks[0])] + RecordSteps(phase, hooks[1..])
  }

  function OnExit<C, S(==), E(==)>(def: Definition<C, S, E>, s: S): seq<HookFunc<C, S, E>> {
    if s in def.states then def.states[s].onExit else []
  }

  function OnEntry<C, S(==), E(==)>(def: Definition<C, S, E>, s: S): seq<HookFunc<C, S, E>> {
    if s in def.states then def.states[s].onEntry else []
  }

  function GuardSteps<C, S(==), E(==)>(def: Definition<C, S, E>, t: Transition<C, S, E>): seq<Step<C, S, E>> {
    EnvelopeSteps(GuardPhase, def.globalGuards) + EnvelopeSteps(GuardPhase, t.guards)
  }

  /** Everything that runs after the guards and may still abort. */
  function ActionSteps<C, S(==), E(==)>(def: Definition<C, S, E>, t: Transition<C, S, E>, from: S)
    : seq<Step<C, S, E>>
  {
    RecordSteps(BeforeExitPhase, t.beforeExit)
    + (RecordSteps(BeforeExitPhase, OnExit(def, from))
       + (RecordSteps(BeforeEnterPhase, t.beforeEnter)
          + (EnvelopeSteps(EffectPhase, def.globalEffects)
             + EnvelopeSteps(EffectPhase, t.effects))))
  }

  function PipelineSteps<C, S(==), E(==)>(def: Definition<C, S, E>, t: Transition<C, S, E>, from: S)
    : seq<Step<C, S, E>>
  {
    GuardSteps(def, t) + ActionSteps(def, t, from)
  }

  /** Running a concatenation is running the parts one after the other. */
  lemma {:induction false} RunPipelineConcat<C, S, E>(
      a: seq<Step<C, S, E>>, b: seq<Step<C, S, E>>, obj: C, record: Record<S, E>)
    ensures RunPipeline(a + b, obj, record) ==
            match RunPipeline(a, obj, record)
            case Passed(mid) => RunPipeline(b, mid, record)
            case Aborted(_, _, _) => RunPipeline(a, obj, record)
  {
    if a == [] {
      assert a + b == b;
    } else {
      assert (a + b)[1..] == a[1..] + b;
      var out := RunStep(a[0], obj, record);
      if out.failure.None? {
        RunPipelineConcat(a[1..], b, out.obj, record);
      }
    }
  }

  // ---------------------------------------------------------------------------
  // The committed part of the pipeline.
  // ---------------------------------------------------------------------------

  /** Post-commit hooks: every one runs, errors are dropped. */
  function RunHooks<C, S, E>(hooks: seq<HookFunc<C, S, E>>, obj: C, record: Record<S, E>): C {
    if hooks == [] then obj else RunHooks(hooks[1..], hooks[0](obj, record).obj, record)
  }

  function RunObservers<C, S, E>(observers: seq<ObserverFunc<C, S, E>>, obj: C, record: Record<S, E>): C {
    if observers == [] then obj else RunObservers(observers[1..], observers[0](obj, record), record)
  }

  /** The bounded buffer: capacity 0 keeps everything, otherwise the oldest entry makes room. */
  function Appended<R>(capacity: nat, history: seq<R>, r: R): seq<R> {
    if capacity == 0 || |history| < capacity then history + [r] else history[1..] + [r]
  }

  // ---------------------------------------------------------------------------
  // Machine states and the meaning of Send and Can.
  // ---------------------------------------------------------------------------

  datatype MachineState<C, S, E> = MachineState(
    obj: C, current: S, history: seq<Record<S, E>>, seqNo: nat, inFlight: bool)

  /** A machine just made by New or Restore. */
  function Fresh<C, S, E>(obj: C, s: S): MachineState<C, S, E> {
    MachineState(obj, s, [], 0, false)
  }

  datatype SendResult<C, S, E> = SendResult(state: MachineState<C, S, E>, error: Option<SendError<S, E>>)

  function RecordFor<C, S, E>(st: MachineState<C, S, E>, t: Transition<C, S, E>, env: Envelope<E>): Record<S, E> {
    Record(st.seqNo + 1, st.current, t.to, env)
  }

  /** The machine after the commit point, `obj` being the entity the effects left. */
  function Committed<C, S(==), E(==)>(
      def: Definition<C, S, E>, st: MachineState<C, S, E>, t: Transition<C, S, E>, record: Record<S, E>, obj: C)
    : MachineState<C, S, E>
  {
    var entered := RunHooks(OnEntry(def, t.to), obj, record);
    var left := RunHooks(t.afterExit, entered, record);
    var settled := RunHooks(t.afterEnter, left, record);
    MachineState(RunObservers(def.observers, settled, record), t.to,
                 Appended(def.capacity, st.history, record), st.seqNo + 1, false)
  }

  function Dispatch<C, S(==), E(==)>(def: Definition<C, S, E>, st: MachineState<C, S, E>, env: Envelope<E>)
    : SendResult<C, S, E>
  {
    if st.inFlight then SendResult(st, Some(ConcurrentTransition))
    else if IsTerminal(def, st.current) then SendResult(st, Some(TerminalState))
    else if (st.current, env.event) !in def.index then
      SendResult(st, Some(InvalidTransition(st.current, env.event)))
    else
      var t := def.index[(st.current, env.event)];
      var record := RecordFor(st, t, env);
      match RunPipeline(PipelineSteps(def, t, st.current), st.obj, record)
      case Aborted(obj, phase, cause) =>
        SendResult(st.(obj := obj), Some(TransitionFailed(st.current, t.to, env.event, phase, cause)))
      case Passed(obj) =>
        SendResult(Committed(def, st, t, record, obj), None)
  }

  /** What Can answers, and the entity its guards leave behind. */
  function Probed<C, S(==), E(==)>(def: Definition<C, S, E>, st: MachineState<C, S, E>, event: E, env: Envelope<E>)
    : (C, bool)
  {
    if IsTerminal(def, st.current) || (st.current, event) !in def.index then (st.obj, false)
    else
      var t := def.index[(st.current, event)];
      match RunPipeline(GuardSteps(def, t), st.obj, RecordFor(st, t, env))
      case Passed(obj) => (obj, true)
      case Aborted(obj, _, _) => (obj, false)
  }

  // ---------------------------------------------------------------------------
  // The machine itself.
  // ---------------------------------------------------------------------------

  class Machine<C, S(==), E(==)> {
    const def: Definition<C, S, E>
    var obj: C
    var current: S
    var history: seq<Record<S, E>>
    var seqNo: nat
    var inFlight: bool

    function Snapshot(): MachineState<C, S, E>
      reads this
    {
      MachineState(obj, current, history, seqNo, inFlight)
    }

    constructor New(def: Definition<C, S, E>, obj: C, initialState: S)
      ensures this.def == def && Snapshot() == Fresh(obj, initialState)
    {
      this.def, this.obj, current := def, obj, initialState;
      history, seqNo, inFlight := [], 0, false;
    }

    constructor Restore(def: Definition<C, S, E>, obj: C, currentState: S)
      ensures this.def == def && Snapshot() == Fresh(obj, currentState)
    {
      this.def, this.obj, current := def, obj, currentState;
      history, seqNo, inFlight := [], 0, false;
    }

    /** Code outside the machine writes to the entity it shares with the machine. */
    method Touch(obj: C)
      modifies this`obj
      ensures Snapshot() == old(Snapshot()).(obj := obj)
    {
      this.obj := obj;
    }

    method RunEnvelopeFuncs(phase: Phase, fns: seq<EnvelopeFunc<C, E>>, record: Record<S, E>)
      returns (failure: Option<string>)
      modifies this`obj
      ensures RunPipeline(EnvelopeSteps<C, S, E>(phase, fns), old(obj), record) ==
              match failure { case Some(cause) => Aborted(obj, phase, cause) case None => Passed(obj) }
    {
      var i := 0;
      while i < |fns|
        invariant 0 <= i <= |fns|
        invariant RunPipeline(EnvelopeSteps<C, S, E>(phase, fns[i..]), obj, record) ==
                  RunPipeline(EnvelopeSteps<C, S, E>(phase, fns), old(obj), record)
      {
        assert fns[i..][1..] == fns[i + 1..];
        var out := fns[i](obj, record.envelope);
        obj := out.obj;
        if out.failure.Some? {
          return out.failure;
        }
        i := i + 1;
      }
      failure := None;
    }

    method RunRecordHooks(phase: Phase, hooks: seq<HookFunc<C, S, E>>, record: Record<S, E>)
      returns (failure: Option<string>)
      modifies this`obj
      ensures RunPipeline(RecordSteps(phase, hooks), old(obj), record) ==
              match failure { case Some(cause) => Aborted(obj, phase, cause) case None => Passed(obj) }
    {
      var i := 0;
      while i < |hooks|
        invariant 0 <= i <= |hooks|
        invariant RunPipeline(RecordSteps(phase, hooks[i..]), obj, record) ==
                  RunPipeline(RecordSteps(phase, hooks), old(obj), record)
      {
        assert hooks[i..][1..] == hooks[i + 1..];
        var out := hooks[i](obj, record);
        obj := out.obj;
        if out.failure.Some? {
          return out.failure;
        }
        i := i + 1;
      }
      failure := None;
    }

    method RunPostCommit(hooks: seq<HookFunc<C, S, E>>, record: Record<S, E>)
      modifies this`obj
      ensures obj == RunHooks(hooks, old(obj), record)
    {
      var i := 0;
      while i < |hooks|
        invariant 0 <= i <= |hooks|
        invariant RunHooks(hooks[i..], obj, record) == RunHooks(hooks, old(obj), record)
      {
        assert hooks[i..][1..] == hooks[i + 1..];
        obj := hooks[i](obj, record).obj;
        i := i + 1;
      }
    }

    method Notify(observers: seq<ObserverFunc<C, S, E>>, record: Record<S, E>)
      modifies this`obj
      ensures obj == RunObservers(observers, old(obj), record)
    {
      var i := 0;
      while i < |observers|
        invariant 0 <= i <= |observers|
        invariant RunObservers(observers[i..], obj, record) == RunObservers(observers, old(obj), record)
      {
        assert observers[i..][1..] == observers[i + 1..];
        obj := observers[i](obj, record);
        i := i + 1;
      }
    }

    method AppendHistory(r: Record<S, E>)
      modifies this`history
      ensures history == Appended(def.capacity, old(history), r)
    {
      if def.capacity == 0 {
        history := history + [r];
        return;
      }
      if |history| >= def.capacity {
        // shift everything one slot to the left, then drop the duplicated last slot
        history := history[1..] + [history[|history| - 1]];
        history := history[..|history| - 1];
      }
      history := history + [r];
    }

    /** Runs every abortable stage in order; `Dispatch` runs the same stages as one flat list. */
    method RunAbortable(t: Transition<C, S, E>, record: Record<S, E>)
      returns (aborted: Option<(Phase, string)>)
      modifies this`obj
      ensures RunPipeline(PipelineSteps(def, t, current), old(obj), record) ==
              match aborted { case Some(a) => Aborted(obj, a.0, a.1) case None => Passed(obj) }
    {
      ghost var g1 := EnvelopeSteps<C, S, E>(GuardPhase, def.globalGuards);
      ghost var g2 := EnvelopeSteps<C, S, E>(GuardPhase, t.guards);
      ghost var a1 := RecordSteps(BeforeExitPhase, t.beforeExit);
      ghost var a2 := RecordSteps(BeforeExitPhase, OnExit(def, current));
      ghost var a3 := RecordSteps(BeforeEnterPhase, t.beforeEnter);
      ghost var a4 := EnvelopeSteps<C, S, E>(EffectPhase, def.globalEffects);
      ghost var a5 := EnvelopeSteps<C, S, E>(EffectPhase, t.effects);
      RunPipelineConcat(GuardSteps(def, t), ActionSteps(def, t, current), obj, record);

      RunPipelineConcat(g1, g2, obj, record);
      var failure := RunEnvelopeFuncs(GuardPhase, def.globalGuards, record);
      if failure.Some? { return Some((GuardPhase, failure.value)); }
      failure := RunEnvelopeFuncs(GuardPhase, t.guards, record);
      if failure.Some? { return Some((GuardPhase, failure.value)); }

      RunPipelineConcat(a1, a2 + (a3 + (a4 + a5)), obj, record);
      failure := RunRecordHooks(BeforeExitPhase, t.beforeExit, record);
      if failure.Some? { return Some((BeforeExitPhase, failure.value)); }
      RunPipelineConcat(a2, a3 + (a4 + a5), obj, record);
      if current in def.states {
        failure := RunRecordHooks(BeforeExitPhase, def.states[current].onExit, record);
        if failure.Some? { return Some((BeforeExitPhase, failure.value)); }
      }
      RunPipelineConcat(a3, a4 + a5, obj, record);
      failure := RunRecordHooks(BeforeEnterPhase, t.beforeEnter, record);
      if failure.Some? { return Some((BeforeEnterPhase, failure.value)); }
      RunPipelineConcat(a4, a5, obj, record);
      failure := RunEnvelopeFuncs(EffectPhase, def.globalEffects, record);
      if failure.Some? { return Some((EffectPhase, failure.value)); }
      failure := RunEnvelopeFuncs(EffectPhase, t.effects, record);
      if failure.Some? { return Some((EffectPhase, failure.value)); }
      return None;
    }

    /** From here on the transition is permanent: what the hooks report no longer matters. */
    method Commit(t: Transition<C, S, E>, record: Record<S, E>)
      modifies this
      ensures Snapshot() == Committed(def, old(Snapshot()), t, record, old(obj))
    {
      current := t.to;
      seqNo := seqNo + 1;
      if t.to in def.states {
        RunPostCommit(def.states[t.to].onEntry, record);
      }
      RunPostCommit(t.afterExit, record);
      RunPostCommit(t.afterEnter, record);
      AppendHistory(record);
      Notify(def.observers, record);
      inFlight := false;
    }

    method Send(env: Envelope<E>) returns (error: Option<SendError<S, E>>)
      modifies this
      ensures SendResult(Snapshot(), error) == Dispatch(def, old(Snapshot()), env)
    {
      if inFlight {
        return Some(ConcurrentTransition);
      }
      inFlight := true;
      if IsTerminal(def, current) {
        inFlight := false;
        return Some(TerminalState);
      }
      if (current, env.event) !in def.index {
        inFlight := false;
        return Some(InvalidTransition(current, env.event));
      }
      var t := def.index[(current, env.event)];
      var record := Record(seqNo + 1, current, t.to, env);
      var aborted := RunAbortable(t, record);
      if aborted.Some? {
        inFlight := false;
        return Some(TransitionFailed(current, t.to, env.event, aborted.value.0, aborted.value.1));
      }
      Commit(t, record);
      return None;
    }

    method Can(event: E, env: Envelope<E>) returns (allowed: bool)
      modifies this`obj
      ensures (obj, allowed) == Probed(def, old(Snapshot()), event, env)
    {
      if IsTerminal(def, current) || (current, event) !in def.index {
        return false;
      }
      var t := def.index[(current, event)];
      ghost var record := Record(seqNo + 1, current, t.to, env);
      RunPipelineConcat(EnvelopeSteps<C, S, E>(GuardPhase, def.globalGuards),
                        EnvelopeSteps<C, S, E>(GuardPhase, t.guards), obj, record);
      var failure := RunEnvelopeFuncs(GuardPhase, def.globalGuards, Record(seqNo + 1, current, t.to, env));
      if failure.Some? {
        return false;
      }
      failure := RunEnvelopeFuncs(GuardPhase, t.guards, Record(seqNo + 1, current, t.to, env));
      return failure.None?;
    }
  }
}
