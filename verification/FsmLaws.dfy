/** What Send and Can guarantee for one event, whatever the hooks do. */
module FsmLaws {
  import opened Wrappers
  import opened Fsm

  /** The step never writes to the entity. */
  ghost predicate Pure<C(!new), S(!new), E(!new)>(step: Step<C, S, E>) {
    forall obj, record :: RunStep(step, obj, record).obj == obj
  }

  /** The step never reports an error. */
  ghost predicate Infallible<C(!new), S(!new), E(!new)>(step: Step<C, S, E>) {
    forall obj, record :: RunStep(step, obj, record).failure.None?
  }

  ghost predicate PureGuards<C(!new), S(!new), E(!new)>(def: Definition<C, S, E>) {
    forall k, step :: k in def.index && step in GuardSteps(def, def.index[k]) ==> Pure(step)
  }

  ghost predicate InfallibleActions<C(!new), S(!new), E(!new)>(def: Definition<C, S, E>) {
    forall k, step :: k in def.index && step in ActionSteps(def, def.index[k], k.0) ==> Infallible(step)
  }

  /** Guards only look, and what runs after the guards cannot fail. Every domain table is tame. */
  ghost predicate Tame<C(!new), S(!new), E(!new)>(def: Definition<C, S, E>) {
    PureGuards(def) && InfallibleActions(def)
  }

  lemma {:induction false} PureStepsKeepEntity<C(!new), S(!new), E(!new)>(
      steps: seq<Step<C, S, E>>, obj: C, record: Record<S, E>)
    requires forall step :: step in steps ==> Pure(step)
    ensures RunPipeline(steps, obj, record).obj == obj
  {
    if steps == [] {
    } else {
      assert Pure(steps[0]);
      PureStepsKeepEntity(steps[1..], obj, record);
    }
  }

  lemma {:induction false} InfallibleStepsPass<C(!new), S(!new), E(!new)>(
      steps: seq<Step<C, S, E>>, obj: C, record: Record<S, E>)
    requires forall step :: step in steps ==> Infallible(step)
    ensures RunPipeline(steps, obj, record).Passed?
  {
    if steps == [] {
    } else {
      assert Infallible(steps[0]);
      InfallibleStepsPass(steps[1..], RunStep(steps[0], obj, record).obj, record);
    }
  }

  lemma {:induction false} EnvelopeStepsPhase<C, S, E>(phase: Phase, fns: seq<EnvelopeFunc<C, E>>)
    ensures forall step :: step in EnvelopeSteps<C, S, E>(phase, fns) ==> step.phase == phase
  {
    if fns == [] {
    } else {
      EnvelopeStepsPhase<C, S, E>(phase, fns[1..]);
    }
  }

  lemma {:induction false} RecordStepsPhase<C, S, E>(phase: Phase, hooks: seq<HookFunc<C, S, E>>)
    ensures forall step :: step in RecordSteps(phase, hooks) ==> step.phase == phase
  {
    if hooks == [] {
    } else {
      RecordStepsPhase(phase, hooks[1..]);
    }
  }

  lemma ActionStepsPhase<C, S, E>(def: Definition<C, S, E>, t: Transition<C, S, E>, from: S)
    ensures forall step :: step in ActionSteps(def, t, from) ==> step.phase != GuardPhase
  {
    RecordStepsPhase(BeforeExitPhase, t.beforeExit);
    RecordStepsPhase(BeforeExitPhase, OnExit(def, from));
    RecordStepsPhase(BeforeEnterPhase, t.beforeEnter);
    EnvelopeStepsPhase<C, S, E>(EffectPhase, def.globalEffects);
    EnvelopeStepsPhase<C, S, E>(EffectPhase, t.effects);
  }

  /** An abort carries the phase of one of the steps that were run. */
  lemma {:induction false} AbortPhase<C, S, E>(steps: seq<Step<C, S, E>>, obj: C, record: Record<S, E>)
    requires RunPipeline(steps, obj, record).Aborted?
    ensures exists step :: step in steps && step.phase == RunPipeline(steps, obj, record).phase
  {
    var out := RunStep(steps[0], obj, record);
    if out.failure.Some? {
      assert steps[0] in steps;
    } else {
      AbortPhase(steps[1..], out.obj, record);
    }
  }

  /**
  Send is all-or-nothing on the machine for arbitrary hooks: after an error the state,
  the sequence number and the history are what they were and the in-flight flag is
  down; only the entity may carry writes of hooks that ran before the failing one. A
  re-entrant call changes nothing at all. A success commits exactly the indexed edge.
  */
  lemma SendAllOrNothing<C, S, E>(def: Definition<C, S, E>, st: MachineState<C, S, E>, env: Envelope<E>)
    ensures var r := Dispatch(def, st, env);
            && (st.inFlight ==> r == SendResult(st, Some(ConcurrentTransition)))
            && (!st.inFlight ==> !r.state.inFlight && r.error != Some(ConcurrentTransition))
            && (r.error.Some? ==> r.state == st.(obj := r.state.obj))
            && (r.error.None? ==>
                  && (st.current, env.event) in def.index && !IsTerminal(def, st.current)
                  && r.state.current == def.index[(st.current, env.event)].to
                  && r.state.seqNo == st.seqNo + 1
                  && r.state.history == Appended(def.capacity, st.history,
                       Record(st.seqNo + 1, st.current, def.index[(st.current, env.event)].to, env)))
  {
  }

  /** Which error each refusal before the guards gets, and that it changes nothing: a send in flight comes first. */
  lemma RefusalsAreNamed<C, S, E>(def: Definition<C, S, E>, st: MachineState<C, S, E>, env: Envelope<E>)
    ensures var r, terminal := Dispatch(def, st, env),
                               st.current in def.states && def.states[st.current].isTerminal;
            var registered := (st.current, env.event) in def.index;
            && (r.error == Some(ConcurrentTransition) <==> st.inFlight)
            && (r.error == Some(TerminalState) <==> !st.inFlight && terminal)
            && (r.error == Some(InvalidTransition(st.current, env.event)) <==> !st.inFlight && !terminal && !registered)
            && (st.inFlight || terminal || !registered ==> r.state == st && r.error.Some?)
  {
  }

  /** With pure guards, an event refused before or by the guards leaves the entity untouched too. */
  lemma GuardRejectionIsInvisible<C(!new), S(!new), E(!new)>(
      def: Definition<C, S, E>, st: MachineState<C, S, E>, env: Envelope<E>)
    requires PureGuards(def)
    ensures var r := Dispatch(def, st, env);
            r.error.Some? && (r.error.value.TransitionFailed? ==> r.error.value.phase == GuardPhase) ==> r.state == st
  {
    var r := Dispatch(def, st, env);
    var key := (st.current, env.event);
    if r.error.Some? && r.error.value.TransitionFailed? && r.error.value.phase == GuardPhase {
      var t := def.index[key];
      var record := RecordFor(st, t, env);
      RunPipelineConcat(GuardSteps(def, t), ActionSteps(def, t, st.current), st.obj, record);
      PureStepsKeepEntity(GuardSteps(def, t), st.obj, record);
      if RunPipeline(GuardSteps(def, t), st.obj, record).Passed? {
        ActionStepsPhase(def, t, st.current);
        AbortPhase(ActionSteps(def, t, st.current), st.obj, record);
      }
    }
  }

  /** On a tame definition an error leaves the whole snapshot, entity included, as it was. */
  lemma TameSendAllOrNothing<C(!new), S(!new), E(!new)>(
      def: Definition<C, S, E>, st: MachineState<C, S, E>, env: Envelope<E>)
    requires Tame(def)
    ensures Dispatch(def, st, env).error.Some? ==> Dispatch(def, st, env).state == st
  {
    var r := Dispatch(def, st, env);
    if r.error.Some? && r.error.value.TransitionFailed? {
      var t := def.index[(st.current, env.event)];
      var record := RecordFor(st, t, env);
      RunPipelineConcat(GuardSteps(def, t), ActionSteps(def, t, st.current), st.obj, record);
      PureStepsKeepEntity(GuardSteps(def, t), st.obj, record);
      InfallibleStepsPass(ActionSteps(def, t, st.current), st.obj, record);
    }
  }

  /**
  With pure guards and infallible hooks and effects, Can changes nothing and answers
  exactly whether Send would succeed.
  */
  lemma CanIffSend<C(!new), S(!new), E(!new)>(
      def: Definition<C, S, E>, st: MachineState<C, S, E>, env: Envelope<E>)
    requires Tame(def) && !st.inFlight
    ensures Probed(def, st, env.event, env) == (st.obj, Dispatch(def, st, env).error.None?)
  {
    var key := (st.current, env.event);
    if !IsTerminal(def, st.current) && key in def.index {
      var t := def.index[key];
      var record := RecordFor(st, t, env);
      RunPipelineConcat(GuardSteps(def, t), ActionSteps(def, t, st.current), st.obj, record);
      PureStepsKeepEntity(GuardSteps(def, t), st.obj, record);
      InfallibleStepsPass(ActionSteps(def, t, st.current), st.obj, record);
    }
  }
}
