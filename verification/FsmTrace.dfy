/**
In which order Send runs the functions of a definition (backend/utils/FSM.go). Every function
of the definition leaves a mark on the entity, and some of them fail; the marks that a send
leaves behind, and the error it reports, tell what was run.
*/
module FsmTrace {
  import opened Wrappers
  import opened Fsm

  datatype Mark = Mark(name: string, fails: bool)

  type Trace = seq<Mark>

  function Verdict(m: Mark): Option<string> { if m.fails then Some(m.name) else None }

  function Guarding<E>(m: Mark): EnvelopeFunc<Trace, E> {
    (t: Trace, env: Envelope<E>) => Outcome(t + [m], Verdict(m))
  }

  function Hooking<S, E>(m: Mark): HookFunc<Trace, S, E> {
    (t: Trace, r: Record<S, E>) => Outcome(t + [m], Verdict(m))
  }

  function Observing<S, E>(m: Mark): ObserverFunc<Trace, S, E> {
    (t: Trace, r: Record<S, E>) => t + [m]
  }

  function Guards<E>(marks: seq<Mark>): (fns: seq<EnvelopeFunc<Trace, E>>)
    ensures |fns| == |marks|
  {
    if marks == [] then [] else [Guarding(marks[0])] + Guards(marks[1..])
  }

  function Hooks<S, E>(marks: seq<Mark>): (fns: seq<HookFunc<Trace, S, E>>)
    ensures |fns| == |marks|
  {
    if marks == [] then [] else [Hooking(marks[0])] + Hooks(marks[1..])
  }

  function Observers<S, E>(marks: seq<Mark>): (fns: seq<ObserverFunc<Trace, S, E>>)
    ensures |fns| == |marks|
  {
    if marks == [] then [] else [Observing(marks[0])] + Observers(marks[1..])
  }

  /** The marks of the functions that can be registered, by where they are registered. */
  datatype Registered = Registered(
    globalGuards: seq<Mark>, globalEffects: seq<Mark>, observers: seq<Mark>,
    guards: seq<Mark>, effects: seq<Mark>,
    beforeExit: seq<Mark>, beforeEnter: seq<Mark>, afterExit: seq<Mark>, afterEnter: seq<Mark>,
    exitOfSource: seq<Mark>, entryOfSource: seq<Mark>, exitOfTarget: seq<Mark>, entryOfTarget: seq<Mark>)

  function EdgeWith<S, E>(from: S, event: E, to: S, g: Registered): Transition<Trace, S, E> {
    Transition(from, event, to, Guards(g.guards), Guards(g.effects), Hooks(g.beforeExit), Hooks(g.beforeEnter),
               Hooks(g.afterExit), Hooks(g.afterEnter))
  }

  function DefinitionWith<S(==), E(==)>(from: S, event: E, to: S, g: Registered, capacity: nat)
    : Definition<Trace, S, E>
    requires from != to
  {
    Definition(map[from := StateMeta(false, true, Hooks(g.entryOfSource), Hooks(g.exitOfSource)),
                   to := StateMeta(false, false, Hooks(g.entryOfTarget), Hooks(g.exitOfTarget))],
               map[(from, event) := EdgeWith(from, event, to, g)],
               Observers(g.observers), Guards(g.globalGuards), Guards(g.globalEffects), capacity)
  }

  predicate Fine(marks: seq<Mark>) { forall i :: 0 <= i < |marks| ==> !marks[i].fails }

  // ---------------------------------------------------------------------------
  // The abortable part
  // ---------------------------------------------------------------------------

  /** A mark as a step of the pipeline, `hook` telling whether it is shown the record. */
  datatype Staged = Staged(phase: Phase, hook: bool, mark: Mark)

  function Stage(phase: Phase, hook: bool, marks: seq<Mark>): seq<Staged> {
    seq(|marks|, i requires 0 <= i < |marks| => Staged(phase, hook, marks[i]))
  }

  function MarksOf(ss: seq<Staged>): seq<Mark> { seq(|ss|, i requires 0 <= i < |ss| => ss[i].mark) }

  function StepOf<S, E>(s: Staged): Step<Trace, S, E> {
    if s.hook then RecordStep(s.phase, Hooking(s.mark)) else EnvelopeStep(s.phase, Guarding(s.mark))
  }

  function StepsOf<S, E>(ss: seq<Staged>): seq<Step<Trace, S, E>> {
    if ss == [] then [] else [StepOf(ss[0])] + StepsOf(ss[1..])
  }

  lemma {:induction false} StepsOfConcat<S, E>(a: seq<Staged>, b: seq<Staged>)
    ensures StepsOf<S, E>(a + b) == StepsOf<S, E>(a) + StepsOf<S, E>(b)
  {
    if a == [] {
      assert a + b == b;
    } else {
      assert (a + b)[1..] == a[1..] + b;
      StepsOfConcat<S, E>(a[1..], b);
    }
  }

  lemma {:induction false} GuardsAreSteps<S, E>(phase: Phase, marks: seq<Mark>)
    ensures EnvelopeSteps<Trace, S, E>(phase, Guards(marks)) == StepsOf<S, E>(Stage(phase, false, marks))
  {
    if marks == [] {
    } else {
      GuardsAreSteps<S, E>(phase, marks[1..]);
      assert Stage(phase, false, marks)[1..] == Stage(phase, false, marks[1..]);
      assert Guards<E>(marks)[1..] == Guards<E>(marks[1..]);
    }
  }

  lemma {:induction false} HooksAreSteps<S, E>(phase: Phase, marks: seq<Mark>)
    ensures RecordSteps<Trace, S, E>(phase, Hooks(marks)) == StepsOf<S, E>(Stage(phase, true, marks))
  {
    if marks == [] {
    } else {
      HooksAreSteps<S, E>(phase, marks[1..]);
      assert Stage(phase, true, marks)[1..] == Stage(phase, true, marks[1..]);
      assert Hooks<S, E>(marks)[1..] == Hooks<S, E>(marks[1..]);
    }
  }

  lemma RestIsFine(ss: seq<Staged>, i: nat)
    requires 0 < i <= |ss| && Fine(MarksOf(ss[..i]))
    ensures Fine(MarksOf(ss[1..][..i - 1]))
  {
    assert MarksOf(ss[1..][..i - 1]) == MarksOf(ss[..i])[1..];
  }

  lemma FirstStep<S, E>(ss: seq<Staged>, t: Trace, record: Record<S, E>)
    requires ss != []
    ensures var steps, first := StepsOf<S, E>(ss), ss[0];
            && steps != [] && steps[0].phase == first.phase && steps[1..] == StepsOf<S, E>(ss[1..])
            && RunStep(steps[0], t, record) == Outcome(t + [first.mark], Verdict(first.mark))
    ensures MarksOf(ss)[0] == ss[0].mark && MarksOf(ss)[1..] == MarksOf(ss[1..])
  {
    assert StepsOf<S, E>(ss)[0] == StepOf<S, E>(ss[0]);
  }

  lemma MarkByMark(t: Trace, marks: seq<Mark>)
    requires marks != []
    ensures (t + [marks[0]]) + marks[1..] == t + marks
  {
  }

  /** Steps that leave marks and do not fail leave all of them. */
  lemma {:induction false} RunFine<S, E>(ss: seq<Staged>, t: Trace, record: Record<S, E>)
    requires Fine(MarksOf(ss))
    ensures RunPipeline(StepsOf<S, E>(ss), t, record) == Passed(t + MarksOf(ss))
  {
    if ss == [] {
      assert t + MarksOf(ss) == t;
    } else {
      FirstStep(ss, t, record);
      RunFine(ss[1..], t + [ss[0].mark], record);
      MarkByMark(t, MarksOf(ss));
    }
  }

  /** Otherwise they leave those up to the first that fails, and its phase is reported. */
  lemma {:induction false} RunFailing<S, E>(ss: seq<Staged>, t: Trace, record: Record<S, E>, i: nat)
    requires i < |ss| && ss[i].mark.fails && Fine(MarksOf(ss[..i]))
    ensures RunPipeline(StepsOf<S, E>(ss), t, record) ==
            Aborted(t + MarksOf(ss[..i + 1]), ss[i].phase, ss[i].mark.name)
    decreases i
  {
    FirstStep(ss, t, record);
    if i == 0 {
      assert MarksOf(ss[..1]) == [ss[0].mark];
    } else {
      assert MarksOf(ss[..i])[0] == ss[0].mark;
      RestIsFine(ss, i);
      RunFailing(ss[1..], t + [ss[0].mark], record, i - 1);
      assert MarksOf(ss[..i + 1])[1..] == MarksOf(ss[1..][..i]);
      MarkByMark(t, MarksOf(ss[..i + 1]));
    }
  }

  /** The stages before the commit point, in the order that is documented for Send. */
  function Abortable(g: Registered): seq<Staged> {
    Stage(GuardPhase, false, g.globalGuards) + Stage(GuardPhase, false, g.guards)
    + (Stage(BeforeExitPhase, true, g.beforeExit)
       + (Stage(BeforeExitPhase, true, g.exitOfSource)
          + (Stage(BeforeEnterPhase, true, g.beforeEnter)
             + (Stage(EffectPhase, false, g.globalEffects) + Stage(EffectPhase, false, g.effects)))))
  }

  lemma AbortableSteps<S(!new), E(!new)>(from: S, event: E, to: S, g: Registered, capacity: nat)
    requires from != to
    ensures PipelineSteps(DefinitionWith(from, event, to, g, capacity), EdgeWith(from, event, to, g), from) ==
            StepsOf<S, E>(Abortable(g))
  {
    var guards := Stage(GuardPhase, false, g.globalGuards) + Stage(GuardPhase, false, g.guards);
    var effects := Stage(EffectPhase, false, g.globalEffects) + Stage(EffectPhase, false, g.effects);
    var enter := Stage(BeforeEnterPhase, true, g.beforeEnter);
    var exit := Stage(BeforeExitPhase, true, g.exitOfSource);
    var before := Stage(BeforeExitPhase, true, g.beforeExit);
    StepsOfConcat<S, E>(Stage(GuardPhase, false, g.globalGuards), Stage(GuardPhase, false, g.guards));
    StepsOfConcat<S, E>(Stage(EffectPhase, false, g.globalEffects), Stage(EffectPhase, false, g.effects));
    StepsOfConcat<S, E>(enter, effects);
    StepsOfConcat<S, E>(exit, enter + effects);
    StepsOfConcat<S, E>(before, exit + (enter + effects));
    StepsOfConcat<S, E>(guards, before + (exit + (enter + effects)));
    GuardsAreSteps<S, E>(GuardPhase, g.globalGuards);
    GuardsAreSteps<S, E>(GuardPhase, g.guards);
    GuardsAreSteps<S, E>(EffectPhase, g.globalEffects);
    GuardsAreSteps<S, E>(EffectPhase, g.effects);
    HooksAreSteps<S, E>(BeforeExitPhase, g.beforeExit);
    HooksAreSteps<S, E>(BeforeExitPhase, g.exitOfSource);
    HooksAreSteps<S, E>(BeforeEnterPhase, g.beforeEnter);
  }

  /** The marks of everything that runs before the commit point. */
  function MarksBefore(g: Registered): seq<Mark> {
    g.globalGuards + g.guards + g.beforeExit + g.exitOfSource + g.beforeEnter + g.globalEffects + g.effects
  }

  function PhaseAt(g: Registered, i: nat): Phase {
    var exits := |g.globalGuards| + |g.guards|;
    var enters := exits + |g.beforeExit| + |g.exitOfSource|;
    if i < exits then GuardPhase
    else if i < enters then BeforeExitPhase
    else if i < enters + |g.beforeEnter| then BeforeEnterPhase
    else EffectPhase
  }

  lemma AbortableMarks(g: Registered)
    ensures MarksOf(Abortable(g)) == MarksBefore(g)
    ensures forall i :: 0 <= i < |Abortable(g)| ==> Abortable(g)[i].phase == PhaseAt(g, i)
  {
  }

  // ---------------------------------------------------------------------------
  // Behind the commit point
  // ---------------------------------------------------------------------------

  lemma {:induction false} RunHookMarks<S, E>(marks: seq<Mark>, t: Trace, record: Record<S, E>)
    ensures RunHooks(Hooks<S, E>(marks), t, record) == t + marks
  {
    if marks == [] {
    } else {
      var fns := Hooks<S, E>(marks);
      assert fns[0](t, record).obj == t + [marks[0]] && fns[1..] == Hooks<S, E>(marks[1..]);
      RunHookMarks(marks[1..], t + [marks[0]], record);
      MarkByMark(t, marks);
    }
  }

  lemma {:induction false} RunObserverMarks<S, E>(marks: seq<Mark>, t: Trace, record: Record<S, E>)
    ensures RunObservers(Observers<S, E>(marks), t, record) == t + marks
  {
    if marks == [] {
    } else {
      var fns := Observers<S, E>(marks);
      assert fns[0](t, record) == t + [marks[0]] && fns[1..] == Observers<S, E>(marks[1..]);
      RunObserverMarks(marks[1..], t + [marks[0]], record);
      MarkByMark(t, marks);
    }
  }

  lemma CommittedMarks<S(!new), E(!new)>(
      from: S, event: E, to: S, g: Registered, capacity: nat,
      st: MachineState<Trace, S, E>, record: Record<S, E>, t: Trace)
    requires from != to
    ensures Committed(DefinitionWith(from, event, to, g, capacity), st, EdgeWith(from, event, to, g), record, t).obj ==
            t + g.entryOfTarget + g.afterExit + g.afterEnter + g.observers
  {
    RunHookMarks(g.entryOfTarget, t, record);
    RunHookMarks(g.afterExit, t + g.entryOfTarget, record);
    RunHookMarks(g.afterEnter, t + g.entryOfTarget + g.afterExit, record);
    RunObserverMarks(g.observers, t + g.entryOfTarget + g.afterExit + g.afterEnter, record);
  }

  // ---------------------------------------------------------------------------
  // The order of a send
  // ---------------------------------------------------------------------------

  lemma MarksOfPrefix(ss: seq<Staged>, i: nat)
    requires i <= |ss|
    ensures MarksOf(ss[..i]) == MarksOf(ss)[..i]
    ensures i < |ss| ==> MarksOf(ss)[i] == ss[i].mark
  {
  }

  lemma PassedSend<S(!new), E(!new)>(
      from: S, event: E, to: S, g: Registered, capacity: nat,
      st: MachineState<Trace, S, E>, metadata: map<string, string>)
    requires from != to && !st.inFlight && st.current == from && Fine(MarksBefore(g))
    ensures var r := Dispatch(DefinitionWith(from, event, to, g, capacity), st, Envelope(event, metadata));
            && r.error.None? && r.state.current == to
            && r.state.obj == st.obj + MarksBefore(g) + g.entryOfTarget + g.afterExit + g.afterEnter + g.observers
  {
    var record := RecordFor(st, EdgeWith(from, event, to, g), Envelope(event, metadata));
    AbortableSteps(from, event, to, g, capacity);
    AbortableMarks(g);
    RunFine(Abortable(g), st.obj, record);
    CommittedMarks(from, event, to, g, capacity, st, record, st.obj + MarksBefore(g));
  }

  lemma FailedSend<S(!new), E(!new)>(
      from: S, event: E, to: S, g: Registered, capacity: nat,
      st: MachineState<Trace, S, E>, metadata: map<string, string>, i: nat)
    requires from != to && !st.inFlight && st.current == from
    requires i < |MarksBefore(g)| && MarksBefore(g)[i].fails && Fine(MarksBefore(g)[..i])
    ensures var r := Dispatch(DefinitionWith(from, event, to, g, capacity), st, Envelope(event, metadata));
            && r.error == Some(TransitionFailed(from, to, event, PhaseAt(g, i), MarksBefore(g)[i].name))
            && r.state == st.(obj := st.obj + MarksBefore(g)[..i + 1])
  {
    var record := RecordFor(st, EdgeWith(from, event, to, g), Envelope(event, metadata));
    AbortableSteps(from, event, to, g, capacity);
    AbortableMarks(g);
    MarksOfPrefix(Abortable(g), i);
    MarksOfPrefix(Abortable(g), i + 1);
    RunFailing(Abortable(g), st.obj, record, i);
  }

  /**
  Send runs every registered function once, in this order: global guards, the edge's guards, its
  hooks before exit, those of the source state, its hooks before entry, global effects and the
  edge's effects; and, once it is past these and whatever they report, the entry hooks of the
  target state, the edge's hooks after exit and after entry, and the observers. The first one of
  the former that fails is the last that runs, and the error names it and its phase. Entry hooks
  of the source and exit hooks of the target have no part in it.
  */
  lemma SendRunsInOrder<S(!new), E(!new)>(
      from: S, event: E, to: S, g: Registered, capacity: nat,
      st: MachineState<Trace, S, E>, metadata: map<string, string>)
    requires from != to && !st.inFlight && st.current == from
    ensures var r := Dispatch(DefinitionWith(from, event, to, g, capacity), st, Envelope(event, metadata));
            var before := g.globalGuards + g.guards + g.beforeExit + g.exitOfSource + g.beforeEnter
                          + g.globalEffects + g.effects;
            var after := g.entryOfTarget + g.afterExit + g.afterEnter + g.observers;
            && (Fine(before) ==> r.error.None? && r.state.current == to && r.state.obj == st.obj + before + after)
            && (forall i :: 0 <= i < |before| && before[i].fails && Fine(before[..i]) ==>
                  && r.error == Some(TransitionFailed(from, to, event, PhaseAt(g, i), before[i].name))
                  && r.state == st.(obj := st.obj + before[..i + 1]))
  {
    if Fine(MarksBefore(g)) {
      PassedSend(from, event, to, g, capacity, st, metadata);
      TwoHalves(st.obj, MarksBefore(g), g.entryOfTarget, g.afterExit, g.afterEnter, g.observers);
    }
    var r := Dispatch(DefinitionWith(from, event, to, g, capacity), st, Envelope(event, metadata));
    forall i | 0 <= i < |MarksBefore(g)| && MarksBefore(g)[i].fails && Fine(MarksBefore(g)[..i])
      ensures r.error == Some(TransitionFailed(from, to, event, PhaseAt(g, i), MarksBefore(g)[i].name))
      ensures r.state == st.(obj := st.obj + MarksBefore(g)[..i + 1])
    {
      FailedSend(from, event, to, g, capacity, st, metadata, i);
    }
  }

  lemma TwoHalves(t: Trace, before: Trace, a: Trace, b: Trace, c: Trace, d: Trace)
    ensures t + before + a + b + c + d == t + before + (a + b + c + d)
  {
  }
}
