/** Properties of whole runs of a machine. */
module FsmRuns {
  import opened Wrappers
  import opened Fsm
  import opened FsmLaws

  /** What can happen to a machine: an event is sent, or other code writes to its entity. */
  datatype Stimulus<C, E> = Fire(env: Envelope<E>) | Touch(obj: C)

  function After<C, S(==), E(==)>(def: Definition<C, S, E>, st: MachineState<C, S, E>, x: Stimulus<C, E>)
    : MachineState<C, S, E>
  {
    match x
    case Fire(env) => Dispatch(def, st, env).state
    case Touch(obj) => st.(obj := obj)
  }

  function Run<C, S(==), E(==)>(def: Definition<C, S, E>, st: MachineState<C, S, E>, xs: seq<Stimulus<C, E>>)
    : MachineState<C, S, E>
    decreases |xs|
  {
    if xs == [] then st else Run(def, After(def, st, xs[0]), xs[1..])
  }

  predicate Accepts<C, S(==), E(==)>(def: Definition<C, S, E>, st: MachineState<C, S, E>, x: Stimulus<C, E>) {
    x.Fire? && Dispatch(def, st, x.env).error.None?
  }

  /** The unbounded log of committed transitions that the history buffer stands in for. */
  ghost function FullLog<C, S, E>(def: Definition<C, S, E>, st: MachineState<C, S, E>, xs: seq<Stimulus<C, E>>)
    : seq<Record<S, E>>
    decreases |xs|
  {
    if xs == [] then []
    else
      var rest := FullLog(def, After(def, st, xs[0]), xs[1..]);
      if Accepts(def, st, xs[0]) then [CommittedRecord(def, st, xs[0])] + rest
      else rest
  }

  /** The last `capacity` entries, or all of them when the capacity is 0. */
  function Window<R>(capacity: nat, log: seq<R>): seq<R> {
    if capacity == 0 || |log| <= capacity then log else log[|log| - capacity..]
  }

  /** `log` leads from `first` to `last` along indexed edges and is numbered from `base` + 1. */
  ghost predicate Chained<C, S, E>(def: Definition<C, S, E>, base: nat, first: S, log: seq<Record<S, E>>, last: S)
    decreases |log|
  {
    if log == [] then first == last
    else
      && log[0].number == base + 1
      && log[0].from == first
      && (first, log[0].envelope.event) in def.index
      && !IsTerminal(def, first)
      && log[0].to == def.index[(first, log[0].envelope.event)].to
      && Chained(def, base + 1, log[0].to, log[1..], last)
  }

  lemma AppendWindow<R>(capacity: nat, log: seq<R>, r: R)
    ensures Appended(capacity, Window(capacity, log), r) == Window(capacity, log + [r])
  {
  }

  /** The record an accepted stimulus commits. */
  ghost function CommittedRecord<C, S, E>(def: Definition<C, S, E>, st: MachineState<C, S, E>, x: Stimulus<C, E>)
    : Record<S, E>
    requires Accepts(def, st, x)
  {
    RecordFor(st, def.index[(st.current, x.env.event)], x.env)
  }

  /** What one stimulus does to the machine's own fields. */
  lemma StepOnMachine<C, S, E>(def: Definition<C, S, E>, st: MachineState<C, S, E>, x: Stimulus<C, E>)
    requires !st.inFlight
    ensures var next := After(def, st, x);
            && !next.inFlight
            && (!Accepts(def, st, x) ==>
                  next.history == st.history && next.seqNo == st.seqNo && next.current == st.current)
            && (Accepts(def, st, x) ==>
                  var r := CommittedRecord(def, st, x);
                  && next.history == Appended(def.capacity, st.history, r)
                  && next.seqNo == st.seqNo + 1 && next.current == r.to
                  && (st.current, r.envelope.event) in def.index && !IsTerminal(def, st.current)
                  && r == Record(st.seqNo + 1, st.current, def.index[(st.current, r.envelope.event)].to, r.envelope))
  {
    if x.Fire? {
      SendAllOrNothing(def, st, x.env);
    }
  }

  lemma ChainCons<C, S, E>(
      def: Definition<C, S, E>, base: nat, r: Record<S, E>, rest: seq<Record<S, E>>, last: S)
    requires Chained(def, base + 1, r.to, rest, last)
    requires r.number == base + 1 && (r.from, r.envelope.event) in def.index && !IsTerminal(def, r.from)
    requires r.to == def.index[(r.from, r.envelope.event)].to
    ensures Chained(def, base, r.from, [r] + rest, last)
  {
    assert ([r] + rest)[1..] == rest;
  }

  /** A run from `st`, whose history stands in for `past`, has ended at `end` and committed `log`. */
  ghost predicate Explains<C, S, E>(
      def: Definition<C, S, E>, st: MachineState<C, S, E>, past: seq<Record<S, E>>, log: seq<Record<S, E>>,
      end: MachineState<C, S, E>)
  {
    && !end.inFlight
    && end.history == Window(def.capacity, past + log)
    && end.seqNo == st.seqNo + |log|
    && Chained(def, st.seqNo, st.current, log, end.current)
  }

  lemma AcceptedStep<C, S, E>(
      def: Definition<C, S, E>, st: MachineState<C, S, E>, past: seq<Record<S, E>>, x: Stimulus<C, E>)
    requires !st.inFlight && st.history == Window(def.capacity, past) && Accepts(def, st, x)
    ensures var next := After(def, st, x);
            !next.inFlight && next.history == Window(def.capacity, past + [CommittedRecord(def, st, x)])
  {
    StepOnMachine(def, st, x);
    AppendWindow(def.capacity, past, CommittedRecord(def, st, x));
  }

  lemma PrependRecord<R>(past: seq<R>, r: R, rest: seq<R>)
    ensures past + ([r] + rest) == (past + [r]) + rest && |[r] + rest| == 1 + |rest|
  {
  }

  lemma AcceptedChain<C, S, E>(
      def: Definition<C, S, E>, st: MachineState<C, S, E>, x: Stimulus<C, E>, rest: seq<Record<S, E>>, last: S)
    requires !st.inFlight && Accepts(def, st, x)
    requires Chained(def, st.seqNo + 1, CommittedRecord(def, st, x).to, rest, last)
    ensures Chained(def, st.seqNo, st.current, [CommittedRecord(def, st, x)] + rest, last)
  {
    StepOnMachine(def, st, x);
    ChainCons(def, st.seqNo, CommittedRecord(def, st, x), rest, last);
  }

  lemma AcceptedFirst<C, S, E>(
      def: Definition<C, S, E>, st: MachineState<C, S, E>, past: seq<Record<S, E>>, x: Stimulus<C, E>,
      rest: seq<Record<S, E>>, end: MachineState<C, S, E>)
    requires !st.inFlight && Accepts(def, st, x)
    requires Explains(def, After(def, st, x), past + [CommittedRecord(def, st, x)], rest, end)
    ensures Explains(def, st, past, [CommittedRecord(def, st, x)] + rest, end)
  {
    StepOnMachine(def, st, x);
    PrependRecord(past, CommittedRecord(def, st, x), rest);
    AcceptedChain(def, st, x, rest, end.current);
  }

  lemma RefusedFirst<C, S, E>(
      def: Definition<C, S, E>, st: MachineState<C, S, E>, past: seq<Record<S, E>>, x: Stimulus<C, E>,
      rest: seq<Record<S, E>>, end: MachineState<C, S, E>)
    requires !st.inFlight && !Accepts(def, st, x) && Explains(def, After(def, st, x), past, rest, end)
    ensures Explains(def, st, past, rest, end)
  {
    StepOnMachine(def, st, x);
  }

  lemma {:induction false} RunFollowsLog<C, S, E>(
      def: Definition<C, S, E>, st: MachineState<C, S, E>, past: seq<Record<S, E>>, xs: seq<Stimulus<C, E>>)
    requires !st.inFlight && st.history == Window(def.capacity, past)
    ensures Explains(def, st, past, FullLog(def, st, xs), Run(def, st, xs))
    decreases |xs|
  {
    if xs == [] {
      assert past + [] == past;
    } else {
      var next, x := After(def, st, xs[0]), xs[0];
      var rest, end := FullLog(def, next, xs[1..]), Run(def, next, xs[1..]);
      if Accepts(def, st, x) {
        AcceptedStep(def, st, past, x);
        RunFollowsLog(def, next, past + [CommittedRecord(def, st, x)], xs[1..]);
        AcceptedFirst(def, st, past, x, rest, end);
      } else {
        StepOnMachine(def, st, x);
        RunFollowsLog(def, next, past, xs[1..]);
        RefusedFirst(def, st, past, x, rest, end);
      }
    }
  }

  /**
  The bounded history refines the unbounded log. After any run of any machine the
  history is the last min(seq, capacity) entries of a log that is numbered 1..seq and
  chains compiled edges from the starting state to the current one.
  */
  lemma HistoryRefinesLog<C, S, E>(def: Definition<C, S, E>, obj: C, start: S, xs: seq<Stimulus<C, E>>)
    ensures var log := FullLog(def, Fresh<C, S, E>(obj, start), xs);
            var end := Run(def, Fresh<C, S, E>(obj, start), xs);
            && end.seqNo == |log|
            && end.history == Window(def.capacity, log)
            && Chained(def, 0, start, log, end.current)
            && forall i :: 0 <= i < |log| ==> log[i].number == i + 1
  {
    var st := Fresh<C, S, E>(obj, start);
    RunFollowsLog(def, st, [], xs);
    var log := FullLog(def, st, xs);
    assert [] + log == log;
    ChainNumbers(def, 0, start, log, Run(def, st, xs).current);
  }

  lemma {:induction false} ChainNumbers<C, S, E>(
      def: Definition<C, S, E>, base: nat, first: S, log: seq<Record<S, E>>, last: S)
    requires Chained(def, base, first, log, last)
    ensures forall i :: 0 <= i < |log| ==> log[i].number == base + i + 1
    decreases |log|
  {
    if log == [] {
    } else {
      ChainNumbers(def, base + 1, log[0].to, log[1..], last);
      forall i | 0 <= i < |log| ensures log[i].number == base + i + 1 {
        assert i > 0 ==> log[i] == log[1..][i - 1];
      }
    }
  }

  /** Stimulus `k` of a run committed record `i` of its log: the machine accepted it in the state it was then in. */
  ghost predicate CommittedBy<C, S, E>(
      def: Definition<C, S, E>, st: MachineState<C, S, E>, xs: seq<Stimulus<C, E>>, i: nat, k: nat)
  {
    && k < |xs| && i < |FullLog(def, st, xs)|
    && var before := Run(def, st, xs[..k]);
       && !before.inFlight && Accepts(def, before, xs[k])
       && FullLog(def, st, xs)[i] == CommittedRecord(def, before, xs[k])
  }

  lemma StepLandsIdle<C, S, E>(def: Definition<C, S, E>, st: MachineState<C, S, E>, x: Stimulus<C, E>)
    requires !st.inFlight
    ensures !After(def, st, x).inFlight
  {
    StepOnMachine(def, st, x);
  }

  lemma RunFromSecond<C, S, E>(
      def: Definition<C, S, E>, st: MachineState<C, S, E>, xs: seq<Stimulus<C, E>>, k: nat)
    requires k + 1 <= |xs|
    ensures Run(def, st, xs[..k + 1]) == Run(def, After(def, st, xs[0]), xs[1..][..k])
  {
    assert xs[..k + 1][0] == xs[0] && xs[..k + 1][1..] == xs[1..][..k];
  }

  lemma CommittedLater<C, S, E>(
      def: Definition<C, S, E>, st: MachineState<C, S, E>, xs: seq<Stimulus<C, E>>, i: nat, k: nat)
    requires xs != [] && CommittedBy(def, After(def, st, xs[0]), xs[1..], i, k)
    ensures CommittedBy(def, st, xs, if Accepts(def, st, xs[0]) then i + 1 else i, k + 1)
  {
    RunFromSecond(def, st, xs, k);
  }

  lemma CommittedFirst<C, S, E>(def: Definition<C, S, E>, st: MachineState<C, S, E>, xs: seq<Stimulus<C, E>>)
    requires xs != [] && !st.inFlight && Accepts(def, st, xs[0])
    ensures CommittedBy(def, st, xs, 0, 0)
  {
    assert xs[..0] == [];
  }

  /** Every record of a log was committed by some stimulus of the run. */
  lemma {:induction false} RecordWasCommitted<C, S, E>(
      def: Definition<C, S, E>, st: MachineState<C, S, E>, xs: seq<Stimulus<C, E>>, i: nat) returns (k: nat)
    requires !st.inFlight && i < |FullLog(def, st, xs)|
    ensures CommittedBy(def, st, xs, i, k)
    decreases |xs|
  {
    if Accepts(def, st, xs[0]) && i == 0 {
      k := 0;
      CommittedFirst(def, st, xs);
    } else {
      var j := if Accepts(def, st, xs[0]) then i - 1 else i;
      StepLandsIdle(def, st, xs[0]);
      k := RecordWasCommitted(def, After(def, st, xs[0]), xs[1..], j);
      CommittedLater(def, st, xs, j, k);
      k := k + 1;
    }
  }

  /** Each record of a chain is an indexed edge from where the record before it went. */
  lemma {:induction false} ChainLink<C, S, E>(
      def: Definition<C, S, E>, base: nat, first: S, log: seq<Record<S, E>>, last: S, i: nat)
    requires Chained(def, base, first, log, last) && i < |log|
    ensures log[i].from == if i == 0 then first else log[i - 1].to
    ensures (log[i].from, log[i].envelope.event) in def.index
    ensures log[i].to == def.index[(log[i].from, log[i].envelope.event)].to
    decreases |log|
  {
    if i == 0 {
    } else {
      ChainLink(def, base + 1, log[0].to, log[1..], last, i - 1);
      assert log[1..][i - 1] == log[i] && (i > 1 ==> log[1..][i - 2] == log[i - 1]);
    }
  }

  lemma {:induction false} ChainEnds<C, S, E>(
      def: Definition<C, S, E>, base: nat, first: S, log: seq<Record<S, E>>, last: S)
    requires Chained(def, base, first, log, last)
    ensures last == if log == [] then first else log[|log| - 1].to
    decreases |log|
  {
    if log == [] {
    } else {
      ChainEnds(def, base + 1, log[0].to, log[1..], last);
    }
  }

  // ---------------------------------------------------------------------------
  // Ranked definitions
  // ---------------------------------------------------------------------------

  /** Every edge goes down in rank. */
  ghost predicate Ranked<C, S(!new), E(!new)>(def: Definition<C, S, E>, rank: S -> nat) {
    forall k :: k in def.index ==> rank(def.index[k].to) < rank(k.0)
  }

  lemma {:induction false} ChainDescends<C, S(!new), E(!new)>(
      def: Definition<C, S, E>, rank: S -> nat, base: nat, first: S, log: seq<Record<S, E>>, last: S)
    requires Ranked(def, rank) && Chained(def, base, first, log, last)
    ensures |log| + rank(last) <= rank(first)
    decreases |log|
  {
    if log == [] {
    } else {
      ChainDescends(def, rank, base + 1, log[0].to, log[1..], last);
    }
  }

  /** A decreasing rank bounds how many sends can ever succeed, however the run goes. */
  lemma RankBoundsRuns<C, S(!new), E(!new)>(
      def: Definition<C, S, E>, rank: S -> nat, obj: C, start: S, xs: seq<Stimulus<C, E>>)
    requires Ranked(def, rank)
    ensures var end := Run(def, Fresh<C, S, E>(obj, start), xs);
            end.seqNo + rank(end.current) <= rank(start)
  {
    HistoryRefinesLog(def, obj, start, xs);
    var st := Fresh<C, S, E>(obj, start);
    ChainDescends(def, rank, 0, start, FullLog(def, st, xs), Run(def, st, xs).current);
  }

  // ---------------------------------------------------------------------------
  // Restoring a machine for every request
  // ---------------------------------------------------------------------------

  /** No hooks and no observers: only guards and effects, which is how every domain table is written. */
  ghost predicate HookFree<C, S, E>(def: Definition<C, S, E>) {
    && def.observers == []
    && (forall s :: s in def.states ==> def.states[s].onEntry == [] && def.states[s].onExit == [])
    && (forall k :: k in def.index ==>
          var t := def.index[k];
          t.beforeExit == [] && t.beforeEnter == [] && t.afterExit == [] && t.afterEnter == [])
  }

  /** The effects of every edge leave the entity's status at the edge's target. */
  ghost predicate EffectsSetStatus<C(!new), S(!new), E(!new)>(def: Definition<C, S, E>, status: C -> S) {
    forall k, obj, record :: k in def.index ==>
      var r := RunPipeline(ActionSteps(def, def.index[k], k.0), obj, record);
      r.Passed? && status(r.obj) == def.index[k].to
  }

  /** Guards only look, effects cannot fail and set the status, and there are no hooks. */
  ghost predicate StatusKeeping<C(!new), S(!new), E(!new)>(def: Definition<C, S, E>, status: C -> S) {
    Tame(def) && HookFree(def) && EffectsSetStatus(def, status)
  }

  lemma {:induction false} EnvelopeStepsIgnoreRecord<C, S, E>(
      phase: Phase, fns: seq<EnvelopeFunc<C, E>>, obj: C, r1: Record<S, E>, r2: Record<S, E>)
    requires r1.envelope == r2.envelope
    ensures RunPipeline(EnvelopeSteps<C, S, E>(phase, fns), obj, r1) ==
            RunPipeline(EnvelopeSteps<C, S, E>(phase, fns), obj, r2)
  {
    if fns == [] {
    } else {
      EnvelopeStepsIgnoreRecord(phase, fns[1..], fns[0](obj, r1.envelope).obj, r1, r2);
    }
  }

  /** Without hooks the pipeline is the guards followed by the effects, and only looks at the envelope. */
  lemma HookFreePipeline<C(!new), S(!new), E(!new)>(
      def: Definition<C, S, E>, k: (S, E), obj: C, r1: Record<S, E>, r2: Record<S, E>)
    requires HookFree(def) && k in def.index && r1.envelope == r2.envelope
    ensures var steps := PipelineSteps(def, def.index[k], k.0);
            RunPipeline(steps, obj, r1) == RunPipeline(steps, obj, r2)
  {
    var t := def.index[k];
    var g1 := EnvelopeSteps<C, S, E>(GuardPhase, def.globalGuards);
    var g2 := EnvelopeSteps<C, S, E>(GuardPhase, t.guards);
    var e1 := EnvelopeSteps<C, S, E>(EffectPhase, def.globalEffects);
    var e2 := EnvelopeSteps<C, S, E>(EffectPhase, t.effects);
    assert ActionSteps(def, t, k.0) == e1 + e2;
    forall o ensures RunPipeline(g1, o, r1) == RunPipeline(g1, o, r2) {
      EnvelopeStepsIgnoreRecord(GuardPhase, def.globalGuards, o, r1, r2);
    }
    forall o ensures RunPipeline(g2, o, r1) == RunPipeline(g2, o, r2) {
      EnvelopeStepsIgnoreRecord(GuardPhase, t.guards, o, r1, r2);
    }
    forall o ensures RunPipeline(e1, o, r1) == RunPipeline(e1, o, r2) {
      EnvelopeStepsIgnoreRecord(EffectPhase, def.globalEffects, o, r1, r2);
    }
    forall o ensures RunPipeline(e2, o, r1) == RunPipeline(e2, o, r2) {
      EnvelopeStepsIgnoreRecord(EffectPhase, t.effects, o, r1, r2);
    }
    forall o ensures RunPipeline(e1 + e2, o, r1) == RunPipeline(e1 + e2, o, r2) {
      RunPipelineConcat(e1, e2, o, r1);
      RunPipelineConcat(e1, e2, o, r2);
    }
    forall o ensures RunPipeline(g1 + g2, o, r1) == RunPipeline(g1 + g2, o, r2) {
      RunPipelineConcat(g1, g2, o, r1);
      RunPipelineConcat(g1, g2, o, r2);
    }
    RunPipelineConcat(g1 + g2, e1 + e2, obj, r1);
    RunPipelineConcat(g1 + g2, e1 + e2, obj, r2);
  }

  /**
  On a status-keeping definition a send that fails changes nothing, a send that succeeds
  leaves the entity's status at the new state, and neither depends on the sequence
  number or the history.
  */
  lemma StatusKeepingSend<C(!new), S(!new), E(!new)>(
      def: Definition<C, S, E>, status: C -> S, st: MachineState<C, S, E>, env: Envelope<E>)
    requires StatusKeeping(def, status) && !st.inFlight
    ensures var a := Dispatch(def, st, env);
            var b := Dispatch(def, Fresh<C, S, E>(st.obj, st.current), env);
            && a.error == b.error && a.state.obj == b.state.obj && a.state.current == b.state.current
            && !a.state.inFlight
            && (a.error.Some? ==> a.state == st)
            && (a.error.None? ==> status(a.state.obj) == a.state.current)
  {
    var restored := Fresh<C, S, E>(st.obj, st.current);
    TameSendAllOrNothing(def, st, env);
    TameSendAllOrNothing(def, restored, env);
    var key := (st.current, env.event);
    if !IsTerminal(def, st.current) && key in def.index {
      var t := def.index[key];
      var r1, r2 := RecordFor(st, t, env), RecordFor(restored, t, env);
      HookFreePipeline(def, key, st.obj, r1, r2);
      RunPipelineConcat(GuardSteps(def, t), ActionSteps(def, t, st.current), st.obj, r1);
      PureStepsKeepEntity(GuardSteps(def, t), st.obj, r1);
    }
  }

  /** Other code may write to the entity, but not to its status. */
  ghost predicate StatusUntouched<C, S, E>(
      def: Definition<C, S, E>, status: C -> S, st: MachineState<C, S, E>, xs: seq<Stimulus<C, E>>)
    decreases |xs|
  {
    xs != [] ==>
      && (xs[0].Touch? ==> status(xs[0].obj) == status(st.obj))
      && StatusUntouched(def, status, After(def, st, xs[0]), xs[1..])
  }

  /** In every run the status field mirrors the machine state. */
  lemma {:induction false} StatusMirrorsState<C(!new), S(!new), E(!new)>(
      def: Definition<C, S, E>, status: C -> S, st: MachineState<C, S, E>, xs: seq<Stimulus<C, E>>)
    requires StatusKeeping(def, status) && StatusUntouched(def, status, st, xs)
    requires !st.inFlight && status(st.obj) == st.current
    ensures var end := Run(def, st, xs); status(end.obj) == end.current
    decreases |xs|
  {
    if xs == [] {
    } else {
      if xs[0].Fire? {
        StatusKeepingSend(def, status, st, xs[0].env);
      }
      StatusMirrorsState(def, status, After(def, st, xs[0]), xs[1..]);
    }
  }

  /**
  One request handled the way the services do it: restore a machine from the stored
  entity's status, send, and store the entity only when the send succeeded.
  */
  function Handle<C, S(==), E(==)>(def: Definition<C, S, E>, status: C -> S, stored: C, env: Envelope<E>)
    : (C, Option<SendError<S, E>>)
  {
    var r := Dispatch(def, Fresh(stored, status(stored)), env);
    (if r.error.None? then r.state.obj else stored, r.error)
  }

  /** Whatever a failed request has written to its copy of the entity is not stored. */
  lemma FailedRequestStoresNothing<C, S, E>(def: Definition<C, S, E>, status: C -> S, stored: C, env: Envelope<E>)
    ensures var (next, error) := Handle(def, status, stored, env);
            && (error.Some? ==> next == stored)
            && error == Dispatch(def, Fresh(stored, status(stored)), env).error
  {
  }

  /** Serialised requests, each with its own restored machine, and the answers they get. */
  function HandleAll<C, S(==), E(==)>(
      def: Definition<C, S, E>, status: C -> S, stored: C, xs: seq<Stimulus<C, E>>)
    : (C, seq<Option<SendError<S, E>>>)
    decreases |xs|
  {
    if xs == [] then (stored, [])
    else
      match xs[0]
      case Fire(env) =>
        var (next, answer) := Handle(def, status, stored, env);
        var (end, answers) := HandleAll(def, status, next, xs[1..]);
        (end, [answer] + answers)
      case Touch(obj) => HandleAll(def, status, obj, xs[1..])
  }

  /** The answers one long-lived machine gives to the same stimuli. */
  function Answers<C, S(==), E(==)>(def: Definition<C, S, E>, st: MachineState<C, S, E>, xs: seq<Stimulus<C, E>>)
    : seq<Option<SendError<S, E>>>
    decreases |xs|
  {
    if xs == [] then []
    else
      var rest := Answers(def, After(def, st, xs[0]), xs[1..]);
      match xs[0]
      case Fire(env) => [Dispatch(def, st, env).error] + rest
      case Touch(_) => rest
  }

  /**
  Restoring per request is invisible: handling every request with a machine rebuilt
  from the stored status gives the same answers, the same entity and the same state as
  one long-lived machine.
  */
  lemma {:induction false} RestoringIsInvisible<C(!new), S(!new), E(!new)>(
      def: Definition<C, S, E>, status: C -> S, st: MachineState<C, S, E>, xs: seq<Stimulus<C, E>>)
    requires StatusKeeping(def, status) && StatusUntouched(def, status, st, xs)
    requires !st.inFlight && status(st.obj) == st.current
    ensures var (stored, answers) := HandleAll(def, status, st.obj, xs);
            && answers == Answers(def, st, xs)
            && stored == Run(def, st, xs).obj
            && status(stored) == Run(def, st, xs).current
    decreases |xs|
  {
    if xs == [] {
    } else {
      if xs[0].Fire? {
        StatusKeepingSend(def, status, st, xs[0].env);
      }
      RestoringIsInvisible(def, status, After(def, st, xs[0]), xs[1..]);
    }
  }
}
