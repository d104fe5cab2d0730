/**
The runner that drives a pipeline machine through its stages
(backend/services/analytics/Forecast.go and analytics.go, which hold the same code for
two machines).
*/
module PipelineRunner {
  import opened Wrappers
  import opened Fsm
  import opened TableKit

  /** A stage does its work on the run it shares with the machine, then its event is sent. */
  datatype Stage<!C, E> = Stage(event: E, run: C -> Outcome<C>)

  datatype RunError<S, E> =
    | StartFailed(refusal: SendError<S, E>)
    | StageFailed(event: E, cause: string)
    | TransitionRefused(event: E, refusal: SendError<S, E>)

  /** One stage: its work, then its event, or the failure event when the work went wrong. */
  function StageStep<C, S(==), E(==)>(
      def: Definition<C, S, E>, st: MachineState<C, S, E>, fail: E, stage: Stage<C, E>)
    : (MachineState<C, S, E>, Option<RunError<S, E>>)
  {
    var out := stage.run(st.obj);
    var worked := st.(obj := out.obj);
    match out.failure
    case Some(cause) =>
      (Dispatch(def, worked, Envelope(fail, map["error" := cause])).state, Some(StageFailed(stage.event, cause)))
    case None =>
      var r := Dispatch(def, worked, Envelope(stage.event, map[]));
      (r.state, match r.error case Some(refusal) => Some(TransitionRefused(stage.event, refusal)) case None => None)
  }

  type Stepper<!C, !S, !E> =
    (MachineState<C, S, E>, Stage<C, E>) -> (MachineState<C, S, E>, Option<RunError<S, E>>)

  /** Takes the stages in order and stops at the first error. */
  function Fold<C, S, E>(step: Stepper<C, S, E>, st: MachineState<C, S, E>, stages: seq<Stage<C, E>>)
    : (MachineState<C, S, E>, Option<RunError<S, E>>)
    decreases |stages|
  {
    if stages == [] then (st, None)
    else
      var (next, error) := step(st, stages[0]);
      if error.Some? then (next, error) else Fold(step, next, stages[1..])
  }

  function StageRun<C, S(==), E(==)>(
      def: Definition<C, S, E>, st: MachineState<C, S, E>, fail: E, stages: seq<Stage<C, E>>)
    : (MachineState<C, S, E>, Option<RunError<S, E>>)
  {
    Fold((s, stage) => StageStep(def, s, fail, stage), st, stages)
  }

  function PipelineRun<C, S(==), E(==)>(
      def: Definition<C, S, E>, run: C, idle: S, start: E, fail: E, stages: seq<Stage<C, E>>)
    : (MachineState<C, S, E>, Option<RunError<S, E>>)
  {
    var r := Dispatch(def, Fresh(run, idle), Envelope(start, map[]));
    match r.error
    case Some(refusal) => (r.state, Some(StartFailed(refusal)))
    case None => StageRun(def, r.state, fail, stages)
  }

  method RunPipelineStages<C, S(==), E(==)>(
      def: Definition<C, S, E>, run: C, idle: S, start: E, fail: E, stages: seq<Stage<C, E>>)
    returns (machine: Machine<C, S, E>, error: Option<RunError<S, E>>)
    ensures fresh(machine) && machine.def == def
    ensures (machine.Snapshot(), error) == PipelineRun(def, run, idle, start, fail, stages)
  {
    machine := new Machine.New(def, run, idle);
    var refusal := machine.Send(Envelope(start, map[]));
    if refusal.Some? {
      return machine, Some(StartFailed(refusal.value));
    }
    var i := 0;
    while i < |stages|
      invariant 0 <= i <= |stages|
      invariant fresh(machine) && machine.def == def
      invariant StageRun(def, machine.Snapshot(), fail, stages[i..]) == PipelineRun(def, run, idle, start, fail, stages)
    {
      var stage := stages[i];
      assert stages[i..][1..] == stages[i + 1..];
      var out := stage.run(machine.obj);
      machine.Touch(out.obj);
      if out.failure.Some? {
        refusal := machine.Send(Envelope(fail, map["error" := out.failure.value]));
        return machine, Some(StageFailed(stage.event, out.failure.value));
      }
      refusal := machine.Send(Envelope(stage.event, map[]));
      if refusal.Some? {
        return machine, Some(TransitionRefused(stage.event, refusal.value));
      }
      i := i + 1;
    }
    error := None;
  }

  // ---------------------------------------------------------------------------
  // Pipelines that advance along a line of states
  // ---------------------------------------------------------------------------

  /**
  A line of states: event number i leads from path[i] to path[i + 1] when `ok` holds of
  the run, and `fail` leads from every state but the last to `failed`; `write` and `blame` are
  what they leave of the run.
  */
  datatype Line<!C, S, E> = Line(
    path: seq<S>, events: seq<E>, failed: S, fail: E,
    ok: (nat, C) -> bool, write: (nat, C) -> C, blame: (C, string) -> C)

  function Blaming<E>(fail: E, cause: string): Envelope<E> { Envelope(fail, map["error" := cause]) }

  ghost predicate MovesOn<C(!new), S(!new), E(!new)>(def: Definition<C, S, E>, line: Line<C, S, E>, i: nat)
    requires i + 1 < |line.path| && i < |line.events|
  {
    forall st: MachineState<C, S, E> :: !st.inFlight && st.current == line.path[i] ==>
      var r := Dispatch(def, st, Envelope(line.events[i], map[]));
      && (r.error.None? <==> line.ok(i, st.obj))
      && (r.error.Some? ==> r.state == st)
      && (r.error.None? ==>
            && r.state.current == line.path[i + 1] && r.state.obj == line.write(i, st.obj)
            && r.state.seqNo == st.seqNo + 1 && !r.state.inFlight)
  }

  ghost predicate FailsFrom<C(!new), S(!new), E(!new)>(def: Definition<C, S, E>, line: Line<C, S, E>, i: nat)
    requires i < |line.path|
  {
    forall st: MachineState<C, S, E>, cause :: !st.inFlight && st.current == line.path[i] ==>
      var r := Dispatch(def, st, Blaming(line.fail, cause));
      && r.error.None? && r.state.current == line.failed && r.state.seqNo == st.seqNo + 1
      && r.state.obj == line.blame(st.obj, cause)
  }

  ghost predicate Follows<C(!new), S(!new), E(!new)>(def: Definition<C, S, E>, line: Line<C, S, E>) {
    && |line.path| == |line.events| + 1
    && forall i: nat :: i < |line.events| ==> MovesOn(def, line, i) && FailsFrom(def, line, i)
  }

  /** The table moves on from state `i` of the line and fails from it as the line says. */
  ghost predicate LineInTable<C(!new), S(!new), E(!new)>(
      table: Table<C, S, E>, target: (S, E) -> Option<S>, line: Line<C, S, E>, i: nat)
    requires i + 1 < |line.path| && i < |line.events|
  {
    var row := Row(line.path[i], line.events[i], line.path[i + 1]);
    var env := Envelope(line.events[i], map[]);
    var away := Row(line.path[i], line.fail, line.failed);
    && target(line.path[i], line.events[i]) == Some(line.path[i + 1])
    && target(line.path[i], line.fail) == Some(line.failed)
    && table.demands(away).None?
    && (forall run, cause :: line.blame(run, cause) == table.makes(away, run, Blaming(line.fail, cause)))
    && forall run ::
         (line.ok(i, run) <==> Allows(table, row, run, env)) && line.write(i, run) == table.makes(row, run, env)
  }

  lemma TableMovesOn<C(!new), S(!new), E(!new)>(
      table: Table<C, S, E>, target: (S, E) -> Option<S>, line: Line<C, S, E>, i: nat)
    requires Described(table, target) && i + 1 < |line.path| && i < |line.events|
    requires LineInTable(table, target, line, i)
    ensures MovesOn(Compiled(table), line, i) && FailsFrom(Compiled(table), line, i)
  {
    forall st: MachineState<C, S, E> | !st.inFlight && st.current == line.path[i]
      ensures var r := Dispatch(Compiled(table), st, Envelope(line.events[i], map[]));
              && (r.error.None? <==> line.ok(i, st.obj))
              && (r.error.Some? ==> r.state == st)
              && (r.error.None? ==>
                    && r.state.current == line.path[i + 1] && r.state.obj == line.write(i, st.obj)
                    && r.state.seqNo == st.seqNo + 1 && !r.state.inFlight)
    {
      TargetSend(table, target, st, Envelope(line.events[i], map[]));
    }
    forall st: MachineState<C, S, E>, cause | !st.inFlight && st.current == line.path[i]
      ensures var r := Dispatch(Compiled(table), st, Blaming(line.fail, cause));
              && r.error.None? && r.state.current == line.failed && r.state.seqNo == st.seqNo + 1
              && r.state.obj == line.blame(st.obj, cause)
    {
      TargetSend(table, target, st, Blaming(line.fail, cause));
    }
  }

  /** The stage list of a service method: the line's events in order, each with some work. */
  ghost predicate Canonical<C, S, E>(line: Line<C, S, E>, stages: seq<Stage<C, E>>) {
    |stages| == |line.events| && forall i :: 0 <= i < |stages| ==> stages[i].event == line.events[i]
  }

  /** The run before stage `i` if everything before it went well. */
  ghost function RunBefore<C, S, E>(line: Line<C, S, E>, run: C, stages: seq<Stage<C, E>>, i: nat): C
    requires i <= |stages|
  {
    if i == 0 then run
    else line.write(i - 1, stages[i - 1].run(RunBefore(line, run, stages, i - 1)).obj)
  }

  ghost predicate StageOk<C, S, E>(line: Line<C, S, E>, run: C, stages: seq<Stage<C, E>>, i: nat)
    requires i < |stages|
  {
    stages[i].run(RunBefore(line, run, stages, i)).failure.None?
  }

  ghost predicate GuardOk<C, S, E>(line: Line<C, S, E>, run: C, stages: seq<Stage<C, E>>, i: nat)
    requires i < |stages|
  {
    line.ok(i, stages[i].run(RunBefore(line, run, stages, i)).obj)
  }

  /** What a run must look like once it has got to stage `i`. */
  ghost predicate Reached<C, S, E>(
      line: Line<C, S, E>, run: C, base: nat, stages: seq<Stage<C, E>>, i: nat, st: MachineState<C, S, E>)
    requires i <= |stages| && i < |line.path|
  {
    !st.inFlight && st.current == line.path[i] && st.obj == RunBefore(line, run, stages, i) && st.seqNo == base + i
  }

  /** The promised end of a run whose first trouble is at stage `k`; `k == |stages|` means no trouble. */
  ghost predicate EndsAs<C, S, E>(
      line: Line<C, S, E>, run: C, base: nat, stages: seq<Stage<C, E>>, k: nat,
      end: MachineState<C, S, E>, error: Option<RunError<S, E>>)
    requires k <= |stages| && k < |line.path| && |stages| == |line.events|
  {
    if k == |stages| then
      && error.None?
      && end.current == line.path[k] && end.seqNo == base + k && end.obj == RunBefore(line, run, stages, k)
    else
      var out := stages[k].run(RunBefore(line, run, stages, k));
      if out.failure.Some? then
        && error == Some(StageFailed(line.events[k], out.failure.value))
        && end.current == line.failed && end.seqNo == base + k + 1
        && end.obj == line.blame(out.obj, out.failure.value)
      else
        && error.Some? && error.value.TransitionRefused? && error.value.event == line.events[k]
        && end.current == line.path[k] && end.seqNo == base + k && end.obj == out.obj
  }

  /** What one stage does to a run that has got to it. */
  ghost predicate StepsAs<C(!new), S(!new), E(!new)>(
      line: Line<C, S, E>, run: C, base: nat, stages: seq<Stage<C, E>>, i: nat,
      next: MachineState<C, S, E>, error: Option<RunError<S, E>>)
    requires i < |stages| == |line.events| && |line.path| == |line.events| + 1
  {
    if StageOk(line, run, stages, i) && GuardOk(line, run, stages, i) then
      error.None? && Reached(line, run, base, stages, i + 1, next)
    else
      EndsAs(line, run, base, stages, i, next, error)
  }

  lemma StageFails<C(!new), S(!new), E(!new)>(
      def: Definition<C, S, E>, line: Line<C, S, E>, stage: Stage<C, E>, i: nat, st: MachineState<C, S, E>)
    requires i < |line.path| && FailsFrom(def, line, i) && !st.inFlight && st.current == line.path[i]
    requires stage.run(st.obj).failure.Some?
    ensures var (next, error) := StageStep(def, st, line.fail, stage);
            var out := stage.run(st.obj);
            && error == Some(StageFailed(stage.event, out.failure.value))
            && next.current == line.failed && next.seqNo == st.seqNo + 1
            && next.obj == line.blame(out.obj, out.failure.value)
  {
    var out := stage.run(st.obj);
    var r := Dispatch(def, st.(obj := out.obj), Blaming(line.fail, out.failure.value));
    assert r.error.None? && r.state.current == line.failed && r.state.seqNo == st.seqNo + 1;
  }

  lemma StageMoves<C(!new), S(!new), E(!new)>(
      def: Definition<C, S, E>, line: Line<C, S, E>, stage: Stage<C, E>, i: nat, st: MachineState<C, S, E>)
    requires i + 1 < |line.path| && i < |line.events| && MovesOn(def, line, i)
    requires !st.inFlight && st.current == line.path[i] && stage.event == line.events[i]
    requires stage.run(st.obj).failure.None?
    ensures var (next, error) := StageStep(def, st, line.fail, stage);
            var worked := stage.run(st.obj).obj;
            if line.ok(i, worked) then
              error.None? && next.current == line.path[i + 1] && next.obj == line.write(i, worked)
              && next.seqNo == st.seqNo + 1 && !next.inFlight
            else
              error.Some? && error.value.TransitionRefused? && error.value.event == stage.event
              && next == st.(obj := worked)
  {
    var worked := stage.run(st.obj).obj;
    var r := Dispatch(def, st.(obj := worked), Envelope(line.events[i], map[]));
    assert r.error.None? <==> line.ok(i, worked);
  }

  lemma LineStep<C(!new), S(!new), E(!new)>(
      def: Definition<C, S, E>, line: Line<C, S, E>, run: C, base: nat, stages: seq<Stage<C, E>>,
      i: nat, st: MachineState<C, S, E>)
    requires Follows(def, line) && Canonical(line, stages)
    requires i < |stages| && Reached(line, run, base, stages, i, st)
    ensures var (next, error) := StageStep(def, st, line.fail, stages[i]);
            StepsAs(line, run, base, stages, i, next, error)
  {
    assert MovesOn(def, line, i) && FailsFrom(def, line, i);
    if StageOk(line, run, stages, i) {
      StageMoves(def, line, stages[i], i, st);
    } else {
      StageFails(def, line, stages[i], i, st);
    }
  }

  lemma {:induction false} FoldUpToTrouble<C(!new), S(!new), E(!new)>(
      step: Stepper<C, S, E>, line: Line<C, S, E>, run: C, base: nat, stages: seq<Stage<C, E>>,
      i: nat, k: nat, st: MachineState<C, S, E>)
    requires |stages| == |line.events| && |line.path| == |line.events| + 1
    requires forall j: nat, s :: j < |stages| && Reached(line, run, base, stages, j, s) ==>
               StepsAs(line, run, base, stages, j, step(s, stages[j]).0, step(s, stages[j]).1)
    requires i <= k <= |stages| && Reached(line, run, base, stages, i, st)
    requires forall j: nat :: j < k ==> StageOk(line, run, stages, j) && GuardOk(line, run, stages, j)
    requires k < |stages| ==> !StageOk(line, run, stages, k) || !GuardOk(line, run, stages, k)
    ensures var (end, error) := Fold(step, st, stages[i..]); EndsAs(line, run, base, stages, k, end, error)
    decreases |stages| - i
  {
    if i < |stages| {
      assert stages[i..][0] == stages[i] && stages[i..][1..] == stages[i + 1..];
      var (next, error) := step(st, stages[i]);
      assert StepsAs(line, run, base, stages, i, next, error);
      if i < k {
        FoldUpToTrouble(step, line, run, base, stages, i + 1, k, next);
      }
    }
  }

  /**
  The fate of a run is decided by its first trouble. With none, the runner reports success
  and the machine has made one commit per stage. If the work of stage k goes wrong, the
  runner reports that stage and its error, and the machine has failed with the run blaming that
  error. If the guard after stage k refuses,
  the runner reports the refusal and the machine stays in the live state it was in.
  */
  lemma RunUpToTrouble<C(!new), S(!new), E(!new)>(
      def: Definition<C, S, E>, line: Line<C, S, E>, stages: seq<Stage<C, E>>, k: nat, st: MachineState<C, S, E>)
    requires Follows(def, line) && Canonical(line, stages)
    requires !st.inFlight && st.current == line.path[0] && k <= |stages|
    requires forall j: nat :: j < k ==> StageOk(line, st.obj, stages, j) && GuardOk(line, st.obj, stages, j)
    requires k < |stages| ==> !StageOk(line, st.obj, stages, k) || !GuardOk(line, st.obj, stages, k)
    ensures var (end, error) := StageRun(def, st, line.fail, stages);
            EndsAs(line, st.obj, st.seqNo, stages, k, end, error)
  {
    var step: Stepper<C, S, E> := (s, stage) => StageStep(def, s, line.fail, stage);
    forall j: nat, s | j < |stages| && Reached(line, st.obj, st.seqNo, stages, j, s)
      ensures StepsAs(line, st.obj, st.seqNo, stages, j, step(s, stages[j]).0, step(s, stages[j]).1)
    {
      LineStep(def, line, st.obj, st.seqNo, stages, j, s);
    }
    FoldUpToTrouble(step, line, st.obj, st.seqNo, stages, 0, k, st);
    assert stages[0..] == stages;
  }

  /** Every run has a first trouble, or none. */
  ghost function FirstTrouble<C, S, E>(line: Line<C, S, E>, run: C, stages: seq<Stage<C, E>>, i: nat): (k: nat)
    requires i <= |stages|
    ensures i <= k <= |stages|
    ensures forall j: nat :: i <= j < k ==> StageOk(line, run, stages, j) && GuardOk(line, run, stages, j)
    ensures k < |stages| ==> !StageOk(line, run, stages, k) || !GuardOk(line, run, stages, k)
    decreases |stages| - i
  {
    if i < |stages| && StageOk(line, run, stages, i) && GuardOk(line, run, stages, i) then
      FirstTrouble(line, run, stages, i + 1)
    else i
  }
}
