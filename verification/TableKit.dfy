/** Building blocks shared by the domain tables of backend/utils/FSM.go. */
module TableKit {
  import opened Wrappers
  import opened Fsm
  import opened FsmBuilder
  import opened FsmLaws
  import opened FsmRuns

  /** A guard that lets an event through when `ok` holds of the entity and the envelope. */
  function GuardWhen<C, E>(ok: (C, Envelope<E>) -> bool, message: string): EnvelopeFunc<C, E> {
    (obj, env) => Outcome(obj, if ok(obj, env) then None else Some(message))
  }

  /** An effect that rewrites the entity and reports no error. */
  function Writes<C, E>(write: (C, Envelope<E>) -> C): EnvelopeFunc<C, E> {
    (obj, env) => Outcome(write(obj, env), None)
  }

  /** One line of a domain table: the event takes `from` to `to`. */
  datatype Row<S, E> = Row(from: S, event: E, to: S)

  /** What a guard asks of the entity and the envelope, and what an effect makes of the entity, row by row. */
  type Asking<!C, !S, !E> = (Row<S, E>, C, Envelope<E>) -> bool
  type Making<!C, !S, !E> = (Row<S, E>, C, Envelope<E>) -> C

  /** A domain table. A row has a guard when `demands` gives it a message, and every row has one effect. */
  datatype Table<!C, !S(==), !E> = Table(
    plain: set<S>, initial: S, terminal: set<S>, rows: seq<Row<S, E>>,
    demands: Row<S, E> -> Option<string>, asks: Asking<C, S, E>, makes: Making<C, S, E>,
    globalEffects: seq<EnvelopeFunc<C, E>>)

  function GuardsOf<C, S(==), E>(table: Table<C, S, E>, row: Row<S, E>): seq<EnvelopeFunc<C, E>> {
    match table.demands(row)
    case None => []
    case Some(message) => [GuardWhen((obj, env) => table.asks(row, obj, env), message)]
  }

  function EffectsOf<C, S(==), E>(table: Table<C, S, E>, row: Row<S, E>): seq<EnvelopeFunc<C, E>> {
    [Writes((obj, env) => table.makes(row, obj, env))]
  }

  predicate Allows<C, S(==), E>(table: Table<C, S, E>, row: Row<S, E>, obj: C, env: Envelope<E>) {
    table.demands(row).Some? ==> table.asks(row, obj, env)
  }

  function EdgeOf<C, S(==), E>(table: Table<C, S, E>, row: Row<S, E>): Transition<C, S, E> {
    Edge(row.from, row.event, row.to, GuardsOf(table, row), EffectsOf(table, row))
  }

  function Transitions<C, S(==), E>(table: Table<C, S, E>): seq<Transition<C, S, E>> {
    seq(|table.rows|, i requires 0 <= i < |table.rows| => EdgeOf(table, table.rows[i]))
  }

  function States<C, S(==), E>(table: Table<C, S, E>): map<S, StateMeta<C, S, E>> {
    map s | s in table.plain + {table.initial} + table.terminal ::
      StateMeta(s in table.terminal, s == table.initial, [], [])
  }

  /** The compiled table, with the default history capacity; see `FsmBuilder.DefinitionBuilder.Compile`. */
  function Compiled<C, S(==), E(==)>(table: Table<C, S, E>): Definition<C, S, E> {
    Definition(States(table), IndexOf(Transitions(table)), [], [], table.globalEffects, 100)
  }

  /** Both endpoints of a row are declared and the row does not leave a terminal state. */
  predicate RowOk<C, S(==), E>(table: Table<C, S, E>, row: Row<S, E>) {
    && (row.from in table.plain || row.from == table.initial) && row.from !in table.terminal
    && (row.to in table.plain || row.to == table.initial || row.to in table.terminal)
  }

  /** Every row is in order and no (state, event) pair repeats. */
  predicate GoodRows<C, S(==), E(==)>(table: Table<C, S, E>) {
    var rows := table.rows;
    && (forall i :: 0 <= i < |rows| ==> RowOk(table, rows[i]))
    && (forall i, j :: 0 <= i < j < |rows| ==> rows[i].from != rows[j].from || rows[i].event != rows[j].event)
  }

  ghost predicate HasRow<C, S, E>(table: Table<C, S, E>, s: S, e: E) {
    exists row :: row in table.rows && row.from == s && row.event == e
  }

  lemma RowKeysDiffer<C, S, E>(table: Table<C, S, E>)
    requires GoodRows(table)
    ensures var ts := Transitions(table); forall i, j :: 0 <= i < j < |ts| ==> Key(ts[i]) != Key(ts[j])
  {
    var ts, rows := Transitions(table), table.rows;
    forall i, j | 0 <= i < j < |ts| ensures Key(ts[i]) != Key(ts[j]) {
      assert rows[i].from != rows[j].from || rows[i].event != rows[j].event;
    }
  }

  /** Good rows compile. */
  lemma GoodRowsWellFormed<C, S, E>(table: Table<C, S, E>)
    requires GoodRows(table)
    ensures WellFormed(States(table), Transitions(table))
  {
    RowKeysDiffer(table);
    assert forall i :: 0 <= i < |table.rows| ==> RowOk(table, table.rows[i]);
  }

  /** The transition a good table compiles a row to. */
  lemma RowEntry<C, S(!new), E(!new)>(table: Table<C, S, E>, row: Row<S, E>)
    requires GoodRows(table) && row in table.rows
    ensures var index := IndexOf(Transitions(table));
            (row.from, row.event) in index && index[(row.from, row.event)] == EdgeOf(table, row)
  {
    var i: nat :| i < |table.rows| && table.rows[i] == row;
    RowKeysDiffer(table);
    IndexUnique(Transitions(table), i);
  }

  /** A registered pair comes from a row. */
  lemma EntryRow<C, S(!new), E(!new)>(table: Table<C, S, E>, s: S, e: E)
    requires GoodRows(table) && (s, e) in IndexOf(Transitions(table))
    ensures var row := Row(s, e, IndexOf(Transitions(table))[(s, e)].to);
            row in table.rows && IndexOf(Transitions(table))[(s, e)] == EdgeOf(table, row)
  {
    var ts := Transitions(table);
    IndexKeys(ts, (s, e));
    RowKeysDiffer(table);
    var i: nat :| i < |ts| && Key(ts[i]) == (s, e);
    IndexUnique(ts, i);
    assert table.rows[i] == Row(s, e, ts[i].to);
  }

  /** An event is registered in a state exactly when there is a row for it, and with that row's parts. */
  lemma GoodRowsCompile<C, S(!new), E(!new)>(table: Table<C, S, E>)
    requires GoodRows(table)
    ensures var index := Compiled(table).index;
            && (forall s, e :: (s, e) in index <==> HasRow(table, s, e))
            && (forall k :: k in index ==>
                  var row := Row(k.0, k.1, index[k].to); row in table.rows && index[k] == EdgeOf(table, row))
  {
    var index := Compiled(table).index;
    forall s, e ensures (s, e) in index <==> HasRow(table, s, e) {
      if (s, e) in index {
        EntryRow(table, s, e);
      }
      if row :| row in table.rows && row.from == s && row.event == e {
        RowEntry(table, row);
      }
    }
    forall k | k in index
      ensures var row := Row(k.0, k.1, index[k].to); row in table.rows && index[k] == EdgeOf(table, row)
    {
      EntryRow(table, k.0, k.1);
    }
  }

  // ---------------------------------------------------------------------------
  // Guards that look and effects that cannot fail
  // ---------------------------------------------------------------------------

  lemma {:induction false} GuardStepsArePure<C(!new), S(!new), E(!new)>(table: Table<C, S, E>, row: Row<S, E>)
    ensures forall step :: step in EnvelopeSteps<C, S, E>(GuardPhase, GuardsOf(table, row)) ==> Pure(step)
  {
    var guards := GuardsOf(table, row);
    if guards == [] {
    } else {
      assert EnvelopeSteps<C, S, E>(GuardPhase, guards[1..]) == [];
    }
  }

  /** Running the one effect of a row. */
  lemma EffectStep<C, S, E>(table: Table<C, S, E>, row: Row<S, E>, obj: C, record: Record<S, E>)
    ensures RunPipeline(EnvelopeSteps<C, S, E>(EffectPhase, EffectsOf(table, row)), obj, record) ==
            Passed(table.makes(row, obj, record.envelope))
  {
    var effects := EffectsOf(table, row);
    var steps := EnvelopeSteps<C, S, E>(EffectPhase, effects);
    assert EnvelopeSteps<C, S, E>(EffectPhase, effects[1..]) == [];
    assert steps == [EnvelopeStep(EffectPhase, effects[0])] && steps[1..] == [];
  }

  /** Running the guard of a row, if it has one. */
  lemma GuardStep<C, S, E>(table: Table<C, S, E>, row: Row<S, E>, obj: C, record: Record<S, E>)
    ensures var r := RunPipeline(EnvelopeSteps<C, S, E>(GuardPhase, GuardsOf(table, row)), obj, record);
            r.obj == obj && (r.Passed? <==> Allows(table, row, obj, record.envelope))
  {
    var guards := GuardsOf(table, row);
    var steps := EnvelopeSteps<C, S, E>(GuardPhase, guards);
    if guards != [] {
      assert EnvelopeSteps<C, S, E>(GuardPhase, guards[1..]) == [];
      assert steps == [EnvelopeStep(GuardPhase, guards[0])] && steps[1..] == [];
    }
  }

  /** The global effects, if any, leave the entity alone and do not fail. */
  ghost predicate Neutral<C(!new), S(!new), E(!new)>(table: Table<C, S, E>) {
    forall f: EnvelopeFunc<C, E>, obj, env :: f in table.globalEffects ==> f(obj, env) == Outcome(obj, None)
  }

  lemma {:induction false} NeutralSteps<C(!new), S(!new), E(!new)>(fns: seq<EnvelopeFunc<C, E>>)
    requires forall f: EnvelopeFunc<C, E>, obj, env :: f in fns ==> f(obj, env) == Outcome(obj, None)
    ensures forall step :: step in EnvelopeSteps<C, S, E>(EffectPhase, fns) ==> Pure(step) && Infallible(step)
  {
    if fns == [] {
    } else {
      assert fns[0] in fns;
      NeutralSteps<C, S, E>(fns[1..]);
    }
  }

  lemma EffectStepsPass<C(!new), S(!new), E(!new)>(table: Table<C, S, E>, row: Row<S, E>)
    ensures forall step :: step in EnvelopeSteps<C, S, E>(EffectPhase, EffectsOf(table, row)) ==> Infallible(step)
  {
    var effects := EffectsOf(table, row);
    assert EnvelopeSteps<C, S, E>(EffectPhase, effects[1..]) == [];
  }

  /** A table compiles to a definition on which sends are all-or-nothing. */
  lemma GoodTableIsTame<C(!new), S(!new), E(!new)>(table: Table<C, S, E>)
    requires GoodRows(table) && Neutral(table)
    ensures Tame(Compiled(table)) && HookFree(Compiled(table))
  {
    var def := Compiled(table);
    GoodRowsCompile(table);
    forall k | k in def.index
      ensures forall step :: step in GuardSteps(def, def.index[k]) ==> Pure(step)
      ensures forall step :: step in ActionSteps(def, def.index[k], k.0) ==> Infallible(step)
    {
      var row := Row(k.0, k.1, def.index[k].to);
      GuardStepsArePure(table, row);
      EffectStepsPass(table, row);
      NeutralSteps<C, S, E>(table.globalEffects);
    }
  }

  /** The actions of a row are its effect. */
  lemma ActionsOfRow<C(!new), S(!new), E(!new)>(
      table: Table<C, S, E>, row: Row<S, E>, obj: C, record: Record<S, E>)
    requires Neutral(table)
    ensures RunPipeline(ActionSteps(Compiled(table), EdgeOf(table, row), row.from), obj, record) ==
            Passed(table.makes(row, obj, record.envelope))
  {
    var global := EnvelopeSteps<C, S, E>(EffectPhase, table.globalEffects);
    var own := EnvelopeSteps<C, S, E>(EffectPhase, EffectsOf(table, row));
    assert ActionSteps(Compiled(table), EdgeOf(table, row), row.from) == global + own;
    NeutralSteps<C, S, E>(table.globalEffects);
    InfallibleStepsPass(global, obj, record);
    PureStepsKeepEntity(global, obj, record);
    RunPipelineConcat(global, own, obj, record);
    EffectStep(table, row, obj, record);
  }

  /** When every row makes its target the status, restoring from the status is faithful. */
  lemma StatusTable<C(!new), S(!new), E(!new)>(table: Table<C, S, E>, status: C -> S)
    requires GoodRows(table) && Neutral(table)
    requires forall row, obj, env :: status(table.makes(row, obj, env)) == row.to
    ensures StatusKeeping(Compiled(table), status)
  {
    var def := Compiled(table);
    GoodRowsCompile(table);
    GoodTableIsTame(table);
    forall k, obj, record | k in def.index
      ensures var r := RunPipeline(ActionSteps(def, def.index[k], k.0), obj, record);
              r.Passed? && status(r.obj) == def.index[k].to
    {
      ActionsOfRow(table, Row(k.0, k.1, def.index[k].to), obj, record);
    }
  }

  lemma RankedTable<C, S(!new), E(!new)>(table: Table<C, S, E>, rank: S -> nat)
    requires GoodRows(table)
    requires forall row :: row in table.rows ==> rank(row.to) < rank(row.from)
    ensures Ranked(Compiled(table), rank)
  {
    GoodRowsCompile(table);
  }

  // ---------------------------------------------------------------------------
  // What a send does
  // ---------------------------------------------------------------------------

  /**
  A send with a row for the event succeeds exactly when the row allows it, and then applies the
  row; otherwise it is refused with the row's message.
  */
  lemma RowSend<C(!new), S(!new), E(!new)>(
      table: Table<C, S, E>, row: Row<S, E>, st: MachineState<C, S, E>, env: Envelope<E>)
    requires GoodRows(table) && Neutral(table) && !st.inFlight
    requires row in table.rows && row.from == st.current && row.event == env.event
    ensures var r := Dispatch(Compiled(table), st, env);
            && (r.error.None? <==> Allows(table, row, st.obj, env))
            && (r.error.Some? ==>
                  && r.state == st && table.demands(row).Some?
                  && r.error ==
                     Some(TransitionFailed(row.from, row.to, row.event, GuardPhase, table.demands(row).value)))
            && (r.error.None? ==>
                  && r.state.obj == table.makes(row, st.obj, env)
                  && r.state.current == row.to && r.state.seqNo == st.seqNo + 1 && !r.state.inFlight)
  {
    var def := Compiled(table);
    var t := EdgeOf(table, row);
    var record := RecordFor(st, t, env);
    RowEntry(table, row);
    assert RowOk(table, row);
    assert GuardSteps(def, t) == EnvelopeSteps<C, S, E>(GuardPhase, GuardsOf(table, row));
    GuardStep(table, row, st.obj, record);
    ActionsOfRow(table, row, st.obj, record);
    RunPipelineConcat(GuardSteps(def, t), ActionSteps(def, t, st.current), st.obj, record);
  }

  // ---------------------------------------------------------------------------
  // Tables against a reference
  // ---------------------------------------------------------------------------

  /** The target of an event that leads to one state, from any of several. */
  function From<S(==)>(s: S, sources: set<S>, to: S): Option<S> { if s in sources then Some(to) else None }

  /** The rows of a table are exactly the moves of a reference function. */
  ghost predicate RowsAre<C, S(!new), E(!new)>(table: Table<C, S, E>, target: (S, E) -> Option<S>) {
    forall s, e, to :: Row(s, e, to) in table.rows <==> target(s, e) == Some(to)
  }

  /** The table compiles, its rows are the moves of the reference, and it has no other effects. */
  ghost predicate Described<C(!new), S(!new), E(!new)>(table: Table<C, S, E>, target: (S, E) -> Option<S>) {
    GoodRows(table) && Neutral(table) && RowsAre(table, target)
  }

  /** Row number `i` is in order and is the move of the reference for the pair that has that number. */
  ghost predicate RowNumbered<C, S, E>(
      table: Table<C, S, E>, target: (S, E) -> Option<S>, number: (S, E) -> int, i: int)
    requires 0 <= i < |table.rows|
  {
    var row := table.rows[i];
    RowOk(table, row) && number(row.from, row.event) == i && target(row.from, row.event) == Some(row.to)
  }

  /** The number of a pair with a move is that of its row. */
  ghost predicate PairNumbered<C, S, E>(
      table: Table<C, S, E>, target: (S, E) -> Option<S>, number: (S, E) -> int, s: S, e: E)
  {
    target(s, e).Some? ==> 0 <= number(s, e) < |table.rows| && table.rows[number(s, e)] == Row(s, e, target(s, e).value)
  }

  /** Numbering the pairs of a table shows that no pair repeats and that its rows are those of the reference. */
  lemma NumberedTable<C(!new), S(!new), E(!new)>(
      table: Table<C, S, E>, target: (S, E) -> Option<S>, number: (S, E) -> int)
    requires Neutral(table)
    requires forall i :: 0 <= i < |table.rows| ==> RowNumbered(table, target, number, i)
    requires forall s, e :: PairNumbered(table, target, number, s, e)
    ensures Described(table, target)
  {
    var rows := table.rows;
    forall i, j | 0 <= i < j < |rows| ensures rows[i].from != rows[j].from || rows[i].event != rows[j].event {
      assert RowNumbered(table, target, number, i) && RowNumbered(table, target, number, j);
    }
    forall i | 0 <= i < |rows| ensures RowOk(table, rows[i]) {
      assert RowNumbered(table, target, number, i);
    }
    forall s, e, to ensures Row(s, e, to) in rows <==> target(s, e) == Some(to) {
      assert PairNumbered(table, target, number, s, e);
      if Row(s, e, to) in rows {
        var i :| 0 <= i < |rows| && rows[i] == Row(s, e, to);
        assert RowNumbered(table, target, number, i);
      }
    }
  }

  lemma RegisteredExactly<C(!new), S(!new), E(!new)>(table: Table<C, S, E>, target: (S, E) -> Option<S>, s: S, e: E)
    requires Described(table, target)
    ensures (s, e) in Compiled(table).index <==> target(s, e).Some?
    ensures (s, e) in Compiled(table).index ==> target(s, e) == Some(Compiled(table).index[(s, e)].to)
  {
    if (s, e) in Compiled(table).index {
      EntryRow(table, s, e);
    }
    if target(s, e).Some? {
      RowEntry(table, Row(s, e, target(s, e).value));
    }
  }

  /**
  What a send does on a table: it succeeds exactly when the reference has a target for the
  event and the guard, if any, agrees; then it goes to the target and applies the effect,
  and otherwise nothing changes.
  */
  lemma TargetSend<C(!new), S(!new), E(!new)>(
      table: Table<C, S, E>, target: (S, E) -> Option<S>, st: MachineState<C, S, E>, env: Envelope<E>)
    requires Described(table, target) && !st.inFlight
    ensures var r := Dispatch(Compiled(table), st, env);
            var goal := target(st.current, env.event);
            && !r.state.inFlight
            && (r.error.None? <==> goal.Some? && Allows(table, Row(st.current, env.event, goal.value), st.obj, env))
            && (r.error.Some? ==> r.state == st)
            && (r.error.None? ==>
                  && r.state.current == goal.value && r.state.seqNo == st.seqNo + 1
                  && r.state.obj == table.makes(Row(st.current, env.event, goal.value), st.obj, env))
  {
    var goal := target(st.current, env.event);
    if goal.Some? {
      RowSend(table, Row(st.current, env.event, goal.value), st, env);
    } else {
      RegisteredExactly(table, target, st.current, env.event);
    }
  }

  /** Record `i` of a log is the reference's move from where the record before it went. */
  ghost predicate MovesTo<S(!new), E>(target: (S, E) -> Option<S>, start: S, log: seq<Record<S, E>>, i: int)
    requires 0 <= i < |log|
  {
    && log[i].from == (if i == 0 then start else log[i - 1].to)
    && target(log[i].from, log[i].envelope.event) == Some(log[i].to)
  }

  /** In every run the log follows the reference, one move after the other, to the current state. */
  lemma LogFollowsTarget<C(!new), S(!new), E(!new)>(
      table: Table<C, S, E>, target: (S, E) -> Option<S>, obj: C, start: S, xs: seq<Stimulus<C, E>>)
    requires Described(table, target)
    ensures var log := FullLog(Compiled(table), Fresh<C, S, E>(obj, start), xs);
            var end := Run(Compiled(table), Fresh<C, S, E>(obj, start), xs);
            && (forall i :: 0 <= i < |log| ==> MovesTo(target, start, log, i))
            && end.current == (if log == [] then start else log[|log| - 1].to)
  {
    var def := Compiled(table);
    var log := FullLog(def, Fresh<C, S, E>(obj, start), xs);
    HistoryRefinesLog(def, obj, start, xs);
    ChainEnds(def, 0, start, log, Run(def, Fresh<C, S, E>(obj, start), xs).current);
    forall i | 0 <= i < |log| ensures MovesTo(target, start, log, i) {
      ChainLink(def, 0, start, log, Run(def, Fresh<C, S, E>(obj, start), xs).current, i);
      RegisteredExactly(table, target, log[i].from, log[i].envelope.event);
    }
  }
}
