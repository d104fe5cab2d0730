/** The kitchen ticket machine (backend/utils/FSM.go). */
module KotTable {
  import opened Wrappers
  import opened Fsm
  import opened FsmBuilder
  import opened FsmRuns
  import opened TableKit

  /** `Unlisted` is any stored status that is not a state of the machine. */
  datatype KotState = Sent | InProgress | Completed | Cancelled | Unlisted(status: string)

  datatype KotEvent = Start | Complete | Cancel

  datatype Priority = Low | Medium | High | Urgent

  datatype Kot = Kot(priority: Priority, status: KotState)

  type KotRow = Row<KotState, KotEvent>

  const ROWS: seq<KotRow> := [
    Row(Sent, Start, InProgress),
    Row(InProgress, Complete, Completed),
    Row(Sent, Cancel, Cancelled),
    Row(InProgress, Cancel, Cancelled)]

  predicate ForceCancelled(env: Envelope<KotEvent>) {
    "force_cancel" in env.metadata && env.metadata["force_cancel"] == "true"
  }

  function Demands(row: KotRow): Option<string> {
    if row == Row(InProgress, Cancel, Cancelled) then
      Some("urgent KOT requires force_cancel=true metadata to cancel mid-preparation")
    else None
  }

  predicate Asks(row: KotRow, k: Kot, env: Envelope<KotEvent>) { k.priority == Urgent ==> ForceCancelled(env) }

  function Makes(row: KotRow, k: Kot, env: Envelope<KotEvent>): Kot { k.(status := row.to) }

  function KotTable(): Table<Kot, KotState, KotEvent> {
    Table({InProgress}, Sent, {Completed, Cancelled}, ROWS, Demands, Asks, Makes, [])
  }

  function KotFsm(): Definition<Kot, KotState, KotEvent> { Compiled(KotTable()) }

  function Status(k: Kot): KotState { k.status }

  function Rank(s: KotState): nat {
    match s case Sent => 2 case InProgress => 1 case _ => 0
  }

  /** Where an event takes a ticket, if it is let through. */
  function KotMove(s: KotState, e: KotEvent): Option<KotState> {
    match (s, e)
    case (Sent, Start) => Some(InProgress)
    case (InProgress, Complete) => Some(Completed)
    case (_, Cancel) => if s == Sent || s == InProgress then Some(Cancelled) else None
    case _ => None
  }

  /** The position of a pair's row in the table. */
  function RowNumber(s: KotState, e: KotEvent): int {
    match e case Start => 0 case Complete => 1 case Cancel => if s == Sent then 2 else 3
  }

  lemma RowsNumbered(i: nat)
    requires i < |ROWS|
    ensures RowNumbered(KotTable(), KotMove, RowNumber, i)
    ensures Rank(ROWS[i].to) < Rank(ROWS[i].from)
  {
  }

  lemma PairsNumbered(s: KotState, e: KotEvent)
    ensures PairNumbered(KotTable(), KotMove, RowNumber, s, e)
  {
    if KotMove(s, e).Some? {
      assert ROWS[RowNumber(s, e)] == Row(s, e, KotMove(s, e).value);
    }
  }

  /** The table is in order and is the reference row by row. */
  lemma KotDescribed()
    ensures Described(KotTable(), KotMove)
    ensures forall row :: row in ROWS ==> Rank(row.to) < Rank(row.from)
  {
    forall i: nat | i < |ROWS|
      ensures RowNumbered(KotTable(), KotMove, RowNumber, i)
      ensures Rank(ROWS[i].to) < Rank(ROWS[i].from)
    {
      RowsNumbered(i);
    }
    forall s, e ensures PairNumbered(KotTable(), KotMove, RowNumber, s, e) {
      PairsNumbered(s, e);
    }
    NumberedTable(KotTable(), KotMove, RowNumber);
  }

  /** The table compiles and restoring from the stored status is faithful. */
  lemma KotFsmLaws()
    ensures WellFormed(States(KotTable()), Transitions(KotTable()))
    ensures StatusKeeping(KotFsm(), Status)
  {
    KotDescribed();
    GoodRowsWellFormed(KotTable());
    StatusTable(KotTable(), Status);
  }

  lemma KotRanked()
    ensures Ranked(KotFsm(), Rank)
  {
    KotDescribed();
    RankedTable(KotTable(), Rank);
  }

  /** At most two events ever succeed on one ticket. */
  lemma KotRunsAreShort(k: Kot, start: KotState, xs: seq<Stimulus<Kot, KotEvent>>)
    ensures Run(KotFsm(), Fresh<Kot, KotState, KotEvent>(k, start), xs).seqNo <= 2
  {
    KotRanked();
    RankBoundsRuns(KotFsm(), Rank, k, start, xs);
  }

  /** The state an event leads to, if the ticket machine takes it. */
  function KotTarget(k: Kot, env: Envelope<KotEvent>): Option<KotState> {
    if k.status == InProgress && env.event == Cancel && k.priority == Urgent && !ForceCancelled(env) then None
    else KotMove(k.status, env.event)
  }

  lemma TargetIsAllowedMove(k: Kot, env: Envelope<KotEvent>)
    ensures var move := KotMove(k.status, env.event);
            KotTarget(k, env) ==
            if move.Some? && Allows(KotTable(), Row(k.status, env.event, move.value), k, env) then move else None
  {
  }

  /** Restoring a ticket from its stored status and sending one event writes the target status, or nothing at all. */
  lemma RestoredSend(k: Kot, env: Envelope<KotEvent>)
    ensures var r := Dispatch(KotFsm(), Fresh<Kot, KotState, KotEvent>(k, k.status), env);
            var target := KotTarget(k, env);
            && (r.error.None? <==> target.Some?)
            && r.state.obj == (if target.Some? then k.(status := target.value) else k)
  {
    KotDescribed();
    TargetSend(KotTable(), KotMove, Fresh<Kot, KotState, KotEvent>(k, k.status), env);
    TargetIsAllowedMove(k, env);
  }

  /** Event by event: where it is taken, and the one state it leads to. */
  lemma KotEvents(s: KotState, e: KotEvent)
    ensures KotMove(s, e) ==
            match e
              case Start => From(s, {Sent}, InProgress)
              case Complete => From(s, {InProgress}, Completed)
              case Cancel => From(s, {Sent, InProgress}, Cancelled)
  {
  }

  /**
  An urgent ticket in progress is cancelled exactly when the force in the metadata reads "true";
  one that is not urgent, or not started, needs no force.
  */
  lemma UrgentNeedsForce(k: Kot, metadata: map<string, string>, force: string)
    requires k.status == InProgress || k.status == Sent
    ensures var st := Fresh<Kot, KotState, KotEvent>(k, k.status);
            var given := Dispatch(KotFsm(), st, Envelope(Cancel, metadata["force_cancel" := force]));
            var none := Dispatch(KotFsm(), st, Envelope(Cancel, metadata - {"force_cancel"}));
            var urgent := k.priority == Urgent && k.status == InProgress;
            && given.state.obj.status == (if urgent && force != "true" then k.status else Cancelled)
            && none.state.obj.status == (if urgent then k.status else Cancelled)
            && given.state.obj.priority == none.state.obj.priority == k.priority
  {
    RestoredSend(k, Envelope(Cancel, metadata["force_cancel" := force]));
    RestoredSend(k, Envelope(Cancel, metadata - {"force_cancel"}));
  }
}
