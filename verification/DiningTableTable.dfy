/** The dining table machine (backend/utils/FSM.go). */
module DiningTableTable {
  import opened Wrappers
  import opened Fsm
  import opened FsmBuilder
  import opened FsmRuns
  import opened TableKit

  datatype SeatState = Available | Occupied | Reserved | Cleaning | OutOfService | Unlisted(status: string)

  datatype SeatEvent = Seat | Reserve | Arrive | Release | Clean | Disable

  datatype DiningTable = DiningTable(capacity: int, status: SeatState)

  type SeatRow = Row<SeatState, SeatEvent>

  const ROWS: seq<SeatRow> := [
    Row(Available, Seat, Occupied),
    Row(Available, Reserve, Reserved),
    Row(Reserved, Arrive, Occupied),
    Row(Occupied, Release, Cleaning),
    Row(Cleaning, Clean, Available),
    Row(Available, Disable, OutOfService),
    Row(Occupied, Disable, OutOfService),
    Row(Reserved, Disable, OutOfService),
    Row(Cleaning, Disable, OutOfService)]

  /** No seating transition has a guard. */
  function DiningTables(): Table<DiningTable, SeatState, SeatEvent> {
    Table({Occupied, Reserved, Cleaning}, Available, {OutOfService}, ROWS, _ => None, (_, _, _) => true,
          (row: SeatRow, t: DiningTable, _) => t.(status := row.to), [])
  }

  function SeatFsm(): Definition<DiningTable, SeatState, SeatEvent> { Compiled(DiningTables()) }

  function Status(t: DiningTable): SeatState { t.status }

  /** Where an event takes a table: around the service cycle, or out of service from any state in it. */
  function SeatTarget(s: SeatState, e: SeatEvent): Option<SeatState> {
    match (s, e)
    case (Available, Seat) => Some(Occupied)
    case (Available, Reserve) => Some(Reserved)
    case (Reserved, Arrive) => Some(Occupied)
    case (Occupied, Release) => Some(Cleaning)
    case (Cleaning, Clean) => Some(Available)
    case (_, Disable) => if s in {Available, Occupied, Reserved, Cleaning} then Some(OutOfService) else None
    case _ => None
  }

  /** The position of a pair's row in the table. */
  function RowNumber(s: SeatState, e: SeatEvent): int {
    match s
    case Available => (match e case Seat => 0 case Reserve => 1 case _ => 5)
    case Reserved => if e == Disable then 7 else 2
    case Occupied => if e == Disable then 6 else 3
    case _ => if e == Disable then 8 else 4
  }

  lemma RowsNumbered(i: nat)
    requires i < |ROWS|
    ensures RowNumbered(DiningTables(), SeatTarget, RowNumber, i)
  {
  }

  lemma PairsNumbered(s: SeatState, e: SeatEvent)
    ensures PairNumbered(DiningTables(), SeatTarget, RowNumber, s, e)
  {
    if SeatTarget(s, e).Some? {
      assert ROWS[RowNumber(s, e)] == Row(s, e, SeatTarget(s, e).value);
    }
  }

  /** The table is in order and is the reference row by row. */
  lemma SeatDescribed()
    ensures Described(DiningTables(), SeatTarget)
  {
    forall i: nat | i < |ROWS|
      ensures RowNumbered(DiningTables(), SeatTarget, RowNumber, i)
    {
      RowsNumbered(i);
    }
    forall s, e ensures PairNumbered(DiningTables(), SeatTarget, RowNumber, s, e) {
      PairsNumbered(s, e);
    }
    NumberedTable(DiningTables(), SeatTarget, RowNumber);
  }

  /** The table compiles and restoring from the stored status is faithful. */
  lemma DiningTableFsmLaws()
    ensures WellFormed(States(DiningTables()), Transitions(DiningTables()))
    ensures StatusKeeping(SeatFsm(), Status)
  {
    SeatDescribed();
    GoodRowsWellFormed(DiningTables());
    StatusTable(DiningTables(), Status);
  }

  /** What one event does to a table: it goes to its target if there is one, and else nothing changes. */
  lemma SeatSend(st: MachineState<DiningTable, SeatState, SeatEvent>, env: Envelope<SeatEvent>)
    requires !st.inFlight
    ensures var r := Dispatch(SeatFsm(), st, env);
            var target := SeatTarget(st.current, env.event);
            && (r.error.None? <==> target.Some?)
            && (r.error.Some? ==> r.state == st)
            && (r.error.None? ==>
                  r.state.current == target.value && r.state.obj == st.obj.(status := target.value))
  {
    SeatDescribed();
    TargetSend(DiningTables(), SeatTarget, st, env);
  }

  /** Event by event: where it is taken, and the one state it leads to. */
  lemma SeatEvents(s: SeatState, e: SeatEvent)
    ensures SeatTarget(s, e) ==
            match e
              case Seat => From(s, {Available}, Occupied)
              case Reserve => From(s, {Available}, Reserved)
              case Arrive => From(s, {Reserved}, Occupied)
              case Release => From(s, {Occupied}, Cleaning)
              case Clean => From(s, {Cleaning}, Available)
              case Disable => From(s, {Available, Occupied, Reserved, Cleaning}, OutOfService)
  {
  }

  /** Between two records into occupied, the table was released for cleaning. */
  ghost predicate CleanedBetween(log: seq<Record<SeatState, SeatEvent>>, i: int, j: int)
    requires 0 <= i < j < |log|
  {
    exists k :: i < k < j && log[k].to == Cleaning
  }

  /**
  No guests are seated at a table that has not been cleaned: in every run, from any state,
  a release for cleaning lies between any two times the table becomes occupied.
  */
  lemma CleanedBetweenGuests(
      t: DiningTable, start: SeatState, xs: seq<Stimulus<DiningTable, SeatEvent>>, i: nat, j: nat)
    requires var log := FullLog(SeatFsm(), Fresh<DiningTable, SeatState, SeatEvent>(t, start), xs);
             i < j < |log| && log[i].to == Occupied && log[j].to == Occupied
    ensures CleanedBetween(FullLog(SeatFsm(), Fresh<DiningTable, SeatState, SeatEvent>(t, start), xs), i, j)
  {
    SeatDescribed();
    LogFollowsTarget(DiningTables(), SeatTarget, t, start, xs);
    var log := FullLog(SeatFsm(), Fresh<DiningTable, SeatState, SeatEvent>(t, start), xs);
    CleanedNext(log, start, i, j);
  }

  lemma CleanedNext(log: seq<Record<SeatState, SeatEvent>>, start: SeatState, i: nat, j: nat)
    requires forall k :: 0 <= k < |log| ==> MovesTo(SeatTarget, start, log, k)
    requires i < j < |log| && log[i].to == Occupied && log[j].to == Occupied
    ensures CleanedBetween(log, i, j)
  {
    assert MovesTo(SeatTarget, start, log, i + 1);
    if log[i + 1].to == OutOfService {
      assert MovesTo(SeatTarget, start, log, i + 2);
    }
  }

  lemma NoMoveFromUnlisted(log: seq<Record<SeatState, SeatEvent>>, status: string)
    requires forall k :: 0 <= k < |log| ==> MovesTo(SeatTarget, Unlisted(status), log, k)
    ensures log == []
  {
    assert log != [] ==> MovesTo(SeatTarget, Unlisted(status), log, 0);
  }

  /**
  A table whose stored status is not a state of the machine, as the name the database has for
  a table out of service is not, is stuck: no run ever moves it, and it does not count as
  terminal either.
  */
  lemma UnlistedIsStuck(t: DiningTable, status: string, xs: seq<Stimulus<DiningTable, SeatEvent>>)
    ensures var end := Run(SeatFsm(), Fresh<DiningTable, SeatState, SeatEvent>(t, Unlisted(status)), xs);
            && end.current == Unlisted(status) && end.seqNo == 0
            && !IsTerminal(SeatFsm(), end.current)
  {
    SeatDescribed();
    LogFollowsTarget(DiningTables(), SeatTarget, t, Unlisted(status), xs);
    HistoryRefinesLog(SeatFsm(), t, Unlisted(status), xs);
    var log := FullLog(SeatFsm(), Fresh<DiningTable, SeatState, SeatEvent>(t, Unlisted(status)), xs);
    NoMoveFromUnlisted(log, status);
  }
}
