/** The purchase order machine (backend/utils/FSM.go). */
module PurchaseOrderTable {
  import opened Wrappers
  import opened Fsm
  import opened FsmBuilder
  import opened FsmRuns
  import opened TableKit

  datatype PoState =
    | Draft | Submitted | Approved | PartiallyReceived | Received | Cancelled | Unlisted(status: string)

  datatype PoEvent = Submit | Approve | ReceivePartial | ReceiveFull | Cancel

  datatype PurchaseOrder = PurchaseOrder(totalAmount: real, status: PoState)

  type PoRow = Row<PoState, PoEvent>

  const ROWS: seq<PoRow> := [
    Row(Draft, Submit, Submitted),
    Row(Submitted, Approve, Approved),
    Row(Approved, ReceivePartial, PartiallyReceived),
    Row(PartiallyReceived, ReceiveFull, Received),
    Row(Approved, ReceiveFull, Received),
    Row(Draft, Cancel, Cancelled),
    Row(Submitted, Cancel, Cancelled)]

  function Demands(row: PoRow): Option<string> {
    if row.event == Submit then Some("cannot submit purchase order with zero total") else None
  }

  predicate Asks(row: PoRow, po: PurchaseOrder, env: Envelope<PoEvent>) { po.totalAmount > 0.0 }

  function Makes(row: PoRow, po: PurchaseOrder, env: Envelope<PoEvent>): PurchaseOrder { po.(status := row.to) }

  function PurchaseOrderTable(): Table<PurchaseOrder, PoState, PoEvent> {
    Table({Submitted, Approved, PartiallyReceived}, Draft, {Received, Cancelled}, ROWS, Demands, Asks, Makes, [])
  }

  function PurchaseOrderFsm(): Definition<PurchaseOrder, PoState, PoEvent> { Compiled(PurchaseOrderTable()) }

  function Status(po: PurchaseOrder): PoState { po.status }

  function Rank(s: PoState): nat {
    match s
    case Draft => 4 case Submitted => 3 case Approved => 2 case PartiallyReceived => 1 case _ => 0
  }

  /** Where an event takes a purchase order: on towards receipt, or out of it before approval. */
  function PoTarget(s: PoState, e: PoEvent): Option<PoState> {
    match (s, e)
    case (Draft, Submit) => Some(Submitted)
    case (Submitted, Approve) => Some(Approved)
    case (Approved, ReceivePartial) => Some(PartiallyReceived)
    case (_, ReceiveFull) => if s == Approved || s == PartiallyReceived then Some(Received) else None
    case (_, Cancel) => if s == Draft || s == Submitted then Some(Cancelled) else None
    case _ => None
  }

  /** The position of a pair's row in the table. */
  function RowNumber(s: PoState, e: PoEvent): int {
    match s
    case Draft => if e == Cancel then 5 else 0
    case Submitted => if e == Cancel then 6 else 1
    case Approved => if e == ReceiveFull then 4 else 2
    case _ => 3
  }

  lemma RowsNumbered(i: nat)
    requires i < |ROWS|
    ensures RowNumbered(PurchaseOrderTable(), PoTarget, RowNumber, i)
    ensures Rank(ROWS[i].to) < Rank(ROWS[i].from)
  {
  }

  lemma PairsNumbered(s: PoState, e: PoEvent)
    ensures PairNumbered(PurchaseOrderTable(), PoTarget, RowNumber, s, e)
  {
    if PoTarget(s, e).Some? {
      assert ROWS[RowNumber(s, e)] == Row(s, e, PoTarget(s, e).value);
    }
  }

  /** The table is in order and is the reference row by row. */
  lemma PurchaseOrderDescribed()
    ensures Described(PurchaseOrderTable(), PoTarget)
    ensures forall row :: row in ROWS ==> Rank(row.to) < Rank(row.from)
  {
    forall i: nat | i < |ROWS|
      ensures RowNumbered(PurchaseOrderTable(), PoTarget, RowNumber, i)
      ensures Rank(ROWS[i].to) < Rank(ROWS[i].from)
    {
      RowsNumbered(i);
    }
    forall s, e ensures PairNumbered(PurchaseOrderTable(), PoTarget, RowNumber, s, e) {
      PairsNumbered(s, e);
    }
    NumberedTable(PurchaseOrderTable(), PoTarget, RowNumber);
  }

  /** The table compiles and restoring from the stored status is faithful. */
  lemma PurchaseOrderFsmLaws()
    ensures WellFormed(States(PurchaseOrderTable()), Transitions(PurchaseOrderTable()))
    ensures StatusKeeping(PurchaseOrderFsm(), Status)
  {
    PurchaseOrderDescribed();
    GoodRowsWellFormed(PurchaseOrderTable());
    StatusTable(PurchaseOrderTable(), Status);
  }

  lemma PurchaseOrderRanked()
    ensures Ranked(PurchaseOrderFsm(), Rank)
  {
    PurchaseOrderDescribed();
    RankedTable(PurchaseOrderTable(), Rank);
  }

  /** At most four events ever succeed on one purchase order. */
  lemma PurchaseOrderRunsAreShort(po: PurchaseOrder, start: PoState, xs: seq<Stimulus<PurchaseOrder, PoEvent>>)
    ensures Run(PurchaseOrderFsm(), Fresh<PurchaseOrder, PoState, PoEvent>(po, start), xs).seqNo <= 4
  {
    PurchaseOrderRanked();
    RankBoundsRuns(PurchaseOrderFsm(), Rank, po, start, xs);
  }

  /**
  What one event does to a purchase order: it succeeds exactly when it has a target and, to
  submit, the total is positive; then state and status are the target, and otherwise
  nothing changes.
  */
  lemma PurchaseOrderSend(st: MachineState<PurchaseOrder, PoState, PoEvent>, env: Envelope<PoEvent>)
    requires !st.inFlight
    ensures var r := Dispatch(PurchaseOrderFsm(), st, env);
            var target := PoTarget(st.current, env.event);
            && (r.error.None? <==> target.Some? && (env.event == Submit ==> st.obj.totalAmount > 0.0))
            && (r.error.Some? ==> r.state == st)
            && (r.error.None? ==>
                  r.state.current == target.value && r.state.obj == st.obj.(status := target.value))
  {
    PurchaseOrderDescribed();
    TargetSend(PurchaseOrderTable(), PoTarget, st, env);
  }

  /** Event by event: where it is taken, and the one state it leads to. */
  lemma PurchaseOrderEvents(s: PoState, e: PoEvent)
    ensures PoTarget(s, e) ==
            match e
              case Submit => From(s, {Draft}, Submitted)
              case Approve => From(s, {Submitted}, Approved)
              case ReceivePartial => From(s, {Approved}, PartiallyReceived)
              case ReceiveFull => From(s, {Approved, PartiallyReceived}, Received)
              case Cancel => From(s, {Draft, Submitted}, Cancelled)
  {
  }

  type PoLog = seq<Record<PoState, PoEvent>>

  /** One submission, one approval, and the receipt in one or two parts. */
  ghost predicate ReceivedInOrder(log: PoLog) {
    && (|log| == 3 || |log| == 4)
    && log[0].envelope.event == Submit && log[1].envelope.event == Approve
    && (|log| == 4 ==> log[2].envelope.event == ReceivePartial)
    && log[|log| - 1].envelope.event == ReceiveFull
  }

  lemma WayToReceipt(log: PoLog)
    requires forall i :: 0 <= i < |log| ==> MovesTo(PoTarget, Draft, log, i)
    requires log != [] && log[|log| - 1].to == Received
    ensures ReceivedInOrder(log)
  {
    assert MovesTo(PoTarget, Draft, log, 0);
    assert |log| > 1 ==> MovesTo(PoTarget, Draft, log, 1);
    assert |log| > 2 ==> MovesTo(PoTarget, Draft, log, 2);
    assert |log| > 3 ==> MovesTo(PoTarget, Draft, log, 3);
    assert |log| > 4 ==> MovesTo(PoTarget, Draft, log, 4);
  }

  /** Stimulus `k` submitted the purchase order, whose total was positive at that moment. */
  ghost predicate SubmittedAt(po: PurchaseOrder, xs: seq<Stimulus<PurchaseOrder, PoEvent>>, k: nat) {
    && k < |xs| && xs[k].Fire? && xs[k].env.event == Submit
    && var before := Run(PurchaseOrderFsm(), Fresh<PurchaseOrder, PoState, PoEvent>(po, Draft), xs[..k]);
       before.current == Draft && before.obj.totalAmount > 0.0
  }

  /** An accepted submission finds a draft with a positive total. */
  lemma SubmitIsAllowed(st: MachineState<PurchaseOrder, PoState, PoEvent>, x: Stimulus<PurchaseOrder, PoEvent>)
    requires !st.inFlight && Accepts(PurchaseOrderFsm(), st, x) && x.env.event == Submit
    ensures st.current == Draft && st.obj.totalAmount > 0.0
  {
    PurchaseOrderSend(st, x.env);
  }

  /**
  Every run that took a draft to received committed exactly one submission, sent while the
  total was positive, then exactly one approval, then the receipt.
  */
  lemma ReceiptsWereApproved(po: PurchaseOrder, xs: seq<Stimulus<PurchaseOrder, PoEvent>>) returns (k: nat)
    requires Run(PurchaseOrderFsm(), Fresh<PurchaseOrder, PoState, PoEvent>(po, Draft), xs).current == Received
    ensures ReceivedInOrder(FullLog(PurchaseOrderFsm(), Fresh<PurchaseOrder, PoState, PoEvent>(po, Draft), xs))
    ensures SubmittedAt(po, xs, k)
  {
    var st := Fresh<PurchaseOrder, PoState, PoEvent>(po, Draft);
    PurchaseOrderDescribed();
    LogFollowsTarget(PurchaseOrderTable(), PoTarget, po, Draft, xs);
    WayToReceipt(FullLog(PurchaseOrderFsm(), st, xs));
    k := RecordWasCommitted(PurchaseOrderFsm(), st, xs, 0);
    SubmitIsAllowed(Run(PurchaseOrderFsm(), st, xs[..k]), xs[k]);
  }
}
