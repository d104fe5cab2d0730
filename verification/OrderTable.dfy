/** The order machine (backend/utils/FSM.go). */
module OrderTable {
  import opened Wrappers
  import opened Fsm
  import opened FsmBuilder
  import opened FsmRuns
  import opened TableKit

  /** `Unlisted` is any stored status that is not a state of the machine. */
  datatype OrderState =
    | Pending | Confirmed | Preparing | Ready | Served | Cancelled | Refunded | Unlisted(status: string)

  datatype OrderEvent = Confirm | Prepare | MarkReady | Serve | Cancel | Refund

  datatype Order = Order(totalAmount: real, status: OrderState)

  type OrderRow = Row<OrderState, OrderEvent>

  const ROWS: seq<OrderRow> := [
    Row(Pending, Confirm, Confirmed),
    Row(Confirmed, Prepare, Preparing),
    Row(Preparing, MarkReady, Ready),
    Row(Ready, Serve, Served),
    Row(Served, Refund, Refunded),
    Row(Pending, Cancel, Cancelled),
    Row(Confirmed, Cancel, Cancelled),
    Row(Preparing, Cancel, Cancelled),
    Row(Ready, Cancel, Cancelled)]

  function Demands(row: OrderRow): Option<string> {
    if row.event == Confirm then Some("cannot confirm order with zero or negative total") else None
  }

  predicate Asks(row: OrderRow, o: Order, env: Envelope<OrderEvent>) { o.totalAmount > 0.0 }

  function Makes(row: OrderRow, o: Order, env: Envelope<OrderEvent>): Order { o.(status := row.to) }

  /** The table's global effect is there but does nothing. */
  function OrderTable(): Table<Order, OrderState, OrderEvent> {
    Table({Confirmed, Preparing, Ready, Served}, Pending, {Cancelled, Refunded}, ROWS, Demands, Asks, Makes,
          [Writes((o: Order, _) => o)])
  }

  function OrderFsm(): Definition<Order, OrderState, OrderEvent> { Compiled(OrderTable()) }

  function Status(o: Order): OrderState { o.status }

  function Rank(s: OrderState): nat {
    match s
    case Pending => 5 case Confirmed => 4 case Preparing => 3 case Ready => 2 case Served => 1 case _ => 0
  }

  /** Where an event takes an order: one step along the service line, or out of it before it is served. */
  function OrderTarget(s: OrderState, e: OrderEvent): Option<OrderState> {
    match (s, e)
    case (Pending, Confirm) => Some(Confirmed)
    case (Confirmed, Prepare) => Some(Preparing)
    case (Preparing, MarkReady) => Some(Ready)
    case (Ready, Serve) => Some(Served)
    case (Served, Refund) => Some(Refunded)
    case (_, Cancel) => if s in {Pending, Confirmed, Preparing, Ready} then Some(Cancelled) else None
    case _ => None
  }

  /** The position of a pair's row in the table. */
  function RowNumber(s: OrderState, e: OrderEvent): int {
    if e == Cancel then (match s case Pending => 5 case Confirmed => 6 case Preparing => 7 case _ => 8)
    else (match s case Pending => 0 case Confirmed => 1 case Preparing => 2 case Ready => 3 case _ => 4)
  }

  lemma RowsNumbered(i: nat)
    requires i < |ROWS|
    ensures RowNumbered(OrderTable(), OrderTarget, RowNumber, i)
    ensures Rank(ROWS[i].to) < Rank(ROWS[i].from)
  {
  }

  lemma PairsNumbered(s: OrderState, e: OrderEvent)
    ensures PairNumbered(OrderTable(), OrderTarget, RowNumber, s, e)
  {
    if OrderTarget(s, e).Some? {
      assert ROWS[RowNumber(s, e)] == Row(s, e, OrderTarget(s, e).value);
    }
  }

  /** The table is in order and is the reference row by row. */
  lemma OrderDescribed()
    ensures Described(OrderTable(), OrderTarget)
    ensures forall row :: row in ROWS ==> Rank(row.to) < Rank(row.from)
  {
    forall i: nat | i < |ROWS|
      ensures RowNumbered(OrderTable(), OrderTarget, RowNumber, i)
      ensures Rank(ROWS[i].to) < Rank(ROWS[i].from)
    {
      RowsNumbered(i);
    }
    forall s, e ensures PairNumbered(OrderTable(), OrderTarget, RowNumber, s, e) {
      PairsNumbered(s, e);
    }
    NumberedTable(OrderTable(), OrderTarget, RowNumber);
  }

  /** The table compiles and restoring from the stored status is faithful. */
  lemma OrderFsmLaws()
    ensures WellFormed(States(OrderTable()), Transitions(OrderTable()))
    ensures StatusKeeping(OrderFsm(), Status)
  {
    OrderDescribed();
    GoodRowsWellFormed(OrderTable());
    StatusTable(OrderTable(), Status);
  }

  lemma OrderRanked()
    ensures Ranked(OrderFsm(), Rank)
  {
    OrderDescribed();
    RankedTable(OrderTable(), Rank);
  }

  /** At most five events ever succeed on one order, whatever is sent and however its fields are edited. */
  lemma OrderRunsAreShort(o: Order, start: OrderState, xs: seq<Stimulus<Order, OrderEvent>>)
    ensures Run(OrderFsm(), Fresh<Order, OrderState, OrderEvent>(o, start), xs).seqNo <= 5
  {
    OrderRanked();
    RankBoundsRuns(OrderFsm(), Rank, o, start, xs);
  }

  /**
  What one event does to an order, whatever metadata comes with it: it succeeds exactly when
  it has a target and, to confirm, the total is positive; then state and status are the
  target, and otherwise nothing changes.
  */
  lemma OrderSend(st: MachineState<Order, OrderState, OrderEvent>, env: Envelope<OrderEvent>)
    requires !st.inFlight
    ensures var r := Dispatch(OrderFsm(), st, env);
            var target := OrderTarget(st.current, env.event);
            && (r.error.None? <==> target.Some? && (env.event == Confirm ==> st.obj.totalAmount > 0.0))
            && (r.error.Some? ==> r.state == st)
            && (r.error.None? ==>
                  r.state.current == target.value && r.state.obj == st.obj.(status := target.value))
  {
    OrderDescribed();
    TargetSend(OrderTable(), OrderTarget, st, env);
  }

  /** Event by event: where it is taken, and the one state it leads to. */
  lemma OrderEvents(s: OrderState, e: OrderEvent)
    ensures OrderTarget(s, e) ==
            match e
              case Confirm => From(s, {Pending}, Confirmed)
              case Prepare => From(s, {Confirmed}, Preparing)
              case MarkReady => From(s, {Preparing}, Ready)
              case Serve => From(s, {Ready}, Served)
              case Cancel => From(s, {Pending, Confirmed, Preparing, Ready}, Cancelled)
              case Refund => From(s, {Served}, Refunded)
  {
  }

  lemma OrderRegistered(s: OrderState, e: OrderEvent)
    ensures (s, e) in OrderFsm().index <==> OrderTarget(s, e).Some?
  {
    OrderDescribed();
    RegisteredExactly(OrderTable(), OrderTarget, s, e);
  }

  /** Cancelling is registered exactly before serving; a served order can only be refunded. */
  lemma CancelEdges(s: OrderState, e: OrderEvent)
    ensures (s, Cancel) in OrderFsm().index <==> s in {Pending, Confirmed, Preparing, Ready}
    ensures (Served, e) in OrderFsm().index <==> e == Refund
  {
    OrderRegistered(s, Cancel);
    OrderRegistered(Served, e);
  }

  type OrderLog = seq<Record<OrderState, OrderEvent>>

  /** The whole service line, and the refund for an order that was refunded. */
  ghost predicate ServedInOrder(log: OrderLog, last: OrderState) {
    && |log| == (if last == Served then 4 else 5)
    && log[0].envelope.event == Confirm && log[1].envelope.event == Prepare
    && log[2].envelope.event == MarkReady && log[3].envelope.event == Serve
    && (last == Refunded ==> log[4].envelope.event == Refund)
  }

  lemma ServiceLine(log: OrderLog, last: OrderState)
    requires forall i :: 0 <= i < |log| ==> MovesTo(OrderTarget, Pending, log, i)
    requires log != [] && last == log[|log| - 1].to && (last == Served || last == Refunded)
    ensures ServedInOrder(log, last)
  {
    assert MovesTo(OrderTarget, Pending, log, 0);
    assert |log| > 1 ==> MovesTo(OrderTarget, Pending, log, 1);
    assert |log| > 2 ==> MovesTo(OrderTarget, Pending, log, 2);
    assert |log| > 3 ==> MovesTo(OrderTarget, Pending, log, 3);
    assert |log| > 4 ==> MovesTo(OrderTarget, Pending, log, 4);
    assert |log| > 5 ==> MovesTo(OrderTarget, Pending, log, 5);
  }

  /** Stimulus `k` confirmed the order, whose total was positive at that moment. */
  ghost predicate ConfirmedAt(o: Order, xs: seq<Stimulus<Order, OrderEvent>>, k: nat) {
    && k < |xs| && xs[k].Fire? && xs[k].env.event == Confirm
    && var before := Run(OrderFsm(), Fresh<Order, OrderState, OrderEvent>(o, Pending), xs[..k]);
       before.current == Pending && before.obj.totalAmount > 0.0
  }

  /** An accepted confirmation finds the order pending with a positive total. */
  lemma ConfirmIsAllowed(st: MachineState<Order, OrderState, OrderEvent>, x: Stimulus<Order, OrderEvent>)
    requires !st.inFlight && Accepts(OrderFsm(), st, x) && x.env.event == Confirm
    ensures st.current == Pending && st.obj.totalAmount > 0.0
  {
    OrderSend(st, x.env);
  }

  /**
  Every run that took a pending order to served or refunded committed the whole service line
  in order and nothing else, and the order was confirmed while its total was positive,
  whatever was done to the total before and after.
  */
  lemma ServedOrdersWereConfirmed(o: Order, xs: seq<Stimulus<Order, OrderEvent>>) returns (k: nat)
    requires var last := Run(OrderFsm(), Fresh<Order, OrderState, OrderEvent>(o, Pending), xs).current;
             last == Served || last == Refunded
    ensures var st := Fresh<Order, OrderState, OrderEvent>(o, Pending);
            ServedInOrder(FullLog(OrderFsm(), st, xs), Run(OrderFsm(), st, xs).current)
    ensures ConfirmedAt(o, xs, k)
  {
    var st := Fresh<Order, OrderState, OrderEvent>(o, Pending);
    var log := FullLog(OrderFsm(), st, xs);
    OrderDescribed();
    LogFollowsTarget(OrderTable(), OrderTarget, o, Pending, xs);
    ServiceLine(log, Run(OrderFsm(), st, xs).current);
    k := RecordWasCommitted(OrderFsm(), st, xs, 0);
    ConfirmIsAllowed(Run(OrderFsm(), st, xs[..k]), xs[k]);
  }
}
