/** The payment machine (backend/utils/FSM.go). */
module PaymentTable {
  import opened Wrappers
  import opened Fsm
  import opened FsmBuilder
  import opened FsmRuns
  import opened TableKit

  datatype PaymentState =
    | PendingQR | AwaitingConfirm | Confirmed | Failed | Refunded | Unlisted(status: string)

  datatype PaymentEvent = QRScanned | PaymentReceived | Fail | Expire | Refund

  datatype Payment = Payment(status: PaymentState, failureReason: string)

  type PaymentRow = Row<PaymentState, PaymentEvent>

  const ROWS: seq<PaymentRow> := [
    Row(PendingQR, QRScanned, AwaitingConfirm),
    Row(AwaitingConfirm, PaymentReceived, Confirmed),
    Row(AwaitingConfirm, Fail, Failed),
    Row(PendingQR, Expire, Failed),
    Row(PendingQR, Fail, Failed),
    Row(Confirmed, Refund, Refunded)]

  predicate ManagerApproved(env: Envelope<PaymentEvent>) {
    "manager_approved" in env.metadata && env.metadata["manager_approved"] == "true"
  }

  function Demands(row: PaymentRow): Option<string> {
    if row.event == Refund then Some("refund requires manager_approved=true in envelope metadata") else None
  }

  predicate Asks(row: PaymentRow, p: Payment, env: Envelope<PaymentEvent>) { ManagerApproved(env) }

  function Makes(row: PaymentRow, p: Payment, env: Envelope<PaymentEvent>): Payment {
    var moved := p.(status := row.to);
    match row.event
    case Expire => moved.(failureReason := "QR code expired")
    case Fail =>
      if "failure_reason" in env.metadata then moved.(failureReason := env.metadata["failure_reason"]) else moved
    case _ => moved
  }

  function PaymentTable(): Table<Payment, PaymentState, PaymentEvent> {
    Table({AwaitingConfirm, Confirmed}, PendingQR, {Failed, Refunded}, ROWS, Demands, Asks, Makes, [])
  }

  function PaymentFsm(): Definition<Payment, PaymentState, PaymentEvent> { Compiled(PaymentTable()) }

  function Status(p: Payment): PaymentState { p.status }

  function Rank(s: PaymentState): nat {
    match s case PendingQR => 3 case AwaitingConfirm => 2 case Confirmed => 1 case _ => 0
  }

  /** Where an event takes a payment. */
  function PaymentTarget(s: PaymentState, e: PaymentEvent): Option<PaymentState> {
    match (s, e)
    case (PendingQR, QRScanned) => Some(AwaitingConfirm)
    case (AwaitingConfirm, PaymentReceived) => Some(Confirmed)
    case (PendingQR, Expire) => Some(Failed)
    case (_, Fail) => if s == PendingQR || s == AwaitingConfirm then Some(Failed) else None
    case (Confirmed, Refund) => Some(Refunded)
    case _ => None
  }

  /** The position of a pair's row in the table. */
  function RowNumber(s: PaymentState, e: PaymentEvent): int {
    match s
    case PendingQR => (match e case QRScanned => 0 case Expire => 3 case _ => 4)
    case AwaitingConfirm => if e == PaymentReceived then 1 else 2
    case _ => 5
  }

  lemma RowsNumbered(i: nat)
    requires i < |ROWS|
    ensures RowNumbered(PaymentTable(), PaymentTarget, RowNumber, i)
    ensures Rank(ROWS[i].to) < Rank(ROWS[i].from)
  {
  }

  lemma PairsNumbered(s: PaymentState, e: PaymentEvent)
    ensures PairNumbered(PaymentTable(), PaymentTarget, RowNumber, s, e)
  {
    if PaymentTarget(s, e).Some? {
      assert ROWS[RowNumber(s, e)] == Row(s, e, PaymentTarget(s, e).value);
    }
  }

  /** The table is in order and is the reference row by row. */
  lemma PaymentDescribed()
    ensures Described(PaymentTable(), PaymentTarget)
    ensures forall row :: row in ROWS ==> Rank(row.to) < Rank(row.from)
  {
    forall i: nat | i < |ROWS|
      ensures RowNumbered(PaymentTable(), PaymentTarget, RowNumber, i)
      ensures Rank(ROWS[i].to) < Rank(ROWS[i].from)
    {
      RowsNumbered(i);
    }
    forall s, e ensures PairNumbered(PaymentTable(), PaymentTarget, RowNumber, s, e) {
      PairsNumbered(s, e);
    }
    NumberedTable(PaymentTable(), PaymentTarget, RowNumber);
  }

  /** The table compiles and restoring from the stored status is faithful. */
  lemma PaymentFsmLaws()
    ensures WellFormed(States(PaymentTable()), Transitions(PaymentTable()))
    ensures StatusKeeping(PaymentFsm(), Status)
  {
    PaymentDescribed();
    GoodRowsWellFormed(PaymentTable());
    StatusTable(PaymentTable(), Status);
  }

  lemma PaymentRanked()
    ensures Ranked(PaymentFsm(), Rank)
  {
    PaymentDescribed();
    RankedTable(PaymentTable(), Rank);
  }

  /** At most three events ever succeed on one payment. */
  lemma PaymentRunsAreShort(p: Payment, start: PaymentState, xs: seq<Stimulus<Payment, PaymentEvent>>)
    ensures Run(PaymentFsm(), Fresh<Payment, PaymentState, PaymentEvent>(p, start), xs).seqNo <= 3
  {
    PaymentRanked();
    RankBoundsRuns(PaymentFsm(), Rank, p, start, xs);
  }

  lemma MakesAre(row: PaymentRow, p: Payment, env: Envelope<PaymentEvent>)
    requires row.event == env.event
    ensures Makes(row, p, env).status == row.to
    ensures Makes(row, p, env).failureReason ==
            if env.event == Expire then "QR code expired"
            else if env.event == Fail && "failure_reason" in env.metadata then env.metadata["failure_reason"]
            else p.failureReason
  {
  }

  /**
  What one event does to a payment: it succeeds exactly when it has a target and, to refund,
  the metadata says that a manager approved; then state and status are the target and the
  failure reason is a fixed one on expiry, the one in the metadata, if any, on failure, and
  otherwise kept. If it does not succeed nothing changes.
  */
  lemma PaymentSend(st: MachineState<Payment, PaymentState, PaymentEvent>, env: Envelope<PaymentEvent>)
    requires !st.inFlight
    ensures var r := Dispatch(PaymentFsm(), st, env);
            var target := PaymentTarget(st.current, env.event);
            && (r.error.None? <==>
                  && target.Some?
                  && (env.event == Refund ==>
                        "manager_approved" in env.metadata && env.metadata["manager_approved"] == "true"))
            && (r.error.Some? ==> r.state == st)
            && (r.error.None? ==>
                  && r.state.current == r.state.obj.status == target.value
                  && r.state.obj.failureReason ==
                     if env.event == Expire then "QR code expired"
                     else if env.event == Fail && "failure_reason" in env.metadata then env.metadata["failure_reason"]
                     else st.obj.failureReason)
  {
    PaymentDescribed();
    TargetSend(PaymentTable(), PaymentTarget, st, env);
    var target := PaymentTarget(st.current, env.event);
    if target.Some? {
      MakesAre(Row(st.current, env.event, target.value), st.obj, env);
    }
  }

  /** Event by event: where it is taken, and the one state it leads to. */
  lemma PaymentEvents(s: PaymentState, e: PaymentEvent)
    ensures PaymentTarget(s, e) ==
            match e
              case QRScanned => From(s, {PendingQR}, AwaitingConfirm)
              case PaymentReceived => From(s, {AwaitingConfirm}, Confirmed)
              case Fail => From(s, {PendingQR, AwaitingConfirm}, Failed)
              case Expire => From(s, {PendingQR}, Failed)
              case Refund => From(s, {Confirmed}, Refunded)
  {
  }

  /** A confirmed payment is refunded exactly when the approval in the metadata reads "true", and never without one. */
  lemma RefundNeedsApproval(p: Payment, metadata: map<string, string>, approval: string)
    ensures var st := Fresh<Payment, PaymentState, PaymentEvent>(p, Confirmed);
            var given := Dispatch(PaymentFsm(), st, Envelope(Refund, metadata["manager_approved" := approval]));
            var none := Dispatch(PaymentFsm(), st, Envelope(Refund, metadata - {"manager_approved"}));
            && (given.error.None? <==> approval == "true")
            && given.state.current == (if approval == "true" then Refunded else Confirmed)
            && none.error.Some? && none.state == st
  {
    var st := Fresh<Payment, PaymentState, PaymentEvent>(p, Confirmed);
    PaymentSend(st, Envelope(Refund, metadata["manager_approved" := approval]));
    PaymentSend(st, Envelope(Refund, metadata - {"manager_approved"}));
  }

  /** What is known of a record the machine committed. */
  ghost predicate Legitimate(r: Record<PaymentState, PaymentEvent>) {
    && PaymentTarget(r.from, r.envelope.event) == Some(r.to)
    && (r.envelope.event == Refund ==> ManagerApproved(r.envelope))
  }

  lemma CommitsAreLegitimate(
      st: MachineState<Payment, PaymentState, PaymentEvent>, x: Stimulus<Payment, PaymentEvent>)
    requires !st.inFlight && Accepts(PaymentFsm(), st, x)
    ensures Legitimate(CommittedRecord(PaymentFsm(), st, x))
  {
    PaymentSend(st, x.env);
    StepOnMachine(PaymentFsm(), st, x);
  }

  lemma {:induction false} LogIsLegitimate(
      st: MachineState<Payment, PaymentState, PaymentEvent>, xs: seq<Stimulus<Payment, PaymentEvent>>)
    requires !st.inFlight
    ensures forall r :: r in FullLog(PaymentFsm(), st, xs) ==> Legitimate(r)
    decreases |xs|
  {
    if xs == [] {
    } else {
      StepOnMachine(PaymentFsm(), st, xs[0]);
      LogIsLegitimate(After(PaymentFsm(), st, xs[0]), xs[1..]);
      if Accepts(PaymentFsm(), st, xs[0]) {
        CommitsAreLegitimate(st, xs[0]);
      }
    }
  }

  /** The only way through the rows from a fresh QR code to a refund. */
  lemma PathToRefund(log: seq<Record<PaymentState, PaymentEvent>>, base: nat)
    requires Chained(PaymentFsm(), base, PendingQR, log, Refunded)
    requires forall r :: r in log ==> Legitimate(r)
    ensures |log| == 3
    ensures log[0].envelope.event == QRScanned && log[1].envelope.event == PaymentReceived
    ensures log[2].envelope.event == Refund && ManagerApproved(log[2].envelope)
  {
    assert IsTerminal(PaymentFsm(), Failed) && IsTerminal(PaymentFsm(), Refunded);
    assert Legitimate(log[0]);
    var rest := log[1..];
    assert Chained(PaymentFsm(), base + 1, log[0].to, rest, Refunded);
    assert log[0].to == AwaitingConfirm;
    assert rest[0] == log[1] && Legitimate(log[1]);
    var last := rest[1..];
    assert Chained(PaymentFsm(), base + 2, log[1].to, last, Refunded);
    assert log[1].to == Confirmed;
    assert last[0] == log[2] && Legitimate(log[2]);
    assert Chained(PaymentFsm(), base + 3, log[2].to, last[1..], Refunded);
  }

  /**
  A payment that started at pending_qr and ended refunded went through exactly three
  committed events: the scan, the confirmation and a refund that a manager approved.
  */
  lemma RefundsAreEarned(p: Payment, xs: seq<Stimulus<Payment, PaymentEvent>>)
    requires Run(PaymentFsm(), Fresh<Payment, PaymentState, PaymentEvent>(p, PendingQR), xs).current == Refunded
    ensures var log := FullLog(PaymentFsm(), Fresh<Payment, PaymentState, PaymentEvent>(p, PendingQR), xs);
            && |log| == 3
            && log[0].envelope.event == QRScanned
            && log[1].envelope.event == PaymentReceived
            && log[2].envelope.event == Refund
            && "manager_approved" in log[2].envelope.metadata
            && log[2].envelope.metadata["manager_approved"] == "true"
  {
    var st := Fresh<Payment, PaymentState, PaymentEvent>(p, PendingQR);
    HistoryRefinesLog(PaymentFsm(), p, PendingQR, xs);
    LogIsLegitimate(st, xs);
    PathToRefund(FullLog(PaymentFsm(), st, xs), 0);
  }
}
