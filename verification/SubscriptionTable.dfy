/** The subscription machine (backend/utils/FSM.go). */
module SubscriptionTable {
  import opened Wrappers
  import opened Fsm
  import opened FsmBuilder
  import opened FsmRuns
  import opened TableKit

  datatype SubState = Trialing | Active | PastDue | Suspended | Cancelled | Expired | Unlisted(status: string)

  datatype SubEvent = Activate | PayFail | PayOk | Suspend | Reactivate | Cancel | Expire

  datatype Subscription = Subscription(autoRenew: bool, status: SubState)

  type SubRow = Row<SubState, SubEvent>

  type SubMachine = MachineState<Subscription, SubState, SubEvent>

  type SubLog = seq<Record<SubState, SubEvent>>

  const ROWS: seq<SubRow> := [
    Row(Trialing, Activate, Active),
    Row(Active, PayFail, PastDue),
    Row(PastDue, PayOk, Active),
    Row(PastDue, Suspend, Suspended),
    Row(Suspended, Reactivate, Active),
    Row(Active, Expire, Expired),
    Row(Trialing, Cancel, Cancelled),
    Row(Active, Cancel, Cancelled),
    Row(PastDue, Cancel, Cancelled),
    Row(Suspended, Cancel, Cancelled)]

  function Demands(row: SubRow): Option<string> {
    if row.event == Expire then Some("cannot expire subscription with auto-renew enabled") else None
  }

  predicate Asks(row: SubRow, s: Subscription, env: Envelope<SubEvent>) { !s.autoRenew }

  function Makes(row: SubRow, s: Subscription, env: Envelope<SubEvent>): Subscription { s.(status := row.to) }

  function Subscriptions(): Table<Subscription, SubState, SubEvent> {
    Table({Active, PastDue, Suspended}, Trialing, {Cancelled, Expired}, ROWS, Demands, Asks, Makes, [])
  }

  function SubscriptionFsm(): Definition<Subscription, SubState, SubEvent> { Compiled(Subscriptions()) }

  function Status(s: Subscription): SubState { s.status }

  /** Where an event takes a subscription; it can be cancelled until it is cancelled or expired. */
  function SubTarget(s: SubState, e: SubEvent): Option<SubState> {
    match (s, e)
    case (Trialing, Activate) => Some(Active)
    case (Active, PayFail) => Some(PastDue)
    case (PastDue, PayOk) => Some(Active)
    case (PastDue, Suspend) => Some(Suspended)
    case (Suspended, Reactivate) => Some(Active)
    case (Active, Expire) => Some(Expired)
    case (_, Cancel) => if s in {Trialing, Active, PastDue, Suspended} then Some(Cancelled) else None
    case _ => None
  }

  /** The position of a pair's row in the table. */
  function RowNumber(s: SubState, e: SubEvent): int {
    match s
    case Trialing => if e == Cancel then 6 else 0
    case Active => (match e case PayFail => 1 case Expire => 5 case _ => 7)
    case PastDue => (match e case PayOk => 2 case Suspend => 3 case _ => 8)
    case _ => if e == Cancel then 9 else 4
  }

  lemma RowsNumbered(i: nat)
    requires i < |ROWS|
    ensures RowNumbered(Subscriptions(), SubTarget, RowNumber, i)
  {
  }

  lemma PairsNumbered(s: SubState, e: SubEvent)
    ensures PairNumbered(Subscriptions(), SubTarget, RowNumber, s, e)
  {
    if SubTarget(s, e).Some? {
      assert ROWS[RowNumber(s, e)] == Row(s, e, SubTarget(s, e).value);
    }
  }

  /** The table is in order and is the reference row by row. */
  lemma SubscriptionDescribed()
    ensures Described(Subscriptions(), SubTarget)
  {
    forall i: nat | i < |ROWS|
      ensures RowNumbered(Subscriptions(), SubTarget, RowNumber, i)
    {
      RowsNumbered(i);
    }
    forall s, e ensures PairNumbered(Subscriptions(), SubTarget, RowNumber, s, e) {
      PairsNumbered(s, e);
    }
    NumberedTable(Subscriptions(), SubTarget, RowNumber);
  }

  /** The table compiles and restoring from the stored status is faithful. */
  lemma SubscriptionFsmLaws()
    ensures WellFormed(States(Subscriptions()), Transitions(Subscriptions()))
    ensures StatusKeeping(SubscriptionFsm(), Status)
  {
    SubscriptionDescribed();
    GoodRowsWellFormed(Subscriptions());
    StatusTable(Subscriptions(), Status);
  }

  /** A table that is described by the reference and has this table's guards and effects. */
  ghost predicate IsSubscriptions(table: Table<Subscription, SubState, SubEvent>) {
    Described(table, SubTarget) && table.demands == Demands && table.asks == Asks && table.makes == Makes
  }

  lemma SubscriptionSendOn(table: Table<Subscription, SubState, SubEvent>, st: SubMachine, env: Envelope<SubEvent>)
    requires !st.inFlight && IsSubscriptions(table)
    ensures var r := Dispatch(Compiled(table), st, env);
            var target := SubTarget(st.current, env.event);
            && (r.error.None? <==> target.Some? && (env.event == Expire ==> !st.obj.autoRenew))
            && (r.error.Some? ==> r.state == st)
            && (r.error.None? ==>
                  r.state.current == target.value && r.state.obj == st.obj.(status := target.value))
  {
    TargetSend(table, SubTarget, st, env);
  }

  /**
  What one event does to a subscription: it succeeds exactly when it has a target and, to
  expire, auto-renewal is off; then state and status are the target, and otherwise nothing
  changes.
  */
  lemma SubscriptionSend(st: SubMachine, env: Envelope<SubEvent>)
    requires !st.inFlight
    ensures var r := Dispatch(SubscriptionFsm(), st, env);
            var target := SubTarget(st.current, env.event);
            && (r.error.None? <==> target.Some? && (env.event == Expire ==> !st.obj.autoRenew))
            && (r.error.Some? ==> r.state == st)
            && (r.error.None? ==>
                  r.state.current == target.value && r.state.obj == st.obj.(status := target.value))
  {
    SubscriptionDescribed();
    SubscriptionSendOn(Subscriptions(), st, env);
  }

  /** Event by event: where it is taken, and the one state it leads to. */
  lemma SubscriptionEvents(s: SubState, e: SubEvent)
    ensures SubTarget(s, e) ==
            match e
              case Activate => From(s, {Trialing}, Active)
              case PayFail => From(s, {Active}, PastDue)
              case PayOk => From(s, {PastDue}, Active)
              case Suspend => From(s, {PastDue}, Suspended)
              case Reactivate => From(s, {Suspended}, Active)
              case Cancel => From(s, {Trialing, Active, PastDue, Suspended}, Cancelled)
              case Expire => From(s, {Active}, Expired)
  {
  }

  lemma IntoExpired(st: SubMachine, env: Envelope<SubEvent>, next: SubMachine, accepted: bool)
    requires st.current != Expired
    requires var target := SubTarget(st.current, env.event);
             && (accepted <==> target.Some? && (env.event == Expire ==> !st.obj.autoRenew))
             && next.current == (if accepted then target.value else st.current)
    ensures next.current == Expired <==> st.current == Active && env.event == Expire && !st.obj.autoRenew
  {
  }

  /**
  Exactly when one event expires a subscription that is not expired: the expiry event, in
  active, with auto-renewal off.
  */
  lemma ExpiryNeedsNoRenewal(st: SubMachine, env: Envelope<SubEvent>)
    requires !st.inFlight && st.current != Expired
    ensures Dispatch(SubscriptionFsm(), st, env).state.current == Expired <==>
              st.current == Active && env.event == Expire && !st.obj.autoRenew
  {
    SubscriptionSend(st, env);
    var r := Dispatch(SubscriptionFsm(), st, env);
    IntoExpired(st, env, r.state, r.error.None?);
  }

  /** Suspension is always the answer to a missed payment, and the one right before it in the log. */
  ghost predicate PaymentMissedBefore(log: SubLog, i: int)
    requires 0 <= i < |log|
  {
    i > 0 && log[i - 1].envelope.event == PayFail && log[i - 1].to == PastDue && log[i].from == PastDue
  }

  /**
  In every run of a subscription that did not start past due, each suspension directly
  follows a missed payment.
  */
  lemma SuspensionsFollowMissedPayments(
      s: Subscription, start: SubState, xs: seq<Stimulus<Subscription, SubEvent>>, i: nat)
    requires start != PastDue
    requires var log := FullLog(SubscriptionFsm(), Fresh<Subscription, SubState, SubEvent>(s, start), xs);
             i < |log| && log[i].to == Suspended
    ensures PaymentMissedBefore(FullLog(SubscriptionFsm(), Fresh<Subscription, SubState, SubEvent>(s, start), xs), i)
  {
    SubscriptionDescribed();
    LogFollowsTarget(Subscriptions(), SubTarget, s, start, xs);
    var log := FullLog(SubscriptionFsm(), Fresh<Subscription, SubState, SubEvent>(s, start), xs);
    SuspendedFromPastDue(log, start, i);
  }

  lemma SuspendedFromPastDue(log: SubLog, start: SubState, i: nat)
    requires forall k :: 0 <= k < |log| ==> MovesTo(SubTarget, start, log, k)
    requires start != PastDue && i < |log| && log[i].to == Suspended
    ensures PaymentMissedBefore(log, i)
  {
    assert MovesTo(SubTarget, start, log, i);
    if i > 0 {
      assert MovesTo(SubTarget, start, log, i - 1);
    }
  }

  /** Stimulus `k` of a run is the expiry of an active subscription whose auto-renewal was off at that moment. */
  ghost predicate ExpiresAt(st: SubMachine, xs: seq<Stimulus<Subscription, SubEvent>>, k: int)
    requires 0 <= k < |xs|
  {
    var before := Run(SubscriptionFsm(), st, xs[..k]);
    before.current == Active && !before.obj.autoRenew && xs[k].Fire? && xs[k].env.event == Expire
  }

  /**
  Every run that ends expired, of a subscription that did not start so, contains the moment:
  an expiry sent to it while it was active with auto-renewal off, whatever the flag was
  before and after.
  */
  lemma {:induction false} ExpiriesWereDue(st: SubMachine, xs: seq<Stimulus<Subscription, SubEvent>>) returns (k: nat)
    requires !st.inFlight && st.current != Expired && Run(SubscriptionFsm(), st, xs).current == Expired
    ensures k < |xs| && ExpiresAt(st, xs, k)
    decreases |xs|
  {
    var next := After(SubscriptionFsm(), st, xs[0]);
    StepOnMachine(SubscriptionFsm(), st, xs[0]);
    if next.current == Expired {
      ExpiryNeedsNoRenewal(st, xs[0].env);
      assert xs[..0] == [];
      k := 0;
    } else {
      var j := ExpiriesWereDue(next, xs[1..]);
      k := j + 1;
      assert xs[..k][0] == xs[0] && xs[..k][1..] == xs[1..][..j];
    }
  }
}
