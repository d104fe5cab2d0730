/**
The stock machine of an inventory item (backend/utils/FSM.go) and the service that
drives it after a quantity change (backend/services/inventory/inventory.go).
*/
module InventoryTable {
  import opened Wrappers
  import opened Fsm
  import opened FsmBuilder
  import opened FsmRuns
  import opened TableKit

  datatype StockState = Active | LowStock | OutOfStock | Discontinued

  datatype StockEvent = StockLow | StockDepleted | StockReplenished | Discontinue | Reactivate

  datatype Item = Item(quantity: real, reorderPoint: Option<real>, stockStatus: StockState)

  type StockRow = Row<StockState, StockEvent>

  type StockMachine = MachineState<Item, StockState, StockEvent>

  const ROWS: seq<StockRow> := [
    Row(Active, StockLow, LowStock),
    Row(Active, StockDepleted, OutOfStock),
    Row(LowStock, StockDepleted, OutOfStock),
    Row(LowStock, StockReplenished, Active),
    Row(OutOfStock, StockReplenished, Active),
    Row(OutOfStock, StockLow, LowStock),
    Row(Active, Discontinue, Discontinued),
    Row(LowStock, Discontinue, Discontinued),
    Row(OutOfStock, Discontinue, Discontinued)]

  predicate AtOrBelow(i: Item) { i.reorderPoint.Some? && i.quantity <= i.reorderPoint.value }

  predicate Above(i: Item) { i.reorderPoint.Some? && i.quantity > i.reorderPoint.value }

  /** The guards as the table writes them, a missing reorder point being treated row by row. */
  predicate StockGuard(from: StockState, event: StockEvent, i: Item) {
    match (from, event)
    case (Active, StockLow) => AtOrBelow(i) && i.quantity > 0.0
    case (_, StockDepleted) => i.quantity <= 0.0
    case (LowStock, StockReplenished) => !AtOrBelow(i)
    case (OutOfStock, StockReplenished) => i.quantity > 0.0 && !AtOrBelow(i)
    case (OutOfStock, StockLow) => i.quantity > 0.0 && !Above(i)
    case _ => true
  }

  /** Every row but those that discontinue an item has a guard. */
  function Demands(row: StockRow): Option<string> {
    if row.event == Discontinue then None else Some("stock level does not warrant the transition")
  }

  predicate Asks(row: StockRow, i: Item, env: Envelope<StockEvent>) { StockGuard(row.from, row.event, i) }

  function Makes(row: StockRow, i: Item, env: Envelope<StockEvent>): Item { i.(stockStatus := row.to) }

  function InventoryTable(): Table<Item, StockState, StockEvent> {
    Table({LowStock, OutOfStock}, Active, {Discontinued}, ROWS, Demands, Asks, Makes, [])
  }

  function InventoryFsm(): Definition<Item, StockState, StockEvent> { Compiled(InventoryTable()) }

  function Status(i: Item): StockState { i.stockStatus }

  /** The stock state that a quantity and a reorder point imply. */
  function Derive(quantity: real, reorderPoint: Option<real>): StockState {
    if quantity <= 0.0 then OutOfStock
    else if reorderPoint.Some? && quantity <= reorderPoint.value then LowStock
    else Active
  }

  function Derived(i: Item): StockState { Derive(i.quantity, i.reorderPoint) }

  // ---------------------------------------------------------------------------
  // Which events are enabled
  // ---------------------------------------------------------------------------

  /** The three events that report a stock level, and the state each reports. */
  predicate IsStockEvent(e: StockEvent) { e == StockLow || e == StockDepleted || e == StockReplenished }

  function Reported(e: StockEvent): StockState {
    match e
    case StockLow => LowStock case StockDepleted => OutOfStock case StockReplenished => Active
    case Discontinue => Discontinued case Reactivate => Active
  }

  function EventTo(s: StockState): StockEvent {
    match s
    case LowStock => StockLow case OutOfStock => StockDepleted case Active => StockReplenished
    case Discontinued => Discontinue
  }

  /** Where an event takes an item that has not been discontinued: to the state it reports, from any other. */
  function StockTarget(s: StockState, e: StockEvent): Option<StockState> {
    if s == Discontinued || e == Reactivate || Reported(e) == s then None else Some(Reported(e))
  }

  /** The position of a pair's row in the table. */
  function RowNumber(s: StockState, e: StockEvent): int {
    match e
    case StockLow => if s == Active then 0 else 5
    case StockDepleted => if s == Active then 1 else 2
    case StockReplenished => if s == LowStock then 3 else 4
    case _ => (match s case Active => 6 case LowStock => 7 case _ => 8)
  }

  lemma RowsNumbered(i: nat)
    requires i < |ROWS|
    ensures RowNumbered(InventoryTable(), StockTarget, RowNumber, i)
  {
  }

  lemma PairsNumbered(s: StockState, e: StockEvent)
    ensures PairNumbered(InventoryTable(), StockTarget, RowNumber, s, e)
  {
    if StockTarget(s, e).Some? {
      assert ROWS[RowNumber(s, e)] == Row(s, e, StockTarget(s, e).value);
    }
  }

  /** The table is in order and is the reference row by row. */
  lemma InventoryDescribed()
    ensures Described(InventoryTable(), StockTarget)
  {
    forall i: nat | i < |ROWS|
      ensures RowNumbered(InventoryTable(), StockTarget, RowNumber, i)
    {
      RowsNumbered(i);
    }
    forall s, e ensures PairNumbered(InventoryTable(), StockTarget, RowNumber, s, e) {
      PairsNumbered(s, e);
    }
    NumberedTable(InventoryTable(), StockTarget, RowNumber);
  }

  /** The table compiles and restoring from the stock status is faithful. */
  lemma InventoryFsmLaws()
    ensures WellFormed(States(InventoryTable()), Transitions(InventoryTable()))
    ensures StatusKeeping(InventoryFsm(), Status)
  {
    InventoryDescribed();
    GoodRowsWellFormed(InventoryTable());
    StatusTable(InventoryTable(), Status);
  }

  predicate Enabled(s: StockState, e: StockEvent, i: Item) {
    s != Discontinued && e != Reactivate && Reported(e) != s && StockGuard(s, e, i)
  }

  lemma EnabledIsAllowedMove(s: StockState, env: Envelope<StockEvent>, i: Item)
    ensures var move := StockTarget(s, env.event);
            Enabled(s, env.event, i) <==>
              move.Some? && Allows(InventoryTable(), Row(s, env.event, move.value), i, env)
  {
  }

  lemma SendOnStock(st: StockMachine, env: Envelope<StockEvent>)
    requires !st.inFlight
    ensures var r := Dispatch(InventoryFsm(), st, env);
            && (r.error.None? <==> Enabled(st.current, env.event, st.obj))
            && (r.error.Some? ==> r.state == st)
            && (r.error.None? ==>
                  && r.state.current == Reported(env.event) && !r.state.inFlight
                  && r.state.obj == st.obj.(stockStatus := Reported(env.event)))
  {
    InventoryDescribed();
    TargetSend(InventoryTable(), StockTarget, st, env);
    EnabledIsAllowedMove(st.current, env, st.obj);
  }

  /**
  In this state and with this stock level, the enabled stock event is the one that leads
  to the derived state, and there is none when the machine is already there.
  */
  ghost predicate Coherent(s: StockState, i: Item) {
    forall e :: IsStockEvent(e) ==> (Enabled(s, e, i) <==> s != Derived(i) && Reported(e) == Derived(i))
  }

  /**
  Exactly where machine and derivation agree on what to do next: everywhere but for a low
  item that ran out without having a reorder point it has dropped to, and for a restocked
  item that ran out and has no reorder point.
  */
  lemma CoherentExactly(s: StockState, i: Item)
    requires s != Discontinued
    ensures Coherent(s, i) <==>
      (!(s == LowStock && i.quantity <= 0.0 && !AtOrBelow(i))
       && !(s == OutOfStock && i.quantity > 0.0 && i.reorderPoint.None?))
  {
    assert IsStockEvent(StockLow) && IsStockEvent(StockDepleted) && IsStockEvent(StockReplenished);
    if s == LowStock && i.quantity <= 0.0 && !AtOrBelow(i) {
      assert Enabled(s, StockReplenished, i);
    }
    if s == OutOfStock && i.quantity > 0.0 && i.reorderPoint.None? {
      assert Enabled(s, StockLow, i) && Enabled(s, StockReplenished, i);
    }
  }

  /**
  A reorder point makes the machine agree with the derivation at every quantity and in
  every live state exactly when it is present and not negative.
  */
  lemma CoherentReorderPoints(reorderPoint: Option<real>)
    ensures (forall s, q, status :: s != Discontinued ==> Coherent(s, Item(q, reorderPoint, status))) <==>
              (reorderPoint.Some? && reorderPoint.value >= 0.0)
  {
    if reorderPoint.Some? && reorderPoint.value >= 0.0 {
      forall s, q, status | s != Discontinued ensures Coherent(s, Item(q, reorderPoint, status)) {
        CoherentExactly(s, Item(q, reorderPoint, status));
      }
    } else if reorderPoint.None? {
      CoherentExactly(OutOfStock, Item(1.0, None, Active));
      assert !Coherent(OutOfStock, Item(1.0, reorderPoint, Active));
    } else {
      CoherentExactly(LowStock, Item(0.0, reorderPoint, Active));
      assert !Coherent(LowStock, Item(0.0, reorderPoint, Active));
    }
  }

  // ---------------------------------------------------------------------------
  // Keeping the machine in step with the quantity
  // ---------------------------------------------------------------------------

  /** Quantities change and after each change the event for the derived state is sent. */
  function SyncRun(i: Item, quantities: seq<real>): seq<Stimulus<Item, StockEvent>>
    decreases |quantities|
  {
    if quantities == [] then []
    else
      var changed := i.(quantity := quantities[0]);
      var synced := changed.(stockStatus := Derived(changed));
      [Touch(changed), Fire(Envelope(EventTo(Derived(changed)), map[]))] + SyncRun(synced, quantities[1..])
  }

  /** The event for the derived state is refused only when the machine is already there. */
  lemma SyncReachesDerived(st: StockMachine)
    requires !st.inFlight && st.current != Discontinued && st.obj.stockStatus == st.current
    ensures var next := Dispatch(InventoryFsm(), st, Envelope(EventTo(Derived(st.obj)), map[])).state;
            && !next.inFlight
            && next.current == Derived(st.obj)
            && next.obj == st.obj.(stockStatus := Derived(st.obj))
  {
    SendOnStock(st, Envelope(EventTo(Derived(st.obj)), map[]));
  }

  /**
  Incremental and derived stock state agree over every run: whatever quantities an item
  goes through, and whatever its reorder point, the machine is in the derived state after
  each sync.
  */
  lemma {:induction false} SyncedStaysDerived(st: StockMachine, quantities: seq<real>)
    requires !st.inFlight && st.current != Discontinued && st.obj.stockStatus == st.current
    ensures var end := Run(InventoryFsm(), st, SyncRun(st.obj, quantities));
            && end.current != Discontinued && end.obj.stockStatus == end.current
            && (quantities != [] ==> end.current == Derive(quantities[|quantities| - 1], st.obj.reorderPoint))
    decreases |quantities|
  {
    if quantities == [] {
    } else {
      var changed := st.obj.(quantity := quantities[0]);
      var touched := st.(obj := changed);
      SyncReachesDerived(touched);
      var fire := Fire(Envelope(EventTo(Derived(changed)), map[]));
      var synced := After(InventoryFsm(), touched, fire);
      SyncedStaysDerived(synced, quantities[1..]);
      var xs := SyncRun(st.obj, quantities);
      var rest := SyncRun(synced.obj, quantities[1..]);
      assert xs == [Touch(changed), fire] + rest;
      assert xs[1..] == [fire] + rest && xs[1..][1..] == rest;
      assert Run(InventoryFsm(), st, xs) == Run(InventoryFsm(), touched, xs[1..]);
      assert Run(InventoryFsm(), touched, xs[1..]) == Run(InventoryFsm(), synced, rest);
    }
  }

  /**
  The service's evaluation after a quantity change. It does not know the previous state
  and tries every other one, so some transition always succeeds: the caller is notified
  whenever the derived state is low or out of stock, also when nothing has changed.
  */
  method EvaluateStockTransition(item: Item) returns (notified: bool, evaluated: Item)
    ensures notified <==> Derived(item) != Active
    ensures evaluated == item.(stockStatus := Derived(item))
  {
    var target := Derive(item.quantity, item.reorderPoint);
    var event := EventTo(target);
    evaluated := item.(stockStatus := target);
    var sources := [Active, LowStock, OutOfStock];
    var i := 0;
    while i < |sources|
      invariant 0 <= i <= |sources|
      invariant i > 0 ==> target == sources[0] && i == 1
      invariant evaluated == item.(stockStatus := target)
    {
      if sources[i] != target {
        var machine := new Machine.Restore(InventoryFsm(), evaluated, sources[i]);
        SendOnStock(machine.Snapshot(), Envelope(event, map[]));
        var error := machine.Send(Envelope(event, map[]));
        if error.None? {
          evaluated := machine.obj;
          return target == LowStock || target == OutOfStock, evaluated;
        }
      }
      i := i + 1;
    }
    notified := false;
  }
}
