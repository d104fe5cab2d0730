/**
Automatic completion of one kitchen ticket under every interleaving of item updates, the
checks they spawn, and start, complete and cancel requests
(backend/services/business/Kot.go). Each database access is one step; every status write
uses a copy that was loaded in an earlier step. The database does not fail.
*/
module KotAutoComplete {
  import opened Wrappers
  import opened KotTable
  import opened KotService

  datatype ItemStatus = Pending | Preparing | Ready | Served | CancelledItem | UnlistedItem(status: string)

  /** The statuses that the count of unfinished items leaves out. */
  predicate Finished(s: ItemStatus) { s == Ready || s == Served || s == CancelledItem }

  /** A check: still to be started, started, past the count of unfinished items, or holding a copy of the ticket. */
  datatype Check = ToSpawn | Spawned | Counted | Holding(copy: Kot)

  /** A request that has loaded the ticket and is about to fire its event on the copy. */
  datatype Request = Request(event: KotEvent, copy: Kot)

  /** `writes` is a history variable: every status ever written to the ticket. */
  datatype Sys = Sys(
    kot: Kot, items: map<nat, ItemStatus>, checks: map<nat, Check>, requests: map<nat, Request>, writes: seq<KotState>)

  datatype Action =
    | UpdateItem(id: nat, item: nat, status: ItemStatus)
    | Spawn(id: nat)
    | CountItems(id: nat)
    | LoadForCheck(id: nat)
    | AutoComplete(id: nat)
    | LoadForRequest(id: nat, event: KotEvent)
    | FireRequest(id: nat)
    | SetPriority(priority: Priority)

  predicate AllFinished(items: map<nat, ItemStatus>) { forall i :: i in items ==> Finished(items[i]) }

  predicate CheckIs(sys: Sys, id: nat, c: Check) { id in sys.checks && sys.checks[id] == c }

  predicate Enabled(sys: Sys, a: Action) {
    match a
    case UpdateItem(id, item, _) => id !in sys.checks && item in sys.items
    case Spawn(id) => CheckIs(sys, id, ToSpawn)
    case CountItems(id) => CheckIs(sys, id, Spawned)
    case LoadForCheck(id) => CheckIs(sys, id, Counted)
    case AutoComplete(id) => id in sys.checks && sys.checks[id].Holding?
    case LoadForRequest(id, _) => id !in sys.requests
    case FireRequest(id) => id in sys.requests
    case SetPriority(_) => true
  }

  function Without<V>(m: map<nat, V>, id: nat): map<nat, V> { m - {id} }

  /** Firing an event on a loaded copy, as the service's `FireKotEventOnModel` does it. */
  function Fired(sys: Sys, copy: Kot, event: KotEvent): Sys {
    match KotTarget(copy, Plain(event))
    case None => sys
    case Some(target) => sys.(kot := sys.kot.(status := target), writes := sys.writes + [target])
  }

  function Next(sys: Sys, a: Action): Sys
    requires Enabled(sys, a)
  {
    match a
    case UpdateItem(id, item, status) => sys.(items := sys.items[item := status], checks := sys.checks[id := ToSpawn])
    case Spawn(id) => sys.(checks := sys.checks[id := Spawned])
    case CountItems(id) =>
      if AllFinished(sys.items) then sys.(checks := sys.checks[id := Counted])
      else sys.(checks := Without(sys.checks, id))
    case LoadForCheck(id) =>
      if sys.kot.status == InProgress then sys.(checks := sys.checks[id := Holding(sys.kot)])
      else sys.(checks := Without(sys.checks, id))
    case AutoComplete(id) => Fired(sys.(checks := Without(sys.checks, id)), sys.checks[id].copy, Complete)
    case LoadForRequest(id, event) => sys.(requests := sys.requests[id := Request(event, sys.kot)])
    case FireRequest(id) =>
      Fired(sys.(requests := Without(sys.requests, id)), sys.requests[id].copy, sys.requests[id].event)
    case SetPriority(p) => sys.(kot := sys.kot.(priority := p))
  }

  /** An item that is finished is only given finished statuses. */
  predicate Steady(sys: Sys, a: Action) {
    a.UpdateItem? && a.item in sys.items && Finished(sys.items[a.item]) ==> Finished(a.status)
  }

  ghost predicate Run(sys: Sys, actions: seq<Action>)
    decreases |actions|
  {
    actions != [] ==>
      Enabled(sys, actions[0]) && Steady(sys, actions[0]) && Run(Next(sys, actions[0]), actions[1..])
  }

  ghost function After(sys: Sys, actions: seq<Action>): Sys
    requires Run(sys, actions)
    decreases |actions|
  {
    if actions == [] then sys else After(Next(sys, actions[0]), actions[1..])
  }

  // ---------------------------------------------------------------------------
  // The automatic path completes finished tickets only
  // ---------------------------------------------------------------------------

  /** A check that got past its count has seen every item finished, and they still are. */
  ghost predicate ChecksAreRight(sys: Sys) {
    && (forall id :: id in sys.checks && (sys.checks[id].Counted? || sys.checks[id].Holding?) ==>
          AllFinished(sys.items))
    && (forall id :: id in sys.checks && sys.checks[id].Holding? ==> sys.checks[id].copy.status == InProgress)
  }

  lemma FinishedStays(sys: Sys, a: Action)
    requires Enabled(sys, a) && Steady(sys, a) && AllFinished(sys.items)
    ensures AllFinished(Next(sys, a).items)
  {
  }

  lemma StepKeepsChecksRight(sys: Sys, a: Action)
    requires Enabled(sys, a) && Steady(sys, a) && ChecksAreRight(sys)
    ensures ChecksAreRight(Next(sys, a))
  {
    var next := Next(sys, a);
    forall id | id in next.checks && (next.checks[id].Counted? || next.checks[id].Holding?)
      ensures AllFinished(next.items)
      ensures next.checks[id].Holding? ==> next.checks[id].copy.status == InProgress
    {
      if AllFinished(sys.items) {
        FinishedStays(sys, a);
      }
    }
  }

  lemma {:induction false} RunKeepsChecksRight(sys: Sys, actions: seq<Action>)
    requires Run(sys, actions) && ChecksAreRight(sys)
    ensures ChecksAreRight(After(sys, actions))
    decreases |actions|
  {
    if actions == [] {
    } else {
      StepKeepsChecksRight(sys, actions[0]);
      RunKeepsChecksRight(Next(sys, actions[0]), actions[1..]);
    }
  }

  /**
  Under every interleaving, with any start, complete and cancel requests around, a check
  completes the ticket only when each item is ready, served or cancelled, and then it does
  complete it.
  */
  lemma AutoCompletesFinishedOnly(kot: Kot, items: map<nat, ItemStatus>, actions: seq<Action>, id: nat)
    requires Run(Sys(kot, items, map[], map[], []), actions)
    requires Enabled(After(Sys(kot, items, map[], map[], []), actions), AutoComplete(id))
    ensures var sys := After(Sys(kot, items, map[], map[], []), actions);
            && (forall i :: i in sys.items ==> sys.items[i] in {Ready, Served, CancelledItem})
            && Next(sys, AutoComplete(id)).kot.status == Completed
  {
    RunKeepsChecksRight(Sys(kot, items, map[], map[], []), actions);
  }

  // ---------------------------------------------------------------------------
  // No finished ticket is forgotten
  // ---------------------------------------------------------------------------

  /** Some check is still going to look at the ticket, or has seen it in progress. */
  ghost predicate Watched(sys: Sys) { sys.checks.Keys != {} }

  /** Since `since` writes ago: all items finished, and either a status was written or a check is still under way. */
  ghost predicate NotForgotten(sys: Sys, since: nat) {
    && ChecksAreRight(sys) && AllFinished(sys.items)
    && since <= |sys.writes|
    && (since < |sys.writes| ==> sys.kot.status == sys.writes[|sys.writes| - 1])
    && (since == |sys.writes| ==> sys.kot.status == InProgress && Watched(sys))
  }

  lemma StepDoesNotForget(sys: Sys, a: Action, since: nat)
    requires Enabled(sys, a) && Steady(sys, a) && NotForgotten(sys, since)
    ensures NotForgotten(Next(sys, a), since)
  {
    StepKeepsChecksRight(sys, a);
    FinishedStays(sys, a);
    var next := Next(sys, a);
    match a
    case UpdateItem(id, _, _) => assert id in next.checks;
    case Spawn(id) => assert id in next.checks;
    case CountItems(id) => assert id in next.checks;
    case LoadForCheck(id) => assert since == |sys.writes| ==> id in next.checks;
    case AutoComplete(id) => assert sys.checks[id].copy.status == InProgress;
    case _ =>
  }

  lemma {:induction false} RunDoesNotForget(sys: Sys, actions: seq<Action>, since: nat)
    requires Run(sys, actions) && NotForgotten(sys, since)
    ensures NotForgotten(After(sys, actions), since)
    decreases |actions|
  {
    if actions == [] {
    } else {
      StepDoesNotForget(sys, actions[0], since);
      RunDoesNotForget(Next(sys, actions[0]), actions[1..], since);
    }
  }

  /** Whatever the request writes, if it writes, is a completion. */
  predicate Harmless(r: Request) {
    var target := KotTarget(r.copy, Plain(r.event)); target.Some? ==> target.value == Completed
  }

  predicate AllHarmless(requests: map<nat, Request>) { forall id :: id in requests ==> Harmless(requests[id]) }

  /** Nothing is under way that could write anything but a completion. */
  ghost predicate OnlyCompletionsPending(sys: Sys, since: nat) {
    && since <= |sys.writes|
    && (sys.kot.status == InProgress || sys.kot.status == Completed)
    && (forall i :: since <= i < |sys.writes| ==> sys.writes[i] == Completed)
    && AllHarmless(sys.requests)
    && (forall id :: id in sys.checks && sys.checks[id].Holding? ==> sys.checks[id].copy.status == InProgress)
  }

  predicate NoCancel(actions: seq<Action>) {
    forall i :: 0 <= i < |actions| ==> !(actions[i].LoadForRequest? && actions[i].event == Cancel)
  }

  lemma StepOnlyCompletes(sys: Sys, a: Action, since: nat)
    requires Enabled(sys, a) && OnlyCompletionsPending(sys, since)
    requires !(a.LoadForRequest? && a.event == Cancel)
    ensures OnlyCompletionsPending(Next(sys, a), since)
  {
  }

  lemma {:induction false} RunOnlyCompletes(sys: Sys, actions: seq<Action>, since: nat)
    requires Run(sys, actions) && NoCancel(actions) && OnlyCompletionsPending(sys, since)
    ensures OnlyCompletionsPending(After(sys, actions), since)
    decreases |actions|
  {
    if actions == [] {
    } else {
      StepOnlyCompletes(sys, actions[0], since);
      RunOnlyCompletes(Next(sys, actions[0]), actions[1..], since);
    }
  }

  /** The ticket is in progress with all items finished, right after an item update whose check is still to come. */
  ghost predicate JustFinished(sys: Sys, id: nat) {
    && ChecksAreRight(sys) && AllFinished(sys.items)
    && sys.kot.status == InProgress && CheckIs(sys, id, ToSpawn)
  }

  /**
  A ticket that is in progress when its last item is finished does not stay unattended.
  Under every interleaving, with any requests, once all checks have run its status has been
  written again and is whatever was written last.
  */
  lemma FinishedTicketIsAttended(sys: Sys, id: nat, actions: seq<Action>)
    requires JustFinished(sys, id) && Run(sys, actions) && After(sys, actions).checks == map[]
    ensures var end := After(sys, actions);
            |sys.writes| < |end.writes| && end.kot.status == end.writes[|end.writes| - 1]
  {
    assert id in sys.checks.Keys;
    RunDoesNotForget(sys, actions, |sys.writes|);
  }

  /**
  And it ends completed when no cancel comes later and no request in flight holds a copy
  that lets it write anything else, such as a start with a copy from before the ticket was
  started.
  */
  lemma FinishedTicketIsCompleted(sys: Sys, id: nat, actions: seq<Action>)
    requires JustFinished(sys, id) && AllHarmless(sys.requests)
    requires Run(sys, actions) && NoCancel(actions) && After(sys, actions).checks == map[]
    ensures After(sys, actions).kot.status == Completed
  {
    FinishedTicketIsAttended(sys, id, actions);
    RunOnlyCompletes(sys, actions, |sys.writes|);
  }

  lemma RunCons(sys: Sys, a: Action, rest: seq<Action>)
    requires Enabled(sys, a) && Steady(sys, a) && Run(Next(sys, a), rest)
    ensures Run(sys, [a] + rest) && After(sys, [a] + rest) == After(Next(sys, a), rest)
  {
    assert ([a] + rest)[1..] == rest;
  }

  lemma {:induction false} RunConcat(sys: Sys, xs: seq<Action>, ys: seq<Action>)
    requires Run(sys, xs) && Run(After(sys, xs), ys)
    ensures Run(sys, xs + ys) && After(sys, xs + ys) == After(After(sys, xs), ys)
    decreases |xs|
  {
    if xs == [] {
      assert xs + ys == ys;
    } else {
      RunConcat(Next(sys, xs[0]), xs[1..], ys);
      assert xs + ys == [xs[0]] + (xs[1..] + ys);
      RunCons(sys, xs[0], xs[1..] + ys);
    }
  }

  /** What a check does next, and how many steps it has left. */
  function NextOf(id: nat, c: Check): Action {
    match c
    case ToSpawn => Spawn(id) case Spawned => CountItems(id) case Counted => LoadForCheck(id)
    case Holding(_) => AutoComplete(id)
  }

  function StepsLeft(c: Check): nat {
    match c case ToSpawn => 4 case Spawned => 3 case Counted => 2 case Holding(_) => 1
  }

  /** A state in which checks can be run to their end while the requests wait. */
  ghost predicate Settling(sys: Sys) { ChecksAreRight(sys) && AllFinished(sys.items) }

  lemma OneStepOfCheck(sys: Sys, id: nat)
    requires Settling(sys) && id in sys.checks
    ensures var a := NextOf(id, sys.checks[id]);
            && Enabled(sys, a) && Steady(sys, a)
            && var next := Next(sys, a);
               && Settling(next) && next.requests == sys.requests
               && Without(next.checks, id) == Without(sys.checks, id)
               && (id in next.checks ==> StepsLeft(next.checks[id]) < StepsLeft(sys.checks[id]))
  {
    StepKeepsChecksRight(sys, NextOf(id, sys.checks[id]));
  }

  lemma {:induction false} FinishCheck(sys: Sys, id: nat) returns (xs: seq<Action>)
    requires Settling(sys) && id in sys.checks
    ensures Run(sys, xs) && NoCancel(xs)
    ensures var end := After(sys, xs);
            Settling(end) && end.requests == sys.requests && end.checks == Without(sys.checks, id)
    decreases StepsLeft(sys.checks[id])
  {
    var a := NextOf(id, sys.checks[id]);
    OneStepOfCheck(sys, id);
    var next := Next(sys, a);
    var rest := [];
    if id in next.checks {
      rest := FinishCheck(next, id);
    } else {
      assert next.checks == Without(next.checks, id);
    }
    RunCons(sys, a, rest);
    xs := [a] + rest;
  }

  /** All checks can be run to their end while the requests in flight wait. */
  lemma {:induction false} FinishChecks(sys: Sys) returns (xs: seq<Action>)
    requires Settling(sys)
    ensures Run(sys, xs) && NoCancel(xs)
    ensures var end := After(sys, xs); end.requests == sys.requests && end.checks == map[]
    decreases |sys.checks|
  {
    if sys.checks == map[] {
      return [];
    }
    var id :| id in sys.checks;
    var first := FinishCheck(sys, id);
    var mid := After(sys, first);
    assert sys.checks == mid.checks[id := sys.checks[id]];
    var second := FinishChecks(mid);
    RunConcat(sys, first, second);
    xs := first + second;
  }

  /** A request that can write something else can do so after the last check. */
  lemma HarmfulRequestWins(sys: Sys, r: nat) returns (xs: seq<Action>)
    requires Settling(sys) && r in sys.requests && !Harmless(sys.requests[r])
    ensures Run(sys, xs) && NoCancel(xs) && After(sys, xs).checks == map[] && After(sys, xs).kot.status != Completed
  {
    var first := FinishChecks(sys);
    var mid := After(sys, first);
    assert Run(Next(mid, FireRequest(r)), []);
    RunCons(mid, FireRequest(r), []);
    RunConcat(sys, first, [FireRequest(r)] + []);
    xs := first + ([FireRequest(r)] + []);
  }

  /** Every continuation without new cancels ends with the ticket completed once the checks have run. */
  ghost predicate SurelyCompletes(sys: Sys) {
    forall actions :: Run(sys, actions) && NoCancel(actions) && After(sys, actions).checks == map[] ==>
      After(sys, actions).kot.status == Completed
  }

  /**
  Exactly when a ticket in progress whose last item has just been finished is sure to be
  completed: when no request in flight holds a copy that lets it write another status.
  */
  lemma CompletionIsSureExactly(sys: Sys, id: nat)
    requires JustFinished(sys, id)
    ensures SurelyCompletes(sys) <==> AllHarmless(sys.requests)
  {
    if AllHarmless(sys.requests) {
      forall actions | Run(sys, actions) && NoCancel(actions) && After(sys, actions).checks == map[]
        ensures After(sys, actions).kot.status == Completed
      {
        FinishedTicketIsCompleted(sys, id, actions);
      }
    } else {
      var r :| r in sys.requests && !Harmless(sys.requests[r]);
      var xs := HarmfulRequestWins(sys, r);
    }
  }

  /** The priority the ticket had when these actions started and ended, by what was set in between. */
  function PrioritySet(before: Priority, actions: seq<Action>): Priority {
    if actions == [] then before
    else
      var last := actions[|actions| - 1];
      if last.SetPriority? then last.priority else PrioritySet(before, actions[..|actions| - 1])
  }

  lemma {:induction false} RunSnoc(sys: Sys, actions: seq<Action>)
    requires actions != [] && Run(sys, actions)
    ensures var n := |actions| - 1;
            && Run(sys, actions[..n]) && Enabled(After(sys, actions[..n]), actions[n])
            && After(sys, actions) == Next(After(sys, actions[..n]), actions[n])
    decreases |actions|
  {
    var n := |actions| - 1;
    if n > 0 {
      RunSnoc(Next(sys, actions[0]), actions[1..]);
      assert actions[1..][..n - 1] == actions[..n][1..];
    }
  }

  /** Whatever copies are written back, the priority is the one that was set last: writes are of the status only. */
  lemma {:induction false} OnlyStatusIsWritten(sys: Sys, actions: seq<Action>)
    requires Run(sys, actions)
    ensures After(sys, actions).kot.priority == PrioritySet(sys.kot.priority, actions)
    decreases |actions|
  {
    if actions == [] {
    } else {
      RunSnoc(sys, actions);
      OnlyStatusIsWritten(sys, actions[..|actions| - 1]);
    }
  }

  /** Nothing is held back: items can be updated, requests made and the priority set at any time. */
  lemma NothingIsHeldBack(sys: Sys, id: nat, item: nat, status: ItemStatus, event: KotEvent, priority: Priority)
    ensures id !in sys.checks && item in sys.items ==> Enabled(sys, UpdateItem(id, item, status))
    ensures id !in sys.requests ==> Enabled(sys, LoadForRequest(id, event))
    ensures id in sys.requests ==> Enabled(sys, FireRequest(id))
    ensures Enabled(sys, SetPriority(priority))
  {
  }

  /** A request that nothing comes between fires its event on the stored ticket. */
  lemma UndisturbedRequest(sys: Sys, id: nat, event: KotEvent)
    requires id !in sys.requests
    ensures var actions := [LoadForRequest(id, event)] + ([FireRequest(id)] + []);
            && Run(sys, actions)
            && var end, target := After(sys, actions), KotTarget(sys.kot, Plain(event));
               && end.kot == (if target.Some? then sys.kot.(status := target.value) else sys.kot)
               && end.writes == (if target.Some? then sys.writes + [target.value] else sys.writes)
               && end.requests == sys.requests && end.checks == sys.checks && end.items == sys.items
  {
    var loaded := Next(sys, LoadForRequest(id, event));
    RunCons(loaded, FireRequest(id), []);
    RunCons(sys, LoadForRequest(id, event), [FireRequest(id)] + []);
    assert Without(loaded.requests, id) == sys.requests;
  }

  // ---------------------------------------------------------------------------
  // The verdict of one check, by the statuses of the items
  // ---------------------------------------------------------------------------

  /** A check that has just been started, run by itself for as long as it is there; requests wait. */
  ghost function CheckAlone(sys: Sys, id: nat): Sys
    requires id in sys.checks
    decreases StepsLeft(sys.checks[id])
  {
    var next := Next(sys, NextOf(id, sys.checks[id]));
    if id in next.checks then CheckAlone(next, id) else next
  }

  /** It is a run, to the end of the check. */
  lemma {:induction false} CheckAloneRuns(sys: Sys, id: nat) returns (xs: seq<Action>)
    requires id in sys.checks
    ensures Run(sys, xs) && After(sys, xs) == CheckAlone(sys, id) && id !in CheckAlone(sys, id).checks
    decreases StepsLeft(sys.checks[id])
  {
    var a := NextOf(id, sys.checks[id]);
    var next := Next(sys, a);
    var rest := [];
    if id in next.checks {
      rest := CheckAloneRuns(next, id);
    }
    RunCons(sys, a, rest);
    xs := [a] + rest;
  }

  /** While any item is pending, preparing or of an unlisted status the check is dropped and writes nothing. */
  lemma UnfinishedIsLeftAlone(sys: Sys, id: nat, i: nat)
    requires CheckIs(sys, id, ToSpawn) && i in sys.items
    requires sys.items[i].Pending? || sys.items[i].Preparing? || sys.items[i].UnlistedItem?
    ensures CheckAlone(sys, id) == sys.(checks := Without(sys.checks, id))
  {
    var s1 := sys.(checks := sys.checks[id := Spawned]);
    assert CheckAlone(s1, id) == s1.(checks := Without(s1.checks, id));
    assert Without(s1.checks, id) == Without(sys.checks, id);
  }

  /**
  When each item is ready, served or cancelled, the check completes a ticket in progress, whose
  status is all it writes, and leaves any other ticket alone.
  */
  lemma FinishedIsCompleted(sys: Sys, id: nat)
    requires CheckIs(sys, id, ToSpawn)
    requires forall i :: i in sys.items ==> sys.items[i].Ready? || sys.items[i].Served? || sys.items[i].CancelledItem?
    ensures var done := sys.(checks := Without(sys.checks, id));
            CheckAlone(sys, id) ==
            if sys.kot.status == InProgress then
              done.(kot := sys.kot.(status := Completed), writes := sys.writes + [Completed])
            else done
  {
    var s1 := sys.(checks := sys.checks[id := Spawned]);
    var s2 := sys.(checks := sys.checks[id := Counted]);
    var s3 := sys.(checks := sys.checks[id := Holding(sys.kot)]);
    assert Next(sys, Spawn(id)) == s1;
    assert Next(s1, CountItems(id)) == s2;
    assert Without(s2.checks, id) == Without(s3.checks, id) == Without(sys.checks, id);
    if sys.kot.status == InProgress {
      assert Next(s2, LoadForCheck(id)) == s3;
      assert CheckAlone(s2, id) == CheckAlone(s3, id);
    }
    assert CheckAlone(s1, id) == CheckAlone(s2, id);
  }

  // ---------------------------------------------------------------------------
  // A stale start undoes the completion
  // ---------------------------------------------------------------------------

  const STALE: Request := Request(Start, Kot(Medium, Sent))

  /** The check runs to its end, then the second start writes. */
  const SECOND_HALF: seq<Action> :=
    [CountItems(7)] + ([LoadForCheck(7)] + ([AutoComplete(7)] + ([FireRequest(1)] + [])))

  /** Two starts load the sent ticket, the first writes, and the last item is finished. */
  const STALE_START: seq<Action> :=
    [LoadForRequest(0, Start)] + ([LoadForRequest(1, Start)] + ([FireRequest(0)] + MIDDLE))

  const MIDDLE: seq<Action> := [UpdateItem(7, 0, Ready)] + ([Spawn(7)] + SECOND_HALF)

  function Ticket(s: KotState): Kot { Kot(Medium, s) }

  lemma SecondHalf()
    ensures var mid := Sys(Ticket(InProgress), map[0 := Ready], map[7 := Spawned], map[1 := STALE], [InProgress]);
            && Run(mid, SECOND_HALF)
            && After(mid, SECOND_HALF) ==
               Sys(Ticket(InProgress), map[0 := Ready], map[], map[], [InProgress, Completed, InProgress])
  {
    var items := map[0 := Ready];
    var requests := map[1 := STALE];
    var s5 := Sys(Ticket(InProgress), items, map[7 := Spawned], requests, [InProgress]);
    var s6 := Sys(Ticket(InProgress), items, map[7 := Counted], requests, [InProgress]);
    var s7 := Sys(Ticket(InProgress), items, map[7 := Holding(Ticket(InProgress))], requests, [InProgress]);
    var s8 := Sys(Ticket(Completed), items, map[], requests, [InProgress, Completed]);
    var s9 := Sys(Ticket(InProgress), items, map[], map[], [InProgress, Completed, InProgress]);
    assert Next(s8, FireRequest(1)) == s9;
    RunCons(s8, FireRequest(1), []);
    assert Next(s7, AutoComplete(7)) == s8;
    RunCons(s7, AutoComplete(7), [FireRequest(1)] + []);
    assert Next(s6, LoadForCheck(7)) == s7;
    RunCons(s6, LoadForCheck(7), [AutoComplete(7)] + ([FireRequest(1)] + []));
    assert Next(s5, CountItems(7)) == s6;
    RunCons(s5, CountItems(7), [LoadForCheck(7)] + ([AutoComplete(7)] + ([FireRequest(1)] + [])));
  }

  lemma Middle()
    ensures var s3 := Sys(Ticket(InProgress), map[0 := Preparing], map[], map[1 := STALE], [InProgress]);
            && Run(s3, MIDDLE)
            && After(s3, MIDDLE) ==
               Sys(Ticket(InProgress), map[0 := Ready], map[], map[], [InProgress, Completed, InProgress])
  {
    SecondHalf();
    var s3 := Sys(Ticket(InProgress), map[0 := Preparing], map[], map[1 := STALE], [InProgress]);
    var s4 := Sys(Ticket(InProgress), map[0 := Ready], map[7 := ToSpawn], map[1 := STALE], [InProgress]);
    var s5 := Sys(Ticket(InProgress), map[0 := Ready], map[7 := Spawned], map[1 := STALE], [InProgress]);
    assert Next(s4, Spawn(7)) == s5;
    RunCons(s4, Spawn(7), SECOND_HALF);
    assert Next(s3, UpdateItem(7, 0, Ready)) == s4;
    RunCons(s3, UpdateItem(7, 0, Ready), [Spawn(7)] + SECOND_HALF);
  }

  /**
  A ticket can be left in progress for good. Two starts load the sent ticket; the slower one
  writes after the check has completed the ticket, and then all items are finished and no
  check or request remains.
  */
  lemma StaleStartLosesCompletion()
    ensures var start := Sys(Ticket(Sent), map[0 := Preparing], map[], map[], []);
            && Run(start, STALE_START)
            && After(start, STALE_START) ==
               Sys(Ticket(InProgress), map[0 := Ready], map[], map[], [InProgress, Completed, InProgress])
  {
    Middle();
    var s0 := Sys(Ticket(Sent), map[0 := Preparing], map[], map[], []);
    var s1 := Sys(Ticket(Sent), map[0 := Preparing], map[], map[0 := STALE], []);
    var s2 := Sys(Ticket(Sent), map[0 := Preparing], map[], map[0 := STALE, 1 := STALE], []);
    var s3 := Sys(Ticket(InProgress), map[0 := Preparing], map[], map[1 := STALE], [InProgress]);
    assert Next(s2, FireRequest(0)) == s3;
    RunCons(s2, FireRequest(0), MIDDLE);
    assert Next(s1, LoadForRequest(1, Start)) == s2;
    RunCons(s1, LoadForRequest(1, Start), [FireRequest(0)] + MIDDLE);
    assert Next(s0, LoadForRequest(0, Start)) == s1;
    RunCons(s0, LoadForRequest(0, Start), [LoadForRequest(1, Start)] + ([FireRequest(0)] + MIDDLE));
  }
}
