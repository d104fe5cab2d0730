/** The user account machine (backend/utils/FSM.go). */
module UserTable {
  import opened Wrappers
  import opened Fsm
  import opened FsmBuilder
  import opened FsmLaws
  import opened FsmRuns
  import opened TableKit

  datatype UserState = PendingVerification | Active | Locked | MustChangePassword | Suspended | Deactivated

  datatype UserEvent =
    | VerifyEmail | Lock | Unlock | ForcePasswordChange | PasswordChanged | Suspend | Reactivate | Deactivate

  datatype User = User(isActive: bool, mustChangePassword: bool)

  type UserRow = Row<UserState, UserEvent>

  const ROWS: seq<UserRow> := [
    Row(PendingVerification, VerifyEmail, Active),
    Row(Active, Lock, Locked),
    Row(Locked, Unlock, Active),
    Row(Active, ForcePasswordChange, MustChangePassword),
    Row(MustChangePassword, PasswordChanged, Active),
    Row(Active, Suspend, Suspended),
    Row(Suspended, Reactivate, Active),
    Row(Active, Deactivate, Deactivated),
    Row(Locked, Deactivate, Deactivated),
    Row(Suspended, Deactivate, Deactivated)]

  function Flags(u: User, event: UserEvent): User {
    match event
    case VerifyEmail | Unlock | Reactivate => u.(isActive := true)
    case Lock | Suspend | Deactivate => u.(isActive := false)
    case ForcePasswordChange => u.(mustChangePassword := true)
    case PasswordChanged => User(true, false)
  }

  /** No user transition has a guard. */
  function UserTable(): Table<User, UserState, UserEvent> {
    Table({Active, Locked, MustChangePassword, Suspended}, PendingVerification, {Deactivated},
          ROWS, _ => None, (_, _, _) => true, (row: UserRow, u: User, _) => Flags(u, row.event), [])
  }

  function UserFsm(): Definition<User, UserState, UserEvent> { Compiled(UserTable()) }

  /** Where an event takes an account. */
  function UserTarget(s: UserState, e: UserEvent): Option<UserState> {
    match (s, e)
    case (PendingVerification, VerifyEmail) => Some(Active)
    case (Active, Lock) => Some(Locked)
    case (Locked, Unlock) => Some(Active)
    case (Active, ForcePasswordChange) => Some(MustChangePassword)
    case (MustChangePassword, PasswordChanged) => Some(Active)
    case (Active, Suspend) => Some(Suspended)
    case (Suspended, Reactivate) => Some(Active)
    case (_, Deactivate) => if s in {Active, Locked, Suspended} then Some(Deactivated) else None
    case _ => None
  }

  /** The position of a pair's row in the table. */
  function RowNumber(s: UserState, e: UserEvent): int {
    match s
    case PendingVerification => 0
    case Active => (match e case Lock => 1 case ForcePasswordChange => 3 case Suspend => 5 case _ => 7)
    case Locked => if e == Deactivate then 8 else 2
    case MustChangePassword => 4
    case _ => if e == Deactivate then 9 else 6
  }

  lemma RowsNumbered(i: nat)
    requires i < |ROWS|
    ensures RowNumbered(UserTable(), UserTarget, RowNumber, i)
  {
  }

  lemma PairsNumbered(s: UserState, e: UserEvent)
    ensures PairNumbered(UserTable(), UserTarget, RowNumber, s, e)
  {
    if UserTarget(s, e).Some? {
      assert ROWS[RowNumber(s, e)] == Row(s, e, UserTarget(s, e).value);
    }
  }

  /** The table is in order and is the reference row by row. */
  lemma UserDescribed()
    ensures Described(UserTable(), UserTarget)
  {
    forall i: nat | i < |ROWS|
      ensures RowNumbered(UserTable(), UserTarget, RowNumber, i)
    {
      RowsNumbered(i);
    }
    forall s, e ensures PairNumbered(UserTable(), UserTarget, RowNumber, s, e) {
      PairsNumbered(s, e);
    }
    NumberedTable(UserTable(), UserTarget, RowNumber);
  }

  lemma TargetReached(st: MachineState<User, UserState, UserEvent>, env: Envelope<UserEvent>)
    requires !st.inFlight
    ensures var r := Dispatch(UserFsm(), st, env);
            var target := UserTarget(st.current, env.event);
            && !r.state.inFlight
            && (r.error.None? <==> target.Some?)
            && (r.error.Some? ==> r.state == st)
            && (r.error.None? ==> r.state.current == target.value && r.state.obj == Flags(st.obj, env.event))
  {
    UserDescribed();
    TargetSend(UserTable(), UserTarget, st, env);
  }

  /** Event by event: where it is taken, and the one state it leads to. */
  lemma UserEvents(s: UserState, e: UserEvent)
    ensures UserTarget(s, e) ==
            match e
              case VerifyEmail => From(s, {PendingVerification}, Active)
              case Lock => From(s, {Active}, Locked)
              case Unlock => From(s, {Locked}, Active)
              case ForcePasswordChange => From(s, {Active}, MustChangePassword)
              case PasswordChanged => From(s, {MustChangePassword}, Active)
              case Suspend => From(s, {Active}, Suspended)
              case Reactivate => From(s, {Suspended}, Active)
              case Deactivate => From(s, {Active, Locked, Suspended}, Deactivated)
  {
  }

  /** Each flag by the events that raise or lower it. */
  lemma FlagsByEvent(u: User, e: UserEvent)
    ensures var next := Flags(u, e);
            && (e == VerifyEmail || e == Unlock || e == Reactivate || e == PasswordChanged ==> next.isActive)
            && (e == Lock || e == Suspend || e == Deactivate ==> !next.isActive)
            && (e == ForcePasswordChange ==> next.isActive == u.isActive && next.mustChangePassword)
            && (e == PasswordChanged ==> !next.mustChangePassword)
            && (e != ForcePasswordChange && e != PasswordChanged ==> next.mustChangePassword == u.mustChangePassword)
  {
  }

  /**
  What one event does to an account: it goes to its target if there is one, whatever the flags,
  and sets exactly its own flags; else nothing changes.
  */
  lemma UserSend(st: MachineState<User, UserState, UserEvent>, env: Envelope<UserEvent>)
    requires !st.inFlight
    ensures var r, u, e := Dispatch(UserFsm(), st, env), st.obj, env.event;
            var target, next := UserTarget(st.current, e), r.state.obj;
            && !r.state.inFlight
            && (r.error.None? <==> target.Some?)
            && (r.error.Some? ==> r.state == st)
            && (r.error.None? ==>
                  && r.state.current == target.value
                  && (e == VerifyEmail || e == Unlock || e == Reactivate || e == PasswordChanged ==> next.isActive)
                  && (e == Lock || e == Suspend || e == Deactivate ==> !next.isActive)
                  && (e == ForcePasswordChange ==> next.isActive == u.isActive && next.mustChangePassword)
                  && (e == PasswordChanged ==> !next.mustChangePassword)
                  && (e != ForcePasswordChange && e != PasswordChanged ==>
                        next.mustChangePassword == u.mustChangePassword))
  {
    TargetReached(st, env);
    FlagsByEvent(st.obj, env.event);
  }

  /** The flags say which side of a login check the account is on. */
  ghost predicate FlagsAgree(u: User, s: UserState) {
    && (u.isActive <==> s == Active || s == MustChangePassword)
    && (u.mustChangePassword <==> s == MustChangePassword)
  }

  lemma TargetsKeepFlags(u: User, s: UserState, e: UserEvent)
    requires UserTarget(s, e).Some? && FlagsAgree(u, s)
    ensures FlagsAgree(Flags(u, e), UserTarget(s, e).value)
  {
  }

  lemma SendKeepsFlags(st: MachineState<User, UserState, UserEvent>, env: Envelope<UserEvent>)
    requires !st.inFlight && FlagsAgree(st.obj, st.current)
    ensures var next := Dispatch(UserFsm(), st, env).state; !next.inFlight && FlagsAgree(next.obj, next.current)
  {
    TargetReached(st, env);
    if UserTarget(st.current, env.event).Some? {
      TargetsKeepFlags(st.obj, st.current, env.event);
    }
  }

  /** Code outside the machine leaves the two flags in agreement with the state they are in. */
  ghost predicate FlagsRespected(st: MachineState<User, UserState, UserEvent>, xs: seq<Stimulus<User, UserEvent>>)
    decreases |xs|
  {
    xs != [] ==>
      && (xs[0].Touch? ==> FlagsAgree(xs[0].obj, st.current))
      && FlagsRespected(After(UserFsm(), st, xs[0]), xs[1..])
  }

  lemma {:induction false} RunKeepsFlags(
      st: MachineState<User, UserState, UserEvent>, xs: seq<Stimulus<User, UserEvent>>)
    requires !st.inFlight && FlagsAgree(st.obj, st.current) && FlagsRespected(st, xs)
    ensures var end := Run(UserFsm(), st, xs); FlagsAgree(end.obj, end.current)
    decreases |xs|
  {
    if xs == [] {
    } else {
      if xs[0].Fire? {
        SendKeepsFlags(st, xs[0].env);
      }
      RunKeepsFlags(After(UserFsm(), st, xs[0]), xs[1..]);
    }
  }

  /**
  An account that starts pending with both flags down is, after every run, active exactly
  in the states active and must_change_password, and has to change its password exactly
  in the latter.
  */
  lemma FlagsFollowState(xs: seq<Stimulus<User, UserEvent>>)
    requires FlagsRespected(Fresh<User, UserState, UserEvent>(User(false, false), PendingVerification), xs)
    ensures var end := Run(UserFsm(), Fresh<User, UserState, UserEvent>(User(false, false), PendingVerification), xs);
            FlagsAgree(end.obj, end.current)
  {
    RunKeepsFlags(Fresh<User, UserState, UserEvent>(User(false, false), PendingVerification), xs);
  }

  lemma UserRegistered(s: UserState, e: UserEvent)
    ensures (s, e) in UserFsm().index <==> UserTarget(s, e).Some?
  {
    UserDescribed();
    RegisteredExactly(UserTable(), UserTarget, s, e);
  }

  lemma UserCompiles()
    ensures WellFormed(States(UserTable()), Transitions(UserTable())) && Tame(UserFsm())
  {
    UserDescribed();
    GoodRowsWellFormed(UserTable());
    GoodTableIsTame(UserTable());
  }

  /** The table compiles; deactivation is registered from active, locked and suspended only. */
  lemma UserFsmLaws(s: UserState)
    ensures WellFormed(States(UserTable()), Transitions(UserTable())) && Tame(UserFsm())
    ensures (s, Deactivate) in UserFsm().index <==> s in {Active, Locked, Suspended}
  {
    UserCompiles();
    UserRegistered(s, Deactivate);
  }
}
