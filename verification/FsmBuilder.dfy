/** The definition builder and its compiler (backend/utils/FSM.go). */
module FsmBuilder {
  import opened Wrappers
  import opened Fsm

  datatype CompileError<S, E> =
    | UndeclaredFrom(state: S)
    | UndeclaredTo(state: S)
    | DuplicateTransition(state: S, event: E)
    | TerminalOutgoing(state: S, event: E)

  function Key<C, S, E>(t: Transition<C, S, E>): (S, E) {
    (t.from, t.event)
  }

  /** A transition with guards and effects only, the one shape the domain tables use. */
  function Edge<C, S, E>(
      from: S, event: E, to: S, guards: seq<EnvelopeFunc<C, E>>, effects: seq<EnvelopeFunc<C, E>>)
    : Transition<C, S, E>
  {
    Transition(from, event, to, guards, effects, [], [], [], [])
  }

  /** The lookup table the compiler builds; a repeated pair would overwrite the earlier entry. */
  function IndexOf<C, S(==), E(==)>(ts: seq<Transition<C, S, E>>): map<(S, E), Transition<C, S, E>> {
    if ts == [] then map[]
    else IndexOf(ts[..|ts| - 1])[Key(ts[|ts| - 1]) := ts[|ts| - 1]]
  }

  /** What the error list of a failed compilation is meant to report. */
  ghost predicate IsFault<C, S, E>(
      states: map<S, StateMeta<C, S, E>>, ts: seq<Transition<C, S, E>>, e: CompileError<S, E>)
  {
    match e
    case UndeclaredFrom(s) => s !in states && exists i :: 0 <= i < |ts| && ts[i].from == s
    case UndeclaredTo(s) => s !in states && exists i :: 0 <= i < |ts| && ts[i].to == s
    case DuplicateTransition(s, ev) =>
      exists i, j :: 0 <= i < j < |ts| && Key(ts[i]) == (s, ev) && Key(ts[j]) == (s, ev)
    case TerminalOutgoing(s, ev) =>
      s in states && states[s].isTerminal && exists i :: 0 <= i < |ts| && Key(ts[i]) == (s, ev)
  }

  ghost predicate WellFormed<C, S, E>(
      states: map<S, StateMeta<C, S, E>>, ts: seq<Transition<C, S, E>>)
  {
    && (forall i :: 0 <= i < |ts| ==> ts[i].from in states && ts[i].to in states)
    && (forall i, j :: 0 <= i < j < |ts| ==> Key(ts[i]) != Key(ts[j]))
    && (forall i :: 0 <= i < |ts| ==> !states[ts[i].from].isTerminal)
  }

  lemma {:induction false} IndexKeys<C, S, E>(ts: seq<Transition<C, S, E>>, k: (S, E))
    ensures k in IndexOf(ts) <==> exists i :: 0 <= i < |ts| && Key(ts[i]) == k
  {
    if ts == [] {
    } else {
      var n := |ts| - 1;
      IndexKeys(ts[..n], k);
      assert forall i :: 0 <= i < n ==> ts[..n][i] == ts[i];
    }
  }

  lemma {:induction false} IndexValues<C, S, E>(ts: seq<Transition<C, S, E>>, k: (S, E))
    requires k in IndexOf(ts)
    ensures Key(IndexOf(ts)[k]) == k && IndexOf(ts)[k] in ts
  {
    var n := |ts| - 1;
    if k != Key(ts[n]) {
      IndexValues(ts[..n], k);
    }
  }

  lemma {:induction false} IndexUnique<C, S, E>(ts: seq<Transition<C, S, E>>, i: nat)
    requires i < |ts| && forall j, k :: 0 <= j < k < |ts| ==> Key(ts[j]) != Key(ts[k])
    ensures Key(ts[i]) in IndexOf(ts) && IndexOf(ts)[Key(ts[i])] == ts[i]
  {
    var n := |ts| - 1;
    if i < n {
      assert Key(ts[i]) != Key(ts[n]);
      IndexUnique(ts[..n], i);
    }
  }

  /** The index has exactly the registered pairs, and a pair registered once maps to its transition. */
  lemma {:induction false} IndexExact<C, S(!new), E(!new)>(ts: seq<Transition<C, S, E>>)
    ensures forall k :: k in IndexOf(ts) <==> exists i :: 0 <= i < |ts| && Key(ts[i]) == k
    ensures forall k :: k in IndexOf(ts) ==> Key(IndexOf(ts)[k]) == k && IndexOf(ts)[k] in ts
    ensures (forall i, j :: 0 <= i < j < |ts| ==> Key(ts[i]) != Key(ts[j])) ==>
              forall i :: 0 <= i < |ts| ==> Key(ts[i]) in IndexOf(ts) && IndexOf(ts)[Key(ts[i])] == ts[i]
  {
    forall k ensures k in IndexOf(ts) <==> exists i :: 0 <= i < |ts| && Key(ts[i]) == k {
      IndexKeys(ts, k);
    }
    forall k | k in IndexOf(ts) ensures Key(IndexOf(ts)[k]) == k && IndexOf(ts)[k] in ts {
      IndexValues(ts, k);
    }
    if forall i, j :: 0 <= i < j < |ts| ==> Key(ts[i]) != Key(ts[j]) {
      forall i | 0 <= i < |ts| ensures Key(ts[i]) in IndexOf(ts) && IndexOf(ts)[Key(ts[i])] == ts[i] {
        IndexUnique(ts, i);
      }
    }
  }

  /** A fault exists exactly when the definition is not well formed. */
  lemma FaultIffIllFormed<C(!new), S(!new), E(!new)>(
      states: map<S, StateMeta<C, S, E>>, ts: seq<Transition<C, S, E>>)
    ensures (exists e :: IsFault(states, ts, e)) <==> !WellFormed(states, ts)
  {
    if i :| 0 <= i < |ts| && ts[i].from !in states {
      assert IsFault(states, ts, UndeclaredFrom(ts[i].from));
    } else if i :| 0 <= i < |ts| && ts[i].to !in states {
      assert IsFault(states, ts, UndeclaredTo(ts[i].to));
    } else if i, j :| 0 <= i < j < |ts| && Key(ts[i]) == Key(ts[j]) {
      assert IsFault(states, ts, DuplicateTransition(ts[i].from, ts[i].event));
    } else if i :| 0 <= i < |ts| && states[ts[i].from].isTerminal {
      assert IsFault(states, ts, TerminalOutgoing(ts[i].from, ts[i].event));
    }
  }

  /** In a compiled definition a terminal state enables no event, and every edge joins declared states. */
  lemma {:induction false} CompiledIndex<C, S(!new), E(!new)>(
      states: map<S, StateMeta<C, S, E>>, ts: seq<Transition<C, S, E>>)
    requires WellFormed(states, ts)
    ensures forall s, ev :: s in states && states[s].isTerminal ==> (s, ev) !in IndexOf(ts)
    ensures forall k :: k in IndexOf(ts) ==> IndexOf(ts)[k].from == k.0 && IndexOf(ts)[k].to in states
  {
    IndexExact(ts);
  }

  /** The faults one more transition adds to a definition. */
  ghost predicate AddsFault<C, S, E>(
      states: map<S, StateMeta<C, S, E>>, ts: seq<Transition<C, S, E>>, t: Transition<C, S, E>, e: CompileError<S, E>)
  {
    || (e == UndeclaredFrom(t.from) && t.from !in states)
    || (e == UndeclaredTo(t.to) && t.to !in states)
    || (e == DuplicateTransition(t.from, t.event) && exists i :: 0 <= i < |ts| && Key(ts[i]) == Key(t))
    || (e == TerminalOutgoing(t.from, t.event) && t.from in states && states[t.from].isTerminal)
  }

  lemma FaultStays<C, S, E>(
      states: map<S, StateMeta<C, S, E>>, ts: seq<Transition<C, S, E>>, t: Transition<C, S, E>, e: CompileError<S, E>)
    requires IsFault(states, ts, e)
    ensures IsFault(states, ts + [t], e)
  {
    var all := ts + [t];
    match e
    case UndeclaredFrom(s) =>
      var i :| 0 <= i < |ts| && ts[i].from == s;
      assert all[i].from == s;
    case UndeclaredTo(s) =>
      var i :| 0 <= i < |ts| && ts[i].to == s;
      assert all[i].to == s;
    case DuplicateTransition(s, ev) =>
      var i, j :| 0 <= i < j < |ts| && Key(ts[i]) == (s, ev) && Key(ts[j]) == (s, ev);
      assert Key(all[i]) == (s, ev) && Key(all[j]) == (s, ev);
    case TerminalOutgoing(s, ev) =>
      var i :| 0 <= i < |ts| && Key(ts[i]) == (s, ev);
      assert Key(all[i]) == (s, ev);
  }

  lemma FaultIsAdded<C, S, E>(
      states: map<S, StateMeta<C, S, E>>, ts: seq<Transition<C, S, E>>, t: Transition<C, S, E>, e: CompileError<S, E>)
    requires AddsFault(states, ts, t, e)
    ensures IsFault(states, ts + [t], e)
  {
    var all := ts + [t];
    assert all[|ts|] == t;
    if e.DuplicateTransition? {
      var i :| 0 <= i < |ts| && Key(ts[i]) == Key(t);
      assert Key(all[i]) == Key(t) && Key(all[|ts|]) == Key(t);
    } else if e.TerminalOutgoing? {
      assert Key(all[|ts|]) == Key(t);
    }
  }

  lemma FaultIsOldOrAdded<C, S, E>(
      states: map<S, StateMeta<C, S, E>>, ts: seq<Transition<C, S, E>>, t: Transition<C, S, E>, e: CompileError<S, E>)
    requires IsFault(states, ts + [t], e)
    ensures IsFault(states, ts, e) || AddsFault(states, ts, t, e)
  {
    var all := ts + [t];
    assert forall i :: 0 <= i < |ts| ==> all[i] == ts[i];
    assert all[|ts|] == t;
    if e.DuplicateTransition? {
      var i, j :| 0 <= i < j < |all| && Key(all[i]) == (e.state, e.event) && Key(all[j]) == (e.state, e.event);
      assert Key(ts[i]) == (e.state, e.event);
      assert j < |ts| ==> Key(ts[j]) == (e.state, e.event);
    }
  }

  /** How the faults of a definition grow when one transition is added to it. */
  lemma FaultsGrow<C(!new), S(!new), E(!new)>(
      states: map<S, StateMeta<C, S, E>>, ts: seq<Transition<C, S, E>>, t: Transition<C, S, E>)
    ensures forall e :: IsFault(states, ts + [t], e) <==> IsFault(states, ts, e) || AddsFault(states, ts, t, e)
  {
    forall e: CompileError<S, E>
      ensures IsFault(states, ts + [t], e) <==> IsFault(states, ts, e) || AddsFault(states, ts, t, e)
    {
      if IsFault(states, ts, e) {
        FaultStays(states, ts, t, e);
      } else if AddsFault(states, ts, t, e) {
        FaultIsAdded(states, ts, t, e);
      } else if IsFault(states, ts + [t], e) {
        FaultIsOldOrAdded(states, ts, t, e);
      }
    }
  }

  class DefinitionBuilder<C(!new), S(==, !new), E(==, !new)> {
    var states: map<S, StateMeta<C, S, E>>
    var transitions: seq<Transition<C, S, E>>
    var observers: seq<ObserverFunc<C, S, E>>
    var globalGuards: seq<EnvelopeFunc<C, E>>
    var globalEffects: seq<EnvelopeFunc<C, E>>
    var historyCapacity: nat

    constructor Define()
      ensures states == map[] && transitions == [] && observers == [] && globalGuards == [] && globalEffects == []
      ensures historyCapacity == 100
    {
      states, transitions, observers, globalGuards, globalEffects := map[], [], [], [], [];
      historyCapacity := 100;
    }

    method State(name: S, meta: StateMeta<C, S, E>)
      modifies this`states
      ensures states == old(states)[name := meta]
    {
      states := states[name := meta];
    }

    method Transition(t: Transition<C, S, E>)
      modifies this`transitions
      ensures transitions == old(transitions) + [t]
    {
      transitions := transitions + [t];
    }

    /** First pass: builds the index and collects undeclared endpoints and repeated pairs. */
    method BuildIndex() returns (index: map<(S, E), Transition<C, S, E>>, errs: seq<CompileError<S, E>>)
      ensures index == IndexOf(transitions)
      ensures forall e :: e in errs <==> !e.TerminalOutgoing? && IsFault(states, transitions, e)
    {
      errs, index := [], map[];
      var i := 0;
      while i < |transitions|
        invariant 0 <= i <= |transitions|
        invariant index == IndexOf(transitions[..i])
        invariant forall e :: e in errs <==> !e.TerminalOutgoing? && IsFault(states, transitions[..i], e)
      {
        var t := transitions[i];
        ghost var seen, next := transitions[..i], transitions[..i + 1];
        IndexKeys(seen, Key(t));
        assert next == seen + [t] && next[..|next| - 1] == seen;
        var found: seq<CompileError<S, E>> := [];
        if t.from !in states {
          found := found + [UndeclaredFrom(t.from)];
        }
        if t.to !in states {
          found := found + [UndeclaredTo(t.to)];
        }
        if Key(t) in index {
          found := found + [DuplicateTransition(t.from, t.event)];
        }
        FaultsGrow(states, seen, t);
        errs := errs + found;
        index := index[Key(t) := t];
        i := i + 1;
      }
      assert transitions[..i] == transitions;
    }

    /** Second pass: terminal states must not have outgoing transitions. */
    method CheckTerminals() returns (errs: seq<CompileError<S, E>>)
      ensures forall e :: e in errs <==> e.TerminalOutgoing? && IsFault(states, transitions, e)
    {
      errs := [];
      var i := 0;
      while i < |transitions|
        invariant 0 <= i <= |transitions|
        invariant forall e :: e in errs <==> e.TerminalOutgoing? && IsFault(states, transitions[..i], e)
      {
        var t := transitions[i];
        ghost var seen := transitions[..i];
        assert transitions[..i + 1] == seen + [t];
        if t.from in states && states[t.from].isTerminal {
          errs := errs + [TerminalOutgoing(t.from, t.event)];
        }
        FaultsGrow(states, seen, t);
        i := i + 1;
      }
      assert transitions[..i] == transitions;
    }

    /**
    Compiles exactly the well-formed definitions. A rejected one comes with every
    fault it has and nothing else.
    */
    method Compile() returns (r: Result<Definition<C, S, E>, seq<CompileError<S, E>>>)
      ensures r.Ok? <==> WellFormed(states, transitions)
      ensures r.Ok? ==> r.value == Definition(
          states, IndexOf(transitions), observers, globalGuards, globalEffects, historyCapacity)
      ensures r.Err? ==> forall e :: e in r.error <==> IsFault(states, transitions, e)
    {
      var index, errs := BuildIndex();
      var more := CheckTerminals();
      errs := errs + more;
      assert forall e :: e in errs <==> IsFault(states, transitions, e);
      FaultIffIllFormed(states, transitions);
      if |errs| > 0 {
        assert errs[0] in errs;
        return Err(errs);
      }
      return Ok(Definition(states, index, observers, globalGuards, globalEffects, historyCapacity));
    }
  }
}
