/** Sending one event to a slice of machines (backend/utils/FSM.go). */
module FsmBatch {
  import opened Wrappers
  import opened Fsm

  datatype BatchResult<S, E> = BatchResult(index: nat, from: S, to: S, error: Option<SendError<S, E>>)

  /**
  Sends to the machines named by `ids` in order, each seeing what the earlier sends
  left; an id may be listed more than once. `first` is the index of the first result.
  */
  ghost function BatchRun<K, C, S, E>(
      ids: seq<K>, defs: map<K, Definition<C, S, E>>, states: map<K, MachineState<C, S, E>>,
      env: Envelope<E>, first: nat)
    : (map<K, MachineState<C, S, E>>, seq<BatchResult<S, E>>)
    requires forall id :: id in ids ==> id in defs && id in states
    decreases |ids|
  {
    if ids == [] then (states, [])
    else
      var st := states[ids[0]];
      var r := Dispatch(defs[ids[0]], st, env);
      var (end, rest) := BatchRun(ids[1..], defs, states[ids[0] := r.state], env, first + 1);
      (end, [BatchResult(first, st.current, r.state.current, r.error)] + rest)
  }

  /**
  Over distinct machines the batch is nothing but independent sends: every result and
  every final state is what a single Send on the starting state gives, in slice order,
  whatever happened to the other machines, and no other machine is affected.
  */
  lemma {:induction false} BatchIsIndependent<K, C, S, E>(
      ids: seq<K>, defs: map<K, Definition<C, S, E>>, states: map<K, MachineState<C, S, E>>,
      env: Envelope<E>, first: nat)
    requires forall id :: id in ids ==> id in defs && id in states
    requires forall i, j :: 0 <= i < j < |ids| ==> ids[i] != ids[j]
    ensures var (end, results) := BatchRun(ids, defs, states, env, first);
            && |results| == |ids| && end.Keys == states.Keys
            && (forall i :: 0 <= i < |ids| ==>
                  var r := Dispatch(defs[ids[i]], states[ids[i]], env);
                  && end[ids[i]] == r.state
                  && results[i] == BatchResult(first + i, states[ids[i]].current, r.state.current, r.error))
            && (forall id :: id in states && id !in ids ==> end[id] == states[id])
    decreases |ids|
  {
    if ids == [] {
    } else {
      var r := Dispatch(defs[ids[0]], states[ids[0]], env);
      BatchIsIndependent(ids[1..], defs, states[ids[0] := r.state], env, first + 1);
      forall i | 1 <= i < |ids| ensures ids[i] == ids[1..][i - 1] && ids[i] != ids[0] {
      }
      assert ids[0] !in ids[1..];
    }
  }

  predicate NoErrors<S, E>(results: seq<BatchResult<S, E>>) {
    forall i :: 0 <= i < |results| ==> results[i].error.None?
  }

  lemma NoErrorsAppend<S, E>(results: seq<BatchResult<S, E>>, r: BatchResult<S, E>)
    ensures NoErrors(results + [r]) <==> NoErrors(results) && r.error.None?
  {
    var all := results + [r];
    assert all[|results|] == r;
    assert forall i :: 0 <= i < |results| ==> all[i] == results[i];
  }

  ghost function Definitions<C, S, E>(machines: seq<Machine<C, S, E>>): map<Machine<C, S, E>, Definition<C, S, E>> {
    map m | m in machines :: m.def
  }

  ghost function Snapshots<C, S, E>(machines: seq<Machine<C, S, E>>): map<Machine<C, S, E>, MachineState<C, S, E>>
    reads machines
  {
    map m | m in machines :: m.Snapshot()
  }

  /** One turn of the batch loop: only the machine at `i` moves. */
  method SendAt<C, S(==), E(==)>(machines: seq<Machine<C, S, E>>, i: nat, env: Envelope<E>)
    returns (result: BatchResult<S, E>)
    requires i < |machines|
    modifies machines[i]
    ensures var now := old(Snapshots(machines));
            var r := Dispatch(Definitions(machines)[machines[i]], now[machines[i]], env);
            && Snapshots(machines) == now[machines[i] := r.state]
            && result == BatchResult(i, now[machines[i]].current, r.state.current, r.error)
  {
    var m := machines[i];
    ghost var now := Snapshots(machines);
    var from := m.current;
    var error := m.Send(env);
    assert Snapshots(machines) == now[m := m.Snapshot()];
    return BatchResult(i, from, m.current, error);
  }

  method BatchSend<C, S(==), E(==)>(machines: seq<Machine<C, S, E>>, env: Envelope<E>)
    returns (allSucceeded: bool, results: seq<BatchResult<S, E>>)
    modifies machines
    ensures (Snapshots(machines), results) ==
            BatchRun(machines, Definitions(machines), old(Snapshots(machines)), env, 0)
    ensures allSucceeded <==> NoErrors(results)
  {
    ghost var defs := Definitions(machines);
    ghost var whole := BatchRun(machines, defs, Snapshots(machines), env, 0);
    assert machines[0..] == machines && [] + whole.1 == whole.1;
    results := [];
    allSucceeded := true;
    var i := 0;
    while i < |machines|
      invariant 0 <= i <= |machines|
      invariant var (end, rest) := BatchRun(machines[i..], defs, Snapshots(machines), env, i);
                (end, results + rest) == whole
      invariant allSucceeded <==> NoErrors(results)
    {
      ghost var tail := machines[i..];
      assert tail[0] == machines[i] && tail[1..] == machines[i + 1..];
      var result := SendAt(machines, i, env);
      ghost var (end, rest) := BatchRun(machines[i + 1..], defs, Snapshots(machines), env, i + 1);
      assert results + ([result] + rest) == (results + [result]) + rest;
      NoErrorsAppend(results, result);
      results := results + [result];
      if result.error.Some? {
        allSucceeded := false;
      }
      i := i + 1;
    }
    assert results + [] == results;
  }
}
