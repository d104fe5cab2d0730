/** Kitchen ticket requests, each with a machine of its own (backend/services/business/Kot.go). */
module KotService {
  import opened Wrappers
  import opened Fsm
  import opened FsmRuns
  import opened KotTable

  type Id = nat

  datatype ServiceError = NotFound | NotPermitted | ManagerRequired

  /** The service's envelopes carry no metadata. */
  function Plain(event: KotEvent): Envelope<KotEvent> { Envelope(event, map[]) }

  class KotStore {
    var kots: map<Id, Kot>

    constructor (kots: map<Id, Kot>)
      ensures this.kots == kots
    {
      this.kots := kots;
    }

    /**
    Fires an event on a loaded copy and writes the resulting status, and only that, to the
    stored ticket. The write does not look at the status stored in the meantime.
    */
    method FireKotEventOnModel(id: Id, loaded: Kot, event: KotEvent) returns (r: Result<Kot, ServiceError>)
      modifies this
      ensures match KotTarget(loaded, Plain(event))
              case None => r == Err(NotPermitted) && kots == old(kots)
              case Some(target) =>
                && r == Ok(loaded.(status := target))
                && kots == if id in old(kots) then old(kots)[id := old(kots)[id].(status := target)] else old(kots)
    {
      var machine := new Machine.Restore(KotFsm(), loaded, loaded.status);
      RestoredSend(loaded, Plain(event));
      var error := machine.Send(Plain(event));
      if error.Some? {
        return Err(NotPermitted);
      }
      var kot := machine.obj;
      if id in kots {
        kots := kots[id := kots[id].(status := kot.status)];
      }
      return Ok(kot);
    }

    /** A serialised request acts on the stored ticket as one send on a machine restored from it. */
    method FireKotEvent(id: Id, event: KotEvent) returns (r: Result<Kot, ServiceError>)
      modifies this
      ensures id !in old(kots) ==> r == Err(NotFound) && kots == old(kots)
      ensures id in old(kots) ==>
                var (stored, error) := Handle(KotFsm(), Status, old(kots)[id], Plain(event));
                && kots == old(kots)[id := stored]
                && (r.Ok? <==> error.None?) && (r.Ok? ==> r.value == stored)
    {
      if id !in kots {
        return Err(NotFound);
      }
      HandleIsTarget(kots[id], Plain(event));
      r := FireKotEventOnModel(id, kots[id], event);
    }

    /**
    Cancelling works for a sent ticket, and for one in progress only when a manager asks
    and the ticket is not urgent: the metadata that would force an urgent one is never sent.
    */
    method CancelKot(id: Id, isManager: bool) returns (r: Result<Kot, ServiceError>)
      modifies this
      ensures id !in old(kots) ==> r == Err(NotFound)
      ensures id in old(kots) ==>
                var kot := old(kots)[id];
                && (r.Ok? <==> kot.status == Sent || (kot.status == InProgress && isManager && kot.priority != Urgent))
                && kots == (if r.Ok? then old(kots)[id := kot.(status := Cancelled)] else old(kots))
      ensures id !in old(kots) ==> kots == old(kots)
    {
      if id !in kots {
        return Err(NotFound);
      }
      var kot := kots[id];
      if kot.status == InProgress && !isManager {
        return Err(ManagerRequired);
      }
      r := FireKotEventOnModel(id, kot, Cancel);
    }
  }

  /** Handling one request writes the event's target status, or nothing. */
  lemma HandleIsTarget(kot: Kot, env: Envelope<KotEvent>)
    ensures var (stored, error) := Handle(KotFsm(), Status, kot, env);
            var target := KotTarget(kot, env);
            && (error.None? <==> target.Some?)
            && stored == (if target.Some? then kot.(status := target.value) else kot)
  {
    RestoredSend(kot, env);
  }

  /**
  Serialised ticket handling is indistinguishable from one machine that lives as long as
  the ticket: the same requests are accepted with the same answers, and the stored status
  is the machine's state throughout.
  */
  lemma KotRequestsLikeOneMachine(kot: Kot, xs: seq<Stimulus<Kot, KotEvent>>)
    requires StatusUntouched(KotFsm(), Status, Fresh<Kot, KotState, KotEvent>(kot, kot.status), xs)
    ensures var st := Fresh<Kot, KotState, KotEvent>(kot, kot.status);
            var (stored, answers) := HandleAll(KotFsm(), Status, kot, xs);
            && answers == Answers(KotFsm(), st, xs)
            && stored == Run(KotFsm(), st, xs).obj
            && stored.status == Run(KotFsm(), st, xs).current
  {
    KotFsmLaws();
    RestoringIsInvisible(KotFsm(), Status, Fresh<Kot, KotState, KotEvent>(kot, kot.status), xs);
  }
}
