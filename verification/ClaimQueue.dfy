/** The decision queue as the program builds it, step for step that of the runs. */
module ClaimQueue {
  import ExecutorClaims
  import opened ExecutorService
  import opened ClaimDecisions

  /** The queue in front of the decision transaction: each call awaits the promise that was the tail before it.
      A promise is known by its number, and `released` says which are resolved. */
  class ConnectExecutorLogic {
    var claimDecisionTail: nat
    var released: set<nat>
    const service: ConnectExecutorService

    constructor (service: ConnectExecutorService)
      ensures this.service == service && claimDecisionTail == 0 && released == {0}
    {
      this.service := service;
      claimDecisionTail, released := 0, {0};
    }

    /** The object is in the state of a world of the runs. */
    ghost predicate Agrees(w: World)
      reads this, service
    {
      claimDecisionTail == w.tail && released == w.released && service.Stored() == w.t
    }

    /** The part of `decide` before its await: the step in which a call arrives. */
    method Enter(call: Call, ghost w: World, ghost task: nat) returns (ticket: Ticket)
      requires Agrees(w) && Enabled(w, Arrives(task, call))
      modifies this`claimDecisionTail
      ensures Agrees(Apply(w, Arrives(task, call))) && Apply(w, Arrives(task, call)).waiting[task] == ticket
    {
      ticket := Ticket(claimDecisionTail, claimDecisionTail + 1, call);
      claimDecisionTail := claimDecisionTail + 1;
    }

    /** The part after its await: the step in which the call ends. The promise is released whether the
        transaction commits or fails. */
    method DecideInTurn(ticket: Ticket, now: int, failing: nat, ghost w: World, ghost task: nat)
      returns (outcome: ExecutorClaims.DecideOutcome, ghost fails: bool)
      requires Agrees(w) && w.now == now && task in w.running && w.running[task] == ticket && ticket.predecessor in released
      modifies this`released, service
      ensures fails ==> failing != 0
      ensures var w' := Apply(w, Ends(task, fails));
        Agrees(w') && w'.history[|w.history|].call == ticket.call && w'.history[|w.history|].outcome == outcome
    {
      var call := ticket.call;
      outcome := service.Decide(call.claimId, call.decision, call.userId, call.key, now, failing);
      fails := (service.Stored(), outcome) != ExecutorClaims.Decide(w.t, call.claimId, call.decision, call.userId, call.key, now);
      released := released + {ticket.own};
    }
  }
}
