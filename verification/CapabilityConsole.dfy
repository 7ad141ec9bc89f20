/**
 * The negotiation as the dashboard keeps it: refs and state cells that the
 * callbacks overwrite one at a time, and the chained poll that drives them. Each
 * callback is proved to make exactly one transition of the state machine.
 */
module CapabilityConsole {
  import opened Basics
  import opened Capabilities

  class Negotiator {
    var generation: nat
    var applied: nat
    var failed: nat
    var revoked: nat
    var outstanding: map<nat, nat>
    var inFlight: bool
    var authDenied: bool
    var fingerprint: Option<nat>
    var retained: Option<Inventory>
    var identity: Option<nat>
    var appliedContext: Option<nat>
    var shown: Option<Inventory>
    var error: Option<string>
    var ready: bool
    var feedEpoch: nat

    ghost function Model(): Negotiation
      reads this
    {
      Negotiation(generation, applied, failed, revoked, outstanding, inFlight, authDenied, fingerprint,
                  retained, identity, appliedContext, shown, error, ready, feedEpoch)
    }

    constructor ()
      ensures Model() == UNNEGOTIATED
    {
      generation, applied, failed, revoked, feedEpoch := 0, 0, 0, 0, 0;
      outstanding := map[];
      inFlight, authDenied, ready := false, false, false;
      fingerprint, retained, identity, appliedContext, shown, error := None, None, None, None, None, None;
    }

    method ClearAuthorizedConsoleFeeds(clearCapabilities: bool, denied: bool)
      modifies this
      ensures Model() == ClearAuthorized(old(Model()), clearCapabilities, denied)
    {
      feedEpoch := feedEpoch + 1;
      if denied {
        authDenied := true;
      } else {
        authDenied := false;
        error := None;
      }
      if clearCapabilities {
        retained := None;
        identity := None;
        shown := None;
      }
    }

    method ClearCapabilityGatedInventories()
      modifies this
      ensures Model() == ClearGated(old(Model()))
    {
      retained := None;
      shown := None;
    }

    method InvalidateIfContextChanged(next: nat)
      modifies this
      ensures Model() == EnterContext(old(Model()), next)
    {
      var previous := fingerprint;
      fingerprint := Some(next);
      if previous.None? || previous == Some(next) {
        return;
      }
      ClearAuthorizedConsoleFeeds(true, false);
    }

    /** The synchronous part of a load: it ends when the request is on the wire. */
    method LoadCapabilities(context: nat)
      modifies this
      ensures Model() == Start(old(Model()), context)
    {
      InvalidateIfContextChanged(context);
      generation := generation + 1;
      outstanding := outstanding[generation := context];
      inFlight := true;
    }

    method RenegotiateAfterMutationAuthorizationDenied(message: string, context: nat)
      modifies this
      ensures Model() == MutationDenied(old(Model()), message, context)
    {
      revoked := Max(revoked, generation);
      error := Some(message);
      LoadCapabilities(context);
    }

    method ApplyAuthoritativeCapabilityDenial(g: nat, context: nat, message: string)
      modifies this
      ensures Model() == Outcome(old(Model()), g, context, Denied(message))
    {
      if fingerprint != Some(context) || g < applied {
        return;
      }
      if authDenied && g <= revoked {
        return;
      }
      revoked := Max(revoked, generation);
      ClearAuthorizedConsoleFeeds(true, true);
      error := Some(message);
      shown := None;
      ready := true;
    }

    /** Claims the failure watermark, unless something newer already owns the console. */
    method ClaimFailure(g: nat, context: nat) returns (claimed: bool)
      modifies this
      ensures claimed == FailureApplies(old(Model()), g, context)
      ensures Model() == if claimed then old(Model()).(failed := Max(old(failed), g)) else old(Model())
    {
      if fingerprint != Some(context) || g < applied || g < failed || g <= revoked || authDenied {
        return false;
      }
      failed := Max(failed, g);
      return true;
    }

    /** An outage keeps the last negotiation on screen, behind its error. */
    method ApplyTransientCapabilityOutage(g: nat, context: nat, message: string)
      modifies this
      ensures Model() == Outcome(old(Model()), g, context, Outage(message))
    {
      var claimed := ClaimFailure(g, context);
      if claimed {
        error := Some(message);
        ready := true;
        if retained.None? {
          shown := None;
        }
      }
    }

    method ApplyMissingCapabilityContract(g: nat, context: nat, answer: Answer)
      requires answer.NotFound? || answer.Malformed?
      modifies this
      ensures Model() == Outcome(old(Model()), g, context, answer)
    {
      var claimed := ClaimFailure(g, context);
      if !claimed {
        return;
      }
      if answer.Malformed? && identity.Some? && answer.trusted != identity {
        ClearAuthorizedConsoleFeeds(true, false);
      } else {
        ClearCapabilityGatedInventories();
      }
      error := Some(answer.message);
      ready := true;
    }

    method Retain(next: Inventory, key: nat)
      modifies this`retained, this`identity, this`shown
      ensures Model() == old(Model()).(retained := Some(next), identity := Some(key), shown := Some(next))
    {
      retained := Some(next);
      identity := Some(key);
      shown := Some(next);
    }

    method RecordNegotiation(g: nat, context: nat)
      modifies this`authDenied, this`applied, this`appliedContext, this`error, this`ready
      ensures Model() == old(Model()).(
        authDenied := false, applied := Max(old(applied), g), appliedContext := Some(context), error := None, ready := true)
    {
      authDenied := false;
      applied := Max(applied, g);
      appliedContext := Some(context);
      error := None;
      ready := true;
    }

    method ApplyNegotiation(g: nat, context: nat, payload: Inventory)
      modifies this
      ensures Model() == Outcome(old(Model()), g, context, Valid(payload))
    {
      if g != generation || g <= revoked || g < applied || g < failed {
        return;
      }
      var next := if retained.Some? && SameNegotiation(retained.value, payload) then retained.value else payload;
      if identity.Some? && identity.value != payload.identity {
        ClearAuthorizedConsoleFeeds(false, false);
      }
      RecordNegotiation(g, context);
      Retain(next, payload.identity);
    }

    /** The part of a load after its request is answered. */
    method CapabilitiesAnswered(g: nat, answer: Answer)
      requires g in outstanding
      modifies this
      ensures Model() == Settle(old(Model()), g, answer)
    {
      var context := outstanding[g];
      outstanding := outstanding - {g};
      match answer {
        case Denied(message) => ApplyAuthoritativeCapabilityDenial(g, context, message);
        case Outage(message) => ApplyTransientCapabilityOutage(g, context, message);
        case NotFound(_) => ApplyMissingCapabilityContract(g, context, answer);
        case Malformed(_, _) => ApplyMissingCapabilityContract(g, context, answer);
        case Valid(payload) => ApplyNegotiation(g, context, payload);
      }
      if g == generation {
        inFlight := false;
      }
    }
  }

  /** One mounted instance of the chained poll over a negotiator. */
  class PeriodicLoad {
    const feed: Negotiator
    var cancelled: bool
    var timer: nat
    var timers: set<nat>
    var nextTimer: nat
    var chained: set<nat>

    ghost function Model(): Console
      reads this, feed
    {
      Console(feed.Model(), cancelled, timer, timers, nextTimer, chained)
    }

    /** What every event keeps: the negotiation is sound and the poll is one chain. */
    ghost predicate Valid()
      reads this, feed
    {
      Inv(Model())
    }

    constructor (n: Negotiator, context: nat)
      requires n.Model() == UNNEGOTIATED
      modifies n
      ensures feed == n && Model() == Mounted(context) && Valid()
    {
      feed := n;
      cancelled, timer, timers, nextTimer, chained := false, 0, {}, 1, {};
      new;
      StartLoad(context);
    }

    method ScheduleNextTick()
      modifies this
      ensures Model() == ScheduleNext(old(Model()))
    {
      timers := timers - {timer};
      timer := nextTimer;
      timers := timers + {timer};
      nextTimer := nextTimer + 1;
    }

    method StartLoad(context: nat)
      modifies this, feed
      ensures Model() == PollStart(old(Model()), context)
    {
      feed.LoadCapabilities(context);
      chained := chained + {feed.generation};
    }

    /** The request settles; a load of this instance then arms the next tick. */
    method OnSettled(g: nat, answer: Answer)
      requires g in feed.outstanding
      modifies this, feed
      ensures Model() == Step(old(Model()), Settles(g, answer))
    {
      feed.CapabilitiesAnswered(g, answer);
      var mine := g in chained;
      chained := chained - {g};
      if mine && !cancelled {
        ScheduleNextTick();
      }
    }

    method OnTimer(id: nat, context: nat)
      requires id in timers
      modifies this, feed
      ensures Model() == Step(old(Model()), TimerFires(id, context))
    {
      timers := timers - {id};
      if cancelled {
        return;
      }
      if feed.inFlight {
        ScheduleNextTick();
        return;
      }
      StartLoad(context);
    }

    method Cleanup()
      modifies this
      ensures Model() == Step(old(Model()), Unmount)
    {
      cancelled := true;
      timers := timers - {timer};
    }

    method Dispatch(ev: Event)
      requires Enabled(Model(), ev)
      modifies this, feed
      ensures Model() == Step(old(Model()), ev)
    {
      match ev {
        case Refresh(context) => feed.LoadCapabilities(context);
        case Mutation(message, context) => feed.RenegotiateAfterMutationAuthorizationDenied(message, context);
        case Settles(g, answer) => OnSettled(g, answer);
        case TimerFires(id, context) => OnTimer(id, context);
        case Unmount => Cleanup();
      }
    }

    /**
     * Every event makes the transition of the state machine. Whatever the events,
     * an inventory shown without error is of the current context and newer than
     * every refusal, and a mounted poll is exactly one timer or one request.
     */
    method Handle(ev: Event)
      requires Valid() && Enabled(Model(), ev)
      modifies this, feed
      ensures Model() == Step(old(Model()), ev) && Valid()
      ensures feed.shown.Some? && feed.error.None? ==>
        feed.applied > feed.revoked && feed.applied > feed.failed && feed.appliedContext == feed.fingerprint
      ensures !cancelled ==> |timers| + |chained| == 1
    {
      StepKeepsInv(Model(), ev);
      Dispatch(ev);
    }
  }
}
