/**
 * Capability negotiation: one chain of overlapping requests decides whether the
 * console may enable mutating controls. Each request ends in a denial, an
 * outage, a missing or malformed contract, or a valid payload; a mutation route
 * may report a denial out of band; and the page may move to another context.
 */
module Capabilities {
  import opened Basics

  /** A negotiated payload; polls that differ only in `generatedAt` are the same negotiation. */
  datatype Inventory = Inventory(identity: nat, controls: int, generatedAt: int)

  datatype Answer =
    | Denied(message: string)                                // 401 or 403
    | Outage(message: string)                                // network failure or another status
    | NotFound(message: string)                              // 404
    | Malformed(trusted: Option<nat>, message: string)       // a 200 that does not parse
    | Valid(payload: Inventory)

  datatype Negotiation = Negotiation(
    generation: nat, applied: nat, failed: nat, revoked: nat,
    outstanding: map<nat, nat>,                              // request -> context it was issued under
    inFlight: bool, authDenied: bool, fingerprint: Option<nat>,
    retained: Option<Inventory>, identity: Option<nat>, appliedContext: Option<nat>,
    shown: Option<Inventory>, error: Option<string>, ready: bool, feedEpoch: nat)

  const UNNEGOTIATED := Negotiation(0, 0, 0, 0, map[], false, false, None, None, None, None, None, None, false, 0)

  /** The inventory behind mutating controls; an empty error text counts as no error. */
  function MutatingControls(n: Negotiation): Option<Inventory>
  {
    if n.error.Some? && n.error.value != "" then None else n.shown
  }

  // ---------------------------------------------------------------- clears

  function ClearAuthorized(n: Negotiation, clearCapabilities: bool, authDenied: bool): Negotiation
  {
    var n := n.(feedEpoch := n.feedEpoch + 1, authDenied := authDenied, error := if authDenied then n.error else None);
    if clearCapabilities then n.(retained := None, identity := None, shown := None) else n
  }

  function ClearGated(n: Negotiation): Negotiation { n.(retained := None, shown := None) }

  function EnterContext(n: Negotiation, context: nat): Negotiation
  {
    var moved := n.fingerprint.Some? && n.fingerprint.value != context;
    var n := n.(fingerprint := Some(context));
    if moved then ClearAuthorized(n, true, false) else n
  }

  // ---------------------------------------------------------------- one request

  function Start(n: Negotiation, context: nat): Negotiation
  {
    var n := EnterContext(n, context);
    var g := n.generation + 1;
    n.(generation := g, outstanding := n.outstanding[g := context], inFlight := true)
  }

  predicate DenialApplies(n: Negotiation, g: nat, context: nat)
  {
    && n.fingerprint == Some(context)
    && n.applied <= g
    && !(n.authDenied && g <= n.revoked)
  }

  function Deny(n: Negotiation, message: string): Negotiation
  {
    ClearAuthorized(n.(revoked := Max(n.revoked, n.generation)), true, true).(error := Some(message), ready := true)
  }

  /** Outages and missing contracts yield to anything newer and to every denial. */
  predicate FailureApplies(n: Negotiation, g: nat, context: nat)
  {
    && n.fingerprint == Some(context)
    && n.applied <= g && n.failed <= g
    && n.revoked < g && !n.authDenied
  }

  function Fail(n: Negotiation, g: nat, message: string): Negotiation
  {
    n.(failed := Max(n.failed, g), error := Some(message), ready := true)
  }

  /** An outage keeps the last negotiation on screen, if there is one. */
  function KeepLastGood(n: Negotiation): Negotiation { if n.retained.None? then n.(shown := None) else n }

  /** A malformed payload keeps navigation only for the identity it still proves. */
  function ClearMalformed(n: Negotiation, trusted: Option<nat>): Negotiation
  {
    if n.identity.Some? && trusted != n.identity then ClearAuthorized(n, true, false) else ClearGated(n)
  }

  predicate SuccessApplies(n: Negotiation, g: nat)
  {
    g == n.generation && n.revoked < g && n.applied <= g && n.failed <= g
  }

  predicate SameNegotiation(a: Inventory, b: Inventory) { a.identity == b.identity && a.controls == b.controls }

  function Negotiated(n: Negotiation, g: nat, context: nat, payload: Inventory): Negotiation
  {
    var next := if n.retained.Some? && SameNegotiation(n.retained.value, payload) then n.retained.value else payload;
    var n := if n.identity.Some? && n.identity.value != payload.identity then ClearAuthorized(n, false, false) else n;
    n.(authDenied := false, applied := g, retained := Some(next), identity := Some(payload.identity),
       appliedContext := Some(context), shown := Some(next), error := None, ready := true)
  }

  function Outcome(n: Negotiation, g: nat, context: nat, a: Answer): Negotiation
  {
    match a
    case Denied(message) => if DenialApplies(n, g, context) then Deny(n, message) else n
    case Outage(message) => if FailureApplies(n, g, context) then Fail(KeepLastGood(n), g, message) else n
    case NotFound(message) => if FailureApplies(n, g, context) then Fail(ClearGated(n), g, message) else n
    case Malformed(trusted, message) =>
      if FailureApplies(n, g, context) then Fail(ClearMalformed(n, trusted), g, message) else n
    case Valid(payload) => if SuccessApplies(n, g) then Negotiated(n, g, context, payload) else n
  }

  function Settle(n: Negotiation, g: nat, a: Answer): Negotiation
    requires g in n.outstanding
  {
    var r := Outcome(n.(outstanding := n.outstanding - {g}), g, n.outstanding[g], a);
    if g == r.generation then r.(inFlight := false) else r
  }

  /** A mutation route saw 401/403: close the gate, then negotiate again. */
  function MutationDenied(n: Negotiation, message: string, context: nat): Negotiation
  {
    Start(n.(revoked := Max(n.revoked, n.generation), error := Some(message)), context)
  }

  // ---------------------------------------------------------------- the serialized poller

  /** One mounted instance of the chained poll around the negotiation. */
  datatype Console = Console(
    n: Negotiation, cancelled: bool, timer: nat, timers: set<nat>, nextTimer: nat, chained: set<nat>)

  datatype Event =
    | Refresh(context: nat)                        // explicit refresh, or a context switch
    | Mutation(message: string, context: nat)
    | Settles(request: nat, answer: Answer)
    | TimerFires(id: nat, context: nat)
    | Unmount

  function ScheduleNext(c: Console): Console
  {
    c.(timer := c.nextTimer, timers := c.timers - {c.timer} + {c.nextTimer}, nextTimer := c.nextTimer + 1)
  }

  function PollStart(c: Console, context: nat): Console
  {
    var n := Start(c.n, context);
    c.(n := n, chained := c.chained + {n.generation})
  }

  predicate Enabled(c: Console, ev: Event)
  {
    match ev
    case Settles(g, _) => g in c.n.outstanding
    case TimerFires(id, _) => id in c.timers
    case _ => true
  }

  function Step(c: Console, ev: Event): Console
    requires Enabled(c, ev)
  {
    match ev
    case Refresh(context) => c.(n := Start(c.n, context))
    case Mutation(message, context) => c.(n := MutationDenied(c.n, message, context))
    case Settles(g, a) =>
      var d := c.(n := Settle(c.n, g, a), chained := c.chained - {g});
      if g in c.chained && !c.cancelled then ScheduleNext(d) else d
    case TimerFires(id, context) =>
      var d := c.(timers := c.timers - {id});
      if c.cancelled then d else if c.n.inFlight then ScheduleNext(d) else PollStart(d, context)
    case Unmount => c.(cancelled := true, timers := c.timers - {c.timer})
  }

  function Mounted(context: nat): Console
  {
    PollStart(Console(UNNEGOTIATED, false, 0, {}, 1, {}), context)
  }

  predicate Run(c: Console, evs: seq<Event>)
    decreases |evs|
  {
    evs == [] || (Enabled(c, evs[0]) && Run(Step(c, evs[0]), evs[1..]))
  }

  function Exec(c: Console, evs: seq<Event>): Console
    requires Run(c, evs)
    decreases |evs|
  {
    if evs == [] then c else Exec(Step(c, evs[0]), evs[1..])
  }

  // ---------------------------------------------------------------- invariant

  /** The applied negotiation is newer than every denial and every failure. */
  predicate Owns(n: Negotiation) { n.applied > n.revoked && n.applied > n.failed }

  predicate Requests(n: Negotiation)
  {
    && n.applied <= n.generation && n.failed <= n.generation && n.revoked <= n.generation
    && (forall g <- n.outstanding :: 1 <= g <= n.generation && g != n.applied && g != n.failed)
    && (n.generation in n.outstanding ==> n.fingerprint == Some(n.outstanding[n.generation]))
    && (n.inFlight <==> n.generation in n.outstanding)
  }

  predicate Gate(n: Negotiation)
  {
    && n.shown == n.retained
    && (n.authDenied ==> n.shown.None?)
    && (n.shown.Some? ==>
          n.fingerprint.Some? && n.appliedContext == n.fingerprint && (n.error.None? <==> Owns(n)))
  }

  predicate Sound(n: Negotiation) { Requests(n) && Gate(n) }

  predicate OneChain(c: Console)
  {
    && c.timers <= {c.timer} && c.timer < c.nextTimer
    && c.chained <= c.n.outstanding.Keys
    && (c.cancelled ==> c.timers == {})
    && |c.timers| + |c.chained| <= 1
    && (!c.cancelled ==> |c.timers| + |c.chained| == 1)
  }

  predicate Inv(c: Console) { Sound(c.n) && OneChain(c) }

  lemma StartSound(n: Negotiation, context: nat)
    requires Sound(n)
    ensures Sound(Start(n, context))
  {
  }

  /** What an answer may touch: the watermarks only by its own spent generation. */
  lemma OutcomeRequests(n: Negotiation, g: nat, context: nat, a: Answer)
    ensures var r := Outcome(n, g, context, a);
      && r.generation == n.generation && r.outstanding == n.outstanding
      && r.fingerprint == n.fingerprint && r.inFlight == n.inFlight
      && (r.applied == n.applied || r.applied == g)
      && (r.failed == n.failed || r.failed == g)
      && (r.revoked == n.revoked || r.revoked == Max(n.revoked, n.generation))
  {
  }

  lemma OutcomeGate(n: Negotiation, g: nat, context: nat, a: Answer)
    requires Gate(n) && 1 <= g && g != n.applied && g != n.failed
    requires g == n.generation ==> n.fingerprint == Some(context)
    ensures Gate(Outcome(n, g, context, a))
  {
  }

  lemma SettleSound(n: Negotiation, g: nat, a: Answer)
    requires Sound(n) && g in n.outstanding
    ensures Sound(Settle(n, g, a))
  {
    var n0 := n.(outstanding := n.outstanding - {g});
    OutcomeRequests(n0, g, n.outstanding[g], a);
    OutcomeGate(n0, g, n.outstanding[g], a);
  }

  lemma MutationSound(n: Negotiation, message: string, context: nat)
    requires Sound(n)
    ensures Sound(MutationDenied(n, message, context))
  {
    StartSound(n.(revoked := Max(n.revoked, n.generation), error := Some(message)), context);
  }

  lemma StepKeepsSound(c: Console, ev: Event)
    requires Sound(c.n) && Enabled(c, ev)
    ensures Sound(Step(c, ev).n)
  {
    match ev
    case Refresh(context) => StartSound(c.n, context);
    case Mutation(message, context) => MutationSound(c.n, message, context);
    case Settles(g, a) => SettleSound(c.n, g, a);
    case TimerFires(id, context) => StartSound(c.n, context);
    case Unmount =>
  }

  lemma AtMostOne(s: set<nat>, x: nat)
    requires |s| <= 1 && x in s
    ensures s == {x}
  {
    if y :| y in s && y != x { assert {x, y} <= s; assert |{x, y}| == 2; SubsetSize({x, y}, s); }
  }

  lemma SettleKeepsRequests(n: Negotiation, g: nat, a: Answer)
    requires g in n.outstanding
    ensures Settle(n, g, a).outstanding == n.outstanding - {g}
  {
    OutcomeRequests(n.(outstanding := n.outstanding - {g}), g, n.outstanding[g], a);
  }

  lemma SettlesKeepsChain(c: Console, g: nat, a: Answer)
    requires OneChain(c) && g in c.n.outstanding
    ensures OneChain(Step(c, Settles(g, a)))
  {
    SettleKeepsRequests(c.n, g, a);
    if g in c.chained { AtMostOne(c.chained, g); }
  }

  lemma TimerKeepsChain(c: Console, id: nat, context: nat)
    requires OneChain(c) && id in c.timers
    ensures OneChain(Step(c, TimerFires(id, context)))
  {
    AtMostOne(c.timers, id);
    assert c.timers - {id} == {};
  }

  lemma StepKeepsChain(c: Console, ev: Event)
    requires OneChain(c) && Enabled(c, ev)
    ensures OneChain(Step(c, ev))
  {
    match ev
    case Settles(g, a) => SettlesKeepsChain(c, g, a);
    case TimerFires(id, context) => TimerKeepsChain(c, id, context);
    case Unmount => assert c.timers - {c.timer} == {};
    case _ =>
  }

  lemma StepKeepsInv(c: Console, ev: Event)
    requires Inv(c) && Enabled(c, ev)
    ensures Inv(Step(c, ev))
  {
    StepKeepsSound(c, ev);
    StepKeepsChain(c, ev);
  }

  lemma {:induction false} RunKeepsInv(c: Console, evs: seq<Event>)
    requires Inv(c) && Run(c, evs)
    ensures Inv(Exec(c, evs))
    decreases |evs|
  {
    if evs != [] {
      StepKeepsInv(c, evs[0]);
      RunKeepsInv(Step(c, evs[0]), evs[1..]);
    }
  }
}
