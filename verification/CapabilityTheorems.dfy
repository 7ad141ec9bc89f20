/**
 * Theorems over whole runs of the negotiation: what enabled mutating controls
 * prove, what a refusal still costs a later success, how recovery works inside a
 * denial window, and that polling neither overlaps nor dies.
 */
module CapabilityTheorems {
  import opened Basics
  import opened Capabilities

  lemma MountedInv(context: nat)
    ensures Inv(Mounted(context))
  {
  }

  lemma ReachedInv(context: nat, evs: seq<Event>)
    requires Run(Mounted(context), evs)
    ensures Inv(Exec(Mounted(context), evs))
  {
    MountedInv(context);
    RunKeepsInv(Mounted(context), evs);
  }

  // ---------------------------------------------------------------- the gate

  /**
   * A negotiated inventory shown without an error comes from a request issued
   * under the current context and newer than every denial, mutation denial,
   * outage and missing contract; and a shown inventory that is not so carries an error.
   */
  lemma ErrorFreeInventoryIsCurrent(context: nat, evs: seq<Event>)
    requires Run(Mounted(context), evs)
    ensures var n := Exec(Mounted(context), evs).n; n.shown.Some? ==>
      && n.appliedContext == n.fingerprint
      && (n.error.None? <==> n.applied > n.revoked && n.applied > n.failed)
  {
    ReachedInv(context, evs);
  }

  /**
   * The gate itself reads the error text for truth, so an empty text opens it.
   * That is the only way it opens for an inventory that is not current.
   */
  lemma GateOpensEarlyOnlyOnEmptyText(context: nat, evs: seq<Event>)
    requires Run(Mounted(context), evs)
    ensures var n := Exec(Mounted(context), evs).n;
      (MutatingControls(n).Some? && !Owns(n)) <==> (n.shown.Some? && n.error == Some(""))
  {
    ReachedInv(context, evs);
  }

  lemma EmptyTextOpensGate(payload: Inventory) returns (evs: seq<Event>)
    ensures Run(Mounted(0), evs)
    ensures var n := Exec(Mounted(0), evs).n; MutatingControls(n) == Some(payload) && n.failed > n.applied
  {
    var c0 := Mounted(0);
    var c1 := Step(c0, Settles(1, Valid(payload)));
    var c2 := Step(c1, Refresh(0));
    evs := After(c2, Settles(2, Outage("")), []);
    evs := After(c1, Refresh(0), evs);
    evs := After(c0, Settles(1, Valid(payload)), evs);
  }

  /** Every HTTP failure carries a text; only a rejected request may carry none. */
  predicate Worded(ev: Event)
  {
    match ev
    case Mutation(message, _) => message != ""
    case Settles(_, Denied(message)) => message != ""
    case Settles(_, NotFound(message)) => message != ""
    case Settles(_, Malformed(_, message)) => message != ""
    case _ => true
  }

  predicate EmptyOutage(ev: Event) { ev.Settles? && ev.answer == Outage("") }

  lemma OutcomeText(n: Negotiation, g: nat, context: nat, a: Answer)
    requires n.error != Some("") && (a.Valid? || a.message != "")
    ensures Outcome(n, g, context, a).error != Some("")
  {
  }

  lemma StepText(c: Console, ev: Event)
    requires Enabled(c, ev) && Worded(ev) && !EmptyOutage(ev) && c.n.error != Some("")
    ensures Step(c, ev).n.error != Some("")
  {
    if ev.Settles? {
      var g := ev.request;
      OutcomeText(c.n.(outstanding := c.n.outstanding - {g}), g, c.n.outstanding[g], ev.answer);
    }
  }

  lemma {:induction false} RunText(c: Console, evs: seq<Event>)
    requires Run(c, evs) && c.n.error != Some("")
    requires forall ev <- evs :: Worded(ev) && !EmptyOutage(ev)
    ensures Exec(c, evs).n.error != Some("")
    decreases |evs|
  {
    if evs != [] {
      assert evs[0] in evs && forall ev <- evs[1..] :: ev in evs;
      StepText(c, evs[0]);
      RunText(Step(c, evs[0]), evs[1..]);
    }
  }

  /**
   * Since every HTTP failure is worded, the gate opens for a stale inventory only
   * in a run where a rejected request settled with an empty text.
   */
  lemma OnlyRejectedRequestOpensGate(context: nat, evs: seq<Event>)
    requires Run(Mounted(context), evs) && forall ev <- evs :: Worded(ev)
    ensures var n := Exec(Mounted(context), evs).n;
      MutatingControls(n).Some? && !Owns(n) ==> exists ev <- evs :: EmptyOutage(ev)
  {
    GateOpensEarlyOnlyOnEmptyText(context, evs);
    if forall ev <- evs :: !EmptyOutage(ev) { RunText(Mounted(context), evs); }
  }

  lemma After(c: Console, ev: Event, rest: seq<Event>) returns (evs: seq<Event>)
    requires Enabled(c, ev) && Run(Step(c, ev), rest)
    ensures Run(c, evs) && Exec(c, evs) == Exec(Step(c, ev), rest)
  {
    evs := [ev] + rest;
    assert evs[1..] == rest;
  }

  /** The newest request a step refuses, when it applies a refusal. */
  function Refused(c: Console, ev: Event): Option<nat>
    requires Enabled(c, ev)
  {
    match ev
    case Mutation(_, _) => Some(c.n.generation)
    case Settles(g, a) =>
      if a.Denied? && DenialApplies(c.n, g, c.n.outstanding[g]) then Some(c.n.generation)
      else if !a.Denied? && !a.Valid? && FailureApplies(c.n, g, c.n.outstanding[g]) then Some(g)
      else None
    case _ => None
  }

  lemma OutcomeGrows(n: Negotiation, g: nat, context: nat, a: Answer)
    ensures var r := Outcome(n, g, context, a);
      && n.revoked <= r.revoked && n.failed <= r.failed && n.applied <= r.applied
      && (a.Denied? && DenialApplies(n, g, context) ==> n.generation <= r.revoked)
      && (!a.Denied? && !a.Valid? && FailureApplies(n, g, context) ==> g <= r.failed)
  {
  }

  /** Watermarks never move back, and a refusal raises one to what it refuses. */
  lemma WatermarksGrow(c: Console, ev: Event)
    requires Enabled(c, ev)
    ensures c.n.revoked <= Step(c, ev).n.revoked && c.n.failed <= Step(c, ev).n.failed
    ensures c.n.applied <= Step(c, ev).n.applied
    ensures Refused(c, ev).Some? ==>
      Refused(c, ev).value <= Step(c, ev).n.revoked || Refused(c, ev).value <= Step(c, ev).n.failed
  {
    if ev.Settles? {
      var g := ev.request;
      OutcomeGrows(c.n.(outstanding := c.n.outstanding - {g}), g, c.n.outstanding[g], ev.answer);
    }
  }

  /**
   * After a refusal, controls are enabled again only by a request newer than the
   * refusal: newer than every request already started, for a denial.
   */
  lemma {:induction false} EnabledOnlyAfterNewerRequest(c: Console, ev: Event, evs: seq<Event>)
    requires Inv(c) && Enabled(c, ev) && Run(Step(c, ev), evs) && Refused(c, ev).Some?
    ensures var n := Exec(Step(c, ev), evs).n;
      n.shown.Some? && n.error.None? ==> n.applied > Refused(c, ev).value
  {
    WatermarksGrow(c, ev);
    StepKeepsInv(c, ev);
    LaterWatermarks(Step(c, ev), evs);
    RunKeepsInv(Step(c, ev), evs);
  }

  lemma {:induction false} LaterWatermarks(c: Console, evs: seq<Event>)
    requires Inv(c) && Run(c, evs)
    ensures c.n.revoked <= Exec(c, evs).n.revoked && c.n.failed <= Exec(c, evs).n.failed
    decreases |evs|
  {
    if evs != [] {
      WatermarksGrow(c, evs[0]);
      StepKeepsInv(c, evs[0]);
      LaterWatermarks(Step(c, evs[0]), evs[1..]);
    }
  }

  // ---------------------------------------------------------------- recovery

  /** From every state, one fresh request answered by a valid payload enables the controls. */
  lemma FreshRequestRecovers(c: Console, context: nat, payload: Inventory)
    requires Inv(c)
    ensures var asked := Step(c, Refresh(context));
      var g := asked.n.generation;
      && Enabled(asked, Settles(g, Valid(payload)))
      && var n := Step(asked, Settles(g, Valid(payload))).n;
         && MutatingControls(n).Some? && SameNegotiation(MutatingControls(n).value, payload)
         && Owns(n) && n.appliedContext == Some(context) && !n.authDenied && !n.inFlight
  {
    var n := Start(c.n, context);
    StartSound(c.n, context);
    ValidAnswerApplies(n.(outstanding := n.outstanding - {n.generation}), n.generation, context, payload);
  }

  lemma ValidAnswerApplies(n: Negotiation, g: nat, context: nat, payload: Inventory)
    requires SuccessApplies(n, g) && n.applied < g && n.failed < g
    ensures var r := Outcome(n, g, context, Valid(payload));
      && r.shown.Some? && SameNegotiation(r.shown.value, payload) && r.error.None? && r.generation == n.generation
      && Owns(r) && r.appliedContext == Some(context) && !r.authDenied
  {
  }

  /** While a denial is latched, a 401/403 from inside its window only settles its request. */
  lemma WindowDenialIsInert(c: Console, g: nat, message: string)
    requires g in c.n.outstanding && c.n.authDenied && g <= c.n.revoked
    ensures Step(c, Settles(g, Denied(message))).n
         == c.n.(outstanding := c.n.outstanding - {g}, inFlight := c.n.inFlight && g != c.n.generation)
  {
  }

  function Denials(gs: seq<nat>, message: string): seq<Event>
  {
    if gs == [] then [] else [Settles(gs[0], Denied(message))] + Denials(gs[1..], message)
  }

  /** A latched console with a fresh request `h` still outstanding beyond the window. */
  predicate Recovering(c: Console, h: nat)
  {
    && Inv(c) && c.n.authDenied && h == c.n.generation && h in c.n.outstanding
    && c.n.revoked < h && c.n.applied < h && c.n.failed < h
  }

  /** Any number of late denials from the window cannot block that request. */
  lemma {:induction false} WindowDenialsCannotBlock(
    c: Console, h: nat, gs: seq<nat>, message: string, payload: Inventory)
    requires Recovering(c, h)
    requires forall i :: 0 <= i < |gs| ==> gs[i] in c.n.outstanding && gs[i] <= c.n.revoked
    requires forall i, j :: 0 <= i < j < |gs| ==> gs[i] != gs[j]
    ensures Run(c, Denials(gs, message)) && Recovering(Exec(c, Denials(gs, message)), h)
    ensures MutatingControls(Step(Exec(c, Denials(gs, message)), Settles(h, Valid(payload))).n).Some?
    decreases |gs|
  {
    if gs != [] {
      var ev := Settles(gs[0], Denied(message));
      WindowDenialIsInert(c, gs[0], message);
      StepKeepsInv(c, ev);
      WindowDenialsCannotBlock(Step(c, ev), h, gs[1..], message, payload);
      assert Denials(gs, message)[1..] == Denials(gs[1..], message);
    }
  }

  // ---------------------------------------------------------------- polling

  /** The in-flight latch is set exactly while the newest request is outstanding. */
  lemma InFlightMeansNewestOutstanding(context: nat, evs: seq<Event>)
    requires Run(Mounted(context), evs)
    ensures var n := Exec(Mounted(context), evs).n; n.inFlight <==> n.generation in n.outstanding
  {
    ReachedInv(context, evs);
  }

  /** So a timer never supersedes it; it waits another period on the same chain. */
  lemma TimerNeverSupersedes(c: Console, id: nat, context: nat)
    requires Inv(c) && id in c.timers && c.n.generation in c.n.outstanding
    ensures Step(c, TimerFires(id, context)).n == c.n
    ensures !c.cancelled ==> |Step(c, TimerFires(id, context)).timers| == 1
  {
    StepKeepsInv(c, TimerFires(id, context));
  }

  /** A mounted poller is always either waiting or awaiting exactly one request of its own. */
  lemma PollChainIsSingle(context: nat, evs: seq<Event>)
    requires Run(Mounted(context), evs)
    ensures var c := Exec(Mounted(context), evs);
      && |c.timers| + |c.chained| <= 1 && c.chained <= c.n.outstanding.Keys
      && (!c.cancelled ==> |c.timers| + |c.chained| == 1)
  {
    ReachedInv(context, evs);
  }

  predicate PollOnly(evs: seq<Event>) { forall ev <- evs :: !ev.Refresh? && !ev.Mutation? }

  lemma PollOnlyStep(c: Console, ev: Event)
    requires c.chained == c.n.outstanding.Keys && Enabled(c, ev) && !ev.Refresh? && !ev.Mutation?
    ensures Step(c, ev).chained == Step(c, ev).n.outstanding.Keys
  {
    if ev.Settles? {
      var g := ev.request;
      OutcomeRequests(c.n.(outstanding := c.n.outstanding - {g}), g, c.n.outstanding[g], ev.answer);
    }
  }

  lemma {:induction false} PollOnlyRequests(c: Console, evs: seq<Event>)
    requires Inv(c) && c.chained == c.n.outstanding.Keys && Run(c, evs) && PollOnly(evs)
    ensures Exec(c, evs).chained == Exec(c, evs).n.outstanding.Keys
    decreases |evs|
  {
    if evs != [] {
      var ev := evs[0];
      StepKeepsInv(c, ev);
      assert ev in evs && forall e <- evs[1..] :: e in evs;
      PollOnlyStep(c, ev);
      PollOnlyRequests(Step(c, ev), evs[1..]);
    }
  }

  /** Left to the poller alone, at most one request is ever outstanding. */
  lemma PollsNeverOverlap(context: nat, evs: seq<Event>)
    requires Run(Mounted(context), evs) && PollOnly(evs)
    ensures |Exec(Mounted(context), evs).n.outstanding| <= 1
  {
    MountedInv(context);
    ReachedInv(context, evs);
    PollOnlyRequests(Mounted(context), evs);
    var n := Exec(Mounted(context), evs).n;
    assert |n.outstanding| == |n.outstanding.Keys|;
  }
}
