/**
 A user's subscription: subscribing, cancelling, and reconciling with Stripe events
 that arrive late, twice and in any order.
 */
module Subscriptions {
  import opened Prelude

  datatype Status = Active | Cancelled

  datatype Tier = AVOD | SVOD | TVOD

  function Price(t: Tier): nat {
    if t == SVOD then 799 else 0
  }

  /** The columns of a subscription row; prices in cents, times in seconds. */
  datatype Account = Account(
    tier: Tier, price: nat, status: Status, isActive: bool,
    lastEvent: Option<int>, cancelledAt: Option<int>, renewalDate: Option<int>)

  /** `is_active` mirrors the status. */
  predicate Coherent(a: Account) {
    a.isActive <==> a.status == Active
  }

  /** The price is that of the tier, and a cancelled subscription is on the free one. */
  predicate Priced(a: Account) {
    && a.price == (if a.tier == SVOD then 799 else 0)
    && (a.status == Cancelled ==> a.tier == AVOD)
  }

  datatype StripeEvent = StripeEvent(status: string, created: int)

  /** The status a Stripe status maps to; None when it is not recognised. */
  function Target(stripeStatus: string): Option<Status> {
    if stripeStatus == "active" then Some(Active)
    else if stripeStatus in {"canceled", "unpaid", "incomplete_expired"} then Some(Cancelled)
    else None
  }

  predicate Stale(a: Account, e: StripeEvent) {
    a.lastEvent.Some? && e.created < a.lastEvent.value
  }

  /** The row after one event. */
  function Synced(a: Account, e: StripeEvent, now: int): Account {
    var target := Target(e.status);
    if Stale(a, e) || target.None? then a
    else if a.status == target.value then a.(lastEvent := Some(e.created))
    else if target.value == Active then a.(status := Active, isActive := true, lastEvent := Some(e.created))
    else Account(AVOD, 0, Cancelled, false, Some(e.created), Some(now), a.renewalDate)
  }

  class Subscription {
    var tier: Tier
    var price: nat
    var status: Status
    var isActive: bool
    var lastEvent: Option<int>
    var cancelledAt: Option<int>
    var renewalDate: Option<int>

    function View(): Account
      reads this
    {
      Account(tier, price, status, isActive, lastEvent, cancelledAt, renewalDate)
    }

    constructor (t: Tier)
      ensures View() == Account(t, if t == SVOD then 799 else 0, Active, true, None, None, None)
      ensures Coherent(View()) && Priced(View())
    {
      tier, price, status, isActive := t, Price(t), Active, true;
      lastEvent, cancelledAt, renewalDate := None, None, None;
    }

    method SyncFromStripe(e: StripeEvent, now: int)
      modifies this
      ensures View() == Synced(old(View()), e, now)
      ensures old(Coherent(View())) ==> Coherent(View())
      ensures old(Priced(View())) ==> Priced(View())
      // Older events and unknown statuses change nothing.
      ensures old(lastEvent).Some? && e.created < old(lastEvent).value ==> View() == old(View())
      ensures e.status !in {"active", "canceled", "unpaid", "incomplete_expired"} ==> View() == old(View())
      // Any other sets the time and the status, and only a change to cancelled touches the tier.
      ensures (old(lastEvent).None? || e.created >= old(lastEvent).value) && e.status == "active" ==>
                View() == old(View()).(status := Active, lastEvent := Some(e.created),
                                       isActive := old(isActive) || old(status) == Cancelled)
      ensures (old(lastEvent).None? || e.created >= old(lastEvent).value)
                && e.status in {"canceled", "unpaid", "incomplete_expired"} ==>
                View() == if old(status) == Cancelled then old(View()).(lastEvent := Some(e.created))
                          else Account(AVOD, 0, Cancelled, false, Some(e.created), Some(now), old(renewalDate))
    {
      if lastEvent.Some? && e.created < lastEvent.value {
        return;
      }
      var target: Option<Status> := None;
      if e.status == "active" {
        target := Some(Active);
      } else if e.status in {"canceled", "unpaid", "incomplete_expired"} {
        target := Some(Cancelled);
      }
      if target.None? {
        return;
      }
      if status != target.value {
        status := target.value;
        isActive := target.value == Active;
        if target.value == Cancelled {
          cancelledAt := Some(now);
          tier := AVOD;
          price := 0;
        }
      }
      lastEvent := Some(e.created);
    }

    /** The same tier is a no-op, even on a cancelled subscription; another tier activates it. */
    method Subscribe(t: Tier, now: int)
      modifies this
      ensures View() == if old(tier) == t then old(View())
                        else Account(t, if t == SVOD then 799 else 0, Active, true, old(lastEvent), None, Some(now))
      ensures old(Coherent(View())) ==> Coherent(View())
      ensures old(Priced(View())) ==> Priced(View())
    {
      if tier == t {
        return;
      }
      tier := t;
      price := Price(t);
      status := Active;
      isActive := true;
      cancelledAt := None;
      renewalDate := Some(now);
    }

    method Cancel(now: int)
      modifies this
      ensures View() == if old(status) == Cancelled then old(View())
                        else Account(AVOD, 0, Cancelled, false, old(lastEvent), Some(now), old(renewalDate))
      ensures old(Coherent(View())) ==> Coherent(View())
      ensures old(Priced(View())) ==> Priced(View())
    {
      if status == Cancelled {
        return;
      }
      tier := AVOD;
      price := 0;
      cancelledAt := Some(now);
      isActive := false;
      status := Cancelled;
    }
  }

  // ---- Many deliveries ----------------------------------------------------------

  /** One delivery of an event; the same event may be delivered again. */
  datatype Delivery = Delivery(event: StripeEvent, now: int)

  function Deliver(a: Account, ds: seq<Delivery>): Account {
    if ds == [] then a
    else Synced(Deliver(a, ds[..|ds| - 1]), ds[|ds| - 1].event, ds[|ds| - 1].now)
  }

  /** The columns that must converge. */
  function Core(a: Account): (Status, bool, Option<int>) {
    (a.status, a.isActive, a.lastEvent)
  }

  /** The recognised events that the sequence delivers and that are not older than the row. */
  function Relevant(a: Account, ds: seq<Delivery>): set<StripeEvent> {
    set d <- ds | Target(d.event.status).Some? && !Stale(a, d.event) :: d.event
  }

  /** Both sequences deliver the same events, in whatever order and however often. */
  ghost predicate SameEvents(ds: seq<Delivery>, es: seq<Delivery>) {
    (set d <- ds :: d.event) == (set d <- es :: d.event)
  }

  /** e has the greatest timestamp, and nothing contradicts it. */
  ghost predicate Wins(events: set<StripeEvent>, e: StripeEvent) {
    && e in events
    && (forall f :: f in events ==> f.created <= e.created)
    && (forall f :: f in events && f.created == e.created ==> Target(f.status) == Target(e.status))
  }

  lemma {:induction false} DeliverFacts(a: Account, ds: seq<Delivery>)
    ensures Relevant(a, ds) == {} ==> Deliver(a, ds) == a
    ensures Coherent(a) ==> Coherent(Deliver(a, ds))
    ensures Priced(a) ==> Priced(Deliver(a, ds))
    ensures Relevant(a, ds) != {} ==>
              && Deliver(a, ds).lastEvent.Some?
              && (forall f :: f in Relevant(a, ds) ==> f.created <= Deliver(a, ds).lastEvent.value)
              && (exists f :: f in Relevant(a, ds) && f.created == Deliver(a, ds).lastEvent.value
                              && Target(f.status) == Some(Deliver(a, ds).status))
  {
    if ds != [] {
      var init, last := ds[..|ds| - 1], ds[|ds| - 1];
      DeliverFacts(a, init);
      var now := if Target(last.event.status).Some? && !Stale(a, last.event) then {last.event} else {};
      assert Relevant(a, ds) == Relevant(a, init) + now by {
        assert ds == init + [last];
      }
      if now != {} {
        assert last.event in Relevant(a, ds);
      }
    }
  }

  /** The event with the greatest timestamp decides, whatever the order and the repetitions. */
  lemma GreatestTimestampWins(a: Account, ds: seq<Delivery>, e: StripeEvent)
    requires Coherent(a) && Wins(Relevant(a, ds), e)
    ensures Core(Deliver(a, ds)) == (Target(e.status).value, Target(e.status) == Some(Active), Some(e.created))
  {
    DeliverFacts(a, ds);
  }

  /** Recognised, and no older than what the row has seen. */
  predicate Fresh(a: Account, e: StripeEvent) {
    && e.status in {"active", "canceled", "unpaid", "incomplete_expired"}
    && (a.lastEvent.None? || a.lastEvent.value <= e.created)
  }

  /** The statuses agree on whether the subscription is active. */
  predicate SameSide(e: StripeEvent, f: StripeEvent) {
    e.status == "active" <==> f.status == "active"
  }

  /**
   The same in terms of Stripe's own statuses: the latest delivered event decides, unless one of the same
   second says otherwise.
   */
  lemma LatestEventDecides(a: Account, ds: seq<Delivery>, d: Delivery)
    requires Coherent(a) && d in ds && Fresh(a, d.event)
    requires forall c :: c in ds && Fresh(a, c.event) ==>
               c.event.created <= d.event.created && (c.event.created == d.event.created ==> SameSide(c.event, d.event))
    ensures var b := Deliver(a, ds);
            && b.status == (if d.event.status == "active" then Active else Cancelled)
            && b.isActive == (d.event.status == "active") && b.lastEvent == Some(d.event.created)
            && (Priced(a) && d.event.status != "active" ==> b.tier == AVOD && b.price == 0)
  {
    assert forall c :: c in ds ==> (Fresh(a, c.event) <==> c.event in Relevant(a, ds));
    GreatestTimestampWins(a, ds, d.event);
    DeliverFacts(a, ds);
  }

  lemma {:induction false} Greatest(events: set<StripeEvent>) returns (e: StripeEvent)
    requires events != {}
    ensures e in events && forall f :: f in events ==> f.created <= e.created
  {
    e :| e in events;
    if events != {e} {
      assert events == (events - {e}) + {e};
      var g := Greatest(events - {e});
      if g.created > e.created {
        e := g;
      }
    }
  }

  lemma SameEventsSameRelevant(a: Account, ds: seq<Delivery>, es: seq<Delivery>)
    requires SameEvents(ds, es)
    ensures Relevant(a, ds) == Relevant(a, es)
  {
    var events := set d <- ds :: d.event;
    assert Relevant(a, ds) == set e | e in events && Target(e.status).Some? && !Stale(a, e);
    assert Relevant(a, es) == set e | e in (set d <- es :: d.event) && Target(e.status).Some? && !Stale(a, e);
  }

  /** The events with the greatest timestamp agree on the status. */
  ghost predicate TopAgrees(events: set<StripeEvent>) {
    forall e, f :: e in events && f in events && e.created == f.created
                   && (forall g :: g in events ==> g.created <= e.created)
                   ==> Target(e.status) == Target(f.status)
  }

  lemma AgreementConverges(a: Account, ds: seq<Delivery>, es: seq<Delivery>)
    requires Coherent(a) && SameEvents(ds, es) && TopAgrees(Relevant(a, ds))
    ensures Core(Deliver(a, ds)) == Core(Deliver(a, es))
  {
    SameEventsSameRelevant(a, ds, es);
    DeliverFacts(a, ds);
    DeliverFacts(a, es);
    if Relevant(a, ds) != {} {
      var e := Greatest(Relevant(a, ds));
      GreatestTimestampWins(a, ds, e);
      GreatestTimestampWins(a, es, e);
    }
  }

  /** With pairwise distinct timestamps every delivery order converges. */
  lemma DistinctTimesConverge(a: Account, ds: seq<Delivery>, es: seq<Delivery>)
    requires Coherent(a) && SameEvents(ds, es)
    requires forall e, f :: e in Relevant(a, ds) && f in Relevant(a, ds) && e.created == f.created ==> e == f
    ensures Core(Deliver(a, ds)) == Core(Deliver(a, es))
  {
    AgreementConverges(a, ds, es);
  }

  /** One more delivery of an event with the greatest timestamp leaves its status in force. */
  lemma RedeliveryDecides(a: Account, ds: seq<Delivery>, e: StripeEvent)
    requires e in Relevant(a, ds) && forall g :: g in Relevant(a, ds) ==> g.created <= e.created
    ensures var es := ds + [Delivery(e, 0)];
            SameEvents(ds, es) && Target(e.status) == Some(Deliver(a, es).status)
  {
    var es := ds + [Delivery(e, 0)];
    assert es[..|es| - 1] == ds;
    DeliverFacts(a, ds);
    assert forall d :: d in es <==> d in ds || d == Delivery(e, 0);
    assert (set d <- es :: d.event) == (set d <- ds :: d.event) by {
      assert e in (set d <- ds :: d.event);
    }
  }

  lemma DisagreementDiverges(a: Account, ds: seq<Delivery>)
    requires !TopAgrees(Relevant(a, ds))
    ensures exists es :: SameEvents(ds, es) && Core(Deliver(a, es)) != Core(Deliver(a, ds))
  {
    var events := Relevant(a, ds);
    var e, f :| e in events && f in events && e.created == f.created
                && (forall g :: g in events ==> g.created <= e.created) && Target(e.status) != Target(f.status);
    RedeliveryDecides(a, ds, e);
    RedeliveryDecides(a, ds, f);
    var byE, byF := ds + [Delivery(e, 0)], ds + [Delivery(f, 0)];
    var es := if Core(Deliver(a, byE)) != Core(Deliver(a, ds)) then byE else byF;
    assert SameEvents(ds, es) && Core(Deliver(a, es)) != Core(Deliver(a, ds));
  }

  /** Exactly when does the order not matter?  Distinct timestamps are more than enough. */
  lemma OrderIsIrrelevantExactly(a: Account, ds: seq<Delivery>)
    requires Coherent(a)
    ensures (forall es :: SameEvents(ds, es) ==> Core(Deliver(a, es)) == Core(Deliver(a, ds)))
            <==> TopAgrees(Relevant(a, ds))
  {
    if TopAgrees(Relevant(a, ds)) {
      forall es | SameEvents(ds, es) ensures Core(Deliver(a, es)) == Core(Deliver(a, ds)) {
        AgreementConverges(a, ds, es);
      }
    } else {
      DisagreementDiverges(a, ds);
    }
  }
}
