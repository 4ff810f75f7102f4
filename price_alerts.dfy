/** The edge-triggered price-alert evaluator (src/hooks/usePriceAlerts.ts).

    The evaluator keeps the previously observed price and the set of alert ids
    that have fired. Each observation first re-arms fired alerts whose
    threshold the price is now above, then fires every enabled, armed alert
    whose threshold was crossed downwards since the previous observation, and
    finally remembers the current price.

    `Step` is the specification of one observation over values; the class
    `AlertEvaluator` performs it in place and is proved to agree with `Step`. */
module PriceAlerts {
  import opened Types

  /** The body of the email request sent for a fired alert. */
  datatype EmailRequest = EmailRequest(email: string, btcPrice: real, threshold: real)

  /** One notification: the alert that fired, the price it fired at, and the
      email request issued for it, if any. */
  datatype AlertEvent = AlertEvent(alert: PriceAlert, price: real, email: Option<EmailRequest>)

  /** The evaluator's state: previous price and the ids that have fired. */
  datatype EvalState = EvalState(prev: Option<real>, fired: set<string>)

  /** The result of a firing pass and of a whole observation. */
  datatype Scan = Scan(fired: set<string>, events: seq<AlertEvent>)
  datatype Outcome = Outcome(state: EvalState, events: seq<AlertEvent>)

  /** A state before any observation. */
  const Initial := EvalState(None, {})

  /** `i` is the first position of `alerts` holding an alert with `id`. */
  ghost predicate IsFirstWith(alerts: seq<PriceAlert>, id: string, i: int)
  {
    0 <= i < |alerts| && alerts[i].id == id && forall j :: 0 <= j < i ==> alerts[j].id != id
  }

  /** `alerts.find(a => a.id === id)`: the first alert with that id. */
  function FindAlert(alerts: seq<PriceAlert>, id: string): (r: Option<PriceAlert>)
    ensures r.None? <==> forall i :: 0 <= i < |alerts| ==> alerts[i].id != id
    ensures r.Some? ==> exists i :: IsFirstWith(alerts, id, i) && alerts[i] == r.value
  {
    if alerts == [] then None
    else if alerts[0].id == id then
      assert IsFirstWith(alerts, id, 0);
      Some(alerts[0])
    else
      var r := FindAlert(alerts[1..], id);
      assert r.Some? ==> exists i :: IsFirstWith(alerts, id, i) && alerts[i] == r.value by {
        if r.Some? {
          var k :| IsFirstWith(alerts[1..], id, k) && alerts[1..][k] == r.value;
          assert IsFirstWith(alerts, id, k + 1);
        }
      }
      r
  }

  /** A fired id is re-armed when an alert with that id is found and the
      price is strictly above its threshold; whether it is enabled is not
      looked at. */
  predicate ShouldReArm(alerts: seq<PriceAlert>, id: string, price: real)
  {
    match FindAlert(alerts, id)
    case Some(a) => price > a.btcThreshold
    case None => false
  }

  /** The fired set after the re-arm step. */
  function ReArmed(fired: set<string>, alerts: seq<PriceAlert>, price: real): (r: set<string>)
    ensures r <= fired
  {
    set id | id in fired && !ShouldReArm(alerts, id, price)
  }

  /** The firing condition for one alert against the current fired set. */
  predicate Crosses(a: PriceAlert, fired: set<string>, prev: Option<real>, price: real)
  {
    a.isEnabled && a.id !in fired && prev.Some? && prev.value > a.btcThreshold && price <= a.btcThreshold
  }

  /** The email request for a fired alert: only when the email is set and non-empty. */
  function EmailFor(email: Option<string>, a: PriceAlert, price: real): (r: Option<EmailRequest>)
    ensures r.Some? <==> email.Some? && email.value != ""
    ensures r.Some? ==> r.value.email == email.value && r.value.btcPrice == price && r.value.threshold == a.btcThreshold
  {
    if email.Some? && email.value != "" then Some(EmailRequest(email.value, price, a.btcThreshold)) else None
  }

  /** The firing pass over `alerts` in list order, starting from `fired0`. */
  function FireScan(alerts: seq<PriceAlert>, fired0: set<string>, prev: Option<real>, price: real, email: Option<string>): Scan
    decreases |alerts|
  {
    if alerts == [] then Scan(fired0, [])
    else
      var s := FireScan(alerts[..|alerts| - 1], fired0, prev, price, email);
      var a := alerts[|alerts| - 1];
      if Crosses(a, s.fired, prev, price) then
        Scan(s.fired + {a.id}, s.events + [AlertEvent(a, price, EmailFor(email, a, price))])
      else
        s
  }

  /** One observation. A missing or zero price changes nothing. */
  function Step(s: EvalState, price: Option<real>, alerts: seq<PriceAlert>, email: Option<string>): Outcome
  {
    if price.None? || price.value == 0.0 then Outcome(s, [])
    else
      var armed := ReArmed(s.fired, alerts, price.value);
      var scan := FireScan(alerts, armed, s.prev, price.value, email);
      Outcome(EvalState(Some(price.value), scan.fired), scan.events)
  }

  /** The ids of a sequence of events, as a set. */
  function EventIds(events: seq<AlertEvent>): set<string>
  {
    set e | e in events :: e.alert.id
  }

  // ---------------------------------------------------------------------------
  // Properties of the firing pass

  /** Every event is for an alert of the list that met the firing condition
      against the starting set, at the current price, with its email request. */
  lemma {:induction false} FireScanSound(alerts: seq<PriceAlert>, fired0: set<string>, prev: Option<real>, price: real, email: Option<string>)
    ensures forall e | e in FireScan(alerts, fired0, prev, price, email).events ::
      && e.alert in alerts
      && Crosses(e.alert, fired0, prev, price)
      && e.price == price
      && e.email == EmailFor(email, e.alert, price)
    ensures FireScan(alerts, fired0, prev, price, email).fired == fired0 + EventIds(FireScan(alerts, fired0, prev, price, email).events)
    decreases |alerts|
  {
    if alerts != [] {
      var init := alerts[..|alerts| - 1];
      FireScanSound(init, fired0, prev, price, email);
      var s := FireScan(init, fired0, prev, price, email);
      var a := alerts[|alerts| - 1];
      if Crosses(a, s.fired, prev, price) {
        var e := AlertEvent(a, price, EmailFor(email, a, price));
        assert EventIds(s.events + [e]) == EventIds(s.events) + {a.id} by {
          assert forall x | x in s.events + [e] :: x in s.events || x == e;
        }
      }
    }
  }

  /** No id is notified twice in one pass, even with duplicate ids in the list. */
  lemma {:induction false} FireScanDistinct(alerts: seq<PriceAlert>, fired0: set<string>, prev: Option<real>, price: real, email: Option<string>)
    ensures var ev := FireScan(alerts, fired0, prev, price, email).events;
      forall i, j | 0 <= i < j < |ev| :: ev[i].alert.id != ev[j].alert.id
    decreases |alerts|
  {
    if alerts != [] {
      var init := alerts[..|alerts| - 1];
      FireScanDistinct(init, fired0, prev, price, email);
      FireScanSound(init, fired0, prev, price, email);
    }
  }

  /** Every enabled alert not in the starting set whose threshold was crossed
      downwards is notified: by itself, or by an earlier alert with the same id. */
  lemma {:induction false} FireScanComplete(alerts: seq<PriceAlert>, fired0: set<string>, prev: Option<real>, price: real, email: Option<string>, k: int)
    requires 0 <= k < |alerts| && Crosses(alerts[k], fired0, prev, price)
    ensures alerts[k].id in EventIds(FireScan(alerts, fired0, prev, price, email).events)
    decreases |alerts|
  {
    var init := alerts[..|alerts| - 1];
    var s := FireScan(init, fired0, prev, price, email);
    FireScanSound(init, fired0, prev, price, email);
    var e := AlertEvent(alerts[|alerts| - 1], price, EmailFor(email, alerts[|alerts| - 1], price));
    if k < |alerts| - 1 {
      FireScanComplete(init, fired0, prev, price, email, k);
      assert init[k] == alerts[k];
      var x :| x in s.events && x.alert.id == alerts[k].id;
      assert x in s.events + [e];
    } else if alerts[k].id in s.fired {
      var x :| x in s.events && x.alert.id == alerts[k].id;
      assert x in s.events + [e];
    } else {
      assert e in s.events + [e];
    }
  }

  /** Without a previous price nothing fires and the set is left as it was. */
  lemma {:induction false} FireScanNoPrevious(alerts: seq<PriceAlert>, fired0: set<string>, price: real, email: Option<string>)
    ensures FireScan(alerts, fired0, None, price, email) == Scan(fired0, [])
    decreases |alerts|
  {
    if alerts != [] {
      FireScanNoPrevious(alerts[..|alerts| - 1], fired0, price, email);
    }
  }

  // ---------------------------------------------------------------------------
  // Properties of one observation

  /** A missing or zero price is a no-op. */
  lemma NoObservationIsNoOp(s: EvalState, price: Option<real>, alerts: seq<PriceAlert>, email: Option<string>)
    requires price.None? || price.value == 0.0
    ensures Step(s, price, alerts, email) == Outcome(s, [])
  {
  }

  /** On the very first observation nothing fires, whatever the thresholds. */
  lemma FirstObservationNeverFires(s: EvalState, price: Option<real>, alerts: seq<PriceAlert>, email: Option<string>)
    requires s.prev.None?
    ensures Step(s, price, alerts, email).events == []
  {
    if !(price.None? || price.value == 0.0) {
      FireScanNoPrevious(alerts, ReArmed(s.fired, alerts, price.value), price.value, email);
    }
  }

  /** After a real observation the previous price is the current one. */
  lemma PreviousPriceAdvances(s: EvalState, price: real, alerts: seq<PriceAlert>, email: Option<string>)
    requires price != 0.0
    ensures Step(s, Some(price), alerts, email).state.prev == Some(price)
  {
  }

  /** The re-arm rule: a fired id is dropped from the set exactly when an
      alert with that id is in the list and the price is strictly above the
      threshold of the first such alert; ids with no alert stay. */
  lemma ReArmExactly(fired: set<string>, alerts: seq<PriceAlert>, price: real, id: string)
    requires id in fired
    ensures id !in ReArmed(fired, alerts, price) <==>
      exists i :: IsFirstWith(alerts, id, i) && price > alerts[i].btcThreshold
    ensures (forall i :: 0 <= i < |alerts| ==> alerts[i].id != id) ==> id in ReArmed(fired, alerts, price)
  {
  }

  /** An event is emitted for an alert only when it is enabled, its id was not
      fired (after re-arming), the previous price was above its threshold and
      the current price is at or below it; the payload carries the threshold
      and the current price. */
  lemma FiresOnlyOnCrossing(s: EvalState, price: real, alerts: seq<PriceAlert>, email: Option<string>)
    requires price != 0.0
    ensures forall e | e in Step(s, Some(price), alerts, email).events ::
      && e.alert in alerts
      && e.alert.isEnabled
      && e.alert.id !in ReArmed(s.fired, alerts, price)
      && s.prev.Some? && s.prev.value > e.alert.btcThreshold
      && price <= e.alert.btcThreshold
      && e.price == price
      && e.email == EmailFor(email, e.alert, price)
  {
    FireScanSound(alerts, ReArmed(s.fired, alerts, price), s.prev, price, email);
  }

  /** Conversely, every alert meeting the firing condition is notified, at
      most one event is emitted per id, and each fired id joins the set. */
  lemma FiresOncePerCrossing(s: EvalState, price: real, alerts: seq<PriceAlert>, email: Option<string>, k: int)
    requires price != 0.0 && 0 <= k < |alerts|
    requires Crosses(alerts[k], ReArmed(s.fired, alerts, price), s.prev, price)
    ensures alerts[k].id in EventIds(Step(s, Some(price), alerts, email).events)
    ensures alerts[k].id in Step(s, Some(price), alerts, email).state.fired
    ensures var ev := Step(s, Some(price), alerts, email).events;
      forall i, j | 0 <= i < j < |ev| :: ev[i].alert.id != ev[j].alert.id
  {
    var armed := ReArmed(s.fired, alerts, price);
    FireScanComplete(alerts, armed, s.prev, price, email, k);
    FireScanSound(alerts, armed, s.prev, price, email);
    FireScanDistinct(alerts, armed, s.prev, price, email);
  }

  /** Edge, not level: an id that stays in the set is not notified again. In
      particular an alert that fired and whose price has not risen above its
      threshold stays fired and silent. */
  lemma FiredStaysSilent(s: EvalState, price: real, alerts: seq<PriceAlert>, email: Option<string>, k: int)
    requires price != 0.0 && 0 <= k < |alerts| && alerts[k].id in s.fired
    requires forall i :: 0 <= i < |alerts| && alerts[i].id == alerts[k].id ==> price <= alerts[i].btcThreshold
    ensures alerts[k].id !in EventIds(Step(s, Some(price), alerts, email).events)
    ensures alerts[k].id in Step(s, Some(price), alerts, email).state.fired
  {
    var id := alerts[k].id;
    ReArmExactly(s.fired, alerts, price, id);
    FireScanSound(alerts, ReArmed(s.fired, alerts, price), s.prev, price, email);
  }

  /** The alert that re-arms an id cannot fire in the same observation: the
      re-arm needs the price above its threshold, firing needs it at or below. */
  lemma ReArmedDoesNotFire(s: EvalState, price: real, alerts: seq<PriceAlert>, email: Option<string>, k: int)
    requires price != 0.0 && 0 <= k < |alerts|
    requires alerts[k].id in s.fired && alerts[k].id !in ReArmed(s.fired, alerts, price)
    requires forall i :: 0 <= i < |alerts| && alerts[i].id == alerts[k].id ==> alerts[i] == alerts[k]
    ensures alerts[k].id !in EventIds(Step(s, Some(price), alerts, email).events)
  {
    var id := alerts[k].id;
    ReArmExactly(s.fired, alerts, price, id);
    FireScanSound(alerts, ReArmed(s.fired, alerts, price), s.prev, price, email);
  }

  /** With the alert's id unique in the list, a rise above its threshold
      re-arms it and the next drop to or below the threshold notifies it
      again: the alert resumes once the price has recovered. */
  lemma RecoveryThenDropFiresAgain(s: EvalState, up: real, down: real, alerts: seq<PriceAlert>, k: int, email: Option<string>)
    requires 0 <= k < |alerts| && alerts[k].isEnabled && alerts[k].id in s.fired
    requires forall i :: 0 <= i < |alerts| && i != k ==> alerts[i].id != alerts[k].id
    requires up > alerts[k].btcThreshold >= down && up != 0.0 && down != 0.0
    ensures var s1 := Step(s, Some(up), alerts, email).state;
      && alerts[k].id !in s1.fired
      && AlertEvent(alerts[k], down, EmailFor(email, alerts[k], down)) in Step(s1, Some(down), alerts, email).events
  {
    var a := alerts[k];
    // The rise re-arms the id, and no event for it is raised at `up`.
    ReArmExactly(s.fired, alerts, up, a.id);
    assert IsFirstWith(alerts, a.id, k);
    var armed := ReArmed(s.fired, alerts, up);
    FireScanSound(alerts, armed, s.prev, up, email);
    var s1 := Step(s, Some(up), alerts, email).state;
    assert a.id !in s1.fired by {
      var o := Step(s, Some(up), alerts, email);
      forall e | e in o.events
        ensures e.alert.id != a.id
      {
        assert e.alert.btcThreshold >= up;
      }
    }
    // The drop crosses the threshold of an armed alert.
    assert s1.prev == Some(up);
    var armed2 := ReArmed(s1.fired, alerts, down);
    assert Crosses(a, armed2, s1.prev, down);
    FireScanComplete(alerts, armed2, s1.prev, down, email, k);
    FireScanSound(alerts, armed2, s1.prev, down, email);
    var ev := Step(s1, Some(down), alerts, email).events;
    var x :| x in ev && x.alert.id == a.id;
    assert x.alert == a;
  }

  /** The worked example: threshold 100000 and prices 105000, 101000, 99000,
      95000, 102000, 98000 fire exactly at 99000 and again at 98000. */
  lemma ThresholdExample(email: Option<string>)
    ensures var a := PriceAlert("alert-100k", 100000.0, true);
      var o1 := Step(Initial, Some(105000.0), [a], email);
      var o2 := Step(o1.state, Some(101000.0), [a], email);
      var o3 := Step(o2.state, Some(99000.0), [a], email);
      var o4 := Step(o3.state, Some(95000.0), [a], email);
      var o5 := Step(o4.state, Some(102000.0), [a], email);
      var o6 := Step(o5.state, Some(98000.0), [a], email);
      o1.events == [] && o2.events == [] && |o3.events| == 1 && o4.events == []
      && o5.events == [] && |o6.events| == 1
  {
    var a := PriceAlert("alert-100k", 100000.0, true);
    assert [a][..0] == [];
    assert FindAlert([a], a.id) == Some(a);
  }

  // ---------------------------------------------------------------------------
  // The evaluator itself

  /** The hook's two refs: the previous price and the set of fired ids. */
  class AlertEvaluator {
    var prev: Option<real>
    var fired: set<string>

    function State(): EvalState
      reads this
    {
      EvalState(prev, fired)
    }

    constructor ()
      ensures State() == Initial
    {
      prev := None;
      fired := {};
    }

    /** One run of the effect for a new price; returns the notifications in
        the order they are raised. */
    method Observe(price: Option<real>, alerts: seq<PriceAlert>, email: Option<string>) returns (events: seq<AlertEvent>)
      modifies this
      ensures Outcome(State(), events) == Step(old(State()), price, alerts, email)
    {
      events := [];
      if price.None? || price.value == 0.0 {
        return;
      }
      var current := price.value;
      var previous := prev;

      // Re-arm: visit every id of the set once, dropping those whose alert
      // the price is now above.
      var pending := fired;
      while pending != {}
        invariant pending <= old(fired)
        invariant fired == ReArmed(old(fired) - pending, alerts, current) + pending
        decreases pending
      {
        var id :| id in pending;
        var found := FindAlert(alerts, id);
        if found.Some? && current > found.value.btcThreshold {
          fired := fired - {id};
        }
        pending := pending - {id};
      }
      assert old(fired) - {} == old(fired);
      assert fired == ReArmed(old(fired), alerts, current);

      // Fire: walk the list in order, against the same previous price.
      ghost var armed := fired;
      var i := 0;
      while i < |alerts|
        invariant 0 <= i <= |alerts|
        invariant Scan(fired, events) == FireScan(alerts[..i], armed, previous, current, email)
      {
        var a := alerts[i];
        assert alerts[..i + 1][..i] == alerts[..i];
        if a.isEnabled && a.id !in fired && previous.Some? && previous.value > a.btcThreshold && current <= a.btcThreshold {
          fired := fired + {a.id};
          var request := if email.Some? && email.value != "" then Some(EmailRequest(email.value, current, a.btcThreshold)) else None;
          events := events + [AlertEvent(a, current, request)];
        }
        i := i + 1;
      }
      assert alerts[..|alerts|] == alerts;
      assert Scan(fired, events) == FireScan(alerts, ReArmed(old(fired), alerts, current), old(prev), current, email);

      prev := Some(current);
    }
  }
}
