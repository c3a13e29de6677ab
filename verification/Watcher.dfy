/** The entry watcher: armed entries, how each one ends, and the orders it places. */
module Watcher {
  import opened Collections
  import opened Directions
  import opened EntryGeometry

  datatype Armed = Armed(plan: Plan, progress: Progress)

  datatype Order = Order(buy: bool, price: real, stop: real, target: real)

  /** Filled keeps the balance that the risk check saw. */
  datatype Way = Filled(order: Order, balance: real) | Closed(reason: string)

  datatype Exit = Exit(plan: Plan, at: real, way: Way)

  /** Armed entries in arming order, the day they belong to, and every exit so far. */
  datatype Watch = Watch(pending: Dict<string, Armed>, armedDay: string, exits: seq<Exit>)

  /** What the venue answers when an entry fires. */
  datatype Quote = Quote(balance: Option<real>, freeMargin: Option<real>, accepts: bool)

  datatype Tick = Tick(bid: real, ask: real)

  /** The venue during one poll: its answers when the i-th entry fires. */
  type Venue = nat -> Quote

  // ── firing ────────────────────────────────────────────────────────────────

  /** The risk is judged with the structural stop. */
  predicate Viable(p: Policy, plan: Plan, q: Quote) {
    && q.balance.Some? && q.balance.value > 0.0
    && plan.StopPts() * p.volume / q.balance.value <= p.maxRiskFrac
    && q.freeMargin.Some? && q.freeMargin.value > 0.0
  }

  /** A fixed distance, or a multiple of the stop if none is set. */
  function TargetDistance(p: Policy, plan: Plan): real {
    if p.targetPts != 0.0 then p.targetPts else plan.StopPts() * p.tpR
  }

  function TargetOf(p: Policy, plan: Plan, price: real): real {
    if plan.tpHint.Some? && plan.tpHint.value != 0.0 then plan.tpHint.value
    else if plan.IsBuy() then price + TargetDistance(p, plan)
    else price - TargetDistance(p, plan)
  }

  function OrderOf(p: Policy, plan: Plan, price: real): Order {
    Order(plan.IsBuy(), price, plan.stopPrice, TargetOf(p, plan, price))
  }

  function WayOut(p: Policy, plan: Plan, price: real, q: Quote): Way {
    if !Viable(p, plan, q) then Closed("not_viable_at_fill")
    else if !q.accepts then Closed("order_failed")
    else Filled(OrderOf(p, plan, price), q.balance.value)
  }

  // ── the watch, step by step ───────────────────────────────────────────────

  function Left(w: Watch, id: string, at: real, way: Way): Watch {
    if id in w.pending.at then
      w.(pending := w.pending.Pop(id), exits := w.exits + [Exit(w.pending.at[id].plan, at, way)])
    else w
  }

  function Moved(w: Watch, id: string, s: Progress): Watch
    requires id in w.pending.at
  {
    w.(pending := w.pending.Set(id, w.pending.at[id].(progress := s)))
  }

  /** One entry of a poll. */
  function Round(p: Policy, w: Watch, id: string, now: real, tick: Tick, q: Quote): Watch {
    if id !in w.pending.at then w
    else
      var e := w.pending.at[id];
      if e.plan.Expired(now) then Left(w, id, now, Closed("expired"))
      else
        var price := if e.plan.IsBuy() then tick.ask else tick.bid;
        var (s, v) := Evaluated(e.plan, e.progress, price);
        match v
        case Wait => Moved(w, id, s)
        case Cancel => Left(Moved(w, id, s), id, now, Closed("level_broke"))
        case Fill => Left(Moved(w, id, s), id, now, WayOut(p, e.plan, price, q))
  }

  function Rounds(p: Policy, w: Watch, ids: seq<string>, now: real, tick: Tick, venue: Venue): Watch {
    if ids == [] then w
    else
      var n := |ids| - 1;
      Round(p, Rounds(p, w, ids[..n], now, tick, venue), ids[n], now, tick, venue(n))
  }

  function AllLeft(w: Watch, ids: seq<string>, at: real, reason: string): Watch {
    if ids == [] then w
    else Left(AllLeft(w, ids[..|ids| - 1], at, reason), ids[|ids| - 1], at, Closed(reason))
  }

  predicate TooOld(p: Policy, plan: Plan, now: real) { now - plan.createdTs > p.maxHoldHours * 3600.0 }

  function Stale(p: Policy, d: Dict<string, Armed>, ids: seq<string>, now: real): seq<string> {
    if ids == [] then []
    else
      Stale(p, d, ids[..|ids| - 1], now) +
        if ids[|ids| - 1] in d.at && TooOld(p, d.at[ids[|ids| - 1]].plan, now) then [ids[|ids| - 1]] else []
  }

  function DayClosed(p: Policy, w: Watch, now: real, today: string): Watch {
    if !p.dayBoundaryClose || today == w.armedDay then w
    else AllLeft(w, w.pending.keys, now, "day_boundary").(armedDay := today)
  }

  /** Max hold first, then the day boundary. */
  function Swept(p: Policy, w: Watch, now: real, today: string): Watch {
    DayClosed(p, AllLeft(w, Stale(p, w.pending, w.pending.keys, now), now, "max_hold"), now, today)
  }

  function Polled(p: Policy, w: Watch, now: real, today: string, tick: Option<Tick>, venue: Venue): Watch {
    var w1 := Swept(p, w, now, today);
    if tick.None? then w1 else Rounds(p, w1, w1.pending.keys, now, tick.value, venue)
  }

  function PlanOf(p: Policy, id: string, s: Signal, direction: string, routeKind: string, z: Zone, now: real): Plan {
    Plan(id, Lower(direction), z.zonePrice, z.stopPrice, s.timeframe, s.session,
         if routeKind == "" then "fresh" else routeKind, None, now, p.expiryMinutes(s.timeframe),
         p.confirmPts, p.invalidatePts, p.zoneTouchPts)
  }

  predicate CanArm(p: Policy, w: Watch, id: string, s: Signal, price: real, swing: Option<real>) {
    price > 0.0 && Derive(p, s, price, swing).Some? && id !in w.pending.at
  }

  function ArmedWith(p: Policy, w: Watch, id: string, s: Signal, direction: string, routeKind: string, price: real,
                     swing: Option<real>, now: real): Watch {
    if !CanArm(p, w, id, s, price, swing) then w
    else
      var plan := PlanOf(p, id, s, direction, routeKind, Derive(p, s, price, swing).value, now);
      w.(pending := w.pending.Set(id, Armed(plan, UNTOUCHED)))
  }

  // ── what each of them does, from the plan, the tick and the answers ───────

  /** The entry is gone, every other is as it was, and one exit says how. */
  ghost predicate Ends(w: Watch, w': Watch, id: string, at: real, way: Way)
    requires id in w.pending.at
  {
    && w'.pending.at == w.pending.at - {id} && w'.armedDay == w.armedDay
    && w'.exits == w.exits + [Exit(w.pending.at[id].plan, at, way)]
  }

  /** Balance and margin are there, and zone-to-stop risk is within the balance's fraction. */
  predicate Affordable(p: Policy, plan: Plan, q: Quote) {
    && q.balance.Some? && q.balance.value > 0.0 && q.freeMargin.Some? && q.freeMargin.value > 0.0
    && var gap := if plan.zonePrice >= plan.stopPrice then plan.zonePrice - plan.stopPrice
                  else plan.stopPrice - plan.zonePrice;
       gap * p.volume / q.balance.value <= p.maxRiskFrac
  }

  /** The order of this plan at this price: its stop, and its hinted target or one at the policy's distance. */
  predicate Places(p: Policy, plan: Plan, buy: bool, price: real, o: Order) {
    && o.buy == buy && o.price == price && o.stop == plan.stopPrice
    && if plan.tpHint.Some? && plan.tpHint.value != 0.0 then plan.tpHint == Some(o.target)
       else
         var distance := if buy then o.target - price else price - o.target;
         && (p.targetPts != 0.0 ==> distance == p.targetPts)
         && (p.targetPts == 0.0 ==> distance == Abs(plan.zonePrice - plan.stopPrice) * p.tpR)
  }

  /** How a firing entry leaves: refused by the risk check, refused by the venue, or filled. */
  predicate Fires(p: Policy, plan: Plan, buy: bool, price: real, q: Quote, way: Way) {
    && (way == Closed("not_viable_at_fill") <==> !Affordable(p, plan, q))
    && (way == Closed("order_failed") <==> Affordable(p, plan, q) && !q.accepts)
    && (way.Filled? <==> Affordable(p, plan, q) && q.accepts)
    && (way.Filled? ==> q.balance == Some(way.balance) && Places(p, plan, buy, price, way.order))
  }

  lemma ViableIsAffordable(p: Policy, plan: Plan, q: Quote)
    ensures Viable(p, plan, q) <==> Affordable(p, plan, q)
  {
    assert plan.StopPts() == if plan.zonePrice >= plan.stopPrice then plan.zonePrice - plan.stopPrice
                             else plan.stopPrice - plan.zonePrice;
  }

  lemma OrderIsPlaced(p: Policy, plan: Plan, price: real)
    ensures Places(p, plan, Lower(plan.direction) in {"up", "buy", "long"}, price, OrderOf(p, plan, price))
  {
  }

  lemma WayOutFires(p: Policy, plan: Plan, price: real, q: Quote)
    ensures Fires(p, plan, Lower(plan.direction) in {"up", "buy", "long"}, price, q, WayOut(p, plan, price, q))
  {
    ViableIsAffordable(p, plan, q);
    OrderIsPlaced(p, plan, price);
  }

  lemma LeftEnds(w: Watch, id: string, s: Progress, at: real, way: Way)
    requires id in w.pending.at
    ensures Ends(w, Left(w, id, at, way), id, at, way) && Ends(w, Left(Moved(w, id, s), id, at, way), id, at, way)
  {
  }

  /**
   * One entry's turn: past its window it expires unjudged; otherwise a buy is
   * judged at the ask and a sell at the bid, the price at which it would fill.
   */
  lemma TurnIsJudgedOnItsSide(p: Policy, w: Watch, id: string, now: real, tick: Tick, q: Quote)
    requires id in w.pending.at
    ensures var e := w.pending.at[id];
            var buy := Lower(e.plan.direction) in {"up", "buy", "long"};
            var price := if buy then tick.ask else tick.bid;
            var w' := Round(p, w, id, now, tick, q);
            if now - e.plan.createdTs > e.plan.expiryMin * 60.0 then Ends(w, w', id, now, Closed("expired"))
            else
              match Evaluated(e.plan, e.progress, price)
              case (s, Wait) =>
                && w'.pending.at == w.pending.at[id := Armed(e.plan, s)]
                && w'.exits == w.exits && w'.armedDay == w.armedDay
              case (_, Cancel) => Ends(w, w', id, now, Closed("level_broke"))
              case (_, Fill) => exists way :: Fires(p, e.plan, buy, price, q, way) && Ends(w, w', id, now, way)
  {
    var e := w.pending.at[id];
    var price := if Lower(e.plan.direction) in {"up", "buy", "long"} then tick.ask else tick.bid;
    if e.plan.Expired(now) {
      LeftEnds(w, id, e.progress, now, Closed("expired"));
    } else {
      var (s, v) := Evaluated(e.plan, e.progress, price);
      match v
      case Wait =>
      case Cancel => LeftEnds(w, id, s, now, Closed("level_broke"));
      case Fill =>
        var way := WayOut(p, e.plan, price, q);
        LeftEnds(w, id, s, now, way);
        WayOutFires(p, e.plan, price, q);
        assert Round(p, w, id, now, tick, q) == Left(Moved(w, id, s), id, now, way);
    }
  }

  lemma {:induction false} AllLeftKeeps(w: Watch, ids: seq<string>, at: real, reason: string)
    ensures AllLeft(w, ids, at, reason).pending.at == w.pending.at - (set id | id in ids)
    ensures AllLeft(w, ids, at, reason).armedDay == w.armedDay
  {
    if ids != [] {
      var n := |ids| - 1;
      InitAndLast(ids);
      AllLeftKeeps(w, ids[..n], at, reason);
      assert (set id | id in ids) == (set id | id in ids[..n]) + {ids[n]};
    }
  }

  lemma {:induction false} StaleIs(p: Policy, d: Dict<string, Armed>, ids: seq<string>, now: real, id: string)
    ensures id in Stale(p, d, ids, now) <==>
              id in ids && id in d.at && now - d.at[id].plan.createdTs > p.maxHoldHours * 3600.0
  {
    if ids != [] {
      InitAndLast(ids);
      StaleIs(p, d, ids[..|ids| - 1], now, id);
    }
  }

  /** A sweep leaves an entry, untouched, if and only if it is not past the longest hold and no new day closes it. */
  lemma SweepSparesIff(p: Policy, w: Watch, now: real, today: string, id: string)
    requires w.pending.Valid() && id in w.pending.at
    ensures var w' := Swept(p, w, now, today);
            && (id in w'.pending.at <==>
                  && now - w.pending.at[id].plan.createdTs <= p.maxHoldHours * 3600.0
                  && !(p.dayBoundaryClose && today != w.armedDay))
            && (id in w'.pending.at ==> w'.pending.at[id] == w.pending.at[id])
            && w'.armedDay == if p.dayBoundaryClose then today else w.armedDay
  {
    var stale := Stale(p, w.pending, w.pending.keys, now);
    var w1 := AllLeft(w, stale, now, "max_hold");
    StaleIs(p, w.pending, w.pending.keys, now, id);
    AllLeftKeeps(w, stale, now, "max_hold");
    AllLeftStaysValid(w, stale, now, "max_hold");
    AllLeftKeeps(w1, w1.pending.keys, now, "day_boundary");
  }

  ghost predicate HasExit(exits: seq<Exit>, from: nat, x: Exit) { exists i :: from <= i < |exits| && exits[i] == x }

  lemma {:induction false} AllLeftExits(w: Watch, ids: seq<string>, at: real, reason: string, id: string)
    ensures var w' := AllLeft(w, ids, at, reason);
            && |w.exits| <= |w'.exits| && w'.exits[..|w.exits|] == w.exits
            && (id in ids && id in w.pending.at ==>
                  HasExit(w'.exits, |w.exits|, Exit(w.pending.at[id].plan, at, Closed(reason))))
  {
    if ids != [] {
      var n := |ids| - 1;
      InitAndLast(ids);
      AllLeftExits(w, ids[..n], at, reason, id);
      AllLeftKeeps(w, ids[..n], at, reason);
      var w1, w' := AllLeft(w, ids[..n], at, reason), AllLeft(w, ids, at, reason);
      if id in ids && id in w.pending.at {
        var x := Exit(w.pending.at[id].plan, at, Closed(reason));
        if id in w1.pending.at {
          assert w'.exits[|w1.exits|] == x;
        } else {
          var i :| |w.exits| <= i < |w1.exits| && w1.exits[i] == x;
          assert w'.exits[i] == x;
        }
      }
    }
  }

  /** What a sweep takes leaves at once, for its age if it is past the longest hold, else for the day. */
  lemma SweptLeavesFor(p: Policy, w: Watch, now: real, today: string, id: string)
    requires w.pending.Valid() && id in w.pending.at && id !in Swept(p, w, now, today).pending.at
    ensures var plan := w.pending.at[id].plan;
            var why := if now - plan.createdTs > p.maxHoldHours * 3600.0 then "max_hold" else "day_boundary";
            HasExit(Swept(p, w, now, today).exits, |w.exits|, Exit(plan, now, Closed(why)))
  {
    var stale := Stale(p, w.pending, w.pending.keys, now);
    var w1 := AllLeft(w, stale, now, "max_hold");
    StaleIs(p, w.pending, w.pending.keys, now, id);
    AllLeftKeeps(w, stale, now, "max_hold");
    AllLeftStaysValid(w, stale, now, "max_hold");
    AllLeftExits(w, stale, now, "max_hold", id);
    AllLeftExits(w1, w1.pending.keys, now, "day_boundary", id);
    if id in stale {
      var i :| |w.exits| <= i < |w1.exits| && w1.exits[i] == Exit(w.pending.at[id].plan, now, Closed("max_hold"));
      assert Swept(p, w, now, today).exits[i] == w1.exits[i];
    }
  }

  lemma {:induction false} AllLeftStaysValid(w: Watch, ids: seq<string>, at: real, reason: string)
    requires w.pending.Valid()
    ensures AllLeft(w, ids, at, reason).pending.Valid()
  {
    if ids != [] {
      AllLeftStaysValid(w, ids[..|ids| - 1], at, reason);
    }
  }

  /** What is armed: the derived zone, under the policy's distances, from now on, untouched. */
  ghost predicate ArmedAs(p: Policy, a: Armed, id: string, s: Signal, direction: string, routeKind: string, z: Zone,
                          now: real) {
    && a.progress == UNTOUCHED && a.plan.signalId == id && a.plan.direction == Lower(direction)
    && a.plan.zonePrice == z.zonePrice && a.plan.stopPrice == z.stopPrice
    && a.plan.timeframe == s.timeframe && a.plan.session == s.session && a.plan.tpHint == None
    && (routeKind != "" ==> a.plan.routeKind == routeKind) && (routeKind == "" ==> a.plan.routeKind == "fresh")
    && a.plan.createdTs == now && a.plan.expiryMin == p.expiryMinutes(s.timeframe)
    && a.plan.confirmPts == p.confirmPts && a.plan.invalidatePts == p.invalidatePts
    && a.plan.zoneTouchPts == p.zoneTouchPts
  }

  // ── one more entry ────────────────────────────────────────────────────────

  lemma RoundsNext(p: Policy, w: Watch, ids: seq<string>, i: nat, now: real, tick: Tick, venue: Venue)
    requires i < |ids|
    ensures Rounds(p, w, ids[..i + 1], now, tick, venue)
         == Round(p, Rounds(p, w, ids[..i], now, tick, venue), ids[i], now, tick, venue(i))
  {
    assert ids[..i + 1][..i] == ids[..i];
  }

  lemma AllLeftNext(w: Watch, ids: seq<string>, i: nat, at: real, reason: string)
    requires i < |ids|
    ensures AllLeft(w, ids[..i + 1], at, reason) == Left(AllLeft(w, ids[..i], at, reason), ids[i], at, Closed(reason))
  {
    assert ids[..i + 1][..i] == ids[..i];
  }

  lemma StaleNext(p: Policy, d: Dict<string, Armed>, ids: seq<string>, i: nat, now: real)
    requires i < |ids|
    ensures Stale(p, d, ids[..i + 1], now)
         == Stale(p, d, ids[..i], now) + if ids[i] in d.at && TooOld(p, d.at[ids[i]].plan, now) then [ids[i]] else []
  {
    assert ids[..i + 1][..i] == ids[..i];
  }

  /** Some of the same entries, under their own ids. */
  ghost predicate Within<V>(at: map<string, V>, before: map<string, V>) {
    at.Keys <= before.Keys && forall j :: j in at ==> at[j] == before[j]
  }

  lemma WithinThen<V>(at: map<string, V>, mid: map<string, V>, before: map<string, V>)
    requires Within(at, mid) && Within(mid, before)
    ensures Within(at, before)
  {
  }

  lemma ValuesShrink<V>(at: map<string, V>, before: map<string, V>)
    requires Within(at, before)
    ensures at.Values <= before.Values
  {
  }

  // ── the class ─────────────────────────────────────────────────────────────

  class EntryWatcher {
    const policy: Policy
    var pending: Dict<string, PendingEntry>
    var armedDay: string
    ghost var exits: seq<Exit>   // what the on_fill and on_close hooks have been handed

    ghost predicate Valid()
      reads this
    {
      pending.Valid() && forall id :: id in pending.at ==> pending.at[id].plan.signalId == id
    }

    ghost function Snapshot(): Dict<string, Armed>
      reads this`pending, pending.at.Values
    {
      Frozen(pending)
    }

    ghost function State(): Watch
      reads this, pending.at.Values
    {
      Watch(Snapshot(), armedDay, exits)
    }

    constructor (policy: Policy, today: string)
      ensures Valid() && this.policy == policy && State() == Watch(Empty(), today, [])
    {
      this.policy, pending, armedDay, exits := policy, Empty(), today, [];
    }

    method Hold(entry: PendingEntry)
      requires Valid()
      modifies this`pending
      ensures Valid() && pending.at == old(pending.at)[entry.plan.signalId := entry]
      ensures Snapshot() == old(Snapshot()).Set(entry.plan.signalId, Armed(entry.plan, entry.State()))
    {
      FrozenSet(pending, entry.plan.signalId, entry);
      pending := pending.Set(entry.plan.signalId, entry);
    }

    method Arm(id: string, s: Signal, direction: string, routeKind: string, price: real, swing: Option<real>, now: real)
        returns (armed: bool)
      requires Valid()
      modifies this`pending
      ensures Valid()
      ensures armed == CanArm(policy, old(State()), id, s, price, swing)
      ensures State() == ArmedWith(policy, old(State()), id, s, direction, routeKind, price, swing, now)
      ensures armed <==> price > 0.0 && Derive(policy, s, price, swing).Some? && id !in old(pending.at)
      ensures armed ==>
                && id in State().pending.at
                && ArmedAs(policy, State().pending.at[id], id, s, direction, routeKind,
                           Derive(policy, s, price, swing).value, now)
    {
      if price <= 0.0 {
        return false;
      }
      var zone := Derive(policy, s, price, swing);
      if zone.None? || id in pending.at {
        return false;
      }
      var entry := new PendingEntry(PlanOf(policy, id, s, direction, routeKind, zone.value, now));
      Hold(entry);
      return true;
    }

    /** Takes the entry out of the watch for good. */
    method Leave(id: string, at: real, way: Way)
      requires Valid()
      modifies this`pending, this`exits
      ensures Valid() && Within(pending.at, old(pending.at))
      ensures State() == Left(old(State()), id, at, way)
    {
      if id in pending.at {
        ghost var exit := Exit(pending.at[id].plan, at, way);
        Drop(id);
        Note(exit);
      }
    }

    ghost method Note(exit: Exit)
      requires Valid()
      modifies this`exits
      ensures Valid() && State() == old(State()).(exits := old(exits) + [exit])
    {
      exits := exits + [exit];
    }

    /** The entries that a dictionary holds, with their progress. */
    static ghost function Frozen(d: Dict<string, PendingEntry>): (f: Dict<string, Armed>)
      reads d.at.Values
      ensures f.keys == d.keys && f.at.Keys == d.at.Keys
      ensures forall j :: j in d.at ==> f.at[j] == Armed(d.at[j].plan, d.at[j].State())
    {
      Dict(d.keys, map id | id in d.at :: Armed(d.at[id].plan, d.at[id].State()))
    }

    static lemma FrozenSet(d: Dict<string, PendingEntry>, id: string, entry: PendingEntry)
      ensures Frozen(d.Set(id, entry)) == Frozen(d).Set(id, Armed(entry.plan, entry.State()))
    {
      assert Frozen(d.Set(id, entry)).at == Frozen(d).at[id := Armed(entry.plan, entry.State())];
    }

    static lemma FrozenPop(d: Dict<string, PendingEntry>, id: string)
      requires id in d.at
      ensures Frozen(d.Pop(id)) == Frozen(d).Pop(id)
    {
      assert Frozen(d.Pop(id)).at == Frozen(d).at - {id};
    }

    method Drop(id: string)
      requires Valid() && id in pending.at
      modifies this`pending
      ensures Valid() && Within(pending.at, old(pending.at))
      ensures State() == old(State()).(pending := old(State()).pending.Pop(id))
    {
      FrozenPop(pending, id);
      pending := pending.Pop(id);
    }

    /** One entry's turn in a poll: expire, or judge the price of the side that would fill and act on it. */
    method Turn(id: string, now: real, tick: Tick, q: Quote)
      requires Valid()
      modifies this`pending, this`exits, pending.at.Values
      ensures Valid() && Within(pending.at, old(pending.at))
      ensures State() == Round(policy, old(State()), id, now, tick, q)
    {
      if id !in pending.at {
        return;
      }
      var entry := pending.at[id];
      if entry.plan.Expired(now) {
        Leave(id, now, Closed("expired"));
        return;
      }
      var price := if entry.plan.IsBuy() then tick.ask else tick.bid;
      var verdict := Judge(id, price);
      match verdict
      case Wait =>
      case Cancel => Leave(id, now, Closed("level_broke"));
      case Fill => Leave(id, now, WayOut(policy, entry.plan, price, q));
    }

    /** Judging a price changes that entry's progress in place, and nothing else. */
    method Judge(id: string, price: real) returns (v: Verdict)
      requires Valid() && id in pending.at
      modifies pending.at[id]
      ensures Valid() && unchanged(this)
      ensures var (s, w) := Evaluated(old(State()).pending.at[id].plan, old(State()).pending.at[id].progress, price);
              v == w && State() == Moved(old(State()), id, s)
    {
      ghost var before := Snapshot();
      var entry := pending.at[id];
      v := entry.Evaluate(price);
      assert forall j :: j in pending.at && j != id ==> pending.at[j] != entry;
      assert Snapshot().at == before.at[id := Armed(entry.plan, entry.State())];
    }

    method LeaveAll(ids: seq<string>, at: real, reason: string)
      requires Valid()
      modifies this`pending, this`exits
      ensures Valid() && Within(pending.at, old(pending.at))
      ensures State() == AllLeft(old(State()), ids, at, reason)
    {
      var i := 0;
      while i < |ids|
        invariant 0 <= i <= |ids| && Valid() && Within(pending.at, old(pending.at))
        invariant State() == AllLeft(old(State()), ids[..i], at, reason)
      {
        AllLeftNext(old(State()), ids, i, at, reason);
        Leave(ids[i], at, Closed(reason));
        i := i + 1;
      }
      assert ids[..i] == ids;
    }

    /** The ids past the holding limit, in order. */
    method FindStale(now: real) returns (stale: seq<string>)
      requires Valid()
      ensures stale == Stale(policy, Snapshot(), pending.keys, now)
    {
      stale := [];
      var i := 0;
      while i < |pending.keys|
        invariant 0 <= i <= |pending.keys|
        invariant stale == Stale(policy, Snapshot(), pending.keys[..i], now)
      {
        StaleNext(policy, Snapshot(), pending.keys, i, now);
        var id := pending.keys[i];
        if TooOld(policy, pending.at[id].plan, now) {
          stale := stale + [id];
        }
        i := i + 1;
      }
      assert pending.keys[..i] == pending.keys;
    }

    method CloseDay(now: real, today: string)
      requires Valid()
      modifies this
      ensures Valid() && Within(pending.at, old(pending.at))
      ensures State() == DayClosed(policy, old(State()), now, today)
    {
      if !policy.dayBoundaryClose || today == armedDay {
        return;
      }
      LeaveAll(pending.keys, now, "day_boundary");
      ghost var before := State();
      armedDay := today;
      assert State() == before.(armedDay := today);
    }

    method Sweep(now: real, today: string)
      requires Valid()
      modifies this
      ensures Valid() && Within(pending.at, old(pending.at))
      ensures State() == Swept(policy, old(State()), now, today)
    {
      var stale := FindStale(now);
      LeaveAll(stale, now, "max_hold");
      CloseDay(now, today);
    }

    /** One more entry of a poll that began in w. */
    method TurnNext(ghost w: Watch, ids: seq<string>, i: nat, now: real, tick: Tick, venue: Venue)
      requires Valid() && i < |ids| && State() == Rounds(policy, w, ids[..i], now, tick, venue)
      modifies this`pending, this`exits, pending.at.Values
      ensures Valid() && Within(pending.at, old(pending.at))
      ensures State() == Rounds(policy, w, ids[..i + 1], now, tick, venue)
    {
      RoundsNext(policy, w, ids, i, now, tick, venue);
      Turn(ids[i], now, tick, venue(i));
    }

    method TurnAll(ids: seq<string>, now: real, tick: Tick, venue: Venue)
      requires Valid()
      modifies this`pending, this`exits, pending.at.Values
      ensures Valid()
      ensures State() == Rounds(policy, old(State()), ids, now, tick, venue)
    {
      ghost var before := pending.at;
      var i := 0;
      while i < |ids|
        invariant 0 <= i <= |ids| && Valid() && Within(pending.at, before)
        invariant State() == Rounds(policy, old(State()), ids[..i], now, tick, venue)
      {
        ghost var mid := pending.at;
        ValuesShrink(mid, before);
        TurnNext(old(State()), ids, i, now, tick, venue);
        WithinThen(pending.at, mid, before);
        i := i + 1;
      }
      assert ids[..i] == ids;
    }

    /** One cycle: sweep, then every entry in turn, unless there is no tick to judge by. */
    method Poll(now: real, today: string, tick: Option<Tick>, venue: Venue)
      requires Valid()
      modifies this, pending.at.Values
      ensures Valid()
      ensures State() == Polled(policy, old(State()), now, today, tick, venue)
    {
      Sweep(now, today);
      if tick.Some? {
        TurnAll(pending.keys, now, tick.value, venue);
      }
    }
  }

  // ── runs ──────────────────────────────────────────────────────────────────

  datatype Event =
    | Arm(id: string, signal: Signal, direction: string, routeKind: string, price: real, swing: Option<real>, now: real)
    | Poll(now: real, today: string, tick: Option<Tick>, venue: Venue)
    | Cancel(id: string, now: real, reason: string)

  /** armed counts the successful arms of each id. */
  datatype World = World(watch: Watch, armed: multiset<string>)

  function Step(p: Policy, w: World, event: Event): World {
    match event
    case Arm(id, s, direction, routeKind, price, swing, now) =>
      World(ArmedWith(p, w.watch, id, s, direction, routeKind, price, swing, now),
            if CanArm(p, w.watch, id, s, price, swing) then w.armed + multiset{id} else w.armed)
    case Poll(now, today, tick, venue) => w.(watch := Polled(p, w.watch, now, today, tick, venue))
    case Cancel(id, now, reason) => w.(watch := Left(w.watch, id, now, Closed(reason)))
  }

  function Run(p: Policy, today: string, events: seq<Event>): World {
    if events == [] then World(Watch(Empty(), today, []), multiset{})
    else Step(p, Run(p, today, events[..|events| - 1]), events[|events| - 1])
  }

  function ExitIds(exits: seq<Exit>): multiset<string> {
    if exits == [] then multiset{} else ExitIds(exits[..|exits| - 1]) + multiset{exits[|exits| - 1].plan.signalId}
  }

  /** Everything ever armed: what has left, and what is still waiting. */
  function Total(w: Watch): multiset<string> { ExitIds(w.exits) + multiset(w.pending.at.Keys) }

  /** A kept property of armed entries, and what it guarantees of every exit. */
  ghost predicate Sound(p: Policy, w: Watch) {
    && w.pending.Valid()
    && (forall id :: id in w.pending.at ==> w.pending.at[id].plan.signalId == id)
    && (forall x :: x in w.exits && x.way.Filled? ==> !x.plan.Expired(x.at))
  }

  /** What every part of a poll does: nobody is added, nobody is lost, and no fill is late. */
  ghost predicate Conserves(p: Policy, w: Watch, w': Watch) {
    Sound(p, w) ==> Sound(p, w') && Total(w') == Total(w)
  }

  lemma LeavingConserves(p: Policy, w: Watch, id: string, at: real, way: Way)
    requires id in w.pending.at && way.Filled? ==> !w.pending.at[id].plan.Expired(at)
    ensures Conserves(p, w, Left(w, id, at, way))
  {
    if id in w.pending.at && Sound(p, w) {
      var w' := Left(w, id, at, way);
      assert w'.exits[..|w.exits|] == w.exits;
      assert multiset(w.pending.at.Keys) == multiset(w'.pending.at.Keys) + multiset{id};
      assert forall x :: x in w'.exits <==> x in w.exits || x == w'.exits[|w.exits|];
    }
  }

  lemma MovingConserves(p: Policy, w: Watch, id: string, s: Progress)
    requires id in w.pending.at
    ensures Conserves(p, w, Moved(w, id, s))
  {
    assert Moved(w, id, s).pending.at.Keys == w.pending.at.Keys;
  }

  lemma JudgedConserves(p: Policy, w: Watch, id: string, s: Progress, at: real, way: Way)
    requires id in w.pending.at && (way.Filled? ==> !w.pending.at[id].plan.Expired(at))
    ensures Conserves(p, w, Left(Moved(w, id, s), id, at, way))
  {
    MovingConserves(p, w, id, s);
    LeavingConserves(p, Moved(w, id, s), id, at, way);
  }

  lemma RoundConserves(p: Policy, w: Watch, id: string, now: real, tick: Tick, q: Quote)
    ensures Conserves(p, w, Round(p, w, id, now, tick, q))
  {
    if id in w.pending.at {
      var e := w.pending.at[id];
      if e.plan.Expired(now) {
        LeavingConserves(p, w, id, now, Closed("expired"));
      } else {
        var price := if e.plan.IsBuy() then tick.ask else tick.bid;
        var (s, v) := Evaluated(e.plan, e.progress, price);
        match v
        case Wait => MovingConserves(p, w, id, s);
        case Cancel => JudgedConserves(p, w, id, s, now, Closed("level_broke"));
        case Fill => JudgedConserves(p, w, id, s, now, WayOut(p, e.plan, price, q));
      }
    }
  }

  lemma {:induction false} RoundsConserve(p: Policy, w: Watch, ids: seq<string>, now: real, tick: Tick, venue: Venue)
    ensures Conserves(p, w, Rounds(p, w, ids, now, tick, venue))
  {
    if ids != [] {
      var n := |ids| - 1;
      RoundsConserve(p, w, ids[..n], now, tick, venue);
      RoundConserves(p, Rounds(p, w, ids[..n], now, tick, venue), ids[n], now, tick, venue(n));
    }
  }

  lemma {:induction false} AllLeftConserves(p: Policy, w: Watch, ids: seq<string>, at: real, reason: string)
    ensures Conserves(p, w, AllLeft(w, ids, at, reason))
  {
    if ids != [] {
      var n := |ids| - 1;
      AllLeftConserves(p, w, ids[..n], at, reason);
      LeavingConserves(p, AllLeft(w, ids[..n], at, reason), ids[n], at, Closed(reason));
    }
  }

  lemma SweepConserves(p: Policy, w: Watch, now: real, today: string)
    ensures Conserves(p, w, Swept(p, w, now, today))
  {
    var w1 := AllLeft(w, Stale(p, w.pending, w.pending.keys, now), now, "max_hold");
    AllLeftConserves(p, w, Stale(p, w.pending, w.pending.keys, now), now, "max_hold");
    AllLeftConserves(p, w1, w1.pending.keys, now, "day_boundary");
  }

  lemma OneMoreKey(keys: set<string>, id: string)
    requires id !in keys
    ensures multiset(keys + {id}) == multiset(keys) + multiset{id}
  {
  }

  lemma HoldingCounts(p: Policy, w: Watch, id: string, a: Armed)
    requires Sound(p, w) && id !in w.pending.at && a.plan.signalId == id
    ensures var w' := w.(pending := w.pending.Set(id, a));
            Sound(p, w') && Total(w') == Total(w) + multiset{id}
  {
    OneMoreKey(w.pending.at.Keys, id);
    assert w.pending.Set(id, a).at.Keys == w.pending.at.Keys + {id};
  }

  lemma ArmingCounts(p: Policy, w: Watch, id: string, s: Signal, direction: string, routeKind: string, price: real,
                     swing: Option<real>, now: real)
    requires Sound(p, w)
    ensures var w' := ArmedWith(p, w, id, s, direction, routeKind, price, swing, now);
            && Sound(p, w')
            && Total(w') == if CanArm(p, w, id, s, price, swing) then Total(w) + multiset{id} else Total(w)
  {
    if CanArm(p, w, id, s, price, swing) {
      var plan := PlanOf(p, id, s, direction, routeKind, Derive(p, s, price, swing).value, now);
      HoldingCounts(p, w, id, Armed(plan, UNTOUCHED));
    }
  }

  lemma StepConserves(p: Policy, w: World, event: Event)
    requires Sound(p, w.watch) && w.armed == Total(w.watch)
    ensures Sound(p, Step(p, w, event).watch) && Step(p, w, event).armed == Total(Step(p, w, event).watch)
  {
    match event
    case Arm(id, s, direction, routeKind, price, swing, now) =>
      ArmingCounts(p, w.watch, id, s, direction, routeKind, price, swing, now);
    case Poll(now, today, tick, venue) =>
      SweepConserves(p, w.watch, now, today);
      if tick.Some? {
        var w1 := Swept(p, w.watch, now, today);
        RoundsConserve(p, w1, w1.pending.keys, now, tick.value, venue);
      }
    case Cancel(id, now, reason) => LeavingConserves(p, w.watch, id, now, Closed(reason));
  }

  /**
   * Conservation over every run of arming, polling and cancelling: each
   * successful arm is still waiting or has left exactly once, with at most the
   * one order of that exit, and never with an order after its window.
   */
  lemma {:induction false} EveryArmEndsOnce(p: Policy, today: string, events: seq<Event>)
    ensures var w := Run(p, today, events);
            && w.armed == ExitIds(w.watch.exits) + multiset(w.watch.pending.at.Keys)
            && (forall x :: x in w.watch.exits && x.way.Filled? ==> x.at - x.plan.createdTs <= x.plan.expiryMin * 60.0)
            && Sound(p, w.watch)
  {
    if events != [] {
      EveryArmEndsOnce(p, today, events[..|events| - 1]);
      StepConserves(p, Run(p, today, events[..|events| - 1]), events[|events| - 1]);
    }
  }

  // ── the sweep comes first ─────────────────────────────────────────────────

  /** No exit from the n-th on is a fill, unless it is young enough, on a day that has not turned. */
  ghost predicate NoStaleFill(p: Policy, exits: seq<Exit>, n: nat, now: real, turned: bool) {
    forall i :: n <= i < |exits| && exits[i].way.Filled? ==>
      !turned && exits[i].at == now && now - exits[i].plan.createdTs <= p.maxHoldHours * 3600.0
  }

  ghost predicate AllYoung(p: Policy, d: map<string, Armed>, now: real, turned: bool) {
    if turned then d == map[] else forall id :: id in d ==> now - d[id].plan.createdTs <= p.maxHoldHours * 3600.0
  }

  lemma RoundFillsNothingStale(p: Policy, w: Watch, id: string, now: real, tick: Tick, q: Quote, n: nat, turned: bool)
    requires AllYoung(p, w.pending.at, now, turned) && NoStaleFill(p, w.exits, n, now, turned)
    ensures var w' := Round(p, w, id, now, tick, q);
            AllYoung(p, w'.pending.at, now, turned) && NoStaleFill(p, w'.exits, n, now, turned)
  {
    if id in w.pending.at {
      TurnIsJudgedOnItsSide(p, w, id, now, tick, q);
    }
  }

  lemma {:induction false} RoundsFillNothingStale(p: Policy, w: Watch, ids: seq<string>, now: real, tick: Tick,
                                                  venue: Venue, n: nat, turned: bool)
    requires AllYoung(p, w.pending.at, now, turned) && NoStaleFill(p, w.exits, n, now, turned)
    ensures var w' := Rounds(p, w, ids, now, tick, venue);
            AllYoung(p, w'.pending.at, now, turned) && NoStaleFill(p, w'.exits, n, now, turned)
  {
    if ids != [] {
      var m := |ids| - 1;
      RoundsFillNothingStale(p, w, ids[..m], now, tick, venue, n, turned);
      RoundFillsNothingStale(p, Rounds(p, w, ids[..m], now, tick, venue), ids[m], now, tick, venue(m), n, turned);
    }
  }

  lemma {:induction false} AllLeftFillsNothing(p: Policy, w: Watch, ids: seq<string>, at: real, reason: string, n: nat,
                                               now: real, turned: bool)
    requires NoStaleFill(p, w.exits, n, now, turned)
    ensures NoStaleFill(p, AllLeft(w, ids, at, reason).exits, n, now, turned)
  {
    if ids != [] {
      AllLeftFillsNothing(p, w, ids[..|ids| - 1], at, reason, n, now, turned);
    }
  }

  /**
   * A poll sweeps before it judges: whatever the tick and the venue say, it
   * fills nothing past the longest hold, and nothing at all once the day has
   * turned and days are closed.
   */
  lemma PollSweepsFirst(p: Policy, w: Watch, now: real, today: string, tick: Option<Tick>, venue: Venue)
    requires w.pending.Valid()
    ensures NoStaleFill(p, Polled(p, w, now, today, tick, venue).exits, |w.exits|, now,
                        p.dayBoundaryClose && today != w.armedDay)
  {
    var turned := p.dayBoundaryClose && today != w.armedDay;
    var stale := Stale(p, w.pending, w.pending.keys, now);
    var w1, w2 := AllLeft(w, stale, now, "max_hold"), Swept(p, w, now, today);
    AllLeftFillsNothing(p, w, stale, now, "max_hold", |w.exits|, now, turned);
    AllLeftFillsNothing(p, w1, w1.pending.keys, now, "day_boundary", |w.exits|, now, turned);
    SweptIsYoung(p, w, now, today);
    if tick.Some? {
      RoundsFillNothingStale(p, w2, w2.pending.keys, now, tick.value, venue, |w.exits|, turned);
    }
  }

  lemma SweptIsYoung(p: Policy, w: Watch, now: real, today: string)
    requires w.pending.Valid()
    ensures AllYoung(p, Swept(p, w, now, today).pending.at, now, p.dayBoundaryClose && today != w.armedDay)
  {
    SweptOnlyShrinks(p, w, now, today);
    forall id | id in Swept(p, w, now, today).pending.at
      ensures now - w.pending.at[id].plan.createdTs <= p.maxHoldHours * 3600.0
      ensures !(p.dayBoundaryClose && today != w.armedDay)
      ensures Swept(p, w, now, today).pending.at[id] == w.pending.at[id]
    {
      SweepSparesIff(p, w, now, today, id);
    }
  }

  lemma SweptOnlyShrinks(p: Policy, w: Watch, now: real, today: string)
    ensures Swept(p, w, now, today).pending.at.Keys <= w.pending.at.Keys
  {
    var stale := Stale(p, w.pending, w.pending.keys, now);
    var w1 := AllLeft(w, stale, now, "max_hold");
    AllLeftKeeps(w, stale, now, "max_hold");
    AllLeftKeeps(w1, w1.pending.keys, now, "day_boundary");
  }

  // ── a stalled tick ────────────────────────────────────────────────────────

  /** Those who stay are untouched, and those who go went for one of the two sweep reasons. */
  ghost predicate OnlySwept(w: Watch, w': Watch) {
    && w'.pending.at.Keys <= w.pending.at.Keys
    && (forall id :: id in w'.pending.at ==> w'.pending.at[id] == w.pending.at[id])
    && |w.exits| <= |w'.exits| && w'.exits[..|w.exits|] == w.exits
    && forall i :: |w.exits| <= i < |w'.exits| ==> w'.exits[i].way in {Closed("max_hold"), Closed("day_boundary")}
  }

  lemma {:induction false} AllLeftOnlySweeps(w: Watch, ids: seq<string>, at: real, reason: string)
    requires reason == "max_hold" || reason == "day_boundary"
    ensures OnlySwept(w, AllLeft(w, ids, at, reason))
  {
    if ids != [] {
      AllLeftOnlySweeps(w, ids[..|ids| - 1], at, reason);
    }
  }

  /** Without a tick nothing is judged: entries are held exactly as they were unless a sweep takes them. */
  lemma StalledTickHolds(p: Policy, w: Watch, now: real, today: string, venue: Venue)
    ensures OnlySwept(w, Polled(p, w, now, today, None, venue))
  {
    var w1 := AllLeft(w, Stale(p, w.pending, w.pending.keys, now), now, "max_hold");
    AllLeftOnlySweeps(w, Stale(p, w.pending, w.pending.keys, now), now, "max_hold");
    AllLeftOnlySweeps(w1, w1.pending.keys, now, "day_boundary");
  }
}
