/** Theorems about whole runs of the spot service, from its start and under any replies of the exchange. */
module SpotRuns {
  import opened FifoLedger
  import opened ProfitGuard
  import opened OrderLifecycle
  import opened SpotService
  import opened SpotSafety
  import R = FifoRefinement

  // ----- No client order id is accepted twice -----

  function Twin(tag: OrderTag): OrderTag {
    tag.(slice := 0)
  }

  predicate Distinct(tags: seq<OrderTag>) {
    forall i, j :: 0 <= i < j < |tags| ==> tags[i] != tags[j]
  }

  /** Ids in the dedupe map carry the second they were recorded in. */
  ghost predicate StampedIds(settings: Settings, recent: map<string, real>, clock: real) {
    forall tag :: settings.digest(tag) in recent ==>
      recent[settings.digest(tag)].Floor == tag.second && recent[settings.digest(tag)] <= clock
  }

  /** The slice-0 id of an accepted order is still remembered, or its second is over. */
  ghost predicate Remembered(settings: Settings, recent: map<string, real>, tags: seq<OrderTag>, clock: real) {
    forall tag :: tag in tags ==>
      Twin(tag) in tags && (settings.digest(Twin(tag)) in recent || clock.Floor > tag.second)
  }

  ghost predicate Dedupe(settings: Settings, s: Spot, clock: real) {
    && StampedIds(settings, s.recentCids, clock)
    && Remembered(settings, s.recentCids, Tags(s.trace), clock)
    && Distinct(Tags(s.trace))
  }

  /** The clock moves on and the entries of more than ten minutes ago are dropped: their seconds are over. */
  lemma {:induction false} DedupeEvicts(settings: Settings, s: Spot, e: Spot, clock: real, now: real)
    requires Dedupe(settings, s, clock) && clock <= now
    requires e.recentCids == Evict(s.recentCids, now) || e.recentCids == s.recentCids
    requires Tags(e.trace) == Tags(s.trace)
    ensures Dedupe(settings, e, now)
  {
    hide Tags;
    var tags := Tags(s.trace);
    forall tag | tag in tags
      ensures settings.digest(Twin(tag)) in e.recentCids || now.Floor > tag.second
    {
      var cid := settings.digest(Twin(tag));
      if cid in s.recentCids && cid !in e.recentCids {
        assert s.recentCids[cid].Floor == Twin(tag).second;
      }
    }
  }

  /** Recording one more id of the present second. */
  lemma {:induction false} DedupeRecords(settings: Settings, s: Spot, t: Spot, tag: OrderTag, now: real)
    requires CollisionFree(settings) && StampedIds(settings, s.recentCids, now)
    requires Remembered(settings, s.recentCids, Tags(s.trace), now) && Distinct(Tags(s.trace))
    requires tag.second == now.Floor && t.recentCids == s.recentCids[settings.digest(tag) := now]
    requires Tags(t.trace) == Tags(s.trace)
             || (Tags(t.trace) == Tags(s.trace) + [tag] && tag !in Tags(s.trace)
                 && (tag == Twin(tag) || (Twin(tag) in Tags(s.trace) && settings.digest(Twin(tag)) in s.recentCids)))
    ensures Dedupe(settings, t, now)
  {
    hide Tags;
    forall other | settings.digest(other) in t.recentCids
      ensures t.recentCids[settings.digest(other)].Floor == other.second && t.recentCids[settings.digest(other)] <= now
    {
      if settings.digest(other) == settings.digest(tag) { assert other == tag; }
    }
    var before, after := Tags(s.trace), Tags(t.trace);
    forall other | other in after
      ensures Twin(other) in after && (settings.digest(Twin(other)) in t.recentCids || now.Floor > other.second)
    {
      if other in before { assert Twin(other) in before; }
    }
  }

  /** An id of the present second that is not in the evicted map was never accepted, on either slice. */
  lemma {:induction false} FreshIdUnused(settings: Settings, s: Spot, tag: OrderTag, now: real)
    requires Dedupe(settings, s, now) && tag.second == now.Floor
    requires settings.digest(Twin(tag)) !in s.recentCids
    ensures tag !in Tags(s.trace)
  {
    hide Tags;
  }

  lemma {:induction false} OrdersKeepDedupe(settings: Settings, c: Call, s: Spot, t: Spot)
    requires CollisionFree(settings) && Dedupe(settings, s, c.now)
    requires settings.digest(TagFor(c, 0)) !in s.recentCids && PlacedInOrder(settings, c, FingerprintOf(c), s, t)
    ensures Dedupe(settings, t, c.now)
  {
    hide Tags, CollisionFree, StampedIds, Remembered, Distinct;
    var tag0, tag1 := TagFor(c, 0), TagFor(c, 1);
    FreshIdUnused(settings, s, tag0, c.now);
    FreshIdUnused(settings, s, tag1, c.now);
    if OnePlaced(s, t, tag0, settings.digest(tag0), FingerprintOf(c), c.now) {
      DedupeRecords(settings, s, t, tag0, c.now);
    } else if !NothingPlaced(s, t) {
      var placed := Placed(settings.digest(tag0), tag0, false, 0.0, 0.0, false);
      var mid := s.(recentCids := s.recentCids[settings.digest(tag0) := c.now], trace := s.trace + [placed]);
      TraceSnoc(s.trace, placed);
      DedupeRecords(settings, s, mid, tag0, c.now);
      assert Tags(t.trace) == Tags(s.trace) + [tag0] + [tag1] == Tags(mid.trace) + [tag1];
      assert tag1 !in Tags(mid.trace);
      DedupeRecords(settings, mid, t, tag1, c.now);
    }
  }

  /** A call leaves ids, intents and trace alone or reaches the dedupe stage. */
  lemma {:induction false} UntouchedOrDeduplicated(settings: Settings, s: Spot, c: Call)
    ensures var t, checked := ExecuteIntent(settings, s, c).state, PreSubmitValidate(settings, c.intent, c.quote);
            || (t.recentCids == s.recentCids && t.recentIntents == s.recentIntents && t.trace == s.trace)
            || (&& checked.Validated?
                && t == Deduplicate(settings, s, c, checked.qty, checked.makerPrice, checked.conservativePrice).state)
  {
    hide Deduplicate, PreSubmitValidate, OrderingBlock;
  }

  lemma {:induction false} DeduplicateKeeps(
    settings: Settings, s: Spot, c: Call, qty: real, makerPrice: real, price: real, clock: real)
    requires CollisionFree(settings) && Dedupe(settings, s, clock) && clock <= c.now
    requires PreSubmitValidate(settings, c.intent, c.quote) == Validated(qty, makerPrice, price)
    ensures Dedupe(settings, Deduplicate(settings, s, c, qty, makerPrice, price).state, c.now)
  {
    hide SendOrders, RecordFound, PreSubmitValidate, Tags, Evict, Dedupe, PlacedInOrder, CallEffect, FingerprintOf,
         CollisionFree, TagFor, LatchesKept;
    var e := s.(recentCids := Evict(s.recentCids, c.now), recentIntents := Evict(s.recentIntents, c.now));
    DedupeEvicts(settings, s, e, clock, c.now);
    var t := Deduplicate(settings, s, c, qty, makerPrice, price).state;
    if FingerprintOf(c) !in e.recentIntents && settings.digest(TagFor(c, 0)) !in e.recentCids {
      if c.existing.Found? {
        FoundEffect(settings, e, c, c.existing.order);
        DedupeFound(settings, e, t, c);
      } else if c.existing.NotFound? {
        SendEffect(settings, e, c, qty, makerPrice, price, FingerprintOf(c));
        OrdersKeepDedupe(settings, c, e, t);
      }
    }
  }

  lemma {:induction false} ExecuteKeepsDedupe(settings: Settings, s: Spot, c: Call, clock: real)
    requires CollisionFree(settings) && Dedupe(settings, s, clock) && clock <= c.now
    ensures Dedupe(settings, ExecuteIntent(settings, s, c).state, c.now)
  {
    hide ExecuteIntent, Deduplicate, PreSubmitValidate, Tags, Evict, Dedupe, CollisionFree;
    var t, checked := ExecuteIntent(settings, s, c).state, PreSubmitValidate(settings, c.intent, c.quote);
    UntouchedOrDeduplicated(settings, s, c);
    if t.recentCids == s.recentCids && t.trace == s.trace {
      DedupeEvicts(settings, s, t, clock, c.now);
    } else {
      DeduplicateKeeps(settings, s, c, checked.qty, checked.makerPrice, checked.conservativePrice, clock);
    }
  }

  lemma {:induction false} DedupeFound(settings: Settings, e: Spot, t: Spot, c: Call)
    requires CollisionFree(settings) && Dedupe(settings, e, c.now)
    requires t.trace == e.trace && t.recentCids == e.recentCids[settings.digest(TagFor(c, 0)) := c.now]
    ensures Dedupe(settings, t, c.now)
  {
    hide Tags;
    DedupeRecords(settings, e, t, TagFor(c, 0), c.now);
  }

  lemma {:induction false} ReplayKeepsSending(s: Spot, orders: seq<Order>, fills: seq<FillReport>)
    ensures SameOrders(s, ReplayFills(ReplayOrders(s, orders), fills))
    decreases |orders| + |fills|
  {
    hide ApplyOrderUpdate, ApplyFillUpdate;
    if fills != [] {
      ReplayKeepsSending(s, orders, fills[..|fills| - 1]);
      FillKeepsSending(ReplayFills(ReplayOrders(s, orders), fills[..|fills| - 1]), fills[|fills| - 1]);
    } else if orders != [] {
      ReplayKeepsSending(s, orders[..|orders| - 1], []);
      UpdateKeepsSending(ReplayOrders(s, orders[..|orders| - 1]), orders[|orders| - 1]);
    }
  }

  lemma {:induction false} FillKeepsSending(s: Spot, f: FillReport)
    ensures SameOrders(s, ApplyFillUpdate(s, f))
  {
    hide CountFill;
  }

  lemma {:induction false} OtherActionsSendNothing(settings: Settings, s: Spot, a: Action)
    requires !a.Intend?
    ensures var t := Do(settings, s, a);
            && t.trace == s.trace && t.recentCids == s.recentCids && t.recentIntents == s.recentIntents
            && t.rejects == s.rejects && t.rateLimits == s.rateLimits
            && (s.killed ==> t.killed) && (s.flattenOnly ==> t.flattenOnly)
            && (!(a.Preflight? && PermissionsVerified(settings, a.probe)) ==> t.authValidated == s.authValidated)
  {
    hide ExecuteIntent, ApplyOrderUpdate, ApplyFillUpdate, ReplayOrders, ReplayFills;
    match a
    case ExchangeUpdate(o) => UpdateKeepsSending(s, o);
    case Rehydrate(orders, fills) => ReplayKeepsSending(Cleared(s), orders, fills);
    case _ =>
  }

  lemma {:induction false} RunKeepsDedupe(settings: Settings, actions: seq<Action>)
    requires CollisionFree(settings) && ClockForward(actions)
    ensures Dedupe(settings, Run(settings, actions), Clock(actions))
  {
    hide Do, Dedupe;
    if actions == [] {
      InitialDedupe(settings);
    } else {
      var before, a := actions[..|actions| - 1], actions[|actions| - 1];
      ClockForwardPrefix(actions, |actions| - 1);
      RunKeepsDedupe(settings, before);
      var s := Run(settings, before);
      if a.Intend? {
        ExecuteKeepsDedupe(settings, s, a.call, Clock(before));
        assert Run(settings, actions) == ExecuteIntent(settings, s, a.call).state by { DoIntend(settings, s, a.call); }
        DedupeEvicts(settings, Run(settings, actions), Run(settings, actions), a.call.now, a.call.taker.guardAt);
      } else {
        OtherActionsSendNothing(settings, s, a);
        DedupeEvicts(settings, s, Run(settings, actions), Clock(before), Clock(before));
      }
    }
  }

  lemma {:induction false} DoIntend(settings: Settings, s: Spot, c: Call)
    ensures Do(settings, s, Intend(c)) == ExecuteIntent(settings, s, c).state
  {
    hide ExecuteIntent;
  }

  lemma {:induction false} InitialDedupe(settings: Settings)
    ensures Dedupe(settings, INITIAL, 0.0)
  {
  }

  // ----- No intent fingerprint is sent twice -----

  /** Both dedupe maps after a call, and when it sent something. */
  ghost predicate IntentEffect(s: Spot, c: Call, t: Spot) {
    var kept := Evict(s.recentIntents, c.now);
    || (t.recentIntents == s.recentIntents && Tags(t.trace) == Tags(s.trace))
    || (t.recentIntents == kept && Tags(t.trace) == Tags(s.trace))
    || (t.recentIntents == kept[FingerprintOf(c) := c.now] && FingerprintOf(c) !in kept)
  }

  lemma {:induction false} ExecuteIntents(settings: Settings, s: Spot, c: Call)
    ensures IntentEffect(s, c, ExecuteIntent(settings, s, c).state)
  {
    hide ExecuteIntent, SendOrders, RecordFound, PreSubmitValidate, Tags, Evict, CallEffect, FingerprintOf, LatchesKept;
    var t, checked := ExecuteIntent(settings, s, c).state, PreSubmitValidate(settings, c.intent, c.quote);
    var e := s.(recentCids := Evict(s.recentCids, c.now), recentIntents := Evict(s.recentIntents, c.now));
    UntouchedOrDeduplicated(settings, s, c);
    if t.recentIntents != s.recentIntents || t.trace != s.trace {
      if FingerprintOf(c) !in e.recentIntents && settings.digest(TagFor(c, 0)) !in e.recentCids {
        if c.existing.Found? {
          FoundEffect(settings, e, c, c.existing.order);
        } else if c.existing.NotFound? {
          SendEffect(settings, e, c, checked.qty, checked.makerPrice, checked.conservativePrice, FingerprintOf(c));
        }
      }
    }
  }

  /** Action `k` sent an order that was accepted. */
  ghost predicate Sends(settings: Settings, actions: seq<Action>, k: nat)
    requires k < |actions|
  {
    actions[k].Intend? && Tags(Run(settings, actions[..k + 1]).trace) != Tags(Run(settings, actions[..k]).trace)
  }

  predicate SameIntent(a: Action, b: Action) {
    a.Intend? && b.Intend? && FingerprintOf(a.call) == FingerprintOf(b.call)
  }

  /** The fingerprint is read in the call, and within `delay` seconds of its start. */
  ghost predicate Prompt(actions: seq<Action>, delay: real) {
    forall k :: 0 <= k < |actions| && actions[k].Intend? ==>
      var c := actions[k].call; c.now <= c.fingerprintAt <= c.maker.guardAt && c.fingerprintAt <= c.now + delay
  }

  /** How late a fingerprint may be read: an entry lives 600 seconds from the start of its call, a bucket five. */
  const READING_DELAY := 595.0

  /** A sent fingerprint is still remembered, or its five-second bucket is over. */
  ghost predicate IntentRemembered(s: Spot, c: Call, clock: real) {
    || (FingerprintOf(c) in s.recentIntents && c.fingerprintAt <= s.recentIntents[FingerprintOf(c)] + 595.0)
    || c.fingerprintAt + 5.0 <= clock
  }

  lemma {:induction false} StillRemembered(s: Spot, earlier: Call, c: Call, t: Spot, clock: real)
    requires IntentRemembered(s, earlier, clock) && IntentEffect(s, c, t) && clock <= c.now
    requires c.now <= c.fingerprintAt <= c.now + 595.0
    ensures IntentRemembered(t, earlier, c.now)
    ensures FingerprintOf(earlier) == FingerprintOf(c) ==> Tags(t.trace) == Tags(s.trace)
  {
    hide Tags;
    assert FingerprintOf(earlier) == FingerprintOf(c) ==> c.fingerprintAt < earlier.fingerprintAt + 5.0 by {
      if FingerprintOf(earlier) == FingerprintOf(c) {
        assert (earlier.fingerprintAt / 5.0).Floor == (c.fingerprintAt / 5.0).Floor;
      }
    }
  }

  lemma {:induction false} SentIntentsRemembered(settings: Settings, actions: seq<Action>, k: nat)
    requires ClockForward(actions) && Prompt(actions, READING_DELAY) && k < |actions| && Sends(settings, actions, k)
    ensures IntentRemembered(Run(settings, actions), actions[k].call, Clock(actions))
    ensures forall j :: k < j < |actions| && SameIntent(actions[k], actions[j]) ==> !Sends(settings, actions, j)
    decreases |actions|
  {
    hide Do, ExecuteIntent, IntentEffect, FingerprintOf, Tags, Run;
    var n := |actions| - 1;
    var before := actions[..n];
    RunStep(settings, actions, n);
    assert actions[..n + 1] == actions;
    ClockForwardPrefix(actions, n);
    var s, t := Run(settings, before), Run(settings, actions);
    if k == n {
      var c := actions[n].call;
      DoIntend(settings, s, c);
      ExecuteIntents(settings, s, c);
      JustSent(s, c, t);
    } else {
      assert before[..k + 1] == actions[..k + 1] && before[..k] == actions[..k];
      SentIntentsRemembered(settings, before, k);
      if actions[n].Intend? {
        var c := actions[n].call;
        DoIntend(settings, s, c);
        ExecuteIntents(settings, s, c);
        StillRemembered(s, actions[k].call, c, t, Clock(before));
      } else {
        OtherActionsSendNothing(settings, s, actions[n]);
      }
      forall j | k < j < |actions| && SameIntent(actions[k], actions[j])
        ensures !Sends(settings, actions, j)
      {
        if j < n {
          assert before[j] == actions[j] && before[..j + 1] == actions[..j + 1] && before[..j] == actions[..j];
          assert !Sends(settings, before, j);
        }
      }
    }
  }

  lemma {:induction false} JustSent(s: Spot, c: Call, t: Spot)
    requires IntentEffect(s, c, t) && Tags(t.trace) != Tags(s.trace) && c.fingerprintAt <= c.now + 595.0
    ensures IntentRemembered(t, c, c.taker.guardAt)
  {
    hide Tags, Evict, FingerprintOf;
  }

  /** Main result: as long as fingerprints are read within 595 seconds, no two calls of a run get orders accepted for the
      same intent fingerprint; LateReadingSendsTwice shows that no longer delay would do. */
  lemma {:induction false} IntentsSentAtMostOnce(settings: Settings, actions: seq<Action>, k: nat, j: nat)
    requires ClockForward(actions) && Prompt(actions, READING_DELAY) && k < j < |actions|
    requires Sends(settings, actions, k) && Sends(settings, actions, j)
    ensures FingerprintOf(actions[k].call) != FingerprintOf(actions[j].call)
  {
    hide Run, Tags, FingerprintOf;
    SentIntentsRemembered(settings, actions, k);
  }

  // ----- Orders of a run come from its calls -----

  /** The action that placed entry `i` of the trace, and what its call guarantees about the order. */
  lemma {:induction false} PlacedByCall(settings: Settings, actions: seq<Action>, i: nat) returns (j: nat)
    requires i < |Run(settings, actions).trace| && Run(settings, actions).trace[i].Placed?
    ensures j < |actions| && actions[j].Intend?
    ensures OrderOf(settings, actions[j].call, Run(settings, actions).trace[i])
    ensures |Run(settings, actions[..j]).trace| <= i < |Run(settings, actions[..j + 1]).trace|
    ensures !Run(settings, actions[..j]).killed
    ensures Run(settings, actions[..j]).flattenOnly ==> Run(settings, actions).trace[i].reduceOnly
  {
    hide Do, OrderOf, CallEffect, ExecuteIntent;
    assert actions != [];
    var n := |actions| - 1;
    var before, a := actions[..n], actions[n];
    var s, t := Run(settings, before), Run(settings, actions);
    StepTrace(settings, s, a);
    if i < |s.trace| {
      assert t.trace[i] == t.trace[..|s.trace|][i] == s.trace[i];
      j := PlacedByCall(settings, before, i);
      assert before[..j] == actions[..j] && before[..j + 1] == actions[..j + 1];
    } else {
      j := n;
      assert actions[..j + 1] == actions;
    }
  }

  /** One action extends the trace, by orders of its own call only, and never clears a latch. */
  lemma {:induction false} StepTrace(settings: Settings, s: Spot, a: Action)
    ensures var t := Do(settings, s, a);
            && |s.trace| <= |t.trace| && t.trace[..|s.trace|] == s.trace
            && (s.killed ==> t.killed && t.trace == s.trace) && (s.flattenOnly ==> t.flattenOnly)
            && (!a.Intend? ==> t.trace == s.trace)
            && forall i :: |s.trace| <= i < |t.trace| && t.trace[i].Placed? ==>
                 a.Intend? && OrderOf(settings, a.call, t.trace[i]) && (s.flattenOnly ==> t.trace[i].reduceOnly)
  {
    hide OrderOf, ExecuteIntent, Tracks, RehydrateState, ApplyOrderUpdate, ApplyFillUpdate;
    if a.Intend? {
      ExecuteEffect(settings, s, a.call);
      var t := Do(settings, s, a);
      forall i | |s.trace| <= i < |t.trace| && t.trace[i].Placed?
        ensures OrderOf(settings, a.call, t.trace[i]) && (s.flattenOnly ==> t.trace[i].reduceOnly)
      {
        OrderKeepsMark(settings, a.call, t.trace[i]);
      }
    } else {
      OtherActionsSendNothing(settings, s, a);
    }
  }

  lemma {:induction false} OrderKeepsMark(settings: Settings, c: Call, e: Trace)
    requires e.Placed? && OrderOf(settings, c, e)
    ensures e.cid == settings.digest(e.tag) && e.reduceOnly == c.intent.reduceOnly && e.tag.side == c.intent.side
  {
    hide GuardedBy, FromQuote, Lower;
  }

  lemma {:induction false} PlacedTagIn(trace: seq<Trace>, i: nat)
    requires i < |trace| && trace[i].Placed?
    ensures trace[i].tag in Tags(trace)
  {
    var n := |trace| - 1;
    if i < n {
      PlacedTagIn(trace[..n], i);
    }
  }

  lemma {:induction false} DistinctTagsDistinctOrders(trace: seq<Trace>, i: nat, j: nat)
    requires i < j < |trace| && trace[i].Placed? && trace[j].Placed? && Distinct(Tags(trace))
    ensures trace[i].tag != trace[j].tag
  {
    var n := |trace| - 1;
    var prefix := Tags(trace[..n]);
    assert Tags(trace)[..|prefix|] == prefix;
    if j < n {
      DistinctTagsDistinctOrders(trace[..n], i, j);
    } else {
      PlacedTagIn(trace[..n], i);
      var k :| 0 <= k < |prefix| && prefix[k] == trace[i].tag;
      assert Tags(trace)[k] == prefix[k] && Tags(trace)[|prefix|] == trace[n].tag;
    }
  }

  /** Main result: on every run whose clock never goes back, no two accepted orders carry the same client order id,
      although the memory of ids is evicted after ten minutes. */
  lemma {:induction false} IdsAcceptedAtMostOnce(settings: Settings, actions: seq<Action>, i: nat, j: nat)
    requires CollisionFree(settings) && ClockForward(actions)
    requires i < j < |Run(settings, actions).trace|
    requires Run(settings, actions).trace[i].Placed? && Run(settings, actions).trace[j].Placed?
    ensures Run(settings, actions).trace[i].cid != Run(settings, actions).trace[j].cid
  {
    hide Run, Tags, OrderOf;
    var trace := Run(settings, actions).trace;
    RunKeepsDedupe(settings, actions);
    DistinctTagsDistinctOrders(trace, i, j);
    var a := PlacedByCall(settings, actions, i);
    var b := PlacedByCall(settings, actions, j);
    OrderKeepsMark(settings, actions[a].call, trace[i]);
    OrderKeepsMark(settings, actions[b].call, trace[j]);
  }

  // ----- Authorisation -----

  /** The account's key could be checked under a doctrine in force: the point where a preflight sets the flag. */
  predicate PermissionsVerified(settings: Settings, probe: Probe) {
    && settings.whitelisted && DoctrineReady(settings) && settings.mode != LiveReadonly
    && probe.hasCredentials && probe.permissions == Some(true)
  }

  lemma {:induction false} AuthorisedByPreflight(settings: Settings, actions: seq<Action>) returns (k: nat)
    requires Run(settings, actions).authValidated
    ensures k < |actions| && actions[k].Preflight? && PermissionsVerified(settings, actions[k].probe)
  {
    hide ExecuteIntent, ApplyOrderUpdate, ApplyFillUpdate, RehydrateState, Tracks, OnlyOrdersOf;
    var n := |actions| - 1;
    assert actions != [];
    var s, a := Run(settings, actions[..n]), actions[n];
    if a.Preflight? && PermissionsVerified(settings, a.probe) {
      k := n;
    } else {
      if a.Intend? { ExecuteEffect(settings, s, a.call); } else { OtherActionsSendNothing(settings, s, a); }
      k := AuthorisedByPreflight(settings, actions[..n]);
    }
  }

  /** Nothing is sent unless the mode is live, the doctrine is in force, and a preflight before the call that sent it had
      verified the permissions of the key. Whether that preflight then succeeded does not matter. */
  lemma {:induction false} NothingSentUnauthorised(
    settings: Settings, actions: seq<Action>, i: nat) returns (j: nat, k: nat)
    requires i < |Run(settings, actions).trace| && Run(settings, actions).trace[i].Placed?
    ensures settings.mode == Live && DoctrineReady(settings)
    ensures k < j < |actions| && actions[j].Intend?
    ensures actions[k].Preflight? && PermissionsVerified(settings, actions[k].probe)
    ensures |Run(settings, actions[..j]).trace| <= i < |Run(settings, actions[..j + 1]).trace|
  {
    hide Run, ExecuteIntent, SeenBefore, PreSubmitValidate, Stopped, PermissionsVerified, DoctrineReady;
    j := PlacedByCall(settings, actions, i);
    var s, c := Run(settings, actions[..j]), actions[j].call;
    RunStep(settings, actions, j);
    DoIntend(settings, s, c);
    if OrderingBlock(settings, s.authValidated).Some? { GateHolds(settings, s, c); }
    k := AuthorisedByPreflight(settings, actions[..j]);
  }

  /** A preflight succeeds when, past the permissions, leverage is zero and every symbol of the universe passes. */
  lemma {:induction false} PreflightSucceedsIff(settings: Settings, probe: Probe)
    ensures PreflightOf(settings, probe) == Ready
       <==> && PermissionsVerified(settings, probe) && settings.leverageIsZero && probe.info.Some?
            && forall symbol :: symbol in settings.universe ==>
                 CheckSymbol(probe.info.value, symbol, probe.look(symbol)) == Ready
  {
    if probe.info.Some? {
      SymbolsPassIff(probe.info.value, settings.universe, probe.look);
    }
  }

  lemma {:induction false} SymbolsPassIff(info: map<string, Listing>, symbols: seq<string>, look: string -> Look)
    ensures CheckSymbols(info, symbols, look) == Ready
       <==> forall symbol :: symbol in symbols ==> CheckSymbol(info, symbol, look(symbol)) == Ready
    decreases symbols
  {
    hide CheckSymbol;
    if symbols != [] {
      SymbolsPassIff(info, symbols[1..], look);
      assert symbols == [symbols[0]] + symbols[1..];
    }
  }

  /** About the service alone, since the program around it stops after a failed preflight: one that does not succeed
      authorises ordering all the same exactly when the permissions were verified, because the flag is set before
      leverage, symbols and inventory are looked at. */
  lemma {:induction false} FailedPreflightAuthorisesIff(settings: Settings, s: Spot, probe: Probe)
    requires !s.authValidated && PreflightOf(settings, probe) != Ready
    ensures AfterPreflight(settings, s, probe).authValidated <==> PermissionsVerified(settings, probe)
    ensures settings.mode == Live ==>
              (OrderingBlock(settings, AfterPreflight(settings, s, probe).authValidated) == None
               <==> PermissionsVerified(settings, probe))
  {
    hide DoctrineReady, CheckSymbols;
  }

  /** And then execute_intent would send the next admissible intent. */
  lemma {:induction false} FailedPreflightStillSends(settings: Settings, probe: Probe, c: Call)
    requires settings.mode == Live && PermissionsVerified(settings, probe) && PreflightOf(settings, probe) != Ready
    requires c.now >= 0.0 && PreSubmitValidate(settings, c.intent, c.quote).Validated? && c.existing.NotFound?
    requires c.maker.previewOk && c.maker.place.Took?
    ensures var trace := Run(settings, [Preflight(probe), Intend(c)]).trace;
            trace != [] && trace[0].Placed? && trace[0].tag == TagFor(c, 0)
  {
    var actions := [Preflight(probe), Intend(c)];
    var ready := INITIAL.(authValidated := true);
    assert Run(settings, actions[..1]) == ready by {
      assert actions[..1][..0] == [];
      assert AfterPreflight(settings, INITIAL, probe) == ready by { hide PreflightOf, DoctrineReady; }
    }
    hide Run, PreSubmitValidate, SubmitLimitOrder, Fallback, Apply;
    RunStep(settings, actions, 1);
    assert actions[..2] == actions;
    DoIntend(settings, ready, c);
    var v := PreSubmitValidate(settings, c.intent, c.quote);
    AdmittedCallPlaces(settings, ready, c, v.qty, v.makerPrice, v.conservativePrice);
  }

  lemma {:induction false} AdmittedCallPlaces(
    settings: Settings, s: Spot, c: Call, qty: real, makerPrice: real, price: real)
    requires s.trace == [] && s.recentCids == map[] && s.recentIntents == map[]
    requires PreSubmitValidate(settings, c.intent, c.quote) == Validated(qty, makerPrice, price)
    requires c.existing.NotFound? && c.maker.previewOk && c.maker.place.Took?
    ensures var trace := Deduplicate(settings, s, c, qty, makerPrice, price).state.trace;
            trace != [] && trace[0].Placed? && trace[0].tag == TagFor(c, 0)
  {
    var fp, tag := FingerprintOf(c), TagFor(c, 0);
    var e := s.(recentCids := Evict(s.recentCids, c.now), recentIntents := Evict(s.recentIntents, c.now));
    var submitted := Notify(e, SubmitEvent(c.intent.symbol, settings.digest(tag)));
    var sent := if c.intent.style == Marketable then price else makerPrice;
    FirstOrderSent(settings, submitted, c, tag, fp, qty, sent);
    var made := SubmitLimitOrder(settings, submitted, c.intent, tag, c.now, fp, qty, sent, c.maker);
    hide SubmitLimitOrder, Apply, PreSubmitValidate, Fallback;
    if c.intent.style != Marketable && made.status == TimeoutOrder {
      FallbackEffect(settings, made.state, c, qty, fp);
      var t := Fallback(settings, made.state, c, qty, fp).state;
      assert t.trace[0] == t.trace[..|made.state.trace|][0] == made.state.trace[0];
    }
  }

  lemma {:induction false} FirstOrderSent(
    settings: Settings, s: Spot, c: Call, tag: OrderTag, fp: Fingerprint, qty: real, sent: real)
    requires s.trace == [] && c.maker.previewOk && c.maker.place.Took?
    ensures var trace := SubmitLimitOrder(settings, s, c.intent, tag, c.now, fp, qty, sent, c.maker).state.trace;
            trace != [] && trace[0].Placed? && trace[0].tag == tag
  {
    hide AfterPlaced, RecordPlaced, TagFor, LatchesKept, Quiet;
    var cid, order := settings.digest(tag), c.maker.place.order;
    var placed := Placed(cid, tag, false, qty, sent, c.intent.reduceOnly);
    RecordEffect(s, order, cid, fp, c.now, placed);
    AfterPlacedEffect(settings, RecordPlaced(s, order, cid, fp, c.now, placed), c.intent, cid, order, c.maker);
  }

  const LEVERAGED :=
    Settings(Live, true, true, true, true, true, true, false, ["XBTUSD"], Doctrine(true, true, true, 120.0),
             CostModel(0.0, 0.0), 0, (tag: OrderTag) => "id")

  const KEY_CHECKED := Probe(true, Some(true), None, (symbol: string) => Look(None, None, [], None))

  const SMALL_BUY: Call :=
    var quote := Quote(Some(Book(true, true, 0.0, 0.0, 100.0, 101.0)), (x: real) => Some(x), (x: real) => Some(x),
                       Snapshot([], None), Snapshot([], None));
    var stage := Stage(true, Took(Order("XBTUSD", "", "id", NEW, false)), History([]), 0.0, [], CancelDone, 0.0, 0.0);
    Call(Intent("XBTUSD", "buy", 101.0, false, true, false, false, Marketable, 0.0), 0.0, 0.0, 0.0, quote, NotFound,
         History([]), stage, quote, stage)

  /** A concrete case: leverage is set, the preflight gives that as its refusal, and the buy after it is sent. */
  lemma {:induction false} LeveragedPreflightStillSends()
    ensures PreflightOf(LEVERAGED, KEY_CHECKED) == LeverageNotZero
    ensures Run(LEVERAGED, [Preflight(KEY_CHECKED), Intend(SMALL_BUY)]).trace != []
  {
    SmallBuyIsValid(LEVERAGED);
    hide Run, PreSubmitValidate, CheckSymbols, TagFor;
    FailedPreflightStillSends(LEVERAGED, KEY_CHECKED, SMALL_BUY);
  }

  lemma {:induction false} SmallBuyIsValid(settings: Settings)
    ensures PreSubmitValidate(settings, SMALL_BUY.intent, SMALL_BUY.quote) == Validated(1.0, 100.0, 101.0)
  {
    BuyIsLower();
    hide Lower, GuardOf;
  }

  lemma {:induction false} BuyIsLower()
    ensures Lower("buy") == "buy"
  {
    assert "buy"[1..] == "uy" && "uy"[1..] == "y" && "y"[1..] == "";
    assert Lower("y") == "y";
    assert Lower("uy") == "uy";
  }

  // ----- Fingerprints read too late -----

  /** A small buy made at `now`, its fingerprint read at `read`: filled at once, the booking of its fills fails. */
  function BuyAt(now: real, read: real): Call {
    var stage := SMALL_BUY.maker.(place := Took(Order("XBTUSD", "", "id", FILLED, false)),
                                  booking := BookingRaised(false), guardAt := read);
    SMALL_BUY.(now := now, fingerprintAt := read, maker := stage, taker := stage)
  }

  /** A service that is authorised and latched nowhere, all of whose remembered calls were made at `at`. */
  ghost predicate OpenSince(s: Spot, at: real) {
    && !s.killed && !s.safeMode && !s.flattenOnly && s.authValidated && s.cooldownUntil == 0.0
    && (forall id :: id in s.recentCids ==> s.recentCids[id] == at)
    && (forall fp :: fp in s.recentIntents ==> s.recentIntents[fp] == at)
  }

  /** A fill that is placed at once and whose booking raises only records the order. */
  lemma {:induction false} FilledOrderRecorded(
    settings: Settings, s: Spot, c: Call, fp: Fingerprint, now: real, read: real)
    requires c == BuyAt(now, read)
    ensures var t := SendOrders(settings, s, c, 1.0, 100.0, 101.0, fp).state;
            && t.killed == s.killed && t.safeMode == s.safeMode && t.flattenOnly == s.flattenOnly
            && t.authValidated == s.authValidated && t.cooldownUntil == s.cooldownUntil
            && t.recentCids == s.recentCids[settings.digest(TagFor(c, 0)) := now]
            && t.recentIntents == s.recentIntents[fp := now]
            && Tags(t.trace) == Tags(s.trace) + [TagFor(c, 0)]
  {
    hide Apply, ApplyOrderUpdate, TagFor, Tags, Fallback;
    var cid := settings.digest(TagFor(c, 0));
    var submitted, placed := Notify(s, SubmitEvent("XBTUSD", cid)), Placed(cid, TagFor(c, 0), false, 1.0, 101.0, false);
    UpdateKeepsSending(submitted.(trace := submitted.trace + [placed]), c.maker.place.order);
    TraceSnoc(s.trace, placed);
  }

  lemma {:induction false} OpenServiceSends(settings: Settings, s: Spot, at: real, now: real, read: real)
    requires settings.mode == Live && DoctrineReady(settings) && OpenSince(s, at) && at + DEDUPE_TTL < now && now >= 0.0
    ensures var t := ExecuteIntent(settings, s, BuyAt(now, read)).state;
            OpenSince(t, now) && Tags(t.trace) == Tags(s.trace) + [TagFor(BuyAt(now, read), 0)]
  {
    hide DoctrineReady, PreSubmitValidate, SendOrders, FingerprintOf, TagFor, Tags;
    var c := BuyAt(now, read);
    SmallBuyIsValid(settings);
    var e := s.(recentCids := Evict(s.recentCids, now), recentIntents := Evict(s.recentIntents, now));
    assert e.recentCids == map[] && e.recentIntents == map[];
    FilledOrderRecorded(settings, e, c, FingerprintOf(c), now, read);
  }

  lemma {:induction false} JustAuthorised(settings: Settings, probe: Probe, at: real)
    requires PermissionsVerified(settings, probe)
    ensures OpenSince(Run(settings, [Preflight(probe)]), at)
  {
    hide DoctrineReady, CheckSymbols;
    assert [Preflight(probe)][..0] == [];
    assert Run(settings, [Preflight(probe)][..0]) == INITIAL;
  }

  lemma {:induction false} LateRunIsTimed(probe: Probe, first: Call, second: Call, delay: real)
    requires WellTimed(first, 0.0) && WellTimed(second, first.taker.guardAt)
    requires first.now <= first.fingerprintAt <= first.maker.guardAt && first.fingerprintAt <= first.now + delay
    requires second.now <= second.fingerprintAt <= second.maker.guardAt && second.fingerprintAt <= second.now + delay
    ensures var actions := [Preflight(probe), Intend(first), Intend(second)];
            ClockForward(actions) && Prompt(actions, delay)
  {
    var actions := [Preflight(probe), Intend(first), Intend(second)];
    assert actions[..1][..0] == [] && actions[..2][..1] == actions[..1];
    assert Clock(actions[..1]) == 0.0 by { assert Clock(actions[..1][..0]) == 0.0; }
    assert Clock(actions[..2]) == first.taker.guardAt;
  }

  lemma {:induction false} BothSend(
    settings: Settings, probe: Probe, now: real, read: real, late: real) returns (actions: seq<Action>)
    requires settings.mode == Live && PermissionsVerified(settings, probe)
    requires 0.0 <= now && now + DEDUPE_TTL < late
    ensures actions == [Preflight(probe), Intend(BuyAt(now, read)), Intend(BuyAt(late, late))]
    ensures Sends(settings, actions, 1) && Sends(settings, actions, 2)
  {
    actions := [Preflight(probe), Intend(BuyAt(now, read)), Intend(BuyAt(late, late))];
    var at := now - DEDUPE_TTL - 1.0;
    hide Run, Do, ExecuteIntent, Tags, OpenSince, DoctrineReady, BuyAt, TagFor;
    JustAuthorised(settings, probe, at);
    assert actions[..1] == [Preflight(probe)];
    RunStep(settings, actions, 1);
    RunStep(settings, actions, 2);
    DoIntend(settings, Run(settings, actions[..1]), BuyAt(now, read));
    DoIntend(settings, Run(settings, actions[..2]), BuyAt(late, late));
    OpenServiceSends(settings, Run(settings, actions[..1]), at, now, read);
    OpenServiceSends(settings, Run(settings, actions[..2]), now, late, late);
  }

  /** The 595 seconds are exact: past them, by however little, there is a run on which two calls send under one
      fingerprint. */
  lemma {:induction false} LateReadingSendsTwice(settings: Settings, probe: Probe, delay: real)
    returns (actions: seq<Action>)
    requires settings.mode == Live && PermissionsVerified(settings, probe) && delay > READING_DELAY
    ensures |actions| == 3 && ClockForward(actions) && Prompt(actions, delay)
    ensures Sends(settings, actions, 1) && Sends(settings, actions, 2) && SameIntent(actions[1], actions[2])
  {
    hide Sends, ClockForward, Prompt, PermissionsVerified;
    var bucket := (delay / 5.0).Floor + 1;
    var read := bucket as real * 5.0;
    var slack := if delay - READING_DELAY < 5.0 then (delay - READING_DELAY) / 2.0 else 2.5;
    var late := read + 5.0 - slack;
    assert (late / 5.0).Floor == bucket && (read / 5.0).Floor == bucket;
    actions := BothSend(settings, probe, read - delay, read, late);
    LateRunIsTimed(probe, BuyAt(read - delay, read), BuyAt(late, late), delay);
  }

  // ----- Latches -----

  /** Main result: from any point of a run on, a killed service sends and tracks nothing more, a flatten-only
      service sends only reduce-only orders, and neither latch is ever cleared. */
  lemma {:induction false} LatchesHold(settings: Settings, actions: seq<Action>, k: nat)
    requires k <= |actions|
    ensures var s, t := Run(settings, actions[..k]), Run(settings, actions);
            && |s.trace| <= |t.trace| && t.trace[..|s.trace|] == s.trace
            && (s.killed ==> t.killed && t.trace == s.trace)
            && (s.flattenOnly ==>
                  t.flattenOnly
                  && forall i :: |s.trace| <= i < |t.trace| && t.trace[i].Placed? ==> t.trace[i].reduceOnly)
  {
    hide Do, OrderOf;
    if k == |actions| {
      assert actions[..k] == actions;
    } else {
      var n := |actions| - 1;
      LatchesHold(settings, actions[..n], k);
      assert actions[..n][..k] == actions[..k];
      var s, m, t := Run(settings, actions[..k]), Run(settings, actions[..n]), Run(settings, actions);
      StepTrace(settings, m, actions[n]);
      assert t.trace[..|s.trace|] == t.trace[..|m.trace|][..|s.trace|];
      forall i | s.flattenOnly && |s.trace| <= i < |t.trace| && t.trace[i].Placed? ensures t.trace[i].reduceOnly {
        if i < |m.trace| { assert t.trace[i] == t.trace[..|m.trace|][i] == m.trace[i]; }
      }
    }
  }

  lemma {:induction false} RunStep(settings: Settings, actions: seq<Action>, k: nat)
    requires k < |actions|
    ensures Run(settings, actions[..k + 1]) == Do(settings, Run(settings, actions[..k]), actions[k])
  {
    hide Do;
    assert actions[..k + 1][..k] == actions[..k];
  }

  // ----- Sells -----

  /** The quote an order was validated on. */
  lemma {:induction false} QuoteOf(settings: Settings, c: Call, e: Trace) returns (quote: Quote)
    requires e.Placed? && OrderOf(settings, c, e)
    ensures (quote == c.quote || quote == c.refreshed) && FromQuote(settings, c, quote, e)
    ensures Lower(c.intent.side) == "sell" ==> GuardedBy(settings, c, quote, e)
  {
    hide GuardedBy, FromQuote, Lower;
    quote := QuoteFor(c, e.tag);
  }

  /** Main result: every order accepted on a run carries the quantity of a passed validation of the call that sent it;
      a sell is a reduce-only limit order, and that quantity passed the guard on that same quote. */
  lemma {:induction false} OrdersAreValidatedSellsAreGuarded(settings: Settings, actions: seq<Action>, i: nat)
    returns (j: nat, quote: Quote)
    requires i < |Run(settings, actions).trace| && Run(settings, actions).trace[i].Placed?
    ensures j < |actions| && actions[j].Intend?
    ensures quote == actions[j].call.quote || quote == actions[j].call.refreshed
    ensures quote.book.Some?
    ensures var e, c, book := Run(settings, actions).trace[i], actions[j].call, quote.book.value;
            && FromQuote(settings, c, quote, e) && e.qty > 0.0 && e.qty >= book.minQty
            && (Lower(e.tag.side) == "sell" ==>
                  !e.market && e.reduceOnly && GuardOf(settings, quote, e.qty, book.bid, book.ask) == Pass)
  {
    hide Run, GuardOf, PreSubmitValidate;
    j := PlacedByCall(settings, actions, i);
    var c, e := actions[j].call, Run(settings, actions).trace[i];
    OrderKeepsMark(settings, c, e);
    quote := QuoteOf(settings, c, e);
    ValidatedOrdersFit(settings, c.intent, quote);
  }

  lemma {:induction false} EarnsTheFloor(settings: Settings, quote: Quote, fill: Row)
    requires quote.book.Some? && fill.side == Sell && fill.qty > 0.0
    requires GuardOf(settings, quote, fill.qty, quote.book.value.bid, quote.book.value.ask) == Pass
    requires OnQuotedTerms(settings.costs, fill, quote.book.value.bid, quote.book.value.ask)
    ensures var rows := quote.second.rows;
            && Replay(rows).Ledger? && Replay(rows + [fill]).Ledger?
            && Replay(rows + [fill]).realized - Replay(rows).realized
               >= Floor(settings.doctrine) * TakeFifo(Replay(rows).lots, fill.qty).basis
  {
    hide OnQuotedTerms, Replay, TakeFifo, Floor, SellProfitGuard, Peek;
    var rows, book := quote.second.rows, quote.book.value;
    assert rows + [] + [fill] == rows + [fill];
    GuardedSellEarnsFloor(settings.doctrine, settings.costs, AuthoritativeInventory(quote.first.rows, quote.first.balance),
                          rows, quote.second.balance, [], fill, book.bid, book.ask);
  }

  /** End to end: such a sell, once filled whole at the bid or better and within the modelled exit cost, raises the
      realised profit of the history it was guarded on by at least the doctrine's floor (never under 1.2%) of the basis
      it consumes. */
  lemma {:induction false} SentSellsEarnTheFloor(settings: Settings, actions: seq<Action>, i: nat, fill: Row)
    returns (quote: Quote)
    requires i < |Run(settings, actions).trace| && Run(settings, actions).trace[i].Placed?
    requires Lower(Run(settings, actions).trace[i].tag.side) == "sell"
    requires fill.side == Sell && fill.qty == Run(settings, actions).trace[i].qty
    ensures exists j ::
              && 0 <= j < |actions| && actions[j].Intend?
              && (quote == actions[j].call.quote || quote == actions[j].call.refreshed)
    ensures quote.book.Some?
    ensures var book, rows := quote.book.value, quote.second.rows;
            OnQuotedTerms(settings.costs, fill, book.bid, book.ask) ==>
                && Replay(rows).Ledger? && Replay(rows + [fill]).Ledger?
                && Replay(rows + [fill]).realized - Replay(rows).realized
                   >= Floor(settings.doctrine) * TakeFifo(Replay(rows).lots, fill.qty).basis
  {
    hide Run, GuardOf, OnQuotedTerms, Replay, TakeFifo, Floor;
    var j;
    j, quote := OrdersAreValidatedSellsAreGuarded(settings, actions, i);
    var book := quote.book.value;
    if OnQuotedTerms(settings.costs, fill, book.bid, book.ask) {
      EarnsTheFloor(settings, quote, fill);
    }
  }

  /** The same for an order filled in pieces: on the lattice, the pieces of a sell of a run keep the floor on the history it
      was guarded on, whatever they are, exactly when the lot boundaries inside the order are safe. */
  lemma {:induction false} SentSellsKeepFloorInPiecesIff(settings: Settings, actions: seq<Action>, i: nat)
    returns (j: nat, quote: Quote)
    requires i < |Run(settings, actions).trace| && Run(settings, actions).trace[i].Placed?
    requires Lower(Run(settings, actions).trace[i].tag.side) == "sell"
    ensures j < |actions| && actions[j].Intend?
    ensures (quote == actions[j].call.quote || quote == actions[j].call.refreshed) && quote.book.Some?
    ensures var book, rows, qty := quote.book.value, quote.second.rows, Run(settings, actions).trace[i].qty;
            var price, f := NetPrice(settings.costs, book.bid, book.ask), Floor(settings.doctrine);
            R.Lattice(rows) && R.OnLattice(qty) ==>
              && Replay(rows).Ledger?
              && (SafeAtBoundaries(Margins(Replay(rows).lots, price, 1.0 + f), qty, 0.0)
                  <==> forall fills ::
                         AllAtGuardTerms(settings.costs, fills, book.bid, book.ask) && ProfitGuard.Filled(fills) <= qty
                         ==> EarnsFloor(rows, fills, f))
  {
    hide Run, Replay, Floor, SafeAtBoundaries, Margins, NetPrice, AllAtGuardTerms, ProfitGuard.Filled, EarnsFloor, SellProfitGuard,
         AuthoritativeInventory, R.Lattice, R.OnLattice, FromQuote, Lower;
    j, quote := OrdersAreValidatedSellsAreGuarded(settings, actions, i);
    var book, rows, qty := quote.book.value, quote.second.rows, Run(settings, actions).trace[i].qty;
    if R.Lattice(rows) && R.OnLattice(qty) {
      GuardedPiecesKeepFloorIff(settings.doctrine, settings.costs,
                                AuthoritativeInventory(quote.first.rows, quote.first.balance), rows, quote.second.balance,
                                qty, book.bid, book.ask);
    }
  }

  // ----- Storms -----

  /** Readings in the closed minute that starts at `from`. */
  function Within(times: seq<real>, from: real): seq<real> {
    if times == [] then []
    else
      var last := times[|times| - 1];
      Within(times[..|times| - 1], from) + if from <= last <= from + 60.0 then [last] else []
  }

  lemma {:induction false} RecentShorter(times: seq<real>, at: real)
    ensures |Recent(times, at)| <= |times|
  {
    if times != [] { RecentShorter(times[..|times| - 1], at); }
  }

  lemma {:induction false} RecentSnoc(times: seq<real>, x: real, at: real)
    ensures Recent(times + [x], at) == Recent(times, at) + if at - x <= STORM_WINDOW then [x] else []
  {
    assert (times + [x])[..|times|] == times;
  }

  /** Dropping by an earlier reading first changes nothing. */
  lemma {:induction false} RecentTwice(times: seq<real>, first: real, until: real)
    requires first <= until
    ensures Recent(Recent(times, first), until) == Recent(times, until)
  {
    if times != [] {
      var n := |times| - 1;
      RecentTwice(times[..n], first, until);
      var kept := Recent(times[..n], first);
      if first - times[n] <= STORM_WINDOW {
        RecentSnoc(kept, times[n], until);
        assert Recent(times, first) == kept + [times[n]];
      } else {
        assert Recent(times, first) == kept;
      }
    }
  }

  lemma {:induction false} WithinAreRecent(times: seq<real>, from: real, at: real)
    requires from <= at <= from + STORM_WINDOW
    ensures |Within(times, from)| <= |Recent(times, at)|
  {
    if times != [] { WithinAreRecent(times[..|times| - 1], from, at); }
  }

  /** A tracker holds exactly the readings of the last minute; at the limit the service is killed. */
  ghost predicate Tracking(history: seq<real>, tracker: seq<real>, limit: nat, killed: bool, clock: real) {
    && (forall i :: 0 <= i < |history| ==> history[i] <= clock)
    && tracker == (if history == [] then [] else Recent(history, history[|history| - 1]))
    && (!killed ==> |tracker| <= limit)
    && WindowsBounded(history, limit + 1)
  }

  ghost predicate WindowsBounded(history: seq<real>, most: nat) {
    forall from: real :: |Within(history, from)| <= most
  }

  lemma {:induction false} WindowsSnoc(history: seq<real>, at: real, most: nat)
    requires WindowsBounded(history, most) && |Recent(history + [at], at)| <= most
    ensures WindowsBounded(history + [at], most)
  {
    hide Within, Recent;
    var longer := history + [at];
    forall from: real ensures |Within(longer, from)| <= most {
      assert |Within(history, from)| <= most;
      if from <= at <= from + STORM_WINDOW { WithinAreRecent(longer, from, at); } else { WithinSnoc(history, at, from); }
    }
  }

  lemma {:induction false} WithinSnoc(times: seq<real>, x: real, from: real)
    requires !(from <= x <= from + STORM_WINDOW)
    ensures Within(times + [x], from) == Within(times, from)
  {
    assert (times + [x])[..|times|] == times;
  }

  lemma {:induction false} TrackerStep(
    history: seq<real>, tracker: seq<real>, limit: nat, killed: bool, clock: real, at: real, after: seq<real>)
    requires Tracking(history, tracker, limit, false, clock) && clock <= at
    requires after == Recent(tracker + [at], at) && (!killed ==> |after| <= limit)
    ensures Tracking(history + [at], after, limit, killed, at)
  {
    hide Within, Recent, WindowsBounded;
    RecentSnoc(tracker, at, at);
    RecentSnoc(history, at, at);
    RecentShorter(tracker, at);
    if history == [] { NoRecent(at); } else { RecentTwice(history, history[|history| - 1], at); }
    assert after == Recent(history + [at], at);
    WindowsSnoc(history, at, limit + 1);
  }

  lemma {:induction false} NoRecent(at: real)
    ensures Recent([], at) == []
  {
  }

  lemma {:induction false} TrackerWaits(
    history: seq<real>, tracker: seq<real>, limit: nat, killed: bool, later: bool, clock: real, until: real)
    requires Tracking(history, tracker, limit, killed, clock) && clock <= until && (killed ==> later)
    ensures Tracking(history, tracker, limit, later, until)
  {
  }

  ghost predicate StormTracked(s: Spot, clock: real) {
    && Tracking(RejectTimes(s.trace), s.rejects, MAX_REJECTS, s.killed, clock)
    && Tracking(RateLimitTimes(s.trace), s.rateLimits, MAX_RATE_HITS, s.killed, clock)
  }

  lemma {:induction false} TrackedStep(s: Spot, t: Spot, clock: real, at: real)
    requires StormTracked(s, clock) && clock <= at && Tracks(s, t, at) && !s.killed
    ensures StormTracked(t, at)
  {
    hide Tracking, Recent, RejectTimes, RateLimitTimes;
    var hits, rate := RejectTimes(s.trace), RateLimitTimes(s.trace);
    if OneReject(s, t, at) {
      TrackerStep(hits, s.rejects, MAX_REJECTS, t.killed, clock, at, t.rejects);
      TrackerWaits(rate, s.rateLimits, MAX_RATE_HITS, s.killed, t.killed, clock, at);
    } else if OneRateHit(s, t, at) {
      TrackerWaits(hits, s.rejects, MAX_REJECTS, s.killed, t.killed, clock, at);
      TrackerStep(rate, s.rateLimits, MAX_RATE_HITS, t.killed, clock, at, t.rateLimits);
    } else {
      TrackerWaits(hits, s.rejects, MAX_REJECTS, s.killed, t.killed, clock, at);
      TrackerWaits(rate, s.rateLimits, MAX_RATE_HITS, s.killed, t.killed, clock, at);
    }
  }

  lemma {:induction false} TrackedWaits(s: Spot, t: Spot, clock: real, until: real)
    requires StormTracked(s, clock) && clock <= until && t.trace == s.trace && (s.killed ==> t.killed)
    requires t.rejects == s.rejects && t.rateLimits == s.rateLimits
    ensures StormTracked(t, until)
  {
    hide Tracking, RejectTimes, RateLimitTimes;
    TrackerWaits(RejectTimes(s.trace), s.rejects, MAX_REJECTS, s.killed, t.killed, clock, until);
    TrackerWaits(RateLimitTimes(s.trace), s.rateLimits, MAX_RATE_HITS, s.killed, t.killed, clock, until);
  }

  lemma {:induction false} RunIsTracked(settings: Settings, actions: seq<Action>)
    requires ClockForward(actions)
    ensures StormTracked(Run(settings, actions), Clock(actions))
  {
    hide Do, ExecuteIntent, StormTracked, Tracks, OnlyOrdersOf;
    if actions == [] {
      InitialTracked();
    } else {
      var before, a := actions[..|actions| - 1], actions[|actions| - 1];
      ClockForwardPrefix(actions, |actions| - 1);
      RunIsTracked(settings, before);
      var s, t := Run(settings, before), Run(settings, actions);
      if !a.Intend? {
        OtherActionsSendNothing(settings, s, a);
        TrackedWaits(s, t, Clock(before), Clock(before));
      } else {
        var c := a.call;
        DoIntend(settings, s, c);
        ExecuteEffect(settings, s, c);
        if s.killed {
          TrackedWaits(s, t, Clock(before), c.taker.guardAt);
        } else if Tracks(s, t, c.taker.guardAt) {
          TrackedStep(s, t, Clock(before), c.taker.guardAt);
        } else {
          TrackedStep(s, t, Clock(before), c.maker.guardAt);
          TrackedWaits(t, t, c.maker.guardAt, c.taker.guardAt);
        }
      }
    }
  }

  lemma {:induction false} InitialTracked()
    ensures StormTracked(INITIAL, 0.0)
  {
  }

  /** Main result: on every run whose clock never goes back, every closed minute holds at most six tracked rejections
      and at most four tracked rate-limit hits. */
  lemma {:induction false} StormsAreBounded(settings: Settings, actions: seq<Action>, from: real)
    requires ClockForward(actions)
    ensures |Within(RejectTimes(Run(settings, actions).trace), from)| <= 6
    ensures |Within(RateLimitTimes(Run(settings, actions).trace), from)| <= 4
  {
    hide Run, RejectTimes, RateLimitTimes, Within;
    RunIsTracked(settings, actions);
  }

  lemma {:induction false} RecentAreWithin(times: seq<real>, at: real)
    requires forall i :: 0 <= i < |times| ==> times[i] <= at
    ensures Recent(times, at) == Within(times, at - 60.0)
  {
    if times != [] { RecentAreWithin(times[..|times| - 1], at); }
  }

  /** What the tracker holds after one more reading: those of the last minute of the whole history. */
  lemma {:induction false} TrackedReadings(
    history: seq<real>, tracker: seq<real>, limit: nat, clock: real, at: real)
    requires Tracking(history, tracker, limit, false, clock) && clock <= at
    ensures Recent(tracker + [at], at) == Within(history + [at], at - 60.0)
  {
    hide Within, Recent, WindowsBounded;
    RecentSnoc(tracker, at, at);
    RecentSnoc(history, at, at);
    if history == [] { NoRecent(at); } else { RecentTwice(history, history[|history| - 1], at); }
    RecentAreWithin(history + [at], at);
  }

  /** Main result: on every run exactly the sixth rejection and the fourth rate-limit hit within sixty seconds kill: one more
      at `at` sets the latch if and only if, with it, the last minute holds so many. */
  lemma {:induction false} StormKillsIff(settings: Settings, actions: seq<Action>, limited: bool, at: real, killAt: real)
    requires ClockForward(actions) && Clock(actions) <= at && !Run(settings, actions).killed
    ensures var s := Run(settings, actions);
            RejectGuard(s, limited, at, killAt).state.killed
            <==> if limited then |Within(RateLimitTimes(s.trace) + [at], at - 60.0)| >= 4
                 else |Within(RejectTimes(s.trace) + [at], at - 60.0)| >= 6
  {
    hide Run, Within, Recent, RejectTimes, RateLimitTimes, WindowsBounded;
    var s := Run(settings, actions);
    RunIsTracked(settings, actions);
    if limited {
      TrackedReadings(RateLimitTimes(s.trace), s.rateLimits, MAX_RATE_HITS, Clock(actions), at);
    } else {
      TrackedReadings(RejectTimes(s.trace), s.rejects, MAX_REJECTS, Clock(actions), at);
    }
  }
}
