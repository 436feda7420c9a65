/** Two ids name one order: the client id from the start, the exchange id once an accepted event taught
    it. As long as events respect that, the mirror is an ideal mirror keyed by the true order. */
module AliasRefinement {
  import opened FifoLedger
  import opened OrderLifecycle

  /** `owner` sends every id to the client id of its order; client ids own themselves. */
  predicate IsClient(owner: string -> string, id: string) {
    owner(id) == id
  }

  // ----- The ideal mirror -----

  type Ideal = map<string, State>

  function IdealOutcome(ideal: Ideal, order: string, to: State): Outcome {
    if order !in ideal then Done
    else if ideal[order] == to then DuplicateEvent
    else if Legal(ideal[order], to) then Done
    else OutOfOrderEvent
  }

  function IdealApply(ideal: Ideal, order: string, to: State): Ideal {
    if IdealOutcome(ideal, order, to) == Done then ideal[order := to] else ideal
  }

  // ----- Events that respect ownership -----

  /** The event is keyed by a client id, or by an exchange id some accepted event already taught; the ids it
      carries belong to one order, and an exchange id is never a client id. */
  ghost predicate Carries(owner: string -> string, m: Mirror, e: Event) {
    && (IsClient(owner, e.orderKey) || e.orderKey in m.aliases)
    && IsClient(owner, owner(e.orderKey))
    && (e.orderId != "" ==> owner(e.orderId) == owner(e.orderKey) && !IsClient(owner, e.orderId))
    && (e.clientOrderId != "" ==> e.clientOrderId == owner(e.orderKey))
  }

  /** The mirror is keyed by client ids only, knows no wrong alias, and holds the ideal states. */
  ghost predicate Refines(owner: string -> string, m: Mirror, ideal: Ideal) {
    && (forall id :: id in m.aliases ==> m.aliases[id] == owner(id))
    && (forall k :: k in m.records ==>
          && IsClient(owner, k) && m.records[k].orderKey == k
          && (m.records[k].orderId != "" ==> owner(m.records[k].orderId) == k)
          && (m.records[k].clientOrderId != "" ==> m.records[k].clientOrderId == k))
    && m.records.Keys == ideal.Keys
    && (forall k :: k in m.records ==> m.records[k].state == ideal[k])
  }

  lemma {:induction false} KeyIsOwner(owner: string -> string, m: Mirror, ideal: Ideal, e: Event)
    requires Refines(owner, m, ideal) && Carries(owner, m, e)
    ensures Resolve(m, e.orderKey) == owner(e.orderKey)
    ensures Resolve(m, Resolve(m, e.orderKey)) == Resolve(m, e.orderKey)
    ensures OutcomeOf(m, e) == IdealOutcome(ideal, owner(e.orderKey), e.to)
  {
    hide Legal;
  }

  /** The new record keeps the ids of its order, and remembering it teaches only true aliases. */
  lemma {:induction false} RecordKeepsIds(owner: string -> string, m: Mirror, ideal: Ideal, e: Event)
    requires Refines(owner, m, ideal) && Carries(owner, m, e) && OutcomeOf(m, e) == Done
    ensures var r, key := Updated(m, e), owner(e.orderKey);
            && r.orderKey == key && r.state == e.to
            && (r.orderId != "" ==> owner(r.orderId) == key)
            && (r.clientOrderId != "" ==> r.clientOrderId == key)
            && (e.orderId != "" ==> r.orderId == e.orderId)
            && forall id :: id in Remember(m.aliases, r) ==> Remember(m.aliases, r)[id] == owner(id)
  {
    hide Legal, IdealOutcome;
    KeyIsOwner(owner, m, ideal, e);
  }

  lemma {:induction false} RecordedRefines(owner: string -> string, m: Mirror, ideal: Ideal, r: Record, n: Mirror)
    requires Refines(owner, m, ideal) && IsClient(owner, r.orderKey)
    requires r.orderId != "" ==> owner(r.orderId) == r.orderKey
    requires r.clientOrderId != "" ==> r.clientOrderId == r.orderKey
    requires forall id :: id in n.aliases ==> n.aliases[id] == owner(id)
    requires n.records == m.records[r.orderKey := r]
    ensures Refines(owner, n, ideal[r.orderKey := r.state])
  {
  }

  /** One event: the key resolves to its true order, resolving again changes nothing, and the outcome and the
      new states are the ideal mirror's. */
  lemma {:induction false} StepRefines(owner: string -> string, m: Mirror, ideal: Ideal, e: Event)
    requires Refines(owner, m, ideal) && Carries(owner, m, e)
    ensures Resolve(m, e.orderKey) == owner(e.orderKey)
    ensures Resolve(m, Resolve(m, e.orderKey)) == Resolve(m, e.orderKey)
    ensures OutcomeOf(m, e) == IdealOutcome(ideal, owner(e.orderKey), e.to)
    ensures Refines(owner, Apply(m, e), IdealApply(ideal, owner(e.orderKey), e.to))
    ensures OutcomeOf(m, e) == Done && e.orderId != "" ==> e.orderId in Apply(m, e).aliases
  {
    KeyIsOwner(owner, m, ideal, e);
    if OutcomeOf(m, e) == Done {
      RecordKeepsIds(owner, m, ideal, e);
      hide Legal, Logged, OutcomeOf, IdealOutcome, Updated, Refines, Resolve;
      RecordedRefines(owner, m, ideal, Updated(m, e), Apply(m, e));
    } else {
      hide Legal, Logged, IdealOutcome;
    }
  }

  // ----- Runs -----

  function RunEvents(events: seq<Event>): Mirror {
    if events == [] then EMPTY
    else Apply(RunEvents(events[..|events| - 1]), events[|events| - 1])
  }

  function RunIdeal(owner: string -> string, events: seq<Event>): Ideal {
    if events == [] then map[]
    else
      var e := events[|events| - 1];
      IdealApply(RunIdeal(owner, events[..|events| - 1]), owner(e.orderKey), e.to)
  }

  ghost predicate AllCarry(owner: string -> string, events: seq<Event>) {
    forall i :: 0 <= i < |events| ==> Carries(owner, RunEvents(events[..i]), events[i])
  }

  lemma {:induction false} RunRefines(owner: string -> string, events: seq<Event>)
    requires AllCarry(owner, events)
    ensures Refines(owner, RunEvents(events), RunIdeal(owner, events))
    decreases |events|
  {
    if events != [] {
      hide Refines, Apply, Carries, IdealApply;
      var shorter := events[..|events| - 1];
      forall i | 0 <= i < |shorter| ensures Carries(owner, RunEvents(shorter[..i]), shorter[i]) {
        assert shorter[..i] == events[..i] && shorter[i] == events[i];
      }
      RunRefines(owner, shorter);
      assert Carries(owner, RunEvents(events[..|shorter|]), events[|shorter|]);
      StepRefines(owner, RunEvents(shorter), RunIdeal(owner, shorter), events[|shorter|]);
    }
  }

  /** On every run whose events respect ownership, each outcome is the ideal one. */
  lemma {:induction false} OutcomesAreIdeal(owner: string -> string, events: seq<Event>, i: nat)
    requires AllCarry(owner, events) && i < |events|
    ensures OutcomeOf(RunEvents(events[..i]), events[i])
         == IdealOutcome(RunIdeal(owner, events[..i]), owner(events[i].orderKey), events[i].to)
  {
    var before := events[..i];
    forall j | 0 <= j < |before| ensures Carries(owner, RunEvents(before[..j]), before[j]) {
      assert before[..j] == events[..j] && before[j] == events[j];
    }
    RunRefines(owner, before);
    StepRefines(owner, RunEvents(before), RunIdeal(owner, before), events[i]);
  }

  // ----- Exactly when an id resolves to its order -----

  /** In a refined mirror an id resolves to its order if and only if it is a client id or was taught. */
  lemma {:induction false} ResolvesIff(owner: string -> string, m: Mirror, ideal: Ideal, id: string)
    requires Refines(owner, m, ideal)
    ensures Resolve(m, id) == owner(id) <==> IsClient(owner, id) || id in m.aliases
  {
  }

  /** The event's ids all belong to one order; nothing is said about whether its key was taught. */
  ghost predicate OneOrder(owner: string -> string, e: Event) {
    && IsClient(owner, owner(e.orderKey))
    && (e.orderId != "" ==> owner(e.orderId) == owner(e.orderKey) && !IsClient(owner, e.orderId))
    && (e.clientOrderId != "" ==> e.clientOrderId == owner(e.orderKey))
  }

  /** An event keyed by an id that was not taught always opens a record of its own, beside the one its order may have,
      and no ideal mirror matches any more. */
  lemma {:induction false} UnlearnedIdOpensARecord(owner: string -> string, m: Mirror, ideal: Ideal, e: Event)
    requires Refines(owner, m, ideal) && !IsClient(owner, e.orderKey) && e.orderKey !in m.aliases
    ensures OutcomeOf(m, e) == Done && e.orderKey !in m.records
    ensures StateOf(Apply(m, e), e.orderKey) == Some(e.to)
    ensures StateOf(Apply(m, e), owner(e.orderKey)) == StateOf(m, owner(e.orderKey))
    ensures forall any :: !Refines(owner, Apply(m, e), any)
  {
    hide Legal, Logged;
    assert e.orderKey in Apply(m, e).records;
  }

  /** Main result: an event about one order keeps the mirror refined exactly when its key is a client id or was taught. */
  lemma {:induction false} StepRefinesIff(owner: string -> string, m: Mirror, ideal: Ideal, e: Event)
    requires Refines(owner, m, ideal) && OneOrder(owner, e)
    ensures Refines(owner, Apply(m, e), IdealApply(ideal, owner(e.orderKey), e.to))
       <==> IsClient(owner, e.orderKey) || e.orderKey in m.aliases
  {
    hide Apply, Refines, IdealApply;
    if IsClient(owner, e.orderKey) || e.orderKey in m.aliases {
      StepRefines(owner, m, ideal, e);
    } else {
      UnlearnedIdOpensARecord(owner, m, ideal, e);
    }
  }

  /** A concrete case: an exchange id arriving before it was taught splits one order in two. */
  lemma {:induction false} UnlearnedIdSplitsOrder(owner: string -> string)
    requires owner("x1") == "c1" && owner("c1") == "c1"
    ensures var byExchange := ExchangeEvent(Order("", "x1", "", NEW, false));
            var byClient := SubmitEvent("", "c1");
            var m := RunEvents([byClient, byExchange]);
            && StateOf(m, "c1") == Some(Submitted) && StateOf(m, "x1") == Some(Accepted)
            && RunIdeal(owner, [byClient, byExchange]) == map["c1" := Accepted]
  {
    var byExchange, byClient := ExchangeEvent(Order("", "x1", "", NEW, false)), SubmitEvent("", "c1");
    assert "x1"[0] != "c1"[0];
    TwoEvents(owner, byClient, byExchange);
    OneSubmission(owner);
    UnlearnedIdOpensARecord(owner, Apply(EMPTY, byClient), map["c1" := Submitted], byExchange);
  }

  lemma {:induction false} TwoEvents(owner: string -> string, first: Event, second: Event)
    ensures RunEvents([first, second]) == Apply(Apply(EMPTY, first), second)
    ensures RunIdeal(owner, [first, second])
         == IdealApply(IdealApply(map[], owner(first.orderKey), first.to), owner(second.orderKey), second.to)
  {
    hide Apply, IdealApply;
    assert [first, second][..1] == [first] && [first][..0] == [];
    var none: seq<Event> := [];
    assert RunEvents(none) == EMPTY && RunIdeal(owner, none) == map[];
    assert RunEvents([first]) == Apply(EMPTY, first);
  }

  lemma {:induction false} OneSubmission(owner: string -> string)
    requires owner("c1") == "c1"
    ensures var m := Apply(EMPTY, SubmitEvent("", "c1"));
            && Refines(owner, m, map["c1" := Submitted])
            && StateOf(m, "c1") == Some(Submitted) && m.aliases == map["c1" := "c1"]
  {
    assert Refines(owner, EMPTY, map[]) && Carries(owner, EMPTY, SubmitEvent("", "c1"));
    StepRefines(owner, EMPTY, map[], SubmitEvent("", "c1"));
  }
}
