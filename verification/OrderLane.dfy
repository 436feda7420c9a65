/** The service keeps a status per order beside the lifecycle mirror, and ranks where the mirror has a table. What one
    update does to the agreement of the two, and the lane of one order: all that the postings of a run do to its kept
    status and its state, as long as the ids of orders are kept apart. */
module OrderLane {
  import opened FifoLedger
  import opened OrderLifecycle
  import opened SpotService
  import opened SpotSafety
  import opened SpotBooks
  import opened TimeoutClosure

  /** The record of `key` is held under `key`, in the state its kept status maps to. */
  predicate AgreesOn(s: Spot, key: string) {
    key in s.orderStatus && Holds(s.mirror, key, StateFor(s.orderStatus[key]))
  }

  /** The service drops the update: its status ranks below the one kept. */
  predicate Stale(s: Spot, o: Order) {
    OrderKey(o) in s.orderStatus && StatusRank(o.status) < StatusRank(s.orderStatus[OrderKey(o)])
  }

  /** The mirror, in state `from`, ends where the status maps to: it is there already, or the table leads there. */
  predicate MirrorFollows(from: State, status: Wire) {
    from == StateFor(status) || (!IsReplace(status) && Legal(from, StateFor(status)))
  }

  /** Main result: after an update that is not stale, on a record held under its own key, status and mirror agree exactly
      when the mirror can follow; the record stays held either way. */
  lemma {:induction false} UpdateAgreesIff(s: Spot, o: Order, from: State)
    requires OrderKey(o) != "" && Holds(s.mirror, OrderKey(o), from) && !Stale(s, o)
    ensures var t := ApplyOrderUpdate(s, o);
            && t.orderStatus[OrderKey(o)] == o.status
            && (AgreesOn(t, OrderKey(o)) <==> MirrorFollows(from, o.status))
            && StateOf(t.mirror, OrderKey(o)) == Some(if MirrorFollows(from, o.status) then StateFor(o.status) else from)
  {
    hide Legal, StateFor, StatusRank, Apply, IsReplace;
    if IsReplace(o.status) {
      assert ApplyOrderUpdate(s, o).mirror.records == s.mirror.records;
    } else {
      HeldStep(s.mirror, OrderKey(o), from, ExchangeEvent(Stripped(o)));
    }
  }

  /** An update that reaches the record under another id, such as the exchange's own, does not touch the kept status: it
      keeps agreement exactly when the mirror stays where it is. */
  lemma {:induction false} OtherIdAgreesIff(s: Spot, o: Order, key: string)
    requires AgreesOn(s, key) && OrderKey(o) != "" && OrderKey(o) != key && Resolve(s.mirror, OrderKey(o)) == key
    ensures var to := StateFor(o.status);
            AgreesOn(ApplyOrderUpdate(s, o), key)
            <==> Stale(s, o) || IsReplace(o.status) || !Legal(StateFor(s.orderStatus[key]), to)
  {
    hide Allowed, StateFor, StatusRank, IsReplace;
  }

  // ----- One order's lane through the postings -----

  /** What the two books say of one order. */
  datatype Lane = Lane(kept: Option<Wire>, state: Option<State>)

  function LaneOf(b: Books, key: string): Lane {
    Lane(if key in b.orderStatus then Some(b.orderStatus[key]) else None, StateOf(b.mirror, key))
  }

  const NOTHING := Lane(None, None)

  predicate Agrees(x: Lane) {
    x.kept.Some? && x.state == Some(StateFor(x.kept.value))
  }

  function MovedTo(from: Option<State>, to: State): Option<State> {
    if from.None? || Legal(from.value, to) then Some(to) else from
  }

  function Along(x: Lane, p: Posting, key: string): Lane {
    match p
    case Tell(e) => if e.orderKey != key then x else x.(state := MovedTo(x.state, e.to))
    case Track(o) =>
      if OrderKey(o) != key || (x.kept.Some? && StatusRank(o.status) < StatusRank(x.kept.value)) then x
      else Lane(Some(o.status), if IsReplace(o.status) then x.state else MovedTo(x.state, StateFor(o.status)))
    case Forget => NOTHING
    case _ => x
  }

  function Walk(x: Lane, ps: seq<Posting>, key: string): Lane {
    if ps == [] then x else Along(Walk(x, ps[..|ps| - 1], key), ps[|ps| - 1], key)
  }

  /** The posting is about the order and names it by `key`. */
  predicate Own(p: Posting, key: string) {
    match p
    case Tell(e) => e.orderKey == key
    case Track(o) => OrderKey(o) == key
    case _ => true
  }

  /** `ids` are the ids of the order, `key` among them: a posting named by `key` carries no other ids than these, and any
      other posting none of these. */
  predicate Clean(p: Posting, key: string, ids: set<string>) {
    match p
    case Tell(e) => CleanIds(e.orderKey, e.orderId, e.clientOrderId, key, ids)
    case Track(o) => CleanIds(OrderKey(o), o.orderId, o.clientOrderId, key, ids)
    case _ => true
  }

  predicate CleanIds(orderKey: string, orderId: string, clientOrderId: string, key: string, ids: set<string>) {
    if orderKey == key then orderId in ids + {""} && clientOrderId in ids + {""}
    else orderKey !in ids && orderId !in ids && clientOrderId !in ids
  }

  ghost predicate AllClean(ps: seq<Posting>, key: string, ids: set<string>) {
    forall p :: p in ps ==> Clean(p, key, ids)
  }

  /** The key leads to its own record. */
  predicate Straight(m: Mirror, key: string) {
    Resolve(m, key) == key && (key in m.records ==> m.records[key].orderKey == key)
  }

  /** The ids of the order lead nowhere but to its record, and no other record knows them. */
  ghost predicate Tidy(m: Mirror, key: string, ids: set<string>) {
    && Straight(m, key)
    && (forall k :: k in m.records && k != key ==>
          && m.records[k].orderKey == k && k !in ids
          && m.records[k].orderId !in ids && m.records[k].clientOrderId !in ids)
    && (key in m.records ==> m.records[key].orderId in ids + {""} && m.records[key].clientOrderId in ids + {""})
    && (forall id :: id in m.aliases ==> (m.aliases[id] == key <==> id in ids) && (m.aliases[id] in ids ==> id in ids))
  }

  lemma {:induction false} LaneAgrees(s: Spot, key: string)
    requires Straight(s.mirror, key)
    ensures AgreesOn(s, key) <==> Agrees(LaneOf(BooksOf(s), key))
  {
    hide StateFor;
  }

  lemma {:induction false} OwnEvent(m: Mirror, e: Event)
    requires Straight(m, e.orderKey) && e.orderKey != ""
    ensures Straight(Apply(m, e), e.orderKey)
    ensures StateOf(Apply(m, e), e.orderKey) == MovedTo(StateOf(m, e.orderKey), e.to)
  {
    hide Allowed;
  }

  lemma {:induction false} OwnStep(b: Books, p: Posting, key: string)
    requires Straight(b.mirror, key) && key != "" && Own(p, key)
    ensures Straight(Post(b, p).mirror, key) && LaneOf(Post(b, p), key) == Along(LaneOf(b, key), p, key)
  {
    hide Apply, StatusRank, StateFor, MovedTo;
    match p
    case Tell(e) => OwnEvent(b.mirror, e);
    case Track(o) => if !IsReplace(o.status) { OwnEvent(b.mirror, ExchangeEvent(Stripped(o))); }
    case _ =>
  }

  /** Recording a record under ids that are all of the order, or all of another one. */
  lemma {:induction false} RecordTidy(m: Mirror, n: Mirror, r: Record, key: string, ids: set<string>)
    requires Tidy(m, key, ids) && key in ids && "" !in ids
    requires if r.orderKey == key then r.orderId in ids + {""} && r.clientOrderId in ids + {""}
             else r.orderKey !in ids && r.orderId !in ids && r.clientOrderId !in ids
    requires n.records == m.records[r.orderKey := r] && n.aliases == Remember(m.aliases, r)
    ensures Tidy(n, key, ids)
  {
    forall id | id in n.aliases
      ensures (n.aliases[id] == key <==> id in ids) && (n.aliases[id] in ids ==> id in ids)
    {
      assert n.aliases[id] == r.orderKey || (id in m.aliases && n.aliases[id] == m.aliases[id]);
    }
  }

  lemma {:induction false} CleanEvent(m: Mirror, e: Event, key: string, ids: set<string>)
    requires Tidy(m, key, ids) && key in ids && "" !in ids && CleanIds(e.orderKey, e.orderId, e.clientOrderId, key, ids)
    ensures Tidy(Apply(m, e), key, ids)
    ensures StateOf(Apply(m, e), key) == if e.orderKey == key then MovedTo(StateOf(m, key), e.to) else StateOf(m, key)
  {
    hide Allowed;
    var at := Resolve(m, e.orderKey);
    assert at == key <==> e.orderKey == key;
    assert e.orderKey != key ==> at !in ids;
    if OutcomeOf(m, e) == Done {
      assert OrderLifecycle.Updated(m, e).orderKey == at;
      hide Remember, Tidy;
      RecordTidy(m, Apply(m, e), OrderLifecycle.Updated(m, e), key, ids);
    } else {
      TidyByParts(m, Apply(m, e), key, ids);
    }
  }

  lemma {:induction false} CleanStep(b: Books, p: Posting, key: string, ids: set<string>)
    requires Tidy(b.mirror, key, ids) && key in ids && "" !in ids && Clean(p, key, ids)
    ensures Tidy(Post(b, p).mirror, key, ids) && LaneOf(Post(b, p), key) == Along(LaneOf(b, key), p, key)
  {
    hide Apply, StatusRank, StateFor, MovedTo, Tidy, CleanIds;
    match p
    case Tell(e) => CleanEvent(b.mirror, e, key, ids);
    case Track(o) =>
      if IsReplace(o.status) {
        TidyByParts(b.mirror, Post(b, p).mirror, key, ids);
      } else {
        CleanEvent(b.mirror, ExchangeEvent(Stripped(o)), key, ids);
      }
    case Enter(f) => CountedTidy(b.mirror, f.orderKey, key, ids);
    case Forget => EmptyIsTidy(key, ids);
    case Drain => TidyByParts(b.mirror, Post(b, p).mirror, key, ids);
  }

  lemma {:induction false} TidyByParts(m: Mirror, n: Mirror, key: string, ids: set<string>)
    requires Tidy(m, key, ids) && n.records == m.records && n.aliases == m.aliases
    ensures Tidy(n, key, ids)
  {
  }

  lemma {:induction false} CountedTidy(m: Mirror, orderKey: string, key: string, ids: set<string>)
    requires Tidy(m, key, ids)
    ensures Tidy(CountFill(m, orderKey), key, ids) && StateOf(CountFill(m, orderKey), key) == StateOf(m, key)
  {
  }

  lemma {:induction false} EmptyIsTidy(key: string, ids: set<string>)
    ensures Tidy(EMPTY, key, ids)
  {
  }

  /** The lane of an order goes by the postings that name it: what happens to other orders does not matter. */
  lemma {:induction false} LaneWalks(b: Books, ps: seq<Posting>, key: string, ids: set<string>)
    requires Tidy(b.mirror, key, ids) && key in ids && "" !in ids && AllClean(ps, key, ids)
    ensures Tidy(PostAll(b, ps).mirror, key, ids) && LaneOf(PostAll(b, ps), key) == Walk(LaneOf(b, key), ps, key)
    decreases |ps|
  {
    hide Tidy, Post, Along, Clean, LaneOf;
    if ps != [] {
      var n := |ps| - 1;
      LaneWalks(b, ps[..n], key, ids);
      CleanStep(PostAll(b, ps[..n]), ps[n], key, ids);
    }
  }

  /** The same without any discipline of ids, as long as every posting is about the order. */
  lemma {:induction false} OwnWalks(b: Books, ps: seq<Posting>, key: string)
    requires Straight(b.mirror, key) && key != "" && forall p :: p in ps ==> Own(p, key)
    ensures Straight(PostAll(b, ps).mirror, key) && LaneOf(PostAll(b, ps), key) == Walk(LaneOf(b, key), ps, key)
    decreases |ps|
  {
    hide Straight, Post, Along, Own, LaneOf;
    if ps != [] {
      var n := |ps| - 1;
      OwnWalks(b, ps[..n], key);
      OwnStep(PostAll(b, ps[..n]), ps[n], key);
    }
  }

  lemma {:induction false} WalkAppend(x: Lane, first: seq<Posting>, second: seq<Posting>, key: string)
    ensures Walk(x, first + second, key) == Walk(Walk(x, first, key), second, key)
    decreases |second|
  {
    hide Along;
    if second == [] {
      assert first + second == first;
    } else {
      var n := |second| - 1;
      assert (first + second)[..|first + second| - 1] == first + second[..n];
      WalkAppend(x, first, second[..n], key);
    }
  }

  lemma {:induction false} WalkOne(x: Lane, p: Posting, key: string)
    ensures Walk(x, [p], key) == Along(x, p, key)
  {
    hide Along;
    assert [p][..0] == [];
    assert Walk(x, [p][..0], key) == x;
  }

  predicate Passes(p: Posting, key: string) {
    p.Enter? || p.Drain? || (p.Tell? && p.event.orderKey != key) || (p.Track? && OrderKey(p.order) != key)
  }

  lemma {:induction false} WalkPast(x: Lane, ps: seq<Posting>, key: string)
    requires forall p :: p in ps ==> Passes(p, key)
    ensures Walk(x, ps, key) == x
    decreases |ps|
  {
    hide StatusRank, StateFor;
    if ps != [] {
      assert Passes(ps[|ps| - 1], key);
      WalkPast(x, ps[..|ps| - 1], key);
    }
  }
}
