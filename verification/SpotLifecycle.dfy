/** Every run of the spot service drives its lifecycle mirror as a run of mirror commands, so what holds of the mirror
    on every run holds inside the service. */
module SpotLifecycle {
  import opened FifoLedger
  import opened OrderLifecycle
  import opened SpotService
  import opened SpotSafety
  import opened SpotBooks
  import H = LifecycleHistory

  // ----- Commands on a mirror -----

  function After(m: Mirror, c: H.Command): Mirror {
    H.Exec(H.Session(m, []), c).mirror
  }

  function AfterAll(m: Mirror, commands: seq<H.Command>): Mirror {
    if commands == [] then m else After(AfterAll(m, commands[..|commands| - 1]), commands[|commands| - 1])
  }

  /** Commands the service issues; a reset only where `resets`. */
  ghost predicate Issued(commands: seq<H.Command>, resets: bool) {
    forall i :: 0 <= i < |commands| ==> H.SpotCommand(commands[i]) && (commands[i] == H.Reset ==> resets)
  }

  lemma {:induction false} AfterAppend(m: Mirror, first: seq<H.Command>, second: seq<H.Command>)
    ensures AfterAll(m, first + second) == AfterAll(AfterAll(m, first), second)
    decreases |second|
  {
    hide After;
    if second == [] {
      assert first + second == first;
    } else {
      var n := |second| - 1;
      assert (first + second)[..|first + second| - 1] == first + second[..n];
      AfterAppend(m, first, second[..n]);
    }
  }

  lemma {:induction false} AfterOne(m: Mirror, c: H.Command)
    ensures AfterAll(m, [c]) == After(m, c)
  {
    hide After;
    assert [c][..0] == [];
    assert AfterAll(m, [c][..0]) == m;
  }

  // ----- Postings as commands -----

  /** Postings the service makes: of its own events only these, and a rehydration only where `resets`. */
  ghost predicate Permitted(ps: seq<Posting>, resets: bool) {
    forall i :: 0 <= i < |ps| ==>
      && (ps[i].Tell? ==> ps[i].event.to in {Submitted, CancelPending, CancelRejected, TimedOut, Rejected})
      && (ps[i] == Forget ==> resets)
  }

  lemma {:induction false} LimitPermitted(settings: Settings, intent: Intent, cid: string, stage: Stage)
    ensures Permitted(LimitPostings(settings, intent, cid, stage), false)
  {
    hide FillHistory, ReportsOf, AwaitFill;
  }

  lemma {:induction false} FallbackPermitted(settings: Settings, c: Call)
    ensures Permitted(FallbackPostings(settings, c), false)
  {
    hide LimitPostings, PreSubmitValidate, Lower, FillHistory, ReportsOf, TagFor;
    LimitPermitted(settings, c.intent, settings.digest(TagFor(c, 1)), c.taker);
  }

  lemma {:induction false} CallPermitted(settings: Settings, s: Spot, c: Call)
    ensures Permitted(CallPostings(settings, s, c), false)
  {
    hide Admitted, LimitPostings, FallbackPostings, FillHistory, ReportsOf, TagFor, TimesOut;
    LimitPermitted(settings, c.intent, settings.digest(TagFor(c, 0)), c.maker);
    FallbackPermitted(settings, c);
  }

  lemma {:induction false} ActionPermitted(settings: Settings, s: Spot, a: Action)
    ensures Permitted(ActionPostings(settings, s, a), a.Rehydrate?)
  {
    hide CallPostings;
    if a.Intend? { CallPermitted(settings, s, a.call); }
  }

  lemma {:induction false} RunPermitted(settings: Settings, actions: seq<Action>)
    ensures Permitted(RunPostings(settings, actions), true)
    decreases |actions|
  {
    hide ActionPostings, Run;
    if actions != [] {
      var n := |actions| - 1;
      RunPermitted(settings, actions[..n]);
      ActionPermitted(settings, Run(settings, actions[..n]), actions[n]);
    }
  }

  lemma {:induction false} PostingAsCommands(b: Books, p: Posting) returns (commands: seq<H.Command>)
    requires Permitted([p], p == Forget)
    ensures Issued(commands, p == Forget) && AfterAll(b.mirror, commands) == Post(b, p).mirror
  {
    hide Apply, ApplyOrder, CountFill, StatusRank;
    assert [p][0] == p;
    commands :=
      match p
      case Tell(e) => [H.Do(e)]
      case Track(o) => if Post(b, p).mirror == b.mirror then [] else [H.Update(Stripped(o))]
      case Enter(f) => if Post(b, p).mirror == b.mirror then [] else [H.Fill(f.orderKey)]
      case Forget => [H.Reset]
      case Drain => [H.Drain];
    if commands != [] { AfterOne(b.mirror, commands[0]); }
  }

  lemma {:induction false} PostingsAsCommands(b: Books, ps: seq<Posting>, resets: bool) returns (commands: seq<H.Command>)
    requires Permitted(ps, resets)
    ensures Issued(commands, resets) && AfterAll(b.mirror, commands) == PostAll(b, ps).mirror
    decreases |ps|
  {
    hide Post, AfterAll, H.SpotCommand;
    if ps == [] {
      commands := [];
      NoCommands(b.mirror);
    } else {
      var n := |ps| - 1;
      commands := PostingsAsCommands(b, ps[..n], resets);
      assert Permitted([ps[n]], ps[n] == Forget);
      var more := PostingAsCommands(PostAll(b, ps[..n]), ps[n]);
      AfterAppend(b.mirror, commands, more);
      commands := commands + more;
    }
  }

  lemma {:induction false} NoCommands(m: Mirror)
    ensures Issued([], false) && AfterAll(m, []) == m
  {
  }

  /** One action as mirror commands; only a rehydration resets. */
  lemma {:induction false} ActionAsCommands(settings: Settings, s: Spot, a: Action) returns (commands: seq<H.Command>)
    ensures Issued(commands, a.Rehydrate?) && AfterAll(s.mirror, commands) == Do(settings, s, a).mirror
  {
    hide Do, ActionPostings, PostAll, AfterAll, Permitted, H.SpotCommand;
    ActionPosted(settings, s, a);
    ActionPermitted(settings, s, a);
    commands := PostingsAsCommands(BooksOf(s), ActionPostings(settings, s, a), a.Rehydrate?);
  }

  // ----- Whole runs -----

  lemma {:induction false} MirrorRun(commands: seq<H.Command>)
    ensures H.Run(commands).mirror == AfterAll(EMPTY, commands)
    decreases |commands|
  {
    if commands != [] { MirrorRun(commands[..|commands| - 1]); }
  }

  /** Main result: the mirror inside every run of the service is the mirror of a run of commands the service may issue,
      and so its log is a faithful history of its records. */
  lemma {:induction false} ServiceDrivesTheMirror(settings: Settings, actions: seq<Action>)
    returns (commands: seq<H.Command>)
    ensures Issued(commands, true)
    ensures H.Run(commands).mirror == Run(settings, actions).mirror
    ensures H.Faithful(H.Run(commands))
    decreases |actions|
  {
    hide Do, AfterAll, H.SpotCommand, H.Faithful, H.Run;
    if actions == [] {
      commands := [];
      NoCommands(EMPTY);
    } else {
      var n := |actions| - 1;
      commands := ServiceDrivesTheMirror(settings, actions[..n]);
      var more := ActionAsCommands(settings, Run(settings, actions[..n]), actions[n]);
      MirrorRun(commands);
      AfterAppend(EMPTY, commands, more);
      commands := commands + more;
    }
    MirrorRun(commands);
    H.EventSourcing(commands);
  }

  /** Commands without a reset stay among the spot states and keep terminal states. */
  lemma {:induction false} CommandsKeepTerminals(m: Mirror, commands: seq<H.Command>, key: string)
    requires Issued(commands, false) && H.WithinSpotStates(m)
    ensures H.WithinSpotStates(AfterAll(m, commands))
    ensures StateOf(m, key).Some? && StateOf(m, key).value in H.FINAL ==>
              StateOf(AfterAll(m, commands), key) == StateOf(m, key)
    decreases |commands|
  {
    hide H.WithinSpotStates, H.SpotCommand, H.Exec;
    if commands != [] {
      var n := |commands| - 1;
      CommandsKeepTerminals(m, commands[..n], key);
      H.SpotExec(H.Session(AfterAll(m, commands[..n]), []), commands[n]);
    }
  }

  /** Postings stay among the spot states, and without a rehydration they keep terminal states. */
  lemma {:induction false} PostingsKeepTerminals(b: Books, ps: seq<Posting>, key: string)
    requires Permitted(ps, true) && H.WithinSpotStates(b.mirror)
    ensures H.WithinSpotStates(PostAll(b, ps).mirror)
    ensures Forget !in ps && StateOf(b.mirror, key).Some? && StateOf(b.mirror, key).value in H.FINAL ==>
              StateOf(PostAll(b, ps).mirror, key) == StateOf(b.mirror, key)
    decreases |ps|
  {
    hide H.WithinSpotStates, StateOf, Post;
    if ps != [] {
      var n := |ps| - 1;
      PostingsKeepTerminals(b, ps[..n], key);
      assert Permitted([ps[n]], ps[n] == Forget);
      PostingKeepsTerminals(PostAll(b, ps[..n]), ps[n], key);
    }
  }

  lemma {:induction false} PostingKeepsTerminals(b: Books, p: Posting, key: string)
    requires Permitted([p], p == Forget) && H.WithinSpotStates(b.mirror)
    ensures H.WithinSpotStates(Post(b, p).mirror)
    ensures p != Forget && StateOf(b.mirror, key).Some? && StateOf(b.mirror, key).value in H.FINAL ==>
              StateOf(Post(b, p).mirror, key) == StateOf(b.mirror, key)
  {
    if p == Forget {
      EmptyIsWithin();
    } else {
      var commands := PostingAsCommands(b, p);
      hide Post, H.WithinSpotStates, StateOf, H.SpotCommand, AfterAll;
      CommandsKeepTerminals(b.mirror, commands, key);
    }
  }

  lemma {:induction false} EmptyIsWithin()
    ensures H.WithinSpotStates(EMPTY)
  {
  }

  lemma {:induction false} StepKeepsTerminals(settings: Settings, s: Spot, a: Action, key: string)
    requires H.WithinSpotStates(s.mirror)
    ensures H.WithinSpotStates(Do(settings, s, a).mirror)
    ensures !a.Rehydrate? && StateOf(s.mirror, key).Some? && StateOf(s.mirror, key).value in H.FINAL ==>
              StateOf(Do(settings, s, a).mirror, key) == StateOf(s.mirror, key)
  {
    hide Do, ActionPostings, H.WithinSpotStates, StateOf, PostAll;
    ActionPosted(settings, s, a);
    ActionPermitted(settings, s, a);
    PostingsKeepTerminals(BooksOf(s), ActionPostings(settings, s, a), key);
  }

  /** Main result: inside every run of the service the replace, orphaned, stuck, recovered and unknown states never
      occur, and a terminal lifecycle state is never left before a rehydration. */
  lemma {:induction false} TerminalStatesStay(settings: Settings, actions: seq<Action>, k: nat, key: string)
    requires k <= |actions|
    ensures H.WithinSpotStates(Run(settings, actions).mirror)
    ensures var m := Run(settings, actions[..k]).mirror;
            (forall i :: k <= i < |actions| ==> !actions[i].Rehydrate?)
            && StateOf(m, key).Some? && StateOf(m, key).value in H.FINAL
            ==> StateOf(Run(settings, actions).mirror, key) == StateOf(m, key)
    decreases |actions|
  {
    hide Do, StateOf, H.WithinSpotStates;
    if actions == [] {
      EmptyIsWithin();
      assert actions[..k] == actions;
    } else {
      var n := |actions| - 1;
      TerminalStatesStay(settings, actions[..n], if k <= n then k else n, key);
      StepKeepsTerminals(settings, Run(settings, actions[..n]), actions[n], key);
      if k <= n {
        assert actions[..n][..k] == actions[..k];
      } else {
        assert actions[..k] == actions;
      }
    }
  }

  const END_STATUSES: set<Wire> := {FILLED, EXECUTED, CANCELED, CANCELLED, REJECTED, EXPIRED}

  lemma {:induction false} TakenUpdateMoves(s: Spot, o: Order)
    requires UpdateOutcomeOf(s, o) == Updated
    ensures StateOf(ApplyOrderUpdate(s, o).mirror, Resolve(s.mirror, OrderKey(o))) == Some(StateFor(o.status))
    ensures o.status in END_STATUSES <==> StateFor(o.status) in H.FINAL
  {
    hide Remember, Legal;
  }

  /** The posting at `i` is an update with an ending status, and it is taken. */
  predicate EndReported(ps: seq<Posting>, i: nat)
    requires i < |ps|
  {
    && ps[i].Track? && ps[i].order.status in END_STATUSES
    && UpdateOutcomeOf(Holding(PostAll(EMPTY_BOOKS, ps[..i])), ps[i].order) == Updated
  }

  /** The record it reaches. */
  function ReachedBy(ps: seq<Posting>, i: nat): string
    requires i < |ps| && ps[i].Track?
  {
    Resolve(PostAll(EMPTY_BOOKS, ps[..i]).mirror, OrderKey(ps[i].order))
  }

  lemma {:induction false} EndPosted(ps: seq<Posting>, i: nat)
    requires i < |ps| && EndReported(ps, i)
    ensures StateOf(PostAll(EMPTY_BOOKS, ps[..i + 1]).mirror, ReachedBy(ps, i)) == Some(StateFor(ps[i].order.status))
    ensures StateFor(ps[i].order.status) in H.FINAL
  {
    hide UpdateOutcomeOf, StateFor, StateOf, ApplyOrderUpdate;
    assert ps[..i + 1][..i] == ps[..i];
    TakenUpdateMoves(Holding(PostAll(EMPTY_BOOKS, ps[..i])), ps[i].order);
  }

  lemma {:induction false} EndStays(ps: seq<Posting>, i: nat)
    requires i < |ps| && EndReported(ps, i) && Permitted(ps, true) && Forget !in ps[i + 1..]
    ensures StateOf(PostAll(EMPTY_BOOKS, ps).mirror, ReachedBy(ps, i)) == Some(StateFor(ps[i].order.status))
  {
    hide UpdateOutcomeOf, ReachedBy, StateFor, StateOf, H.WithinSpotStates, PostAll;
    var first, rest := ps[..i + 1], ps[i + 1..];
    assert Permitted(first, true) && Permitted(rest, true);
    assert first + rest == ps;
    EndPosted(ps, i);
    EmptyIsWithin();
    PostingsKeepTerminals(EMPTY_BOOKS, first, "");
    PostingsKeepTerminals(PostAll(EMPTY_BOOKS, first), rest, ReachedBy(ps, i));
    PostAppend(EMPTY_BOOKS, first, rest);
  }

  /** Main result: once an update with an ending status is taken, whether it came as an exchange update, as the reply to a
      placement, a poll or a look-up, from a cancellation or from the stored events, the order's record stays in the state
      of that status for the rest of the run, until a rehydration. */
  lemma {:induction false} ReportedEndIsFinal(settings: Settings, actions: seq<Action>, i: nat)
    requires i < |RunPostings(settings, actions)| && EndReported(RunPostings(settings, actions), i)
    requires Forget !in RunPostings(settings, actions)[i + 1..]
    ensures var ps := RunPostings(settings, actions);
            StateOf(Run(settings, actions).mirror, ReachedBy(ps, i)) == Some(StateFor(ps[i].order.status))
  {
    hide RunPostings, Run, EndReported, ReachedBy, PostAll, Permitted;
    RunPermitted(settings, actions);
    EndStays(RunPostings(settings, actions), i);
    RunPosted(settings, actions);
  }

  // ----- What an update is answered -----

  /** The update would lower the kept status: a settled one to an open one, or a partial fill to less. */
  predicate FallsBehind(kept: Wire, status: Wire) {
    var settled := {FILLED, CANCELED, REJECTED, EXECUTED, CLOSED};
    && status !in settled
    && (kept in settled || (kept == PARTIALLY_FILLED && status != PARTIALLY_FILLED)
        || (kept == NEW && status !in {PARTIALLY_FILLED, NEW}))
  }

  /** The update tells the state the record has. */
  predicate Repeats(state: State, status: Wire) {
    match state
    case Accepted => status in {NEW, ACK, ACKNOWLEDGED}
    case PartiallyFilled => status == PARTIALLY_FILLED
    case Filled => status in {FILLED, EXECUTED}
    case Cancelled => status in {CANCELED, CANCELLED}
    case Rejected => status == REJECTED
    case Expired => status == EXPIRED
    case Working =>
      status !in {NEW, ACK, ACKNOWLEDGED, PARTIALLY_FILLED, FILLED, EXECUTED, CANCELED, CANCELLED, REJECTED, EXPIRED}
    case _ => false
  }

  /** The update names an order and does not fall behind what is kept of it. */
  predicate Taken(s: Spot, o: Order) {
    var key := if o.clientOrderId != "" then o.clientOrderId else o.orderId;
    key != "" && !(key in s.orderStatus && FallsBehind(s.orderStatus[key], o.status))
  }

  lemma {:induction false} TakenByRank(s: Spot, o: Order)
    ensures Taken(s, o)
       <==> OrderKey(o) != ""
            && !(OrderKey(o) in s.orderStatus && StatusRank(o.status) < StatusRank(s.orderStatus[OrderKey(o)]))
  {
    hide StatusRank, FallsBehind;
    if OrderKey(o) in s.orderStatus { RankFalls(s.orderStatus[OrderKey(o)], o.status); }
  }

  /** A taken update's status is kept whatever the mirror says of it; any other changes nothing. */
  lemma {:induction false} KeptIfTaken(s: Spot, o: Order)
    ensures ApplyOrderUpdate(s, o).orderStatus == if Taken(s, o) then s.orderStatus[OrderKey(o) := o.status] else s.orderStatus
    ensures !Taken(s, o) ==> ApplyOrderUpdate(s, o) == s
  {
    TakenByRank(s, o);
    hide Taken, ApplyOrder, StatusRank;
  }

  /** Main result: what every order update is answered: refused where it names no order or falls behind what is kept, updated
      exactly if it is taken and its record moves, a duplicate exactly if it repeats the record's state, and out of order in
      every other case. */
  lemma {:induction false} UpdateAnswerIff(s: Spot, o: Order)
    requires H.WithinSpotStates(s.mirror)
    ensures var answer, from := UpdateOutcomeOf(s, o), StateOf(s.mirror, Resolve(s.mirror, OrderKey(o)));
            var replace := o.status in {PENDING_REPLACE, REPLACE_PENDING, AMEND_PENDING, REPLACED, AMENDED,
                                        REPLACE_REJECTED, AMEND_REJECTED};
            && (answer == MissingOrderId <==> o.clientOrderId == "" && o.orderId == "")
            && (answer == MirrorRefused(ReplaceUnsupported) <==> Taken(s, o) && replace)
            && (answer == Updated
                <==> Taken(s, o) && !replace && (from.None? || H.Landed(from.value, o.status) != from.value))
            && (answer == MirrorRefused(DuplicateEvent)
                <==> Taken(s, o) && !replace && from.Some? && Repeats(from.value, o.status))
            && (answer.MirrorRefused? ==> answer.outcome in {ReplaceUnsupported, DuplicateEvent})
  {
    TakenByRank(s, o);
    MirrorAnswers(s.mirror, o);
    hide Taken, OrderOutcome, Resolve, StateOf, StatusRank, H.Landed, Repeats, H.WithinSpotStates;
  }

  lemma {:induction false} MirrorAnswers(m: Mirror, o: Order)
    requires H.WithinSpotStates(m)
    ensures var from, answer := StateOf(m, Resolve(m, OrderKey(o))), OrderOutcome(m, Stripped(o));
            var replace := o.status in {PENDING_REPLACE, REPLACE_PENDING, AMEND_PENDING, REPLACED, AMENDED,
                                        REPLACE_REJECTED, AMEND_REJECTED};
            && (answer == ReplaceUnsupported <==> replace)
            && (answer == Done
                <==> !replace && (from.None? || H.Landed(from.value, o.status) != from.value))
            && (answer == DuplicateEvent <==> !replace && from.Some? && Repeats(from.value, o.status))
            && answer in {ReplaceUnsupported, Done, DuplicateEvent, OutOfOrderEvent}
  {
    hide Resolve, H.Landed, H.Sources, Legal, Repeats, StateFor;
    var from := StateOf(m, Resolve(m, OrderKey(o)));
    if !IsReplace(o.status) && from.Some? {
      H.LandedIsMoved(from.value, o.status);
      RepeatsIff(from.value, o.status);
    }
  }

  lemma {:induction false} RankFalls(kept: Wire, status: Wire)
    ensures FallsBehind(kept, status) <==> StatusRank(status) < StatusRank(kept)
  {
  }

  lemma {:induction false} RepeatsIff(state: State, status: Wire)
    requires !IsReplace(status) && state in H.SPOT_STATES
    ensures Repeats(state, status) <==> state == StateFor(status)
  {
  }
}
