/** The fail-closed governor: market readings, execution health and the confidence in the books decide how much may
    be traded. The parts are not monotone one by one; the size they permit together is. */
module Governor {
  import opened FifoLedger

  datatype Action = Continue | Alert | Degrade | FlattenOnly | Halt | HaltAndFlatten

  function Rank(a: Action): nat {
    match a
    case Continue => 0
    case Alert => 0
    case Degrade => 1
    case FlattenOnly => 2
    case Halt => 3
    case HaltAndFlatten => 4
  }

  // ----- Market data -----

  datatype Reading = Reading(staleSeconds: real, depthNotional: real, spreadBps: real, sequenceOk: bool, checksumOk: bool)

  datatype Limits = Limits(staleThreshold: real, minDepth: real, maxSpread: real)

  datatype MarketHealth = MarketHealth(
    feedStale: bool, sequenceOk: bool, checksumOk: bool, symbolScore: real, exchangeScore: real, qualityScore: real)

  function AssessHealth(reading: Reading, limits: Limits): MarketHealth {
    var stale := reading.staleSeconds > limits.staleThreshold;
    var symbol := 1.0 - if stale then 0.5 else 0.0;
    var exchange := 1.0 - if !reading.sequenceOk || !reading.checksumOk then 0.35 else 0.0;
    var quality := 1.0 - (if reading.depthNotional < limits.minDepth then 0.45 else 0.0)
                       - (if reading.spreadBps > limits.maxSpread then 0.35 else 0.0);
    MarketHealth(stale, reading.sequenceOk, reading.checksumOk, Max(0.0, symbol), Max(0.0, exchange), Max(0.0, quality))
  }

  // ----- Truth confidence -----

  datatype Level = Authoritative | Proxy | Unavailable

  function LevelRank(l: Level): nat {
    match l
    case Authoritative => 0
    case Proxy => 1
    case Unavailable => 2
  }

  datatype TruthInputs = TruthInputs(
    fillGaps: seq<string>, realizedGaps: seq<string>, sinceKnown: bool, positionCount: int, openOrderCount: int,
    historyRecovered: int, balance: Option<real>, market: Option<MarketHealth>, unrealized: Option<Level>)

  datatype TruthSnapshot = TruthSnapshot(
    fill: Level, fee: Level, realized: Level, balance: Level, exposure: Level, market: Level,
    unrealized: Option<Level>, overall: Action)

  const FEE_GAP := "fee_truth_gap"
  const REALIZED_GAP := "realized_pnl_truth_gap"
  const BALANCE_PROXY := "realized_pnl_proxy_balance_delta"

  /** A gap in the fill history other than its fees and profits. */
  ghost predicate FillGap(gaps: seq<string>) {
    exists gap :: gap in gaps && gap != "" && gap != FEE_GAP && gap != REALIZED_GAP
  }

  ghost function FillLevel(t: TruthInputs): Level {
    if FillGap(t.fillGaps) then Unavailable
    else if !t.sinceKnown && (t.positionCount > 0 || t.openOrderCount > 0 || t.historyRecovered > 0) then Proxy
    else Authoritative
  }

  ghost function FeeLevel(t: TruthInputs): Level {
    if FEE_GAP in t.fillGaps then Unavailable
    else if FillLevel(t) == Proxy then Proxy
    else Authoritative
  }

  ghost function RealizedLevel(t: TruthInputs): Level {
    if t.realizedGaps == [BALANCE_PROXY] then Proxy
    else if REALIZED_GAP in t.fillGaps || t.realizedGaps != [] then Unavailable
    else if FillLevel(t) == Proxy then Proxy
    else Authoritative
  }

  function MarketLevel(market: Option<MarketHealth>): Level {
    match market
    case None => Proxy
    case Some(m) =>
      if m.feedStale then Unavailable
      else if !m.sequenceOk || !m.checksumOk then Proxy
      else Authoritative
  }

  function Critical(t: TruthSnapshot): set<Level> {
    {t.fill, t.fee, t.realized, t.balance, t.exposure, t.market}
  }

  function SoftLevels(t: TruthSnapshot): set<Level> {
    if t.unrealized.Some? then {t.unrealized.value} else {}
  }

  ghost function TruthConfidence(t: TruthInputs): TruthSnapshot {
    var levels := TruthSnapshot(
      FillLevel(t), FeeLevel(t), RealizedLevel(t),
      if t.balance.Some? && t.balance.value > 0.0 then Authoritative else Unavailable,
      Authoritative, MarketLevel(t.market),
      Some(if t.unrealized.None? then Unavailable else t.unrealized.value), Continue);
    levels.(overall :=
      if Unavailable in Critical(levels) then FlattenOnly
      else if Proxy in Critical(levels) || levels.unrealized == Some(Proxy) then Degrade
      else if levels.unrealized == Some(Unavailable) then Degrade
      else Continue)
  }

  // ----- Health -----

  datatype Integrity = Integrity(action: Action, score: real)

  datatype Signals = Signals(
    reconciliationOk: bool, apiErrorBurst: int, orderRejectBurst: int, latencyMs: real, slippageDriftBps: real,
    pnlDeviationPct: real, anomalyPressure: real, integrity: Option<Integrity>)

  datatype Health = Health(
    score: real, exchangeScore: real, qualityScore: real, executionScore: real, overtrading: real, action: Action)

  function Penalties(s: Signals): real {
    (if !s.reconciliationOk then 0.4 else 0.0)
    + (if s.apiErrorBurst >= 3 then 0.2 else 0.0)
    + (if s.orderRejectBurst >= 3 then 0.15 else 0.0)
    + (if s.latencyMs > 1000.0 then 0.15 else 0.0)
    + (if s.slippageDriftBps > 10.0 then 0.15 else 0.0)
    + (if s.pnlDeviationPct > 0.5 then 0.2 else 0.0)
    + (if s.anomalyPressure > 0.5 then 0.1 else 0.0)
  }

  function Capped(score: real, integrity: Option<Integrity>): real {
    match integrity
    case None => score
    case Some(i) =>
      match i.action
      case Degrade => Min(score, Max(0.6, i.score))
      case FlattenOnly => Min(score, Max(0.55, i.score))
      case Halt => Min(score, Min(0.15, i.score))
      case _ => score
  }

  function Evaluate(market: MarketHealth, s: Signals): Health {
    var score := Capped(1.0 - Penalties(s), s.integrity);
    Health(Max(0.0, score), market.exchangeScore, market.qualityScore,
           Max(0.0, 1.0 - Min(1.0, s.latencyMs / 2000.0)), Min(1.0, s.orderRejectBurst as real / 5.0),
           if score <= 0.2 then HaltAndFlatten
           else if score <= 0.45 then Halt
           else if score <= 0.7 then Degrade
           else Continue)
  }

  // ----- The governor -----

  datatype Rollout = Paper | Shadow | TinyLive | CanaryLive | LimitedLive | NormalLive | OtherStage

  function RolloutCap(stage: Rollout): real {
    match stage
    case Paper => 0.0
    case Shadow => 0.0
    case TinyLive => 0.05
    case CanaryLive => 0.1
    case LimitedLive => 0.25
    case NormalLive => 1.0
    case OtherStage => 0.25
  }

  datatype Venue = Venue(action: Action, sizeMultiplier: real)

  datatype GovernInputs = GovernInputs(
    stage: Rollout, truth: Option<TruthSnapshot>, reconciliation: Action, integrity: Option<Integrity>, venue: Option<Venue>)

  datatype GovernorAction =
    | Go | ReduceMaxSize | ForceDegraded | ForceFlattenOnly | ForceHalt | ForceHaltAndFlatten | DisableSymbol

  datatype Verdict = Verdict(action: GovernorAction, sizeMultiplier: real)

  /** The governor reads the levels again; the recorded action counts only when all are authoritative. */
  function TruthAction(truth: Option<TruthSnapshot>): Action {
    match truth
    case None => Continue
    case Some(t) =>
      if Unavailable in Critical(t) then FlattenOnly
      else if Unavailable in SoftLevels(t) || Proxy in Critical(t) || Proxy in SoftLevels(t) then Degrade
      else t.overall
  }

  function IntegrityAction(integrity: Option<Integrity>): Action {
    if integrity.Some? then integrity.value.action else Continue
  }

  function VenueAction(venue: Option<Venue>): Action {
    if venue.Some? then venue.value.action else Continue
  }

  function Demand(h: Health, g: GovernInputs): Verdict {
    var cap := RolloutCap(g.stage);
    var truth, integrity, venue := TruthAction(g.truth), IntegrityAction(g.integrity), VenueAction(g.venue);
    if h.action == HaltAndFlatten || g.reconciliation == HaltAndFlatten then Verdict(ForceHaltAndFlatten, cap)
    else if h.action == Halt || g.reconciliation == Halt || integrity == Halt || venue == Halt then Verdict(ForceHalt, cap)
    else if g.reconciliation == FlattenOnly || truth == FlattenOnly || integrity == FlattenOnly || venue == FlattenOnly then
      Verdict(ForceFlattenOnly, 0.0)
    else if h.action == Degrade || g.reconciliation == Degrade || truth == Degrade || integrity == Degrade
            || venue == Degrade then
      Verdict(ForceDegraded, Min(cap, 0.25))
    else if h.score < 0.75 || h.overtrading > 0.4 then Verdict(ReduceMaxSize, Min(cap, 0.5))
    else Verdict(Go, cap)
  }

  function Govern(h: Health, g: GovernInputs): Verdict {
    var demanded := Demand(h, g);
    var limited := if g.venue.None? then demanded
                   else demanded.(sizeMultiplier := Min(demanded.sizeMultiplier, Max(0.0, g.venue.value.sizeMultiplier)));
    var overridden := if h.exchangeScore < 0.2 || h.qualityScore < 0.2 then Verdict(DisableSymbol, 0.0) else limited;
    var slowed := if h.executionScore < 0.35 && overridden.action == Go then
                    Verdict(ReduceMaxSize, Min(overridden.sizeMultiplier, 0.5))
                  else overridden;
    Verdict(if slowed.action == Go && g.stage == Shadow then DisableSymbol else slowed.action,
            Max(0.0, Min(1.0, slowed.sizeMultiplier)))
  }

  predicate Blocks(action: GovernorAction) {
    action in {ForceHalt, ForceHaltAndFlatten, ForceFlattenOnly, DisableSymbol}
  }

  /** What may be traded: nothing on a blocking action, else the multiplier. */
  function Permitted(v: Verdict): real {
    if Blocks(v.action) then 0.0 else v.sizeMultiplier
  }

  // ----- What "worse" means -----

  ghost predicate WorseReading(a: Reading, b: Reading) {
    && a.staleSeconds <= b.staleSeconds && b.depthNotional <= a.depthNotional && a.spreadBps <= b.spreadBps
    && (b.sequenceOk ==> a.sequenceOk) && (b.checksumOk ==> a.checksumOk)
  }

  ghost predicate WorseMarket(a: MarketHealth, b: MarketHealth) {
    && (a.feedStale ==> b.feedStale) && (b.sequenceOk ==> a.sequenceOk) && (b.checksumOk ==> a.checksumOk)
    && b.symbolScore <= a.symbolScore && b.exchangeScore <= a.exchangeScore && b.qualityScore <= a.qualityScore
  }

  ghost predicate WorseIntegrity(a: Option<Integrity>, b: Option<Integrity>) {
    a.None? || (b.Some? && Rank(a.value.action) <= Rank(b.value.action) && b.value.score <= a.value.score)
  }

  ghost predicate WorseVenue(a: Option<Venue>, b: Option<Venue>) {
    a.None? || (b.Some? && Rank(a.value.action) <= Rank(b.value.action)
                && b.value.sizeMultiplier <= a.value.sizeMultiplier)
  }

  ghost predicate WorseSignals(a: Signals, b: Signals) {
    && (b.reconciliationOk ==> a.reconciliationOk) && a.apiErrorBurst <= b.apiErrorBurst
    && a.orderRejectBurst <= b.orderRejectBurst && a.latencyMs <= b.latencyMs
    && a.slippageDriftBps <= b.slippageDriftBps && a.pnlDeviationPct <= b.pnlDeviationPct
    && a.anomalyPressure <= b.anomalyPressure && WorseIntegrity(a.integrity, b.integrity)
  }

  ghost predicate WorseHealth(a: Health, b: Health) {
    && Rank(a.action) <= Rank(b.action) && b.score <= a.score && b.exchangeScore <= a.exchangeScore
    && b.qualityScore <= a.qualityScore && b.executionScore <= a.executionScore && a.overtrading <= b.overtrading
  }

  /** The actions market integrity and the venue limits can ask for, and below those of truth and health. */
  predicate VenueSide(a: Action) {
    a in {Continue, Degrade, FlattenOnly, Halt}
  }

  predicate FromEvaluate(a: Action) {
    a in {Continue, Degrade, Halt, HaltAndFlatten}
  }

  predicate Plausible(g: GovernInputs) {
    && VenueSide(IntegrityAction(g.integrity)) && VenueSide(VenueAction(g.venue))
    && TruthAction(g.truth) in {Continue, Degrade, FlattenOnly}
  }

  ghost predicate WorseInputs(a: GovernInputs, b: GovernInputs) {
    && RolloutCap(b.stage) <= RolloutCap(a.stage)
    && Rank(TruthAction(a.truth)) <= Rank(TruthAction(b.truth))
    && Rank(a.reconciliation) <= Rank(b.reconciliation)
    && WorseIntegrity(a.integrity, b.integrity) && WorseVenue(a.venue, b.venue)
  }

  // ----- The permitted size -----

  lemma {:induction false} AssessMonotone(a: Reading, b: Reading, limits: Limits)
    requires WorseReading(a, b)
    ensures WorseMarket(AssessHealth(a, limits), AssessHealth(b, limits))
  {
  }

  lemma {:induction false} CappedMonotone(x: real, y: real, a: Option<Integrity>, b: Option<Integrity>)
    requires y <= x && WorseIntegrity(a, b)
    requires VenueSide(IntegrityAction(a)) && VenueSide(IntegrityAction(b))
    ensures Capped(y, b) <= Capped(x, a)
  {
  }

  lemma {:induction false} EvaluateMonotone(m: MarketHealth, n: MarketHealth, a: Signals, b: Signals)
    requires WorseMarket(m, n) && WorseSignals(a, b)
    requires VenueSide(IntegrityAction(a.integrity)) && VenueSide(IntegrityAction(b.integrity))
    ensures WorseHealth(Evaluate(m, a), Evaluate(n, b))
    ensures FromEvaluate(Evaluate(m, a).action)
  {
    hide Capped, WorseIntegrity;
    CappedMonotone(1.0 - Penalties(a), 1.0 - Penalties(b), a.integrity, b.integrity);
  }

  /** How far a demand reaches: 0 free, 1 smaller, 2 degraded, 3 blocked. */
  function Grade(a: GovernorAction): nat {
    match a
    case Go => 0
    case ReduceMaxSize => 1
    case ForceDegraded => 2
    case _ => 3
  }

  function SizeAt(grade: nat, cap: real): real {
    if grade == 0 then cap else if grade == 1 then Min(cap, 0.5) else if grade == 2 then Min(cap, 0.25) else 0.0
  }

  lemma {:induction false} DemandMonotone(h: Health, k: Health, a: GovernInputs, b: GovernInputs)
    requires FromEvaluate(h.action) && FromEvaluate(k.action) && Plausible(a) && Plausible(b)
    requires WorseHealth(h, k) && WorseInputs(a, b)
    ensures Grade(Demand(h, a).action) <= Grade(Demand(k, b).action)
  {
    hide TruthAction, RolloutCap;
  }

  lemma {:induction false} DemandSize(h: Health, g: GovernInputs)
    ensures var d := Demand(h, g);
            (if Blocks(d.action) then 0.0 else d.sizeMultiplier) == SizeAt(Grade(d.action), RolloutCap(g.stage))
            && Blocks(d.action) == (Grade(d.action) == 3) && d.action != DisableSymbol
  {
    hide TruthAction, IntegrityAction, VenueAction;
  }

  lemma {:induction false} SizeMonotone(n: nat, m: nat, cap: real, lower: real)
    requires n <= m && 0.0 <= lower <= cap <= 1.0
    ensures 0.0 <= SizeAt(m, lower) <= SizeAt(n, cap) <= cap
  {
  }

  function VenueSize(venue: Option<Venue>): real {
    if venue.Some? then Min(1.0, Max(0.0, venue.value.sizeMultiplier)) else 1.0
  }

  function FinalGrade(h: Health, g: GovernInputs): nat {
    if h.exchangeScore < 0.2 || h.qualityScore < 0.2 then 3
    else if Demand(h, g).action == Go && h.executionScore < 0.35 then 1
    else Grade(Demand(h, g).action)
  }

  /** The permitted size in closed form: by grade, cut to what the venue allows. */
  lemma {:induction false} PermittedByGrade(h: Health, g: GovernInputs)
    ensures Permitted(Govern(h, g)) == Min(SizeAt(FinalGrade(h, g), RolloutCap(g.stage)), VenueSize(g.venue))
  {
    hide Demand;
    DemandSize(h, g);
    SizeMonotone(0, FinalGrade(h, g), RolloutCap(g.stage), RolloutCap(g.stage));
  }

  /** Main result: the permitted size never exceeds the rollout cap ... */
  lemma {:induction false} PermittedWithinCap(h: Health, g: GovernInputs)
    ensures 0.0 <= Permitted(Govern(h, g)) <= RolloutCap(g.stage)
  {
    hide Govern, Permitted, SizeAt, FinalGrade, RolloutCap;
    PermittedByGrade(h, g);
    CapRange(g.stage);
    SizeMonotone(0, FinalGrade(h, g), RolloutCap(g.stage), RolloutCap(g.stage));
  }

  lemma {:induction false} CapRange(stage: Rollout)
    ensures 0.0 <= RolloutCap(stage) <= 1.0
  {
  }

  /** ... and never grows when health, reconciliation, truth, integrity, venue or rollout worsen. */
  lemma {:induction false} PermittedNeverGrows(h: Health, k: Health, a: GovernInputs, b: GovernInputs)
    requires FromEvaluate(h.action) && FromEvaluate(k.action) && Plausible(a) && Plausible(b)
    requires WorseHealth(h, k) && WorseInputs(a, b)
    ensures Permitted(Govern(k, b)) <= Permitted(Govern(h, a))
  {
    hide Govern, Permitted, SizeAt, Demand, RolloutCap, TruthAction, Plausible;
    PermittedByGrade(h, a);
    PermittedByGrade(k, b);
    DemandMonotone(h, k, a, b);
    CapRange(a.stage);
    CapRange(b.stage);
    DemandSize(h, a);
    SizeMonotone(FinalGrade(h, a), FinalGrade(k, b), RolloutCap(a.stage), RolloutCap(b.stage));
  }

  function StageRank(stage: Rollout): nat {
    match stage
    case Paper => 0
    case Shadow => 0
    case TinyLive => 1
    case CanaryLive => 2
    case LimitedLive => 3
    case OtherStage => 3
    case NormalLive => 4
  }

  /** Promotion never shrinks what may be traded, an unknown stage may trade what limited live may, and before live nothing
      may be traded at all, whatever the other inputs. */
  lemma {:induction false} PromotionNeverShrinks(h: Health, g: GovernInputs, stage: Rollout)
    requires FromEvaluate(h.action) && Plausible(g) && StageRank(g.stage) <= StageRank(stage)
    ensures Permitted(Govern(h, g)) <= Permitted(Govern(h, g.(stage := stage)))
    ensures StageRank(g.stage) == StageRank(stage) ==> Permitted(Govern(h, g)) == Permitted(Govern(h, g.(stage := stage)))
    ensures StageRank(g.stage) == 0 ==> Permitted(Govern(h, g)) == 0.0
  {
    hide Govern, Permitted, TruthAction, WorseHealth;
    assert WorseHealth(h, h) by { HealthItself(h); }
    PermittedNeverGrows(h, h, g.(stage := stage), g);
    if StageRank(g.stage) == StageRank(stage) { PermittedNeverGrows(h, h, g, g.(stage := stage)); }
    PermittedWithinCap(h, g);
  }

  lemma {:induction false} HealthItself(h: Health)
    ensures WorseHealth(h, h)
  {
  }

  // ----- Flatten demands are not masked -----

  /** Scores of a market assessment stay at or above the override threshold. */
  lemma {:induction false} AssessedScoresAvoidOverride(reading: Reading, limits: Limits)
    ensures var m := AssessHealth(reading, limits);
            && m.exchangeScore in {1.0, 0.65} && m.qualityScore in {1.0, 0.65, 0.55, 0.2}
            && m.exchangeScore >= 0.2 && m.qualityScore >= 0.2
  {
  }

  ghost predicate WantsFlatten(h: Health, g: GovernInputs) {
    Demand(h, g).action in {ForceFlattenOnly, ForceHaltAndFlatten}
  }

  /** A demand to flatten reaches the verdict exactly when no market score is under the override threshold. */
  lemma {:induction false} FlattenKeptIff(h: Health, g: GovernInputs)
    requires WantsFlatten(h, g)
    ensures Govern(h, g).action == Demand(h, g).action <==> h.exchangeScore >= 0.2 && h.qualityScore >= 0.2
  {
    hide TruthAction, RolloutCap;
  }

  /** So with scores from a market assessment a demand to flatten is never masked. */
  lemma {:induction false} AssessedFlattenIsKept(reading: Reading, limits: Limits, s: Signals, g: GovernInputs)
    requires WantsFlatten(Evaluate(AssessHealth(reading, limits), s), g)
    ensures var h := Evaluate(AssessHealth(reading, limits), s);
            Govern(h, g).action == Demand(h, g).action
  {
    hide AssessHealth, Capped, Penalties, Govern, Demand;
    AssessedScoresAvoidOverride(reading, limits);
    FlattenKeptIff(Evaluate(AssessHealth(reading, limits), s), g);
  }

  // ----- Truth -----

  /** The governor's reading of a snapshot is the action the snapshot records. */
  lemma {:induction false} GovernorAgreesWithSnapshot(t: TruthInputs)
    ensures TruthAction(Some(TruthConfidence(t))) == TruthConfidence(t).overall
    ensures TruthConfidence(t).overall in {Continue, Degrade, FlattenOnly}
  {
    hide FillLevel, FeeLevel, RealizedLevel, MarketLevel;
  }

  /** What a flawed snapshot is worth, whatever action it records and however good the rest: nothing with an unavailable
      critical level, at most a quarter with any other flaw. */
  lemma {:induction false} FlawedTruthLimitsSize(h: Health, g: GovernInputs)
    requires g.truth.Some?
    ensures var t := g.truth.value;
            && (t.fill == Unavailable || t.fee == Unavailable || t.realized == Unavailable || t.balance == Unavailable
                || t.exposure == Unavailable || t.market == Unavailable
                ==> Permitted(Govern(h, g)) == 0.0)
            && (t.fill != Authoritative || t.fee != Authoritative || t.realized != Authoritative
                || t.balance != Authoritative || t.exposure != Authoritative || t.market != Authoritative
                || (t.unrealized.Some? && t.unrealized.value != Authoritative)
                ==> Permitted(Govern(h, g)) <= 0.25)
  {
    FlawedLevels(h, g);
  }

  lemma {:induction false} FlawedLevels(h: Health, g: GovernInputs)
    requires g.truth.Some?
    ensures Unavailable in Critical(g.truth.value) ==> Permitted(Govern(h, g)) == 0.0
    ensures !(Critical(g.truth.value) + SoftLevels(g.truth.value) <= {Authoritative}) ==> Permitted(Govern(h, g)) <= 0.25
  {
    hide Govern, Permitted, RolloutCap, Critical, SoftLevels;
    var flawed := (Critical(g.truth.value) + SoftLevels(g.truth.value)) - {Authoritative};
    if flawed != {} {
      var level :| level in flawed;
      assert level == Proxy || level == Unavailable;
    }
    PermittedByGrade(h, g);
    CapRange(g.stage);
  }

  ghost predicate WorseTruth(a: TruthInputs, b: TruthInputs) {
    && (forall gap :: gap in a.fillGaps ==> gap in b.fillGaps) && a.realizedGaps == b.realizedGaps
    && (b.sinceKnown ==> a.sinceKnown) && a.positionCount <= b.positionCount
    && a.openOrderCount <= b.openOrderCount && a.historyRecovered <= b.historyRecovered
    && (b.balance.Some? && b.balance.value > 0.0 ==> a.balance.Some? && a.balance.value > 0.0)
    && (a.market.Some? == b.market.Some? && (a.market.Some? ==> WorseMarket(a.market.value, b.market.value)))
    && (a.unrealized.None? ==> b.unrealized.None?)
    && (a.unrealized.Some? && b.unrealized.Some? ==> LevelRank(a.unrealized.value) <= LevelRank(b.unrealized.value))
  }

  /** Worse inputs - more fill-history gaps among them - never make the overall truth action milder. */
  lemma {:induction false} TruthNeverMilder(a: TruthInputs, b: TruthInputs)
    requires WorseTruth(a, b)
    ensures Rank(TruthConfidence(a).overall) <= Rank(TruthConfidence(b).overall)
  {
    FillNeverBetter(a, b);
    hide FillGap;
  }

  lemma {:induction false} FillNeverBetter(a: TruthInputs, b: TruthInputs)
    requires WorseTruth(a, b)
    ensures LevelRank(FillLevel(a)) <= LevelRank(FillLevel(b))
  {
    if FillGap(a.fillGaps) {
      var gap :| gap in a.fillGaps && gap != "" && gap != FEE_GAP && gap != REALIZED_GAP;
      assert gap in b.fillGaps;
    }
  }

  /** Single levels do improve under one more gap: a proxy window becomes an outright gap in the fills, and the fee and
      profit levels, which only look for the proxy, turn authoritative. */
  lemma {:induction false} LevelsAloneCanImprove(t: TruthInputs, gap: string)
    requires FillLevel(t) == Proxy && FEE_GAP !in t.fillGaps && REALIZED_GAP !in t.fillGaps && t.realizedGaps == []
    requires gap != "" && gap != FEE_GAP && gap != REALIZED_GAP
    ensures var worse := t.(fillGaps := t.fillGaps + [gap]);
            && FeeLevel(t) == Proxy && FeeLevel(worse) == Authoritative
            && RealizedLevel(t) == Proxy && RealizedLevel(worse) == Authoritative
            && Rank(TruthConfidence(t).overall) <= Rank(TruthConfidence(worse).overall)
  {
    var worse := t.(fillGaps := t.fillGaps + [gap]);
    assert gap in worse.fillGaps;
    if t.market.Some? { assert WorseMarket(t.market.value, worse.market.value); }
    TruthNeverMilder(t, worse);
  }

  /** More gaps in the realised profit can make the action milder, and do exactly when the first such gap is the
      balance proxy while the fill history already misses the profits and nothing else critical is unavailable. */
  lemma {:induction false} RealizedGapMilderIff(t: TruthInputs, more: seq<string>)
    ensures var worse := t.(realizedGaps := t.realizedGaps + more);
            Rank(TruthConfidence(worse).overall) < Rank(TruthConfidence(t).overall)
            <==> && t.realizedGaps == [] && more == [BALANCE_PROXY] && REALIZED_GAP in t.fillGaps
                 && FillLevel(t) != Unavailable && FeeLevel(t) != Unavailable
                 && t.balance.Some? && t.balance.value > 0.0 && MarketLevel(t.market) != Unavailable
  {
    var worse := t.(realizedGaps := t.realizedGaps + more);
    assert FillLevel(worse) == FillLevel(t) && FeeLevel(worse) == FeeLevel(t);
    assert t.realizedGaps == [] ==> worse.realizedGaps == more;
    if t.realizedGaps != [] && worse.realizedGaps == [BALANCE_PROXY] {
      assert |worse.realizedGaps| == |t.realizedGaps| + |more|;
      assert worse.realizedGaps[0] == t.realizedGaps[0];
      assert more == [] && t.realizedGaps == [BALANCE_PROXY];
    }
    hide FillLevel, FillGap, MarketLevel;
  }

  // ----- End to end -----

  /** Everything a decision can be taken from. */
  datatype Situation = Situation(
    reading: Reading, signals: Signals, truth: TruthInputs, stage: Rollout, reconciliation: Action, venue: Option<Venue>)

  ghost function Decide(s: Situation, limits: Limits): Verdict {
    Govern(Evaluate(AssessHealth(s.reading, limits), s.signals),
           GovernInputs(s.stage, Some(TruthConfidence(s.truth)), s.reconciliation, s.signals.integrity, s.venue))
  }

  ghost predicate WorseSituation(a: Situation, b: Situation) {
    && WorseReading(a.reading, b.reading) && WorseSignals(a.signals, b.signals) && WorseTruth(a.truth, b.truth)
    && RolloutCap(b.stage) <= RolloutCap(a.stage) && Rank(a.reconciliation) <= Rank(b.reconciliation)
    && WorseVenue(a.venue, b.venue)
  }

  predicate PlausibleSituation(s: Situation) {
    VenueSide(IntegrityAction(s.signals.integrity)) && VenueSide(VenueAction(s.venue))
  }

  /** From raw readings to the permitted size, with truth and reconciliation passed to the governor: a worse situation
      never lets more be traded. */
  lemma {:induction false} FailClosed(a: Situation, b: Situation, limits: Limits)
    requires WorseSituation(a, b) && PlausibleSituation(a) && PlausibleSituation(b)
    ensures 0.0 <= Permitted(Decide(b, limits)) <= Permitted(Decide(a, limits)) <= RolloutCap(a.stage)
  {
    hide AssessHealth, Evaluate, Govern, TruthConfidence, Permitted, RolloutCap, WorseReading, WorseTruth, TruthAction,
         WorseHealth;
    var h := Evaluate(AssessHealth(a.reading, limits), a.signals);
    var k := Evaluate(AssessHealth(b.reading, limits), b.signals);
    AssessMonotone(a.reading, b.reading, limits);
    EvaluateMonotone(AssessHealth(a.reading, limits), AssessHealth(b.reading, limits), a.signals, b.signals);
    EvaluateActions(AssessHealth(b.reading, limits), b.signals);
    GovernorAgreesWithSnapshot(a.truth);
    GovernorAgreesWithSnapshot(b.truth);
    TruthNeverMilder(a.truth, b.truth);
    var g := GovernInputs(a.stage, Some(TruthConfidence(a.truth)), a.reconciliation, a.signals.integrity, a.venue);
    var f := GovernInputs(b.stage, Some(TruthConfidence(b.truth)), b.reconciliation, b.signals.integrity, b.venue);
    PermittedNeverGrows(h, k, g, f);
    PermittedWithinCap(h, g);
    PermittedWithinCap(k, f);
  }

  /** The decision the live loop takes: it passes the governor neither the truth snapshot nor the reconciliation action. */
  function LiveDecide(s: Situation, limits: Limits): Verdict {
    Govern(Evaluate(AssessHealth(s.reading, limits), s.signals),
           GovernInputs(s.stage, None, Continue, s.signals.integrity, s.venue))
  }

  /** Main result: the live decision is fail-closed in everything it sees, ... */
  lemma {:induction false} LiveFailClosed(a: Situation, b: Situation, limits: Limits)
    requires WorseReading(a.reading, b.reading) && WorseSignals(a.signals, b.signals) && WorseVenue(a.venue, b.venue)
    requires RolloutCap(b.stage) <= RolloutCap(a.stage) && PlausibleSituation(a) && PlausibleSituation(b)
    ensures 0.0 <= Permitted(LiveDecide(b, limits)) <= Permitted(LiveDecide(a, limits)) <= RolloutCap(a.stage)
  {
    hide AssessHealth, Evaluate, Govern, Permitted, RolloutCap, WorseReading, WorseHealth;
    var h := Evaluate(AssessHealth(a.reading, limits), a.signals);
    var k := Evaluate(AssessHealth(b.reading, limits), b.signals);
    AssessMonotone(a.reading, b.reading, limits);
    EvaluateMonotone(AssessHealth(a.reading, limits), AssessHealth(b.reading, limits), a.signals, b.signals);
    EvaluateActions(AssessHealth(b.reading, limits), b.signals);
    var g := GovernInputs(a.stage, None, Continue, a.signals.integrity, a.venue);
    var f := GovernInputs(b.stage, None, Continue, b.signals.integrity, b.venue);
    PermittedNeverGrows(h, k, g, f);
    PermittedWithinCap(h, g);
    PermittedWithinCap(k, f);
  }

  /** ... but truth and the reconciliation action do not close that gate: it gives the same verdict whatever they are, and
      never permits less than the decision that sees them. */
  lemma {:induction false} LiveIgnoresTruth(s: Situation, truth: TruthInputs, reconciliation: Action, limits: Limits)
    requires PlausibleSituation(s)
    ensures LiveDecide(s.(truth := truth, reconciliation := reconciliation), limits) == LiveDecide(s, limits)
    ensures Permitted(Decide(s.(truth := truth, reconciliation := reconciliation), limits)) <= Permitted(LiveDecide(s, limits))
  {
    hide AssessHealth, Evaluate, Govern, Permitted, RolloutCap, TruthConfidence, WorseHealth;
    var h := Evaluate(AssessHealth(s.reading, limits), s.signals);
    EvaluateActions(AssessHealth(s.reading, limits), s.signals);
    GovernorAgreesWithSnapshot(truth);
    HealthItself(h);
    SeesLess(s.signals.integrity, s.venue);
    var live := GovernInputs(s.stage, None, Continue, s.signals.integrity, s.venue);
    var full := GovernInputs(s.stage, Some(TruthConfidence(truth)), reconciliation, s.signals.integrity, s.venue);
    PermittedNeverGrows(h, h, live, full);
  }

  lemma {:induction false} SeesLess(integrity: Option<Integrity>, venue: Option<Venue>)
    ensures WorseIntegrity(integrity, integrity) && WorseVenue(venue, venue)
  {
  }

  /** How far apart they can be: readings, signals and venue clean, the live loop may trade the whole cap under any truth
      and any reconciliation action, even where the decision that sees them permits nothing. */
  lemma {:induction false} TruthDoesNotCloseTheLiveGate(s: Situation, limits: Limits)
    requires CleanApartFromBooks(s, limits)
    ensures Permitted(LiveDecide(s, limits)) == RolloutCap(s.stage)
    ensures TruthConfidence(s.truth).overall == FlattenOnly || s.reconciliation == FlattenOnly ==>
              Permitted(Decide(s, limits)) == 0.0
  {
    hide RolloutCap, Govern, TruthConfidence;
    var h := Evaluate(AssessHealth(s.reading, limits), s.signals);
    assert h.score == 1.0 && h.action == Continue && h.executionScore >= 0.5;
    PermittedByGrade(h, GovernInputs(s.stage, None, Continue, s.signals.integrity, s.venue));
    PermittedByGrade(h, GovernInputs(s.stage, Some(TruthConfidence(s.truth)), s.reconciliation, s.signals.integrity, s.venue));
    GovernorAgreesWithSnapshot(s.truth);
    CapRange(s.stage);
  }

  lemma {:induction false} EvaluateActions(m: MarketHealth, s: Signals)
    ensures FromEvaluate(Evaluate(m, s).action)
  {
    hide Capped, Penalties;
  }

  /** A halt asked for by market integrity always arrives as halt-and-flatten, because it also drives the health score
      to the bottom; the governor's own test for it is never what decides. */
  lemma {:induction false} IntegrityHaltFlattens(m: MarketHealth, s: Signals, g: GovernInputs)
    requires g.integrity == s.integrity && IntegrityAction(s.integrity) == Halt
    ensures Demand(Evaluate(m, s), g).action == ForceHaltAndFlatten
  {
    hide Penalties, TruthAction;
  }

  /** A failed reconciliation degrades at least, with an error burst on top it halts at least; integrity alone, short of
      a halt, never does more than degrade the health action. */
  lemma {:induction false} HealthAnchors(m: MarketHealth, s: Signals)
    ensures !s.reconciliationOk ==> Rank(Evaluate(m, s).action) >= Rank(Degrade)
    ensures !s.reconciliationOk && s.apiErrorBurst >= 3 ==> Rank(Evaluate(m, s).action) >= Rank(Halt)
    ensures Penalties(s) == 0.0 && IntegrityAction(s.integrity) != Halt ==> Evaluate(m, s).action in {Continue, Degrade}
  {
  }

  ghost predicate CleanApartFromBooks(s: Situation, limits: Limits) {
    && s.reading.staleSeconds <= limits.staleThreshold && s.reading.depthNotional >= limits.minDepth
    && s.reading.spreadBps <= limits.maxSpread && s.reading.sequenceOk && s.reading.checksumOk
    && Penalties(s.signals) == 0.0 && 0.0 <= s.signals.latencyMs && s.signals.orderRejectBurst <= 2
    && IntegrityAction(s.signals.integrity) == Continue
    && VenueAction(s.venue) == Continue && VenueSize(s.venue) == 1.0
  }

  ghost predicate Clean(s: Situation, limits: Limits) {
    && CleanApartFromBooks(s, limits) && Rank(s.reconciliation) == 0
    && s.truth.fillGaps == [] && s.truth.realizedGaps == [] && s.truth.sinceKnown
    && s.truth.balance.Some? && s.truth.balance.value > 0.0 && s.truth.unrealized == Some(Authoritative)
    && s.truth.market == Some(AssessHealth(s.reading, limits))
  }

  /** And it is not closed always: a clean situation may trade at the whole rollout cap. */
  lemma {:induction false} CleanTradesAtCap(s: Situation, limits: Limits)
    requires Clean(s, limits)
    ensures Permitted(Decide(s, limits)) == RolloutCap(s.stage)
  {
    hide RolloutCap, Govern;
    var h := Evaluate(AssessHealth(s.reading, limits), s.signals);
    var g := GovernInputs(s.stage, Some(TruthConfidence(s.truth)), s.reconciliation, s.signals.integrity, s.venue);
    assert h.score == 1.0 && h.action == Continue && h.executionScore >= 0.5;
    assert !FillGap(s.truth.fillGaps);
    assert TruthAction(g.truth) == Continue;
    assert Demand(h, g).action == Go;
    PermittedByGrade(h, g);
    CapRange(s.stage);
  }

  // ----- The decision from raw inputs -----

  /** What the faults of the signals cost, in hundredths. */
  function FaultPoints(s: Signals): int {
    (if s.reconciliationOk then 0 else 40) + (if s.apiErrorBurst < 3 then 0 else 20)
    + (if s.orderRejectBurst < 3 then 0 else 15) + (if s.latencyMs <= 1000.0 then 0 else 15)
    + (if s.slippageDriftBps <= 10.0 then 0 else 15) + (if s.pnlDeviationPct <= 0.5 then 0 else 20)
    + (if s.anomalyPressure <= 0.5 then 0 else 10)
  }

  /** The size a stage may trade at most. */
  function StageSize(stage: Rollout): real {
    match stage
    case Paper => 0.0
    case Shadow => 0.0
    case TinyLive => 0.05
    case CanaryLive => 0.1
    case LimitedLive => 0.25
    case OtherStage => 0.25
    case NormalLive => 1.0
  }

  /** Where the verdict comes from, hardest first; `asked` are the actions asked for by reconciliation, truth, market integrity
      and the venue. */
  function VerdictFor(stage: Rollout, points: int, asked: set<Action>, integrityHalts: bool, slow: bool): GovernorAction {
    if points >= 80 || integrityHalts || HaltAndFlatten in asked then ForceHaltAndFlatten
    else if points >= 55 || Halt in asked then ForceHalt
    else if FlattenOnly in asked then ForceFlattenOnly
    else if points >= 30 || Degrade in asked then ForceDegraded
    else if points > 25 || slow then ReduceMaxSize
    else if stage == Shadow then DisableSymbol
    else Go
  }

  function Asked(g: GovernInputs): set<Action> {
    {g.reconciliation, TruthAction(g.truth), if g.integrity.Some? then g.integrity.value.action else Continue,
     if g.venue.Some? then g.venue.value.action else Continue}
  }

  predicate Slow(s: Signals) {
    s.orderRejectBurst >= 3 || s.latencyMs > 1300.0
  }

  /** What a verdict leaves of the stage's size, before the venue cuts it. */
  function SizeFor(verdict: GovernorAction, stage: Rollout): real {
    match verdict
    case Go => StageSize(stage)
    case ReduceMaxSize => Min(StageSize(stage), 0.5)
    case ForceDegraded => Min(StageSize(stage), 0.25)
    case _ => 0.0
  }

  lemma {:induction false} HealthFromPoints(m: MarketHealth, s: Signals)
    requires VenueSide(IntegrityAction(s.integrity))
    ensures var h, points, i := Evaluate(m, s), FaultPoints(s), IntegrityAction(s.integrity);
            && h.exchangeScore == m.exchangeScore && h.qualityScore == m.qualityScore
            && (h.action == HaltAndFlatten <==> points >= 80 || i == Halt)
            && (i != Halt ==> (h.action == Halt <==> 55 <= points < 80))
            && (i == Continue ==> (h.action == Degrade <==> 30 <= points < 55))
            && (i == Continue ==> (h.score < 0.75 <==> points > 25))
            && (h.executionScore < 0.35 <==> s.latencyMs > 1300.0)
            && (h.overtrading > 0.4 <==> s.orderRejectBurst >= 3)
            && (h.action == Degrade ==> points >= 30 || i in {Degrade, FlattenOnly})
  {
    PointsArePenalties(s);
    hide Penalties, FaultPoints;
  }

  lemma {:induction false} PointsArePenalties(s: Signals)
    ensures Penalties(s) == FaultPoints(s) as real / 100.0
  {
  }

  /** Main result: the governor's verdict and the size it permits, from the raw signals, the stage and what reconciliation,
      truth, market integrity and the venue ask for. The market reading plays no part: an assessment never scores low enough
      to disable a symbol. */
  lemma {:induction false} VerdictFromSignals(reading: Reading, limits: Limits, s: Signals, g: GovernInputs)
    requires g.integrity == s.integrity && Plausible(g)
    ensures var v := Govern(Evaluate(AssessHealth(reading, limits), s), g);
            var halts := IntegrityAction(g.integrity) == Halt;
            && v.action == VerdictFor(g.stage, FaultPoints(s), Asked(g), halts, Slow(s))
            && Permitted(v) == Min(SizeFor(v.action, g.stage), VenueSize(g.venue))
            && v.sizeMultiplier
               == Min(if v.action in {ForceHalt, ForceHaltAndFlatten} then StageSize(g.stage)
                      else SizeFor(v.action, g.stage), VenueSize(g.venue))
  {
    var m := AssessHealth(reading, limits);
    AssessedScoresAvoidOverride(reading, limits);
    HealthFromPoints(m, s);
    hide AssessHealth, Evaluate, FaultPoints, TruthAction;
    SizesAgree(g.stage);
    DemandFromPoints(Evaluate(m, s), s, g);
    hide Demand, Asked, Slow;
  }

  lemma {:induction false} SizesAgree(stage: Rollout)
    ensures RolloutCap(stage) == StageSize(stage) && 0.0 <= StageSize(stage) <= 1.0
  {
  }

  lemma {:induction false} DemandFromPoints(h: Health, s: Signals, g: GovernInputs)
    requires g.integrity == s.integrity && Plausible(g)
    requires var points, i := FaultPoints(s), IntegrityAction(s.integrity);
             && (h.action == HaltAndFlatten <==> points >= 80 || i == Halt)
             && (i != Halt ==> (h.action == Halt <==> 55 <= points < 80))
             && (i == Continue ==> (h.action == Degrade <==> 30 <= points < 55))
             && (i == Continue ==> (h.score < 0.75 <==> points > 25))
             && (h.executionScore < 0.35 <==> s.latencyMs > 1300.0)
             && (h.overtrading > 0.4 <==> s.orderRejectBurst >= 3)
             && (h.action == Degrade ==> points >= 30 || i in {Degrade, FlattenOnly})
    ensures var halts, d := IntegrityAction(g.integrity) == Halt, Demand(h, g);
            var stage := if g.stage == Shadow then Paper else g.stage;
            && (if d.action == Go && h.executionScore < 0.35 then ReduceMaxSize else d.action)
               == VerdictFor(stage, FaultPoints(s), Asked(g), halts, Slow(s))
            && (d.action in {Go, ForceHalt, ForceHaltAndFlatten} ==> d.sizeMultiplier == RolloutCap(g.stage))
            && (d.action == ForceFlattenOnly ==> d.sizeMultiplier == 0.0)
            && (d.action == ReduceMaxSize ==> d.sizeMultiplier == Min(RolloutCap(g.stage), 0.5))
            && (d.action == ForceDegraded ==> d.sizeMultiplier == Min(RolloutCap(g.stage), 0.25))
  {
    hide FaultPoints, TruthAction, RolloutCap;
  }

  /** The figures of a health snapshot: the score is what the faults leave of one, capped where market integrity asks, the
      execution score falls from one at no latency to nothing at two seconds, five rejections are full overtrading. */
  lemma {:induction false} HealthFigures(m: MarketHealth, s: Signals)
    ensures var h, left := Evaluate(m, s), 1.0 - FaultPoints(s) as real / 100.0;
            && (IntegrityAction(s.integrity) !in {Degrade, FlattenOnly, Halt} ==> h.score == Max(0.0, left))
            && (s.integrity.Some? ==>
                  var i := s.integrity.value;
                  && (i.action == Degrade ==> h.score == Max(0.0, Min(left, Max(0.6, i.score))))
                  && (i.action == FlattenOnly ==> h.score == Max(0.0, Min(left, Max(0.55, i.score))))
                  && (i.action == Halt ==> h.score == Max(0.0, Min(left, Min(0.15, i.score)))))
            && h.executionScore == (if s.latencyMs <= 2000.0 then 1.0 - s.latencyMs / 2000.0 else 0.0)
            && h.overtrading == (if s.orderRejectBurst <= 5 then s.orderRejectBurst as real / 5.0 else 1.0)
  {
    PointsArePenalties(s);
    hide Penalties, FaultPoints;
  }

  /** A market score under 0.2, which no assessment gives, disables the symbol whatever else is asked for. */
  lemma {:induction false} LowScoreDisables(h: Health, g: GovernInputs)
    requires h.exchangeScore < 0.2 || h.qualityScore < 0.2
    ensures Govern(h, g) == Verdict(DisableSymbol, 0.0)
  {
    hide Demand;
  }

  /** So in the live loop, by stage: what may be traded at most, and what a clean situation may trade. */
  lemma {:induction false} LiveStageSizes(s: Situation, limits: Limits)
    requires PlausibleSituation(s)
    ensures var size := Permitted(LiveDecide(s, limits));
            && (s.stage in {Paper, Shadow} ==> size == 0.0)
            && (s.stage == TinyLive ==> size <= 0.05)
            && (s.stage == CanaryLive ==> size <= 0.1)
            && (s.stage in {LimitedLive, OtherStage} ==> size <= 0.25)
            && 0.0 <= size <= 1.0
    ensures CleanApartFromBooks(s, limits) ==>
              Permitted(LiveDecide(s, limits))
              == match s.stage
                 case Paper => 0.0
                 case Shadow => 0.0
                 case TinyLive => 0.05
                 case CanaryLive => 0.1
                 case LimitedLive => 0.25
                 case OtherStage => 0.25
                 case NormalLive => 1.0
  {
    var g := GovernInputs(s.stage, None, Continue, s.signals.integrity, s.venue);
    PermittedWithinCap(Evaluate(AssessHealth(s.reading, limits), s.signals), g);
    if CleanApartFromBooks(s, limits) { TruthDoesNotCloseTheLiveGate(s, limits); }
    hide Govern, Evaluate, AssessHealth, Permitted, TruthConfidence;
  }

  /** The same for a decision that sees truth and reconciliation. */
  lemma {:induction false} StageSizes(h: Health, g: GovernInputs)
    ensures var size := Permitted(Govern(h, g));
            && (g.stage in {Paper, Shadow} ==> size == 0.0)
            && (g.stage == TinyLive ==> size <= 0.05)
            && (g.stage == CanaryLive ==> size <= 0.1)
            && (g.stage in {LimitedLive, OtherStage} ==> size <= 0.25)
            && 0.0 <= size <= 1.0
  {
    PermittedWithinCap(h, g);
    hide Govern, Permitted;
  }

  /** Main result: the size the live loop permits, from its raw signals alone: the market reading, like truth and
      reconciliation, never changes it. */
  lemma {:induction false} LiveSizeFromSignals(s: Situation, limits: Limits, other: Reading)
    requires PlausibleSituation(s)
    ensures var points, i, v := FaultPoints(s.signals), IntegrityAction(s.signals.integrity), VenueAction(s.venue);
            Permitted(LiveDecide(s, limits))
            == if points >= 55 || i in {FlattenOnly, Halt} || v in {FlattenOnly, Halt} then 0.0
               else if points >= 30 || i == Degrade || v == Degrade then
                 Min(Min(StageSize(s.stage), 0.25), VenueSize(s.venue))
               else if points > 25 || s.signals.orderRejectBurst >= 3 || s.signals.latencyMs > 1300.0 then
                 Min(Min(StageSize(s.stage), 0.5), VenueSize(s.venue))
               else Min(StageSize(s.stage), VenueSize(s.venue))
    ensures LiveDecide(s.(reading := other), limits).action == LiveDecide(s, limits).action
    ensures Permitted(LiveDecide(s.(reading := other), limits)) == Permitted(LiveDecide(s, limits))
  {
    var g := GovernInputs(s.stage, None, Continue, s.signals.integrity, s.venue);
    VerdictFromSignals(s.reading, limits, s.signals, g);
    VerdictFromSignals(other, limits, s.signals, g);
    hide Govern, Evaluate, AssessHealth, FaultPoints, Permitted;
  }

  /** What each reading does to the scores of an assessment. */
  lemma {:induction false} ReadingScores(reading: Reading, limits: Limits)
    ensures var m := AssessHealth(reading, limits);
            && (m.feedStale <==> reading.staleSeconds > limits.staleThreshold)
            && (m.sequenceOk <==> reading.sequenceOk) && (m.checksumOk <==> reading.checksumOk)
            && m.symbolScore == (if m.feedStale then 0.5 else 1.0)
            && m.exchangeScore == (if reading.sequenceOk && reading.checksumOk then 1.0 else 0.65)
            && var thin, wide := reading.depthNotional < limits.minDepth, reading.spreadBps > limits.maxSpread;
               && (m.qualityScore == 1.0 <==> !thin && !wide) && (m.qualityScore == 0.65 <==> !thin && wide)
               && (m.qualityScore == 0.55 <==> thin && !wide) && (m.qualityScore == 0.2 <==> thin && wide)
  {
  }

  /** Main result: the overall truth action from the raw inputs: flatten on a real gap, a missing balance or a stale feed,
      continue only with everything known at first hand. */
  lemma {:induction false} TruthActionIff(t: TruthInputs)
    ensures var proxyOnly := t.realizedGaps == ["realized_pnl_proxy_balance_delta"];
            var flatten := || (exists gap :: gap in t.fillGaps && gap != "" && gap != "realized_pnl_truth_gap")
                           || ("realized_pnl_truth_gap" in t.fillGaps && !proxyOnly)
                           || (t.realizedGaps != [] && !proxyOnly)
                           || t.balance.None? || t.balance.value <= 0.0
                           || (t.market.Some? && t.market.value.feedStale);
            && (TruthConfidence(t).overall == FlattenOnly <==> flatten)
            && (TruthConfidence(t).overall == Continue
                <==> && !flatten && !proxyOnly
                     && (t.sinceKnown || (t.positionCount <= 0 && t.openOrderCount <= 0 && t.historyRecovered <= 0))
                     && t.market.Some? && t.market.value.sequenceOk && t.market.value.checksumOk
                     && t.unrealized == Some(Authoritative))
            && TruthConfidence(t).overall in {Continue, Degrade, FlattenOnly}
  {
    assert |FEE_GAP| == 13 && |REALIZED_GAP| == 22;
    if gap :| gap in t.fillGaps && gap != "" && gap != REALIZED_GAP {
      assert gap == FEE_GAP || FillGap(t.fillGaps);
    }
    if FillGap(t.fillGaps) {
      var gap :| gap in t.fillGaps && gap != "" && gap != FEE_GAP && gap != REALIZED_GAP;
    }
    assert (exists gap :: gap in t.fillGaps && gap != "" && gap != REALIZED_GAP)
      <==> FillGap(t.fillGaps) || FEE_GAP in t.fillGaps;
    hide FillGap;
    LevelsFromInputs(t);
    hide FillLevel, FeeLevel, RealizedLevel, MarketLevel;
    if t.unrealized.Some? { ThreeLevels(t.unrealized.value); }
  }

  lemma {:induction false} ThreeLevels(level: Level)
    ensures level == Authoritative || level == Proxy || level == Unavailable
  {
  }

  lemma {:induction false} LevelsFromInputs(t: TruthInputs)
    ensures var gaps, proxyOnly := t.fillGaps, t.realizedGaps == [BALANCE_PROXY];
            var window := !t.sinceKnown && (t.positionCount > 0 || t.openOrderCount > 0 || t.historyRecovered > 0);
            && (FillLevel(t) == Unavailable <==> FillGap(gaps))
            && (FillLevel(t) == Proxy <==> !FillGap(gaps) && window)
            && (FeeLevel(t) == Unavailable <==> FEE_GAP in gaps)
            && (FeeLevel(t) == Proxy ==> FillLevel(t) == Proxy)
            && (RealizedLevel(t) == Unavailable <==> !proxyOnly && (REALIZED_GAP in gaps || t.realizedGaps != []))
            && (RealizedLevel(t) == Proxy ==> proxyOnly || FillLevel(t) == Proxy) && (proxyOnly ==> RealizedLevel(t) == Proxy)
            && (MarketLevel(t.market) == Unavailable <==> t.market.Some? && t.market.value.feedStale)
            && (MarketLevel(t.market) == Authoritative
                <==> t.market.Some? && !t.market.value.feedStale && t.market.value.sequenceOk && t.market.value.checksumOk)
  {
    hide FillGap;
  }
}
