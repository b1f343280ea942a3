/**
 * The monitor, position ledger and statistics (TokenMonitor,
 * src/services/monitor.ts).
 *
 * A position is a value stored in the `positions` map and replaced on every
 * change; `positionOrder` is the insertion order the map iterates in. The
 * outcome of a snipe, the current value of each position, the clock and the
 * success of the chain subscriptions are inputs. The dedup timer is the
 * explicit `Expire` event and each firing of the 30 s interval is a call of
 * `Sweep`.
 */
module Monitor {
  import opened Types

  const RecentActivityLimit: nat := 50

  datatype ExitAction = TakeProfit | StopLoss

  datatype StartOutcome = AlreadyMonitoring | Started | SubscriptionFailed

  predicate Distinct(s: seq<string>) {
    forall i, j :: 0 <= i < j < |s| ==> s[i] != s[j]
  }

  /** `order` lists every key of `ps` exactly once. */
  predicate LedgerOrder(ps: map<string, Position>, order: seq<string>) {
    && (forall i :: 0 <= i < |order| ==> order[i] in ps)
    && (forall k :: k in ps ==> k in order)
    && Distinct(order)
  }

  predicate WellFormed(mint: string, p: Position) {
    p.tokenMint == mint && (p.isActive <==> p.exitTimestamp.None?)
  }

  // ---------------------------------------------------------------------------
  // Recent activity

  /** The window after `unshift(result)` and the cut back to 50 entries. */
  function WithNewest(activity: seq<SnipeResult>, result: SnipeResult): (r: seq<SnipeResult>)
    ensures |r| == if |activity| < RecentActivityLimit then |activity| + 1 else RecentActivityLimit
    ensures r[0] == result
    ensures forall i :: 1 <= i < |r| ==> r[i] == activity[i - 1]
  {
    var pushed := [result] + activity;
    if |pushed| > RecentActivityLimit then pushed[..RecentActivityLimit] else pushed
  }

  // ---------------------------------------------------------------------------
  // Positions

  /** The open position addPosition stores for a successful snipe. */
  function NewPosition(token: TokenInfo, result: SnipeResult): (p: Position)
    ensures WellFormed(token.mint, p) && p.isActive
    ensures p.costBasisSol == result.amountSol && p.entryTimestamp == result.timestamp
    ensures p.amountTokens == if result.amountTokens.Some? then result.amountTokens.value else 0.0
    ensures p.currentValueSol.None? && p.profitLoss.None? && p.profitLossPercent.None?
  {
    Position(token.mint,
             if Truthy(result.amountTokens) then result.amountTokens.value else 0.0,
             result.amountSol, None, None, None, result.timestamp, None, true)
  }

  /** The position after updatePositionValue, given its current value. */
  function Revalued(p: Position, currentValueSol: real): (q: Position)
    ensures q.currentValueSol == Some(currentValueSol)
    ensures q.profitLoss.Some? && q.profitLoss.value + p.costBasisSol == currentValueSol
    ensures q.profitLossPercent.Some?
    ensures p.costBasisSol != 0.0 ==>
      q.profitLossPercent.value.Finite?
      && q.profitLossPercent.value.value * p.costBasisSol == q.profitLoss.value * 100.0
    ensures p.costBasisSol == 0.0 ==>
      (q.profitLossPercent.value.PlusInfinity? <==> currentValueSol > 0.0)
      && (q.profitLossPercent.value.MinusInfinity? <==> currentValueSol < 0.0)
      && (q.profitLossPercent.value.NotANumber? <==> currentValueSol == 0.0)
    ensures q.(currentValueSol := p.currentValueSol, profitLoss := p.profitLoss,
               profitLossPercent := p.profitLossPercent) == p
  {
    var profitLoss := currentValueSol - p.costBasisSol;
    var percent := PercentOf(profitLoss, p.costBasisSol);
    assert p.costBasisSol != 0.0 ==> percent.value * p.costBasisSol == profitLoss * 100.0;
    p.(currentValueSol := Some(currentValueSol), profitLoss := Some(profitLoss),
       profitLossPercent := Some(percent))
  }

  /** The exit rule of checkExitConditions. With a finite percentage x the
      position closes iff x is non-zero and reaches take-profit or stop-loss,
      and take-profit wins when both hold. An undefined or NaN percentage never
      closes it; +Infinity takes profit and -Infinity stops the loss. */
  function ExitDecision(percent: Option<Ratio>, takeProfitPercent: real, stopLossPercent: real): (r: Option<ExitAction>)
    ensures percent.Some? && percent.value.Finite? ==>
      var x := percent.value.value;
      && (r.Some? <==> x != 0.0 && (x >= takeProfitPercent || x <= -stopLossPercent))
      && (r == Some(TakeProfit) <==> x != 0.0 && x >= takeProfitPercent)
    ensures percent.None? || percent.value.NotANumber? ==> r.None?
    ensures percent == Some(PlusInfinity) ==> r == Some(TakeProfit)
    ensures percent == Some(MinusInfinity) ==> r == Some(StopLoss)
  {
    if !TruthyRatio(percent) then None
    else if AtLeast(percent.value, takeProfitPercent) then Some(TakeProfit)
    else if AtMost(percent.value, -stopLossPercent) then Some(StopLoss)
    else None
  }

  /** The position after executeSell. */
  function Closed(p: Position, now: int): Position {
    p.(isActive := false, exitTimestamp := Some(now))
  }

  /** What executeSell adds to the cumulative profit and loss. */
  function Realized(p: Position): real {
    if Truthy(p.profitLoss) then p.profitLoss.value else 0.0
  }

  function PriceOf(prices: map<string, real>, mint: string): Option<real> {
    if mint in prices then Some(prices[mint]) else None
  }

  /** One position in one sweep: skipped when closed or when its value cannot be
      fetched, otherwise revalued and closed when the exit rule fires. */
  function SweepStep(p: Position, price: Option<real>, tp: real, sl: real, now: int): Position {
    if !p.isActive || price.None? then p
    else
      var q := Revalued(p, price.value);
      if ExitDecision(q.profitLossPercent, tp, sl).Some? then Closed(q, now) else q
  }

  /** What one position adds to the cumulative profit and loss in one sweep. */
  function SweepGain(p: Position, price: Option<real>, tp: real, sl: real): real {
    if !p.isActive || price.None? then 0.0
    else
      var q := Revalued(p, price.value);
      if ExitDecision(q.profitLossPercent, tp, sl).Some? then Realized(q) else 0.0
  }

  function SweepTotal(ps: map<string, Position>, keys: seq<string>, prices: map<string, real>,
                      tp: real, sl: real): real
    requires forall i :: 0 <= i < |keys| ==> keys[i] in ps
  {
    if keys == [] then 0.0
    else
      var k := keys[|keys| - 1];
      SweepTotal(ps, keys[..|keys| - 1], prices, tp, sl) + SweepGain(ps[k], PriceOf(prices, k), tp, sl)
  }

  /** The ledger after one sweep. */
  function Swept(ps: map<string, Position>, prices: map<string, real>, tp: real, sl: real, now: int)
    : map<string, Position>
  {
    map k | k in ps :: SweepStep(ps[k], PriceOf(prices, k), tp, sl, now)
  }

  /** The active positions, in the ledger's order. */
  function ActivePositions(ps: map<string, Position>, order: seq<string>): (r: seq<Position>)
    requires forall i :: 0 <= i < |order| ==> order[i] in ps
    ensures |r| <= |order|
    ensures forall p :: p in r ==> p.isActive && exists i :: 0 <= i < |order| && ps[order[i]] == p
    ensures forall i :: 0 <= i < |order| && ps[order[i]].isActive ==> ps[order[i]] in r
  {
    if order == [] then []
    else
      var k := order[|order| - 1];
      var front := order[..|order| - 1];
      assert forall i :: 0 <= i < |front| ==> front[i] == order[i];
      ActivePositions(ps, front) + (if ps[k].isActive then [ps[k]] else [])
  }

  /** The ledger indexes of the active positions, in increasing order. */
  ghost function ActiveIndexes(ps: map<string, Position>, order: seq<string>): seq<int>
    requires forall i :: 0 <= i < |order| ==> order[i] in ps
  {
    if order == [] then []
    else
      var front := order[..|order| - 1];
      assert forall i :: 0 <= i < |front| ==> front[i] == order[i];
      ActiveIndexes(ps, front) + (if ps[order[|order| - 1]].isActive then [|order| - 1] else [])
  }

  /** `r` lists the entries of `order` at the strictly increasing indexes `idx`,
      and these are exactly the indexes of the active positions. */
  predicate OrderedFilter(ps: map<string, Position>, order: seq<string>, r: seq<Position>, idx: seq<int>)
    requires forall i :: 0 <= i < |order| ==> order[i] in ps
  {
    && |idx| == |r|
    && (forall j :: 0 <= j < |idx| ==> 0 <= idx[j] < |order| && ps[order[idx[j]]] == r[j] && r[j].isActive)
    && (forall j, k :: 0 <= j < k < |idx| ==> idx[j] < idx[k])
    && (forall i :: 0 <= i < |order| && ps[order[i]].isActive ==> i in idx)
  }

  /** Extending the ledger by one key extends the filter by that key's index
      when its position is active, and leaves the filter otherwise. */
  lemma OrderedFilterSnoc(ps: map<string, Position>, order: seq<string>, r: seq<Position>, idx: seq<int>)
    requires forall i :: 0 <= i < |order| ==> order[i] in ps
    requires |order| > 0
    requires OrderedFilter(ps, order[..|order| - 1], r, idx)
    ensures var n := |order| - 1;
      OrderedFilter(ps, order, r + (if ps[order[n]].isActive then [ps[order[n]]] else []),
                    idx + (if ps[order[n]].isActive then [n] else []))
  {
    var n := |order| - 1;
    var front := order[..n];
    var r' := r + (if ps[order[n]].isActive then [ps[order[n]]] else []);
    var idx' := idx + (if ps[order[n]].isActive then [n] else []);
    forall j | 0 <= j < |idx'|
      ensures 0 <= idx'[j] < |order| && ps[order[idx'[j]]] == r'[j] && r'[j].isActive
    {
      if j < |idx| {
        assert front[idx[j]] == order[idx[j]];
      }
    }
    forall j, k | 0 <= j < k < |idx'| ensures idx'[j] < idx'[k] {
      if k == |idx| {
        assert idx[j] < |front|;
      }
    }
    forall i | 0 <= i < |order| && ps[order[i]].isActive ensures i in idx' {
      if i < n {
        assert front[i] == order[i];
      } else {
        assert idx'[|idx|] == i;
      }
    }
  }

  /** The active positions come in ledger order, one per active entry. */
  lemma {:induction false} ActivePositionsInOrder(ps: map<string, Position>, order: seq<string>)
    requires forall i :: 0 <= i < |order| ==> order[i] in ps
    ensures OrderedFilter(ps, order, ActivePositions(ps, order), ActiveIndexes(ps, order))
  {
    if order != [] {
      var front := order[..|order| - 1];
      assert forall i :: 0 <= i < |front| ==> front[i] == order[i];
      ActivePositionsInOrder(ps, front);
      OrderedFilterSnoc(ps, order, ActivePositions(ps, front), ActiveIndexes(ps, front));
    }
  }

  /** Over a ledger in order, the active positions hold distinct mints:
      one entry per open position. */
  lemma ActiveMintsDistinct(ps: map<string, Position>, order: seq<string>)
    requires LedgerOrder(ps, order)
    requires forall k :: k in ps ==> WellFormed(k, ps[k])
    ensures forall j, k :: 0 <= j < k < |ActivePositions(ps, order)| ==>
      ActivePositions(ps, order)[j].tokenMint != ActivePositions(ps, order)[k].tokenMint
  {
    var r := ActivePositions(ps, order);
    var idx := ActiveIndexes(ps, order);
    ActivePositionsInOrder(ps, order);
    forall j, k | 0 <= j < k < |r| ensures r[j].tokenMint != r[k].tokenMint {
      assert r[j].tokenMint == order[idx[j]] && r[k].tokenMint == order[idx[k]];
      assert idx[j] < idx[k];
    }
  }

  // ---------------------------------------------------------------------------
  // Properties of the exit rule and the sweep

  /** For a positive cost basis, the take-profit comparison holds exactly when the
      value reaches cost * (1 + tp / 100), and the stop-loss comparison exactly when
      it falls to cost * (1 - sl / 100). The exit rule fires on those comparisons
      only when the value differs from the cost: a zero percentage never exits. */
  lemma ExitThresholdsInValue(p: Position, v: real, tp: real, sl: real)
    requires p.costBasisSol > 0.0
    ensures AtLeast(Revalued(p, v).profitLossPercent.value, tp) <==> v >= p.costBasisSol * (1.0 + tp / 100.0)
    ensures AtMost(Revalued(p, v).profitLossPercent.value, -sl) <==> v <= p.costBasisSol * (1.0 - sl / 100.0)
    ensures ExitDecision(Revalued(p, v).profitLossPercent, tp, sl) == Some(TakeProfit) <==>
      v != p.costBasisSol && v >= p.costBasisSol * (1.0 + tp / 100.0)
    ensures ExitDecision(Revalued(p, v).profitLossPercent, tp, sl).Some? <==>
      v != p.costBasisSol && (v >= p.costBasisSol * (1.0 + tp / 100.0) || v <= p.costBasisSol * (1.0 - sl / 100.0))
  {
    var c := p.costBasisSol;
    var pct := Revalued(p, v).profitLossPercent.value.value;
    assert pct * c == (v - c) * 100.0;
    assert pct >= tp <==> pct * c >= tp * c;
    assert pct <= -sl <==> pct * c <= -sl * c;
    assert pct != 0.0 <==> v != c;
  }

  /** With a zero cost basis the division yields +Infinity, -Infinity or NaN:
      any gain takes profit, any loss stops it, and an unchanged value never exits. */
  lemma ZeroCostBasisExits(p: Position, v: real, tp: real, sl: real)
    requires p.costBasisSol == 0.0
    ensures v > 0.0 ==> ExitDecision(Revalued(p, v).profitLossPercent, tp, sl) == Some(TakeProfit)
    ensures v < 0.0 ==> ExitDecision(Revalued(p, v).profitLossPercent, tp, sl) == Some(StopLoss)
    ensures v == 0.0 ==> ExitDecision(Revalued(p, v).profitLossPercent, tp, sl) == None
  {
  }

  /** Revaluing twice at the same value changes nothing more. */
  lemma RevaluedIdempotent(p: Position, v: real)
    ensures Revalued(Revalued(p, v), v) == Revalued(p, v)
  {
  }

  /** A closed position is never changed again and adds nothing. */
  lemma ClosedIsFinal(p: Position, price: Option<real>, tp: real, sl: real, now: int)
    requires !p.isActive
    ensures SweepStep(p, price, tp, sl, now) == p
    ensures SweepGain(p, price, tp, sl) == 0.0
  {
  }

  /** A second sweep at unchanged values leaves the position as the first left it and adds nothing. */
  lemma SweepStepIdempotent(p: Position, price: Option<real>, tp: real, sl: real, now: int, later: int)
    ensures SweepStep(SweepStep(p, price, tp, sl, now), price, tp, sl, later) == SweepStep(p, price, tp, sl, now)
    ensures SweepGain(SweepStep(p, price, tp, sl, now), price, tp, sl) == 0.0
  {
    if p.isActive && price.Some? {
      RevaluedIdempotent(p, price.value);
    }
  }

  /** A position closes in a sweep exactly when it was open, its value was known
      and the exit rule fired; it then carries the sweep's time and brings its
      truthy profit and loss. */
  lemma SweepClosesIff(p: Position, price: Option<real>, tp: real, sl: real, now: int)
    requires p.isActive
    ensures !SweepStep(p, price, tp, sl, now).isActive <==>
      price.Some? && ExitDecision(Revalued(p, price.value).profitLossPercent, tp, sl).Some?
    ensures !SweepStep(p, price, tp, sl, now).isActive ==>
      SweepStep(p, price, tp, sl, now).exitTimestamp == Some(now)
      && SweepGain(p, price, tp, sl) == Realized(Revalued(p, price.value))
    ensures SweepStep(p, price, tp, sl, now).isActive ==> SweepGain(p, price, tp, sl) == 0.0
  {
  }

  /** A sweep over an already swept ledger, at unchanged values, adds nothing. */
  lemma {:induction false} ResweepAddsNothing(ps: map<string, Position>, keys: seq<string>,
                                              prices: map<string, real>, tp: real, sl: real, now: int)
    requires forall i :: 0 <= i < |keys| ==> keys[i] in ps
    ensures SweepTotal(Swept(ps, prices, tp, sl, now), keys, prices, tp, sl) == 0.0
  {
    if keys != [] {
      var k := keys[|keys| - 1];
      ResweepAddsNothing(ps, keys[..|keys| - 1], prices, tp, sl, now);
      SweepStepIdempotent(ps[k], PriceOf(prices, k), tp, sl, now, now);
    }
  }

  /** A second sweep at unchanged values changes no position. */
  lemma ResweepChangesNothing(ps: map<string, Position>, prices: map<string, real>, tp: real, sl: real,
                              now: int, later: int)
    ensures Swept(Swept(ps, prices, tp, sl, now), prices, tp, sl, later) == Swept(ps, prices, tp, sl, now)
  {
    forall k | k in ps
      ensures SweepStep(SweepStep(ps[k], PriceOf(prices, k), tp, sl, now), PriceOf(prices, k), tp, sl, later)
           == SweepStep(ps[k], PriceOf(prices, k), tp, sl, now)
    {
      SweepStepIdempotent(ps[k], PriceOf(prices, k), tp, sl, now, later);
    }
  }

  /** The sweep loop's invariant survives one more entry. */
  lemma SweepAdvances(ps0: map<string, Position>, before: map<string, Position>, after: map<string, Position>,
                      order: seq<string>, i: nat, prices: map<string, real>, tp: real, sl: real, now: int)
    requires LedgerOrder(ps0, order) && i < |order| && before.Keys == ps0.Keys
    requires forall j :: 0 <= j < i ==> before[order[j]] == SweepStep(ps0[order[j]], PriceOf(prices, order[j]), tp, sl, now)
    requires forall j :: i <= j < |order| ==> before[order[j]] == ps0[order[j]]
    requires after == before[order[i] := SweepStep(before[order[i]], PriceOf(prices, order[i]), tp, sl, now)]
    ensures after.Keys == ps0.Keys
    ensures forall j :: 0 <= j < i + 1 ==> after[order[j]] == SweepStep(ps0[order[j]], PriceOf(prices, order[j]), tp, sl, now)
    ensures forall j :: i + 1 <= j < |order| ==> after[order[j]] == ps0[order[j]]
    ensures SweepTotal(ps0, order[..i + 1], prices, tp, sl)
         == SweepTotal(ps0, order[..i], prices, tp, sl) + SweepGain(before[order[i]], PriceOf(prices, order[i]), tp, sl)
  {
    assert order[..i + 1][..i] == order[..i];
    assert forall j :: 0 <= j < |order| && j != i ==> order[j] != order[i];
  }

  /** Sweeping every key of the ledger, one entry at a time, yields `Swept`. */
  lemma SweptInOrder(ps0: map<string, Position>, ps: map<string, Position>, order: seq<string>,
                     prices: map<string, real>, tp: real, sl: real, now: int)
    requires LedgerOrder(ps0, order) && ps.Keys == ps0.Keys
    requires forall j :: 0 <= j < |order| ==> ps[order[j]] == SweepStep(ps0[order[j]], PriceOf(prices, order[j]), tp, sl, now)
    ensures ps == Swept(ps0, prices, tp, sl, now)
  {
    forall k | k in ps0
      ensures ps[k] == SweepStep(ps0[k], PriceOf(prices, k), tp, sl, now)
    {
      var j :| 0 <= j < |order| && order[j] == k;
    }
  }

  /** Cost 1.0, value 2.0, take-profit at 100 %: TAKE_PROFIT, closed, 1.0 realized. */
  lemma TakeProfitScenario(p: Position, sl: real, now: int)
    requires p.isActive && p.costBasisSol == 1.0
    ensures ExitDecision(Revalued(p, 2.0).profitLossPercent, 100.0, sl) == Some(TakeProfit)
    ensures !SweepStep(p, Some(2.0), 100.0, sl, now).isActive
    ensures SweepGain(p, Some(2.0), 100.0, sl) == 1.0
  {
  }

  // ---------------------------------------------------------------------------
  // The monitor

  class TokenMonitor {
    const takeProfitPercent: real
    const stopLossPercent: real
    const autoSellEnabled: bool
    const startTime: int
    var isMonitoring: bool
    /** The 30 s position interval has been installed (it is never cleared). */
    var sweepScheduled: bool
    var positions: map<string, Position>
    var positionOrder: seq<string>
    var recentActivity: seq<SnipeResult>
    var recentlySniped: set<string>
    var stats: MonitoringStats

    ghost predicate Valid()
      reads this
    {
      && stats.successfulSnipes + stats.failedSnipes <= stats.totalSnipeAttempts
      && |recentActivity| <= RecentActivityLimit
      && LedgerOrder(positions, positionOrder)
      && (forall k :: k in positions ==> WellFormed(k, positions[k]))
      && (sweepScheduled ==> autoSellEnabled)
    }

    constructor (takeProfitPercent: real, stopLossPercent: real, autoSellEnabled: bool, startTime: int)
      ensures Valid()
      ensures this.takeProfitPercent == takeProfitPercent && this.stopLossPercent == stopLossPercent
      ensures this.autoSellEnabled == autoSellEnabled && this.startTime == startTime
      ensures !isMonitoring && !sweepScheduled
      ensures positions == map[] && positionOrder == [] && recentActivity == [] && recentlySniped == {}
      ensures stats == MonitoringStats(0, 0, 0, 0.0)
    {
      this.takeProfitPercent := takeProfitPercent;
      this.stopLossPercent := stopLossPercent;
      this.autoSellEnabled := autoSellEnabled;
      this.startTime := startTime;
      isMonitoring := false;
      sweepScheduled := false;
      positions := map[];
      positionOrder := [];
      recentActivity := [];
      recentlySniped := {};
      stats := MonitoringStats(0, 0, 0, 0.0);
    }

    /** `subscribed` is whether the chain subscriptions could be established. */
    method StartMonitoring(subscribed: bool) returns (outcome: StartOutcome)
      requires Valid()
      modifies this
      ensures Valid()
      ensures old(isMonitoring) ==> outcome == AlreadyMonitoring && isMonitoring && sweepScheduled == old(sweepScheduled)
      ensures !old(isMonitoring) && !subscribed ==>
        outcome == SubscriptionFailed && !isMonitoring && sweepScheduled == old(sweepScheduled)
      ensures !old(isMonitoring) && subscribed ==>
        outcome == Started && isMonitoring && sweepScheduled == (old(sweepScheduled) || autoSellEnabled)
      ensures positions == old(positions) && positionOrder == old(positionOrder) && stats == old(stats)
      ensures recentActivity == old(recentActivity) && recentlySniped == old(recentlySniped)
    {
      if isMonitoring {
        return AlreadyMonitoring;
      }
      isMonitoring := true;
      if !subscribed {
        isMonitoring := false;
        return SubscriptionFailed;
      }
      if autoSellEnabled {
        sweepScheduled := true;
      }
      outcome := Started;
    }

    /** Clears the flag only: subscriptions and the sweep interval stay in place. */
    method StopMonitoring()
      requires Valid()
      modifies this
      ensures Valid()
      ensures !isMonitoring && sweepScheduled == old(sweepScheduled)
      ensures positions == old(positions) && positionOrder == old(positionOrder) && stats == old(stats)
      ensures recentActivity == old(recentActivity) && recentlySniped == old(recentlySniped)
    {
      isMonitoring := false;
    }

    function IsActive(): bool
      reads this
    {
      isMonitoring
    }

    method MarkMintAsSniped(mint: string)
      requires Valid()
      modifies this
      ensures Valid()
      ensures recentlySniped == old(recentlySniped) + {mint}
      ensures isMonitoring == old(isMonitoring) && sweepScheduled == old(sweepScheduled)
      ensures positions == old(positions) && positionOrder == old(positionOrder) && stats == old(stats)
      ensures recentActivity == old(recentActivity)
    {
      recentlySniped := recentlySniped + {mint};
    }

    /** The dedup timer of `mint` fires. */
    method Expire(mint: string)
      requires Valid()
      modifies this
      ensures Valid()
      ensures recentlySniped == old(recentlySniped) - {mint}
      ensures isMonitoring == old(isMonitoring) && sweepScheduled == old(sweepScheduled)
      ensures positions == old(positions) && positionOrder == old(positionOrder) && stats == old(stats)
      ensures recentActivity == old(recentActivity)
    {
      recentlySniped := recentlySniped - {mint};
    }

    method AddPosition(token: TokenInfo, result: SnipeResult)
      requires Valid()
      modifies this
      ensures Valid()
      ensures positions == old(positions)[token.mint := NewPosition(token, result)]
      ensures positionOrder == if token.mint in old(positions) then old(positionOrder) else old(positionOrder) + [token.mint]
      ensures isMonitoring == old(isMonitoring) && sweepScheduled == old(sweepScheduled) && stats == old(stats)
      ensures recentActivity == old(recentActivity) && recentlySniped == old(recentlySniped)
    {
      if token.mint !in positions {
        positionOrder := positionOrder + [token.mint];
      }
      positions := positions[token.mint := NewPosition(token, result)];
    }

    /** A sighting of `token`; `outcome` is what the scheduler's snipeToken returned or threw. */
    method AttemptSnipe(token: TokenInfo, outcome: Fallible<SnipeResult>)
      requires Valid()
      modifies this
      ensures Valid()
      ensures isMonitoring == old(isMonitoring) && sweepScheduled == old(sweepScheduled)
      ensures token.mint in old(recentlySniped) ==>
        && recentlySniped == old(recentlySniped) && stats == old(stats)
        && positions == old(positions) && positionOrder == old(positionOrder)
        && recentActivity == old(recentActivity)
      ensures token.mint !in old(recentlySniped) ==>
        && recentlySniped == old(recentlySniped) + {token.mint}
        && stats.totalSnipeAttempts == old(stats.totalSnipeAttempts) + 1
        && stats.totalProfitLoss == old(stats.totalProfitLoss)
      ensures token.mint !in old(recentlySniped) && outcome.Threw? ==>
        && stats.successfulSnipes == old(stats.successfulSnipes) && stats.failedSnipes == old(stats.failedSnipes)
        && positions == old(positions) && positionOrder == old(positionOrder)
        && recentActivity == old(recentActivity)
      ensures token.mint !in old(recentlySniped) && outcome.Ok? ==>
        recentActivity == WithNewest(old(recentActivity), outcome.value)
      ensures token.mint !in old(recentlySniped) && outcome.Ok? && outcome.value.success ==>
        && stats.successfulSnipes == old(stats.successfulSnipes) + 1 && stats.failedSnipes == old(stats.failedSnipes)
        && positions == old(positions)[token.mint := NewPosition(token, outcome.value)]
        && positionOrder == if token.mint in old(positions) then old(positionOrder) else old(positionOrder) + [token.mint]
      ensures token.mint !in old(recentlySniped) && outcome.Ok? && !outcome.value.success ==>
        && stats.failedSnipes == old(stats.failedSnipes) + 1 && stats.successfulSnipes == old(stats.successfulSnipes)
        && positions == old(positions) && positionOrder == old(positionOrder)
    {
      if token.mint in recentlySniped {
        return;
      }
      MarkMintAsSniped(token.mint);
      stats := stats.(totalSnipeAttempts := stats.totalSnipeAttempts + 1);
      match outcome {
        case Threw(_) =>
        case Ok(result) =>
          if result.success {
            stats := stats.(successfulSnipes := stats.successfulSnipes + 1);
            AddPosition(token, result);
          } else {
            stats := stats.(failedSnipes := stats.failedSnipes + 1);
          }
          recentActivity := [result] + recentActivity;
          if |recentActivity| > RecentActivityLimit {
            recentActivity := recentActivity[..RecentActivityLimit];
          }
      }
    }

    method UpdatePositionValue(mint: string, currentValueSol: real)
      requires Valid()
      requires mint in positions
      modifies this
      ensures Valid()
      ensures positions == old(positions)[mint := Revalued(old(positions)[mint], currentValueSol)]
      ensures isMonitoring == old(isMonitoring) && sweepScheduled == old(sweepScheduled)
      ensures positionOrder == old(positionOrder) && stats == old(stats)
      ensures recentActivity == old(recentActivity) && recentlySniped == old(recentlySniped)
    {
      positions := positions[mint := Revalued(positions[mint], currentValueSol)];
    }

    method ExecuteSell(mint: string, now: int)
      requires Valid()
      requires mint in positions
      modifies this
      ensures Valid()
      ensures positions == old(positions)[mint := Closed(old(positions)[mint], now)]
      ensures stats == old(stats).(totalProfitLoss := old(stats).totalProfitLoss + Realized(old(positions)[mint]))
      ensures isMonitoring == old(isMonitoring) && sweepScheduled == old(sweepScheduled)
      ensures positionOrder == old(positionOrder)
      ensures recentActivity == old(recentActivity) && recentlySniped == old(recentlySniped)
    {
      var position := positions[mint];
      positions := positions[mint := Closed(position, now)];
      if Truthy(position.profitLoss) {
        stats := stats.(totalProfitLoss := stats.totalProfitLoss + position.profitLoss.value);
      }
    }

    method CheckExitConditions(mint: string, now: int) returns (action: Option<ExitAction>)
      requires Valid()
      requires mint in positions
      modifies this
      ensures Valid()
      ensures action == ExitDecision(old(positions)[mint].profitLossPercent, takeProfitPercent, stopLossPercent)
      ensures action.Some? ==>
        && positions == old(positions)[mint := Closed(old(positions)[mint], now)]
        && stats == old(stats).(totalProfitLoss := old(stats).totalProfitLoss + Realized(old(positions)[mint]))
      ensures action.None? ==> positions == old(positions) && stats == old(stats)
      ensures isMonitoring == old(isMonitoring) && sweepScheduled == old(sweepScheduled)
      ensures positionOrder == old(positionOrder)
      ensures recentActivity == old(recentActivity) && recentlySniped == old(recentlySniped)
    {
      var percent := positions[mint].profitLossPercent;
      if !TruthyRatio(percent) {
        return None;
      }
      var shouldTakeProfit := AtLeast(percent.value, takeProfitPercent);
      var shouldStopLoss := AtMost(percent.value, -stopLossPercent);
      if shouldTakeProfit || shouldStopLoss {
        action := if shouldTakeProfit then Some(TakeProfit) else Some(StopLoss);
        ExecuteSell(mint, now);
      } else {
        action := None;
      }
    }

    /** The loop body of the position interval for one entry; `price` is None
        when valuing it threw, which skips it. */
    method SweepPosition(mint: string, price: Option<real>, now: int)
      requires Valid()
      requires mint in positions
      modifies this
      ensures Valid()
      ensures positions == old(positions)[mint := SweepStep(old(positions)[mint], price, takeProfitPercent, stopLossPercent, now)]
      ensures stats == old(stats).(totalProfitLoss := old(stats).totalProfitLoss
        + SweepGain(old(positions)[mint], price, takeProfitPercent, stopLossPercent))
      ensures isMonitoring == old(isMonitoring) && sweepScheduled == old(sweepScheduled)
      ensures positionOrder == old(positionOrder)
      ensures recentActivity == old(recentActivity) && recentlySniped == old(recentlySniped)
    {
      if positions[mint].isActive && price.Some? {
        UpdatePositionValue(mint, price.value);
        var _ := CheckExitConditions(mint, now);
      }
    }

    /** One firing of the position interval; a missing entry in `prices` is a
        valuation that threw. */
    method Sweep(prices: map<string, real>, now: int)
      requires Valid()
      modifies this
      ensures Valid()
      ensures !sweepScheduled ==> positions == old(positions) && stats == old(stats)
      ensures sweepScheduled ==>
        && positions == Swept(old(positions), prices, takeProfitPercent, stopLossPercent, now)
        && stats == old(stats).(totalProfitLoss := old(stats).totalProfitLoss
             + SweepTotal(old(positions), positionOrder, prices, takeProfitPercent, stopLossPercent))
      ensures isMonitoring == old(isMonitoring) && sweepScheduled == old(sweepScheduled)
      ensures positionOrder == old(positionOrder)
      ensures recentActivity == old(recentActivity) && recentlySniped == old(recentlySniped)
    {
      if !sweepScheduled {
        return;
      }
      ghost var ps0 := positions;
      ghost var stats0 := stats;
      var order := positionOrder;
      ghost var tp, sl := takeProfitPercent, stopLossPercent;
      var i := 0;
      while i < |order|
        invariant 0 <= i <= |order|
        invariant Valid()
        invariant positionOrder == order && positions.Keys == ps0.Keys
        invariant forall j :: 0 <= j < i ==> positions[order[j]] == SweepStep(ps0[order[j]], PriceOf(prices, order[j]), tp, sl, now)
        invariant forall j :: i <= j < |order| ==> positions[order[j]] == ps0[order[j]]
        invariant stats == stats0.(totalProfitLoss := stats0.totalProfitLoss + SweepTotal(ps0, order[..i], prices, tp, sl))
        invariant isMonitoring == old(isMonitoring) && sweepScheduled == old(sweepScheduled)
        invariant recentActivity == old(recentActivity) && recentlySniped == old(recentlySniped)
      {
        var mint := order[i];
        ghost var before := positions;
        SweepPosition(mint, if mint in prices then Some(prices[mint]) else None, now);
        SweepAdvances(ps0, before, positions, order, i, prices, tp, sl, now);
        i := i + 1;
      }
      assert order[..|order|] == order;
      SweptInOrder(ps0, positions, order, prices, tp, sl, now);
    }

    /** The report handed out: the counters, the active positions in ledger
        order, the recent activity and the uptime. */
    function GetMonitoringData(now: int): (d: MonitoringData)
      reads this
      requires Valid()
      ensures d.successfulSnipes + d.failedSnipes <= d.totalSnipeAttempts
      ensures |d.recentActivity| <= RecentActivityLimit
      ensures forall p :: p in d.activePositions ==> p.isActive && p.tokenMint in positions && positions[p.tokenMint] == p
      ensures forall k :: k in positions && positions[k].isActive ==> positions[k] in d.activePositions
      ensures d.uptime == now - startTime
      ensures OrderedFilter(positions, positionOrder, d.activePositions, ActiveIndexes(positions, positionOrder))
      ensures forall j, k :: 0 <= j < k < |d.activePositions| ==> d.activePositions[j].tokenMint != d.activePositions[k].tokenMint
    {
      var active := ActivePositions(positions, positionOrder);
      ActivePositionsInOrder(positions, positionOrder);
      ActiveMintsDistinct(positions, positionOrder);
      assert forall k :: k in positions && positions[k].isActive ==> positions[k] in active by {
        forall k | k in positions && positions[k].isActive ensures positions[k] in active {
          var j :| 0 <= j < |positionOrder| && positionOrder[j] == k;
        }
      }
      MonitoringData(stats.totalSnipeAttempts, stats.successfulSnipes, stats.failedSnipes,
                     stats.totalProfitLoss, active, recentActivity, now - startTime, now)
    }
  }

  /** Two firings of the position interval at unchanged values leave the
      ledger and the cumulative profit and loss as the first left them. */
  method SweepTwice(monitor: TokenMonitor, prices: map<string, real>, now: int, later: int)
    requires monitor.Valid()
    modifies monitor
    ensures monitor.Valid()
    ensures monitor.positions == if old(monitor.sweepScheduled)
      then Swept(old(monitor.positions), prices, monitor.takeProfitPercent, monitor.stopLossPercent, now)
      else old(monitor.positions)
    ensures monitor.stats == if old(monitor.sweepScheduled)
      then old(monitor.stats).(totalProfitLoss := old(monitor.stats).totalProfitLoss
        + SweepTotal(old(monitor.positions), monitor.positionOrder, prices, monitor.takeProfitPercent, monitor.stopLossPercent))
      else old(monitor.stats)
  {
    monitor.Sweep(prices, now);
    ghost var ps0 := old(monitor.positions);
    ghost var tp, sl := monitor.takeProfitPercent, monitor.stopLossPercent;
    monitor.Sweep(prices, later);
    if monitor.sweepScheduled {
      ResweepChangesNothing(ps0, prices, tp, sl, now, later);
      ResweepAddsNothing(ps0, monitor.positionOrder, prices, tp, sl, now);
    }
  }

  /** A sighting of a mint inside its dedup window is ignored; once the
      window expires the next sighting counts again. */
  method DedupScenario(token: TokenInfo, result: SnipeResult)
    requires result.success
  {
    var monitor := new TokenMonitor(100.0, 50.0, true, 0);
    monitor.AttemptSnipe(token, Ok(result));
    assert monitor.stats == MonitoringStats(1, 1, 0, 0.0);
    assert monitor.positions == map[token.mint := NewPosition(token, result)];
    assert monitor.recentActivity == [result];
    monitor.AttemptSnipe(token, Threw(None));
    assert monitor.stats == MonitoringStats(1, 1, 0, 0.0);
    monitor.Expire(token.mint);
    monitor.AttemptSnipe(token, Threw(None));
    assert monitor.stats == MonitoringStats(2, 1, 0, 0.0);
    assert monitor.recentActivity == [result];
  }
}
