/**
 * The bounded-concurrency scheduler (TokenSniper, src/services/sniper.ts).
 *
 * `activeSnipes` holds the mints whose snipe is in flight; the promise the
 * source stores for each is represented by `Pending(mint)`. Asynchronous
 * steps are separate events: `Submit` is a call of snipeToken up to its
 * first await, `Complete(mint)` is the moment that snipe settles (its
 * `finally` block), and `ProcessQueue` may also be called on its own, as the
 * 100 ms retry timer does. The execute path is the pure `ExecuteSnipe`.
 */
module Sniper {
  import opened Types
  import Security

  /** What snipeToken hands back: a handle on the in-flight snipe of a mint,
      or a result that is already settled. */
  datatype Submission = Pending(mint: string) | Settled(result: SnipeResult)

  /** Outcome of the buy transaction collaborator, which catches its own errors. */
  datatype BuyOutcome = Confirmed(signature: string) | BuyThrew(message: Option<string>)

  const QueuedError: string := "Max concurrent snipes reached - token queued"
  const InsufficientBalanceError: string := "Insufficient SOL balance"

  function ErrorText(message: Option<string>, default: string): string {
    match message
    case Some(m) => m
    case None => default
  }

  function SecurityError(level: Severity): string {
    "Security check failed: " + SeverityName(level) + " risk"
  }

  /** The result of a submission that found the scheduler at capacity. */
  function QueuedResult(token: TokenInfo, now: int): (r: SnipeResult)
    ensures !r.success && r.amountSol == 0.0 && r.tokenMint == token.mint
    ensures r.error == Some(QueuedError)
  {
    FailedSnipe(token.mint, QueuedError, now)
  }

  // ---------------------------------------------------------------------------
  // The execute path: security verdict, then balance, then buy

  function ExecuteSnipe(token: TokenInfo, analysis: SecurityAnalysis, balance: Fallible<real>,
                        buy: BuyOutcome, maxBuyAmountSol: real, now: int): (r: SnipeResult)
    ensures r.tokenMint == token.mint && r.timestamp == now
    ensures r.success <==>
      analysis.isSecure && balance.Ok? && balance.value >= maxBuyAmountSol && buy.Confirmed?
    ensures r.success ==>
      r.amountSol == maxBuyAmountSol && r.error.None? && r.transactionSignature == Some(buy.signature)
    ensures !r.success ==> r.amountSol == 0.0 && r.error.Some? && r.transactionSignature.None?
    ensures !analysis.isSecure ==> r.error == Some(SecurityError(analysis.riskLevel))
    ensures analysis.isSecure && balance.Ok? && balance.value < maxBuyAmountSol ==>
      r.error == Some(InsufficientBalanceError)
  {
    if !analysis.isSecure then
      FailedSnipe(token.mint, SecurityError(analysis.riskLevel), now)
    else
      match balance
      case Threw(message) => FailedSnipe(token.mint, ErrorText(message, "Unknown error"), now)
      case Ok(b) =>
        if b < maxBuyAmountSol then
          FailedSnipe(token.mint, InsufficientBalanceError, now)
        else
          match buy
          case Confirmed(signature) =>
            SnipeResult(true, token.mint, Some(signature), maxBuyAmountSol, None, None, now)
          case BuyThrew(message) =>
            FailedSnipe(token.mint, ErrorText(message, "Transaction failed"), now)
  }

  /** An insecure verdict decides the result: balance and buy are never consulted. */
  lemma InsecureStopsBeforeBalance(token: TokenInfo, analysis: SecurityAnalysis,
                                   b1: Fallible<real>, b2: Fallible<real>,
                                   u1: BuyOutcome, u2: BuyOutcome, maxBuy: real, now: int)
    requires !analysis.isSecure
    ensures ExecuteSnipe(token, analysis, b1, u1, maxBuy, now) == ExecuteSnipe(token, analysis, b2, u2, maxBuy, now)
  {
  }

  /** A balance below the buy amount decides the result: the buy is never consulted. */
  lemma LowBalanceStopsBeforeBuy(token: TokenInfo, analysis: SecurityAnalysis, balance: real,
                                 u1: BuyOutcome, u2: BuyOutcome, maxBuy: real, now: int)
    requires balance < maxBuy
    ensures ExecuteSnipe(token, analysis, Ok(balance), u1, maxBuy, now)
         == ExecuteSnipe(token, analysis, Ok(balance), u2, maxBuy, now)
  {
  }

  /** A token the risk gate flags CRITICAL is never bought, whatever the wallet and the chain answer. */
  lemma CriticalTokenNeverBought(token: TokenInfo, cfg: Security.SecurityConfig, env: Security.Environment,
                                 balance: Fallible<real>, buy: BuyOutcome, maxBuy: real, now: int)
    requires env.unexpectedError || Security.HasCritical(Security.AllIssues(token, cfg, env))
    ensures !ExecuteSnipe(token, Security.Assess(token, cfg, env), balance, buy, maxBuy, now).success
    ensures ExecuteSnipe(token, Security.Assess(token, cfg, env), balance, buy, maxBuy, now).amountSol == 0.0
  {
  }

  // ---------------------------------------------------------------------------
  // The scheduler

  class TokenSniper {
    const maxConcurrentSnipes: nat
    var activeSnipes: set<string>
    var snipeQueue: seq<TokenInfo>
    var isProcessing: bool
    /** The mint of the queued token processQueue handed to snipeToken, whose
        settlement clears `isProcessing`. */
    var drainingMint: Option<string>

    ghost predicate Valid()
      reads this
    {
      && |activeSnipes| <= maxConcurrentSnipes
      && (isProcessing <==> drainingMint.Some?)
      && (drainingMint.Some? ==> drainingMint.value in activeSnipes)
    }

    constructor (maxConcurrentSnipes: nat)
      ensures Valid()
      ensures this.maxConcurrentSnipes == maxConcurrentSnipes
      ensures activeSnipes == {} && snipeQueue == [] && !isProcessing && drainingMint == None
    {
      this.maxConcurrentSnipes := maxConcurrentSnipes;
      activeSnipes := {};
      snipeQueue := [];
      isProcessing := false;
      drainingMint := None;
    }

    /** snipeToken up to its first await: coalesce, queue at capacity, or start. */
    method Submit(token: TokenInfo, now: int) returns (r: Submission)
      requires Valid()
      modifies this
      ensures Valid()
      ensures isProcessing == old(isProcessing) && drainingMint == old(drainingMint)
      ensures token.mint in old(activeSnipes) ==>
        r == Pending(token.mint) && activeSnipes == old(activeSnipes) && snipeQueue == old(snipeQueue)
      ensures token.mint !in old(activeSnipes) && |old(activeSnipes)| >= maxConcurrentSnipes ==>
        && r == Settled(QueuedResult(token, now))
        && activeSnipes == old(activeSnipes)
        && snipeQueue == old(snipeQueue) + [token]
      ensures token.mint !in old(activeSnipes) && |old(activeSnipes)| < maxConcurrentSnipes ==>
        && r == Pending(token.mint)
        && activeSnipes == old(activeSnipes) + {token.mint}
        && snipeQueue == old(snipeQueue)
    {
      if token.mint in activeSnipes {
        return Pending(token.mint);
      }
      if |activeSnipes| >= maxConcurrentSnipes {
        snipeQueue := snipeQueue + [token];
        return Settled(QueuedResult(token, now));
      }
      activeSnipes := activeSnipes + {token.mint};
      r := Pending(token.mint);
    }

    /** Hands the queue head to snipeToken when nothing is draining and there is room. */
    method ProcessQueue(now: int)
      requires Valid()
      modifies this
      ensures Valid()
      ensures old(isProcessing) || old(snipeQueue) == [] || |old(activeSnipes)| >= maxConcurrentSnipes ==>
        && activeSnipes == old(activeSnipes) && snipeQueue == old(snipeQueue)
        && isProcessing == old(isProcessing) && drainingMint == old(drainingMint)
      ensures !old(isProcessing) && old(snipeQueue) != [] && |old(activeSnipes)| < maxConcurrentSnipes ==>
        && snipeQueue == old(snipeQueue)[1..]
        && activeSnipes == old(activeSnipes) + {old(snipeQueue)[0].mint}
        && isProcessing && drainingMint == Some(old(snipeQueue)[0].mint)
    {
      if isProcessing || |snipeQueue| == 0 {
        return;
      }
      if |activeSnipes| < maxConcurrentSnipes {
        var token := snipeQueue[0];
        snipeQueue := snipeQueue[1..];
        // snipeToken does not read the flag, so it is set once the head is in flight
        var _ := Submit(token, now);
        isProcessing := true;
        drainingMint := Some(token.mint);
      }
    }

    /** The snipe of `mint` settles, successfully or not: the `finally` of
        snipeToken, then the callback of a drain that was waiting on it. */
    method Complete(mint: string, now: int)
      requires Valid()
      requires mint in activeSnipes
      modifies this
      ensures Valid()
      ensures old(isProcessing) ==>
        && activeSnipes == old(activeSnipes) - {mint}
        && snipeQueue == old(snipeQueue)
        && (old(drainingMint) == Some(mint) ==> !isProcessing && drainingMint == None)
        && (old(drainingMint) != Some(mint) ==> isProcessing && drainingMint == old(drainingMint))
      ensures !old(isProcessing) && old(snipeQueue) == [] ==>
        && activeSnipes == old(activeSnipes) - {mint}
        && snipeQueue == [] && !isProcessing
      ensures !old(isProcessing) && old(snipeQueue) != [] ==>
        && activeSnipes == old(activeSnipes) - {mint} + {old(snipeQueue)[0].mint}
        && snipeQueue == old(snipeQueue)[1..]
        && isProcessing && drainingMint == Some(old(snipeQueue)[0].mint)
    {
      activeSnipes := activeSnipes - {mint};
      if drainingMint == Some(mint) {
        // processQueue in the finally block returns at once, because isProcessing is set
        isProcessing := false;
        drainingMint := None;
        return;
      }
      ProcessQueue(now);
    }

    method ClearQueue()
      requires Valid()
      modifies this
      ensures Valid()
      ensures snipeQueue == []
      ensures activeSnipes == old(activeSnipes)
      ensures isProcessing == old(isProcessing) && drainingMint == old(drainingMint)
    {
      snipeQueue := [];
    }

    /** The number of snipes in flight never exceeds the configured maximum. */
    function ActiveSnipeCount(): (n: nat)
      reads this
      requires Valid()
      ensures n <= maxConcurrentSnipes
    {
      |activeSnipes|
    }

    function QueueLength(): nat
      reads this
    {
      |snipeQueue|
    }
  }

  /** With room for two, three distinct tokens submitted at once: two start,
      the third is queued and only starts when one of the first two settles. */
  method CapacityScenario(a: TokenInfo, b: TokenInfo, c: TokenInfo, now: int)
    requires a.mint != b.mint && a.mint != c.mint && b.mint != c.mint
  {
    var sniper := new TokenSniper(2);
    var ra := sniper.Submit(a, now);
    var rb := sniper.Submit(b, now);
    var rc := sniper.Submit(c, now);
    assert ra == Pending(a.mint) && rb == Pending(b.mint);
    assert rc.Settled? && !rc.result.success && rc.result.amountSol == 0.0;
    assert sniper.activeSnipes == {a.mint, b.mint} && sniper.snipeQueue == [c];
    var again := sniper.Submit(a, now);
    assert again == Pending(a.mint) && sniper.snipeQueue == [c];
    sniper.Complete(a.mint, now);
    assert sniper.activeSnipes == {b.mint, c.mint} && sniper.snipeQueue == [];
    assert sniper.drainingMint == Some(c.mint);
  }

  /** A token queued twice is drained twice: the second copy is drained only
      after the first drain has settled, so it starts a second snipe. */
  method RequeuedTokenSnipedTwice(x: TokenInfo, y: TokenInfo, now: int)
    requires x.mint != y.mint
  {
    var sniper := new TokenSniper(1);
    var ry := sniper.Submit(y, now);
    var r1 := sniper.Submit(x, now);
    var r2 := sniper.Submit(x, now);
    assert r1.Settled? && r2.Settled? && sniper.snipeQueue == [x, x];
    sniper.Complete(y.mint, now);
    assert sniper.activeSnipes == {x.mint} && sniper.snipeQueue == [x];
    assert sniper.drainingMint == Some(x.mint);
    sniper.ProcessQueue(now);
    assert sniper.snipeQueue == [x];
    sniper.Complete(x.mint, now);
    assert x.mint !in sniper.activeSnipes && sniper.drainingMint.None? && sniper.snipeQueue == [x];
    sniper.ProcessQueue(now);
    assert sniper.activeSnipes == {x.mint} && sniper.snipeQueue == [];
  }
}
