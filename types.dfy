/**
 * Shapes shared by the risk gate, the scheduler and the monitor
 * (src/types/index.ts). Public keys are kept as their base58 text,
 * dates as milliseconds since the epoch, SOL amounts and percentages
 * as `real`.
 */
module Types {

  datatype Option<+T> = None | Some(value: T)

  /** The outcome of a collaborator call that may throw. `Threw(None)` is a
      thrown value that is not an `Error` (it has no message). */
  datatype Fallible<+T> = Ok(value: T) | Threw(message: Option<string>)

  /** JavaScript truthiness of an optional number: defined and non-zero. */
  predicate Truthy(x: Option<real>) {
    x.Some? && x.value != 0.0
  }

  /** JavaScript truthiness of an optional string: defined and non-empty. */
  predicate TruthyText(x: Option<string>) {
    x.Some? && x.value != ""
  }

  /** The 'LOW' | 'MEDIUM' | 'HIGH' | 'CRITICAL' union, used both as an
      issue's severity and as an analysis' risk level. */
  datatype Severity = Low | Medium | High | Critical

  function SeverityName(s: Severity): string {
    match s
    case Low => "LOW"
    case Medium => "MEDIUM"
    case High => "HIGH"
    case Critical => "CRITICAL"
  }

  datatype SecurityIssueType =
    | HighBuyTax
    | HighSellTax
    | NoLiquidityLock
    | WhaleConcentration
    | BlacklistFunction
    | PauseFunction
    | MintFunction
    | LowHolderCount
    | SuspiciousCreator
    | AntiBotMechanism

  datatype SecurityIssue = SecurityIssue(kind: SecurityIssueType, severity: Severity)

  datatype SecurityAnalysis = SecurityAnalysis(
    isSecure: bool,
    riskLevel: Severity,
    issues: seq<SecurityIssue>,
    score: int)

  datatype TokenInfo = TokenInfo(
    mint: string,
    name: Option<string>,
    symbol: Option<string>,
    decimals: nat,
    supply: real,
    creator: string,
    createdAt: int,
    liquidityAmount: Option<real>)

  datatype SnipeResult = SnipeResult(
    success: bool,
    tokenMint: string,
    transactionSignature: Option<string>,
    amountSol: real,
    amountTokens: Option<real>,
    error: Option<string>,
    timestamp: int)

  /** A JavaScript number produced by a division that may have a zero divisor. */
  datatype Ratio = Finite(value: real) | PlusInfinity | MinusInfinity | NotANumber

  /** `n / d * 100` as JavaScript evaluates it for finite `n` and `d`. */
  function PercentOf(n: real, d: real): Ratio {
    if d != 0.0 then Finite(n / d * 100.0)
    else if n > 0.0 then PlusInfinity
    else if n < 0.0 then MinusInfinity
    else NotANumber
  }

  /** JavaScript truthiness of an optional ratio: defined, non-zero and not NaN. */
  predicate TruthyRatio(x: Option<Ratio>) {
    x.Some? && (x.value.Finite? ==> x.value.value != 0.0) && !x.value.NotANumber?
  }

  /** `x >= bound` for a finite bound. */
  predicate AtLeast(x: Ratio, bound: real) {
    x.PlusInfinity? || (x.Finite? && x.value >= bound)
  }

  /** `x <= bound` for a finite bound. */
  predicate AtMost(x: Ratio, bound: real) {
    x.MinusInfinity? || (x.Finite? && x.value <= bound)
  }

  datatype Position = Position(
    tokenMint: string,
    amountTokens: real,
    costBasisSol: real,
    currentValueSol: Option<real>,
    profitLoss: Option<real>,
    profitLossPercent: Option<Ratio>,
    entryTimestamp: int,
    exitTimestamp: Option<int>,
    isActive: bool)

  datatype MonitoringStats = MonitoringStats(
    totalSnipeAttempts: nat,
    successfulSnipes: nat,
    failedSnipes: nat,
    totalProfitLoss: real)

  /** The report handed to the presentation layer. */
  datatype MonitoringData = MonitoringData(
    totalSnipeAttempts: nat,
    successfulSnipes: nat,
    failedSnipes: nat,
    totalProfitLoss: real,
    activePositions: seq<Position>,
    recentActivity: seq<SnipeResult>,
    uptime: int,
    lastHeartbeat: int)

  /** A failed snipe as every error path of the scheduler builds it. */
  function FailedSnipe(mint: string, error: string, now: int): SnipeResult {
    SnipeResult(false, mint, None, 0.0, None, Some(error), now)
  }
}
