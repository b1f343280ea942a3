/**
 * The risk gate (SecurityAnalyzer, src/services/security.ts).
 *
 * Every check appends to one shared issues list; here each check method
 * receives the list built so far and returns it extended, and is specified
 * by a pure function giving exactly the issues that check contributes.
 * The answers of the chain lookups, the clock and an unexpected failure of
 * the whole analysis are inputs (`Environment`).
 */
module Security {
  import opened Types

  datatype SecurityConfig = SecurityConfig(
    blacklistedCreators: seq<string>,
    whitelistedCreators: seq<string>,
    minLiquiditySol: real,
    minHolderCount: int,
    maxTopHolderPercent: real,
    requireLiquidityLock: bool)

  /** What the lookup of the token's mint account answered. */
  datatype MintLookup =
    | MintLookupThrew
    | NoMintInfo
    | MintInfo(hasMintAuthority: bool, hasFreezeAuthority: bool)

  /** What the lookup of the token's holder accounts answered. */
  datatype HolderLookup = HolderLookupThrew | HolderAccounts(count: nat)

  datatype Environment = Environment(
    mintLookup: MintLookup,
    holderLookup: HolderLookup,
    now: int,
    unexpectedError: bool)

  /** Tokens younger than five minutes are flagged. */
  const TooNewMs: int := 300000

  /** The holder parser of the source reads every balance as 0. */
  const ParsedHolderBalance: real := 0.0

  const SuspiciousWords: seq<string> :=
    ["moon", "rocket", "safe", "doge", "shib", "elon", "test", "temp", "fake", "scam"]

  // ---------------------------------------------------------------------------
  // Scoring and verdict

  function Penalty(s: Severity): int {
    match s
    case Critical => 50
    case High => 25
    case Medium => 10
    case Low => 5
  }

  /** Sum of the deductions of all issues, before the floor at 0. */
  function TotalPenalty(issues: seq<SecurityIssue>): (t: int)
    ensures t >= 5 * |issues|
  {
    if issues == [] then 0
    else TotalPenalty(issues[..|issues| - 1]) + Penalty(issues[|issues| - 1].severity)
  }

  function Max(a: int, b: int): int {
    if a >= b then a else b
  }

  /** The score calculateSecurityScore computes: 100 minus the deductions, floored at 0. */
  function SecurityScore(issues: seq<SecurityIssue>): (score: int)
    ensures 0 <= score <= 100
    ensures issues != [] ==> score <= 95
  {
    Max(0, 100 - TotalPenalty(issues))
  }

  predicate HasCritical(issues: seq<SecurityIssue>) {
    exists i :: 0 <= i < |issues| && issues[i].severity == Critical
  }

  /** The risk level: each level is one band of the score, and a CRITICAL issue overrides the score. */
  function DetermineRiskLevel(score: int, issues: seq<SecurityIssue>): (r: Severity)
    ensures r == Critical <==> HasCritical(issues) || score < 30
    ensures r == High <==> !HasCritical(issues) && 30 <= score < 50
    ensures r == Medium <==> !HasCritical(issues) && 50 <= score < 70
    ensures r == Low <==> !HasCritical(issues) && score >= 70
  {
    if HasCritical(issues) || score < 30 then Critical
    else if score < 50 then High
    else if score < 70 then Medium
    else Low
  }

  /** The verdict: secure exactly when the risk level is LOW. */
  predicate IsSecure(score: int, issues: seq<SecurityIssue>): (b: bool)
    ensures b <==> DetermineRiskLevel(score, issues) == Low
  {
    score >= 70 && !HasCritical(issues)
  }

  /** Number of issues of one severity: the reference the score is checked against. */
  function CountSeverity(issues: seq<SecurityIssue>, s: Severity): nat {
    if issues == [] then 0
    else CountSeverity(issues[..|issues| - 1], s) + (if issues[|issues| - 1].severity == s then 1 else 0)
  }

  method CalculateSecurityScore(issues: seq<SecurityIssue>) returns (score: int)
    ensures score == SecurityScore(issues)
  {
    score := 100;
    for i := 0 to |issues|
      invariant score == 100 - TotalPenalty(issues[..i])
    {
      assert issues[..i + 1][..i] == issues[..i];
      match issues[i].severity {
        case Critical => score := score - 50;
        case High => score := score - 25;
        case Medium => score := score - 10;
        case Low => score := score - 5;
      }
    }
    assert issues[..|issues|] == issues;
    score := if 0 >= score then 0 else score;
  }

  // ---------------------------------------------------------------------------
  // The issues each check contributes

  function CreatorIssues(creator: string, cfg: SecurityConfig): seq<SecurityIssue> {
    if creator in cfg.blacklistedCreators then
      [SecurityIssue(SuspiciousCreator, Critical)]
    else if |cfg.whitelistedCreators| > 0 && creator !in cfg.whitelistedCreators then
      [SecurityIssue(SuspiciousCreator, High)]
    else
      []
  }

  function ContractIssues(lookup: MintLookup): seq<SecurityIssue> {
    match lookup
    case MintLookupThrew => [SecurityIssue(SuspiciousCreator, Medium)]
    case NoMintInfo => [SecurityIssue(SuspiciousCreator, Critical)]
    case MintInfo(mintAuthority, freezeAuthority) =>
      (if mintAuthority then [SecurityIssue(MintFunction, High)] else [])
      + (if freezeAuthority then [SecurityIssue(BlacklistFunction, High)] else [])
  }

  function HolderIssues(token: TokenInfo, cfg: SecurityConfig, lookup: HolderLookup): seq<SecurityIssue> {
    match lookup
    case HolderLookupThrew => []
    case HolderAccounts(count) =>
      (if count < cfg.minHolderCount then [SecurityIssue(LowHolderCount, Medium)] else [])
      + (if count > 0 && token.supply > 0.0
            && ParsedHolderBalance / token.supply * 100.0 > cfg.maxTopHolderPercent
         then [SecurityIssue(WhaleConcentration, High)] else [])
  }

  function LiquidityLockIssues(): seq<SecurityIssue> {
    [SecurityIssue(NoLiquidityLock, Medium)]
  }

  predicate LowLiquidity(token: TokenInfo, cfg: SecurityConfig) {
    Truthy(token.liquidityAmount) && token.liquidityAmount.value < cfg.minLiquiditySol
  }

  function LiquidityIssues(token: TokenInfo, cfg: SecurityConfig, lookup: HolderLookup): seq<SecurityIssue> {
    (if LowLiquidity(token, cfg) then [SecurityIssue(NoLiquidityLock, High)] else [])
    + HolderIssues(token, cfg, lookup)
    + (if cfg.requireLiquidityLock then LiquidityLockIssues() else [])
  }

  function LowerChar(c: char): char {
    if 'A' <= c <= 'Z' then (c as int - 'A' as int + 'a' as int) as char else c
  }

  function ToLower(s: string): (r: string)
    ensures |r| == |s|
  {
    seq(|s|, i requires 0 <= i < |s| => LowerChar(s[i]))
  }

  predicate OccursAt(text: string, word: string, i: int) {
    0 <= i && i + |word| <= |text| && text[i..i + |word|] == word
  }

  /** The case-folded text contains the word somewhere. */
  predicate Contains(text: string, word: string) {
    exists i :: 0 <= i <= |text| - |word| && OccursAt(text, word, i)
  }

  predicate Suspicious(lowered: string) {
    exists k :: 0 <= k < |SuspiciousWords| && Contains(lowered, SuspiciousWords[k])
  }

  /** The text the pattern test reads: the name when it is non-empty, else the symbol. */
  function NameUnderTest(token: TokenInfo): string {
    if TruthyText(token.name) then token.name.value
    else if TruthyText(token.symbol) then token.symbol.value
    else ""
  }

  function ScamPatternIssues(token: TokenInfo, now: int): seq<SecurityIssue> {
    (if (TruthyText(token.name) || TruthyText(token.symbol)) && Suspicious(ToLower(NameUnderTest(token)))
     then [SecurityIssue(SuspiciousCreator, Medium)] else [])
    + (if now - token.createdAt < TooNewMs then [SecurityIssue(AntiBotMechanism, Low)] else [])
  }

  /** All issues, in the order the checks run. */
  function AllIssues(token: TokenInfo, cfg: SecurityConfig, env: Environment): seq<SecurityIssue> {
    CreatorIssues(token.creator, cfg)
    + ContractIssues(env.mintLookup)
    + LiquidityIssues(token, cfg, env.holderLookup)
    + ScamPatternIssues(token, env.now)
  }

  /** The answer when the analysis as a whole throws. */
  function FailedAnalysis(): SecurityAnalysis {
    SecurityAnalysis(false, Critical, [SecurityIssue(SuspiciousCreator, Critical)], 0)
  }

  /** The analysis analyzeToken returns. */
  function Assess(token: TokenInfo, cfg: SecurityConfig, env: Environment): (r: SecurityAnalysis)
    ensures 0 <= r.score <= 100
    ensures r.isSecure <==> r.riskLevel == Low
    ensures r.isSecure <==> r.score >= 70 && !HasCritical(r.issues)
    ensures HasCritical(r.issues) ==> !r.isSecure && r.riskLevel == Critical && r.score <= 50
    ensures env.unexpectedError ==> r == FailedAnalysis()
    ensures !env.unexpectedError ==> r.issues == AllIssues(token, cfg, env)
  {
    if env.unexpectedError then
      assert FailedAnalysis().issues[0].severity == Critical;
      FailedAnalysis()
    else
      var issues := AllIssues(token, cfg, env);
      var score := SecurityScore(issues);
      CriticalCostsFifty(issues);
      SecurityAnalysis(IsSecure(score, issues), DetermineRiskLevel(score, issues), issues, score)
  }

  // ---------------------------------------------------------------------------
  // The checks, each appending to the issues list

  method CheckCreatorReputation(token: TokenInfo, cfg: SecurityConfig, issues: seq<SecurityIssue>)
    returns (out: seq<SecurityIssue>)
    ensures out == issues + CreatorIssues(token.creator, cfg)
  {
    out := issues;
    if token.creator in cfg.blacklistedCreators {
      out := out + [SecurityIssue(SuspiciousCreator, Critical)];
      return;
    }
    if |cfg.whitelistedCreators| > 0 {
      if token.creator !in cfg.whitelistedCreators {
        out := out + [SecurityIssue(SuspiciousCreator, High)];
      }
    }
  }

  method AnalyzeTokenContract(lookup: MintLookup, issues: seq<SecurityIssue>)
    returns (out: seq<SecurityIssue>)
    ensures out == issues + ContractIssues(lookup)
  {
    out := issues;
    match lookup {
      case MintLookupThrew =>
        out := out + [SecurityIssue(SuspiciousCreator, Medium)];
      case NoMintInfo =>
        out := out + [SecurityIssue(SuspiciousCreator, Critical)];
        return;
      case MintInfo(mintAuthority, freezeAuthority) =>
        if mintAuthority {
          out := out + [SecurityIssue(MintFunction, High)];
        }
        if freezeAuthority {
          out := out + [SecurityIssue(BlacklistFunction, High)];
        }
    }
  }

  method AnalyzeHolderDistribution(token: TokenInfo, cfg: SecurityConfig, lookup: HolderLookup,
                                   issues: seq<SecurityIssue>)
    returns (out: seq<SecurityIssue>)
    ensures out == issues + HolderIssues(token, cfg, lookup)
  {
    out := issues;
    match lookup {
      case HolderLookupThrew =>
      case HolderAccounts(count) =>
        if count < cfg.minHolderCount {
          out := out + [SecurityIssue(LowHolderCount, Medium)];
        }
        if count > 0 && token.supply > 0.0 {
          var topHolderPercent := ParsedHolderBalance / token.supply * 100.0;
          if topHolderPercent > cfg.maxTopHolderPercent {
            out := out + [SecurityIssue(WhaleConcentration, High)];
          }
        }
    }
  }

  method CheckLiquidityLock(issues: seq<SecurityIssue>) returns (out: seq<SecurityIssue>)
    ensures out == issues + LiquidityLockIssues()
  {
    out := issues + [SecurityIssue(NoLiquidityLock, Medium)];
  }

  method AnalyzeLiquidityAndHolders(token: TokenInfo, cfg: SecurityConfig, lookup: HolderLookup,
                                    issues: seq<SecurityIssue>)
    returns (out: seq<SecurityIssue>)
    ensures out == issues + LiquidityIssues(token, cfg, lookup)
  {
    out := issues;
    if Truthy(token.liquidityAmount) && token.liquidityAmount.value < cfg.minLiquiditySol {
      out := out + [SecurityIssue(NoLiquidityLock, High)];
    }
    out := AnalyzeHolderDistribution(token, cfg, lookup, out);
    if cfg.requireLiquidityLock {
      out := CheckLiquidityLock(out);
    }
  }

  method CheckScamPatterns(token: TokenInfo, now: int, issues: seq<SecurityIssue>)
    returns (out: seq<SecurityIssue>)
    ensures out == issues + ScamPatternIssues(token, now)
  {
    out := issues;
    if TruthyText(token.name) || TruthyText(token.symbol) {
      var tokenName := ToLower(NameUnderTest(token));
      if Suspicious(tokenName) {
        out := out + [SecurityIssue(SuspiciousCreator, Medium)];
      }
    }
    var tokenAge := now - token.createdAt;
    if tokenAge < TooNewMs {
      out := out + [SecurityIssue(AntiBotMechanism, Low)];
    }
  }

  method AnalyzeToken(token: TokenInfo, cfg: SecurityConfig, env: Environment)
    returns (analysis: SecurityAnalysis)
    ensures analysis == Assess(token, cfg, env)
  {
    if env.unexpectedError {
      return FailedAnalysis();
    }
    var issues: seq<SecurityIssue> := [];
    issues := CheckCreatorReputation(token, cfg, issues);
    assert issues == CreatorIssues(token.creator, cfg);
    issues := AnalyzeTokenContract(env.mintLookup, issues);
    issues := AnalyzeLiquidityAndHolders(token, cfg, env.holderLookup, issues);
    issues := CheckScamPatterns(token, env.now, issues);
    var score := CalculateSecurityScore(issues);
    var riskLevel := DetermineRiskLevel(score, issues);
    analysis := SecurityAnalysis(score >= 70 && !HasCritical(issues), riskLevel, issues, score);
  }

  // ---------------------------------------------------------------------------
  // Properties of the score

  lemma {:induction false} PenaltyAppend(a: seq<SecurityIssue>, b: seq<SecurityIssue>)
    ensures TotalPenalty(a + b) == TotalPenalty(a) + TotalPenalty(b)
    decreases |b|
  {
    if b == [] {
      assert a + b == a;
    } else {
      var b' := b[..|b| - 1];
      assert (a + b)[..|a + b| - 1] == a + b';
      PenaltyAppend(a, b');
    }
  }

  /** Appending issues never raises the score, and lowers the unfloored total
      by exactly the new issues' deductions. */
  lemma ScoreNeverIncreases(issues: seq<SecurityIssue>, more: seq<SecurityIssue>)
    ensures TotalPenalty(issues + more) == TotalPenalty(issues) + TotalPenalty(more)
    ensures SecurityScore(issues + more) <= SecurityScore(issues)
    ensures more != [] && SecurityScore(issues) > 0 ==> SecurityScore(issues + more) < SecurityScore(issues)
  {
    PenaltyAppend(issues, more);
  }

  /** The deduction table: 50 per CRITICAL, 25 per HIGH, 10 per MEDIUM, 5 per LOW. */
  lemma {:induction false} PenaltyByCounts(issues: seq<SecurityIssue>)
    ensures TotalPenalty(issues) ==
      50 * CountSeverity(issues, Critical) + 25 * CountSeverity(issues, High)
      + 10 * CountSeverity(issues, Medium) + 5 * CountSeverity(issues, Low)
  {
    if issues != [] {
      PenaltyByCounts(issues[..|issues| - 1]);
    }
  }

  lemma ScoreByCounts(issues: seq<SecurityIssue>)
    ensures SecurityScore(issues) == Max(0, 100
      - 50 * CountSeverity(issues, Critical) - 25 * CountSeverity(issues, High)
      - 10 * CountSeverity(issues, Medium) - 5 * CountSeverity(issues, Low))
  {
    PenaltyByCounts(issues);
  }

  /** One CRITICAL issue alone costs 50 points. */
  lemma {:induction false} CriticalCostsFifty(issues: seq<SecurityIssue>)
    ensures HasCritical(issues) ==> TotalPenalty(issues) >= 50 && SecurityScore(issues) <= 50
  {
    if HasCritical(issues) {
      var n := |issues|;
      if issues[n - 1].severity != Critical {
        var i :| 0 <= i < n && issues[i].severity == Critical;
        assert issues[..n - 1][i] == issues[i];
        CriticalCostsFifty(issues[..n - 1]);
      }
    }
  }

  // ---------------------------------------------------------------------------
  // Properties of the verdict and the risk level

  /** Any CRITICAL issue forces an insecure verdict and a CRITICAL level, whatever the score. */
  lemma CriticalForcesInsecure(score: int, issues: seq<SecurityIssue>, i: nat)
    requires i < |issues| && issues[i].severity == Critical
    ensures !IsSecure(score, issues)
    ensures DetermineRiskLevel(score, issues) == Critical
  {
  }

  /** The risk level only gets worse as the score drops. */
  lemma RiskLevelMonotone(s1: int, s2: int, issues: seq<SecurityIssue>)
    requires s1 <= s2
    ensures Rank(DetermineRiskLevel(s1, issues)) >= Rank(DetermineRiskLevel(s2, issues))
  {
  }

  function Rank(s: Severity): nat {
    match s
    case Low => 0
    case Medium => 1
    case High => 2
    case Critical => 3
  }

  /** No issues: score 100, LOW, secure. */
  lemma NoIssuesScenario()
    ensures SecurityScore([]) == 100
    ensures DetermineRiskLevel(100, []) == Low && IsSecure(100, [])
  {
  }

  /** A single CRITICAL issue: score 50, CRITICAL, insecure. */
  lemma SingleCriticalScenario(kind: SecurityIssueType)
    ensures SecurityScore([SecurityIssue(kind, Critical)]) == 50
    ensures DetermineRiskLevel(50, [SecurityIssue(kind, Critical)]) == Critical
    ensures !IsSecure(50, [SecurityIssue(kind, Critical)])
  {
    var issues := [SecurityIssue(kind, Critical)];
    assert issues[..0] == [];
    assert TotalPenalty(issues) == 50;
    assert issues[0].severity == Critical;
  }

  /** A clean token is scored 100, LOW and secure: its mint has neither
      authority, and its holder lookup either reports enough holders under a
      non-negative concentration limit or throws (the throw is swallowed). */
  lemma CleanTokenScenario(token: TokenInfo, cfg: SecurityConfig, env: Environment)
    requires !env.unexpectedError
    requires token.creator !in cfg.blacklistedCreators && cfg.whitelistedCreators == []
    requires env.mintLookup == MintInfo(false, false)
    requires env.holderLookup.HolderLookupThrew? ||
      (env.holderLookup.count >= cfg.minHolderCount && cfg.maxTopHolderPercent >= 0.0)
    requires !LowLiquidity(token, cfg) && !cfg.requireLiquidityLock
    requires token.name.None? && token.symbol.None?
    requires env.now - token.createdAt >= TooNewMs
    ensures Assess(token, cfg, env) == SecurityAnalysis(true, Low, [], 100)
  {
    HolderCheckCases(token, cfg, env.holderLookup);
    assert HolderIssues(token, cfg, env.holderLookup) == [];
    assert AllIssues(token, cfg, env) == [];
  }

  // ---------------------------------------------------------------------------
  // Properties of the individual checks

  /** A blacklisted creator yields exactly one CRITICAL issue, and the whitelist is not consulted. */
  lemma BlacklistWins(creator: string, cfg: SecurityConfig, whitelist: seq<string>)
    requires creator in cfg.blacklistedCreators
    ensures CreatorIssues(creator, cfg) == [SecurityIssue(SuspiciousCreator, Critical)]
    ensures CreatorIssues(creator, cfg.(whitelistedCreators := whitelist)) == CreatorIssues(creator, cfg)
  {
  }

  /** A non-empty whitelist that misses a creator who is not blacklisted yields one HIGH issue. */
  lemma WhitelistMiss(creator: string, cfg: SecurityConfig)
    requires creator !in cfg.blacklistedCreators
    ensures CreatorIssues(creator, cfg) == [SecurityIssue(SuspiciousCreator, High)]
        <==> |cfg.whitelistedCreators| > 0 && creator !in cfg.whitelistedCreators
    ensures CreatorIssues(creator, cfg) == [] <==> cfg.whitelistedCreators == [] || creator in cfg.whitelistedCreators
  {
  }

  /** The contract check: an exception gives one MEDIUM issue, absent mint info
      one CRITICAL issue and no authority issue, each authority one HIGH issue. */
  lemma ContractCheckCases(lookup: MintLookup)
    ensures lookup == MintLookupThrew ==> ContractIssues(lookup) == [SecurityIssue(SuspiciousCreator, Medium)]
    ensures lookup == NoMintInfo ==> ContractIssues(lookup) == [SecurityIssue(SuspiciousCreator, Critical)]
    ensures lookup.MintInfo? ==>
      |ContractIssues(lookup)| == (if lookup.hasMintAuthority then 1 else 0) + (if lookup.hasFreezeAuthority then 1 else 0)
    ensures lookup.MintInfo? ==>
      (forall i :: 0 <= i < |ContractIssues(lookup)| ==> ContractIssues(lookup)[i].severity == High)
  {
  }

  /** The holder check: nothing when the lookup throws; the MEDIUM issue iff
      there are fewer holder accounts than required; and, since every balance
      parses as 0, the whale issue iff there is a holder, a positive supply and
      a negative concentration limit. */
  lemma HolderCheckCases(token: TokenInfo, cfg: SecurityConfig, lookup: HolderLookup)
    ensures lookup.HolderLookupThrew? ==> HolderIssues(token, cfg, lookup) == []
    ensures SecurityIssue(LowHolderCount, Medium) in HolderIssues(token, cfg, lookup)
        <==> lookup.HolderAccounts? && lookup.count < cfg.minHolderCount
    ensures SecurityIssue(WhaleConcentration, High) in HolderIssues(token, cfg, lookup)
        <==> lookup.HolderAccounts? && lookup.count > 0 && token.supply > 0.0 && cfg.maxTopHolderPercent < 0.0
    ensures |HolderIssues(token, cfg, lookup)| <= 2
  {
    if token.supply > 0.0 {
      assert ParsedHolderBalance / token.supply * 100.0 == 0.0;
    }
  }

  /** The liquidity check: the HIGH low-liquidity issue iff a truthy liquidity is
      below the minimum, the MEDIUM lock issue iff a lock is required, and every
      holder issue in between. */
  lemma LiquidityCheckCases(token: TokenInfo, cfg: SecurityConfig, lookup: HolderLookup)
    ensures SecurityIssue(NoLiquidityLock, High) in LiquidityIssues(token, cfg, lookup) <==> LowLiquidity(token, cfg)
    ensures SecurityIssue(NoLiquidityLock, Medium) in LiquidityIssues(token, cfg, lookup) <==> cfg.requireLiquidityLock
    ensures forall x :: x in HolderIssues(token, cfg, lookup) ==> x in LiquidityIssues(token, cfg, lookup)
    ensures |LiquidityIssues(token, cfg, lookup)| ==
      (if LowLiquidity(token, cfg) then 1 else 0) + |HolderIssues(token, cfg, lookup)|
      + (if cfg.requireLiquidityLock then 1 else 0)
  {
    var h := HolderIssues(token, cfg, lookup);
    assert forall x :: x in h ==> x.kind == LowHolderCount || x.kind == WhaleConcentration;
  }

  /** The slice of `text` at `i`, in whatever letter case, spells `word`. */
  predicate SpellsAt(text: string, word: string, i: nat) {
    i + |word| <= |text| && ToLower(text[i..i + |word|]) == word
  }

  /** Lower-casing a slice is the slice of the lower-cased text. */
  lemma ToLowerSlice(s: string, i: nat, j: nat)
    requires i <= j <= |s|
    ensures ToLower(s)[i..j] == ToLower(s[i..j])
  {
  }

  /** The name check: when the name is non-empty and some slice of it, in any
      letter case, spells a listed word, the first issue is the MEDIUM pattern
      issue. */
  lemma SuspiciousNameFlagged(token: TokenInfo, now: int, k: nat, i: nat)
    requires TruthyText(token.name) && k < |SuspiciousWords|
    requires SpellsAt(token.name.value, SuspiciousWords[k], i)
    ensures |ScamPatternIssues(token, now)| >= 1
    ensures ScamPatternIssues(token, now)[0] == SecurityIssue(SuspiciousCreator, Medium)
  {
    var name := token.name.value;
    var w := SuspiciousWords[k];
    ToLowerSlice(name, i, i + |w|);
    assert OccursAt(ToLower(name), w, i);
    assert Contains(ToLower(name), w);
  }

  /** Equivalently, a name (or, without one, a symbol) that is not flagged has no
      slice that spells a listed word in any letter case. */
  lemma UnflaggedNameClean(token: TokenInfo, now: int)
    requires TruthyText(token.name) || TruthyText(token.symbol)
    requires SecurityIssue(SuspiciousCreator, Medium) !in ScamPatternIssues(token, now)
    ensures forall k: nat, i: nat :: k < |SuspiciousWords| ==> !SpellsAt(NameUnderTest(token), SuspiciousWords[k], i)
  {
    var t := NameUnderTest(token);
    assert !Suspicious(ToLower(t));
    forall k: nat, i: nat | k < |SuspiciousWords|
      ensures !SpellsAt(t, SuspiciousWords[k], i)
    {
      if i + |SuspiciousWords[k]| <= |t| {
        ToLowerSlice(t, i, i + |SuspiciousWords[k]|);
        assert !OccursAt(ToLower(t), SuspiciousWords[k], i);
      }
    }
  }

  /** Soundness of the name check: the MEDIUM issue is raised only when the
      tested text spells a listed word somewhere, in some letter case. */
  lemma FlaggedNameSpells(token: TokenInfo, now: int)
    requires SecurityIssue(SuspiciousCreator, Medium) in ScamPatternIssues(token, now)
    ensures TruthyText(token.name) || TruthyText(token.symbol)
    ensures exists k: nat, i: nat :: k < |SuspiciousWords| && SpellsAt(NameUnderTest(token), SuspiciousWords[k], i)
  {
    var t := NameUnderTest(token);
    assert (TruthyText(token.name) || TruthyText(token.symbol)) && Suspicious(ToLower(t));
    var k :| 0 <= k < |SuspiciousWords| && Contains(ToLower(t), SuspiciousWords[k]);
    var w := SuspiciousWords[k];
    var i :| 0 <= i <= |ToLower(t)| - |w| && OccursAt(ToLower(t), w, i);
    ToLowerSlice(t, i, i + |w|);
    assert SpellsAt(t, w, i);
  }

  /** The symbol is read only when the name is missing or empty. */
  lemma SymbolOnlyWithoutName(token: TokenInfo, symbol: Option<string>, now: int)
    requires TruthyText(token.name)
    ensures ScamPatternIssues(token.(symbol := symbol), now) == ScamPatternIssues(token, now)
  {
  }

  /** The age check: the LOW issue iff the token is younger than five minutes,
      and the check adds at most two issues. */
  lemma ScamPatternCases(token: TokenInfo, now: int)
    ensures SecurityIssue(AntiBotMechanism, Low) in ScamPatternIssues(token, now) <==> now - token.createdAt < 300000
    ensures |ScamPatternIssues(token, now)| <= 2
    ensures !TruthyText(token.name) && !TruthyText(token.symbol) ==>
      forall x :: x in ScamPatternIssues(token, now) ==> x == SecurityIssue(AntiBotMechanism, Low)
  {
  }

  /** The deductions of a full analysis are the sum of each check's deductions. */
  lemma PenaltyPerCheck(token: TokenInfo, cfg: SecurityConfig, env: Environment)
    ensures TotalPenalty(AllIssues(token, cfg, env)) ==
      TotalPenalty(CreatorIssues(token.creator, cfg)) + TotalPenalty(ContractIssues(env.mintLookup))
      + TotalPenalty(LiquidityIssues(token, cfg, env.holderLookup)) + TotalPenalty(ScamPatternIssues(token, env.now))
  {
    var c := CreatorIssues(token.creator, cfg);
    var k := ContractIssues(env.mintLookup);
    var l := LiquidityIssues(token, cfg, env.holderLookup);
    PenaltyAppend(c + k + l, ScamPatternIssues(token, env.now));
    PenaltyAppend(c + k, l);
    PenaltyAppend(c, k);
  }

  /** A failed contract lookup contributes exactly one MEDIUM issue in place of
      the contract check's findings, and costs exactly 10 points more than
      clean mint info, the other checks' issues being the same. */
  lemma ContractLookupFailureIsolated(token: TokenInfo, cfg: SecurityConfig, env: Environment)
    requires env.mintLookup == MintLookupThrew
    ensures AllIssues(token, cfg, env) ==
      CreatorIssues(token.creator, cfg) + [SecurityIssue(SuspiciousCreator, Medium)]
      + LiquidityIssues(token, cfg, env.holderLookup) + ScamPatternIssues(token, env.now)
    ensures TotalPenalty(AllIssues(token, cfg, env))
      == TotalPenalty(AllIssues(token, cfg, env.(mintLookup := MintInfo(false, false)))) + 10
  {
    var m := [SecurityIssue(SuspiciousCreator, Medium)];
    assert m[..0] == [];
    assert TotalPenalty(m) == 10;
    assert ContractIssues(MintInfo(false, false)) == [];
    PenaltyPerCheck(token, cfg, env);
    PenaltyPerCheck(token, cfg, env.(mintLookup := MintInfo(false, false)));
  }

  /** The whole analysis failing gives score 0, one CRITICAL issue, CRITICAL and insecure. */
  lemma AnalysisFailureScenario(token: TokenInfo, cfg: SecurityConfig, env: Environment)
    requires env.unexpectedError
    ensures Assess(token, cfg, env).score == 0
    ensures Assess(token, cfg, env).issues == [SecurityIssue(SuspiciousCreator, Critical)]
    ensures Assess(token, cfg, env).riskLevel == Critical && !Assess(token, cfg, env).isSecure
  {
  }

  /** The mixed-case name "SafeMoon" contains the listed word "safe" and is flagged. */
  lemma SuspiciousNameScenario(token: TokenInfo, now: int)
    requires token.name == Some("SafeMoon")
    ensures |ScamPatternIssues(token, now)| >= 1
    ensures ScamPatternIssues(token, now)[0] == SecurityIssue(SuspiciousCreator, Medium)
  {
    var lowered := ToLower("SafeMoon");
    assert lowered == "safemoon";
    assert SuspiciousWords[2] == "safe";
    assert OccursAt(lowered, SuspiciousWords[2], 0);
    assert Contains(lowered, SuspiciousWords[2]);
  }
}
