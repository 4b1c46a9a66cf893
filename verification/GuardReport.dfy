// The public report: what its schema accepts, the clamp to a Builder envelope, and the identity of
// standing terms across deliveries. A digest stands for the encoded fields it is computed from.
module GuardReport {
  import opened Wrappers
  import opened Authorization

  const UINT256: nat := 0x1_0000000000000000000000000000000000000000000000000000000000000000
  const UINT160: nat := 0x1_0000000000000000000000000000000000000000
  const MAX_AGE: int := 300

  // ---- publicReportSchema --------------------------------------------------------------------

  predicate IsAddress(n: nat) {
    0 < n < UINT160
  }

  predicate ValidIdentity(i: Identity) {
    && i.chainId < UINT256 && IsAddress(i.guard) && IsAddress(i.router) && IsAddress(i.maker) && IsAddress(i.token0)
       && IsAddress(i.token1)
    && 0 < i.strategyHash < UINT256
  }

  predicate FieldsFit(r: Report) {
    && (r.schemaVersion == 1 || r.schemaVersion == 2) && ValidIdentity(r.identity)
    && r.nonce <= UINT64_MAX && r.validAfter <= UINT48_MAX && r.validUntil <= UINT48_MAX && r.directions < 256
    && AtMost(CapsOf(r), UINT128_CAPS)
  }

  predicate SomeCapIsZero(r: Report) {
    r.maxAmount0 == 0 || r.maxAmount1 == 0 || r.maxPost0 == 0 || r.maxPost1 == 0
  }

  predicate ValidReport(r: Report) {
    && FieldsFit(r) && r.identity.token0 != r.identity.token1 && r.nonce != 0 && r.directions <= 3
    && (if r.schemaVersion == 2 then r.validUntil == 0 else r.validAfter < r.validUntil <= r.validAfter + 600)
    && (r.directions != 0 ==> !SomeCapIsZero(r))
  }

  function Encode(r: Report): Result<Report> {
    if ValidReport(r) then Success(r) else Failure("invalid public Guard report")
  }

  // ---- every computed report against the schema ------------------------------------------------

  // With well-formed identities and a clock below the uint48 limit, the schema takes a computed
  // report exactly when it is paused or both inventory caps are positive.
  lemma ComputedReportsEncode(s: Strategy, l: Limits, m: Market, identity: Identity, nowSec: int, nonce: int)
    requires ValidStrategy(s) && ValidLimits(l) && ValidMarket(m) && ValidIdentity(identity)
             && identity.token0 != identity.token1
    requires Authorize(s, l, m, identity, nowSec, nonce).Success? && nowSec + 600 <= UINT48_MAX
    ensures var r := Authorize(s, l, m, identity, nowSec, nonce).value;
            Encode(r).Success? <==> r.directions == 0 || (r.maxPost0 > 0 && r.maxPost1 > 0)
  {
    hide ValueToToken0, FirstMatch, Applies, ValidIdentity;
    ReportRefinesBoth(s, l, m, identity, nowSec, nonce, Caps(0, 0, 0, 0));
    var rule := FirstMatch(s.rules, m);
    assert rule.Some? ==> rule.value in s.rules && ValidRule(rule.value);
  }

  // ---- clampBuilderReport ----------------------------------------------------------------------

  function Lower(a: nat, b: nat): nat {
    if a < b then a else b
  }

  function Bounded(r: Report, envelope: Caps): Report {
    r.(maxAmount0 := Lower(r.maxAmount0, envelope.amount0), maxAmount1 := Lower(r.maxAmount1, envelope.amount1),
       maxPost0 := Lower(r.maxPost0, envelope.post0), maxPost1 := Lower(r.maxPost1, envelope.post1))
  }

  function WithoutBuy(directions: nat): nat {
    if Buys0(directions) then directions - 1 else directions
  }

  function WithoutSell(directions: nat): nat {
    if Sells0(directions) && directions >= 2 then directions - 2 else directions
  }

  function ClampedDirections(b: Report, balance0: nat, balance1: nat): nat {
    if b.maxAmount0 == 0 || b.maxAmount1 == 0 then 0
    else
      var bought := if balance0 >= b.maxPost0 then WithoutBuy(b.directions) else b.directions;
      if balance1 >= b.maxPost1 then WithoutSell(bought) else bought
  }

  function Clamped(r: Report, envelope: Caps, balance0: nat, balance1: nat): Report {
    var b := Bounded(r, envelope);
    var directions := ClampedDirections(b, balance0, balance1);
    if directions == 0 then b.(directions := 0, maxAmount0 := 0, maxAmount1 := 0, maxPost0 := 0, maxPost1 := 0)
    else b.(directions := directions)
  }

  function Clamp(r: Report, envelope: Caps, balance0: nat, balance1: nat): Result<Report> {
    var report :- Encode(r);
    Encode(Clamped(report, envelope, balance0, balance1))
  }

  method ClampBuilderReport(input: Report, envelope: Caps, balance0: nat, balance1: nat) returns (r: Result<Report>)
    ensures r == Clamp(input, envelope, balance0, balance1)
  {
    hide ValidReport;
    var report :- Encode(input);
    var bounded := report;
    bounded := bounded.(maxAmount0 := if report.maxAmount0 < envelope.amount0 then report.maxAmount0
        else envelope.amount0);
    bounded := bounded.(maxAmount1 := if report.maxAmount1 < envelope.amount1 then report.maxAmount1
        else envelope.amount1);
    bounded := bounded.(maxPost0 := if report.maxPost0 < envelope.post0 then report.maxPost0 else envelope.post0);
    bounded := bounded.(maxPost1 := if report.maxPost1 < envelope.post1 then report.maxPost1 else envelope.post1);
    var directions := bounded.directions;
    if balance0 >= bounded.maxPost0 {
      directions := WithoutBuy(directions);
    }
    if balance1 >= bounded.maxPost1 {
      directions := WithoutSell(directions);
    }
    if bounded.maxAmount0 == 0 || bounded.maxAmount1 == 0 {
      directions := 0;
    }
    bounded := bounded.(directions := directions);
    if directions == 0 {
      bounded := bounded.(maxAmount0 := 0, maxAmount1 := 0, maxPost0 := 0, maxPost1 := 0);
    }
    r := Encode(bounded);
  }

  // Clamping never raises a cap, opens a direction or touches anything else.
  lemma ClampOnlyLowers(r: Report, envelope: Caps, balance0: nat, balance1: nat)
    requires Clamp(r, envelope, balance0, balance1).Success?
    ensures var c := Clamp(r, envelope, balance0, balance1).value;
            && AtMost(CapsOf(c), CapsOf(r)) && AtMost(CapsOf(c), envelope)
            && (Buys0(c.directions) ==> Buys0(r.directions) && balance0 < c.maxPost0)
            && (Sells0(c.directions) ==> Sells0(r.directions) && balance1 < c.maxPost1)
            && c == r.(directions := c.directions, maxAmount0 := c.maxAmount0, maxAmount1 := c.maxAmount1,
               maxPost0 := c.maxPost0, maxPost1 := c.maxPost1)
  {
    hide FieldsFit;
  }

  // A clamped report clamps to itself.
  lemma ClampIsIdempotent(r: Report, envelope: Caps, balance0: nat, balance1: nat)
    requires Clamp(r, envelope, balance0, balance1).Success?
    ensures var c := Clamp(r, envelope, balance0, balance1).value; Clamp(c, envelope, balance0, balance1) == Success(c)
  {
    hide FieldsFit;
  }

  // A valid report fails to clamp exactly when a direction stays open and an inventory cap becomes
  // zero: the schema wants all four caps positive then.
  lemma ClampFailsExactly(r: Report, envelope: Caps, balance0: nat, balance1: nat)
    requires ValidReport(r)
    ensures Clamp(r, envelope, balance0, balance1).Failure?
            <==> ClampedDirections(Bounded(r, envelope), balance0, balance1) != 0
                 && (envelope.post0 == 0 || envelope.post1 == 0)
  {
    hide ValidIdentity;
  }

  function EnvelopeLimits(envelope: Caps): Limits {
    V4(envelope.amount0, envelope.amount1, envelope.post0, envelope.post1)
  }

  // A report computed from limits equal to the envelope, with the same balances, is left as it is.
  lemma ClampKeepsComputed(s: Strategy, envelope: Caps, m: Market, identity: Identity, nowSec: int, nonce: int)
    requires ValidStrategy(s) && ValidMarket(m)
             && Authorize(s, EnvelopeLimits(envelope), m, identity, nowSec, nonce).Success?
    ensures var r := Authorize(s, EnvelopeLimits(envelope), m, identity, nowSec, nonce).value;
            Clamped(r, envelope, m.balance0, m.balance1) == r
            && (Encode(r).Success? ==> Clamp(r, envelope, m.balance0, m.balance1) == Success(r))
  {
    hide FirstMatch, Applies, ValidReport;
  }

  // ---- standing terms ----------------------------------------------------------------------------

  // The digest of a report with its issuance fields blanked.
  function StandingTerms(r: Report): Result<Report> {
    var report :- Encode(r);
    if report.schemaVersion != 2 then Failure("Builder requires standing Maker consent")
    else Encode(report.(nonce := 1, validAfter := 0))
  }

  function SameStandingAuthorization(next: Report, saved: Report, activeHash: nat): bool {
    && next.schemaVersion == 2 && saved.schemaVersion == 2
    && next.(nonce := 0, validAfter := 0) == saved.(nonce := 0, validAfter := 0)
    && (if next.directions == 0 then activeHash != next.identity.strategyHash
       else activeHash == next.identity.strategyHash)
  }

  // Two standing reports have equal terms hashes exactly when they differ at most in nonce and
  // issuance; with the chain in step, exactly when they count as the same authorization.
  lemma TermsHashIsIdentity(a: Report, b: Report, activeHash: nat)
    requires StandingTerms(a).Success? && StandingTerms(b).Success?
    ensures StandingTerms(a) == StandingTerms(b) <==> b == a.(nonce := b.nonce, validAfter := b.validAfter)
    ensures activeHash == (if a.directions == 0 then 0 else a.identity.strategyHash)
            ==> (SameStandingAuthorization(a, b, activeHash) <==> StandingTerms(a) == StandingTerms(b))
  {
    assert StandingTerms(a).value == a.(nonce := 1, validAfter := 0)
        && StandingTerms(b).value == b.(nonce := 1, validAfter := 0);
    hide FieldsFit;
    assert ValidReport(a) && a.identity.strategyHash > 0 by { IdentityHash(a); }
  }

  lemma IdentityHash(r: Report)
    requires Encode(r).Success?
    ensures r.identity.strategyHash > 0
  {
  }

  // A standing valid report always has a terms hash.
  lemma StandingReportsHaveTerms(r: Report)
    ensures StandingTerms(r).Success? <==> ValidReport(r) && r.schemaVersion == 2
  {
  }

  datatype Delivery = Stale(reason: string) | Ready(report: Report)

  datatype Request = Evaluate | Deliver(nonce: nat, validAfter: nat, terms: Report)

  function PrepareBuilderDelivery(r: Report, request: Request, now: int): Result<Delivery> {
    var report :- Encode(r);
    var terms :- StandingTerms(report);
    if !request.Deliver? then Failure("Builder delivery request required")
    else if request.validAfter > now || now - request.validAfter > MAX_AGE then Success(Stale("candidate-expired"))
    else if terms != request.terms then Success(Stale("authorization-changed"))
    else
      var issued :- Encode(report.(nonce := request.nonce, validAfter := request.validAfter));
      Success(Ready(issued))
  }

  // A delivery goes out only with the terms that were asked for, reissued under the requested nonce
  // and time, and no older than five minutes.
  lemma DeliveredTermsAreRequested(r: Report, request: Request, now: int)
    ensures var d := PrepareBuilderDelivery(r, request, now);
            d.Success? && d.value.Ready? ==>
              && request.Deliver? && request.validAfter <= now <= request.validAfter + MAX_AGE
              && d.value.report == r.(nonce := request.nonce, validAfter := request.validAfter)
              && StandingTerms(d.value.report) == Success(request.terms) == StandingTerms(r)
  {
    hide FieldsFit;
  }
}
