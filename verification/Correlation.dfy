/** Scoring an asset against a device report, and deciding whether the report may be linked to one. */
module Correlation {
  import opened Options
  import opened Identifiers

  datatype Scope = Lan | Wan

  // hostname is the normalised report hostname, empty when it is missing or a placeholder.
  datatype Signals = Signals(site: Option<nat>, scope: Scope, ip: string, hostname: string, values: map<Kind, set<string>>, tokens: set<string>)

  datatype Address = Address(ip: string, site: Option<nat>)

  // `active` holds the asset's identifiers that are not marked incorrect.
  datatype Asset = Asset(id: nat, site: Option<nat>, active: map<Kind, set<string>>, addresses: seq<Address>, tokens: set<string>)

  datatype Reason = StrongMatch(kind: Kind) | StrongConflict(kind: Kind) | SameHostname | UniqueHostname | HostnameConflict
                 | SameFqdn | TlsMatch | DnsMatch | SameSite | SameAddress | SameServices

  datatype Item = Item(reason: Reason, contribution: int)

  datatype Candidate = Candidate(id: nat, score: int, evidence: seq<Item>, blocked: bool, strong: bool, named: bool, corroborated: bool)

  const StrongWeight := 70
  const FqdnWeight := 35
  const TlsWeight := 20
  const DnsWeight := 15
  const HostnameWeight := 25
  const SiteWeight := 10
  const AddressWeight := 15
  const ServiceWeight := 8
  const UniqueBonus := 30
  const ConflictPenalty := 25
  const AutoThreshold := 50
  const ReviewThreshold := 40
  const Gap := 15

  function Of(m: map<Kind, set<string>>, k: Kind): set<string> {
    if k in m then m[k] else {}
  }

  predicate Meets(a: set<string>, b: set<string>) {
    a * b != {}
  }

  // ---------------------------------------------------------------- what makes up a score

  predicate Matches(a: Asset, s: Signals, k: Kind) {
    Meets(Of(s.values, k), Of(a.active, k))
  }

  /** Both sides name this kind of identifier and share no value. */
  predicate Conflicts(a: Asset, s: Signals, k: Kind) {
    Of(s.values, k) != {} && Of(a.active, k) != {} && !Matches(a, s, k)
  }

  predicate AnyStrong(a: Asset, s: Signals) {
    Matches(a, s, Mac) || Matches(a, s, Serial) || Matches(a, s, DeviceId)
  }

  predicate AnyConflict(a: Asset, s: Signals) {
    Conflicts(a, s, Mac) || Conflicts(a, s, Serial) || Conflicts(a, s, DeviceId)
  }

  predicate HasHostname(a: Asset, s: Signals) {
    s.hostname != "" && (s.hostname in Of(a.active, Hostname) || s.hostname in Of(a.active, Fqdn))
  }

  predicate HasFqdn(a: Asset, s: Signals) {
    Meets(Of(s.values, Fqdn), Of(a.active, Fqdn) + Of(a.active, Hostname))
  }

  predicate HostnameClash(a: Asset, s: Signals) {
    s.hostname != "" && !HasHostname(a, s) && Of(a.active, Hostname) != {} && !AnyStrong(a, s)
  }

  predicate AtSite(a: Asset, s: Signals) {
    s.scope == Lan && s.site.Some? && a.site == s.site
  }

  predicate CountsAs(addr: Address, s: Signals) {
    addr.ip == s.ip && (s.scope != Lan || s.site.None? || addr.site == s.site)
  }

  predicate AtAddress(a: Asset, s: Signals) {
    s.ip != "" && exists addr :: addr in a.addresses && CountsAs(addr, s)
  }

  predicate SharesServices(a: Asset, s: Signals) {
    s.tokens * a.tokens != {}
  }

  function Points(held: bool, weight: int): int {
    if held then weight else 0
  }

  function StrongPoints(a: Asset, s: Signals, k: Kind): int {
    Points(Matches(a, s, k), StrongWeight) - Points(Conflicts(a, s, k), StrongWeight)
  }

  function StrongTotal(a: Asset, s: Signals): int {
    StrongPoints(a, s, Mac) + StrongPoints(a, s, Serial) + StrongPoints(a, s, DeviceId)
  }

  function NameTotal(a: Asset, s: Signals, unique: bool): int {
    Points(HasHostname(a, s), HostnameWeight) + Points(HasHostname(a, s) && unique, UniqueBonus)
    - Points(HostnameClash(a, s), ConflictPenalty) + Points(HasFqdn(a, s) && !HasHostname(a, s), FqdnWeight)
  }

  function OtherTotal(a: Asset, s: Signals): int {
    Points(Matches(a, s, TlsName), TlsWeight) + Points(Matches(a, s, DnsName), DnsWeight)
    + Points(AtSite(a, s), SiteWeight) + Points(AtAddress(a, s), AddressWeight) + Points(SharesServices(a, s), ServiceWeight)
  }

  /** The score as a plain sum of the facts that hold. */
  function Score(a: Asset, s: Signals, unique: bool): int {
    StrongTotal(a, s) + NameTotal(a, s, unique) + OtherTotal(a, s)
  }

  /** What each piece of evidence is worth; a hostname counts before an FQDN, and a clash only without a strong match. */
  lemma ScoreIs(a: Asset, s: Signals, unique: bool)
    ensures Score(a, s, unique) ==
      (if Matches(a, s, Mac) then 70 else if Conflicts(a, s, Mac) then -70 else 0)
      + (if Matches(a, s, Serial) then 70 else if Conflicts(a, s, Serial) then -70 else 0)
      + (if Matches(a, s, DeviceId) then 70 else if Conflicts(a, s, DeviceId) then -70 else 0)
      + (if HasHostname(a, s) then (if unique then 55 else 25) else if HasFqdn(a, s) then 35 else 0)
      - (if HostnameClash(a, s) then 25 else 0)
      + (if Matches(a, s, TlsName) then 20 else 0) + (if Matches(a, s, DnsName) then 15 else 0)
      + (if AtSite(a, s) then 10 else 0) + (if AtAddress(a, s) then 15 else 0) + (if SharesServices(a, s) then 8 else 0)
  {
  }

  predicate Among(m: map<Kind, set<string>>, k: Kind, x: string) {
    k in m && x in m[k]
  }

  /** What the evidence is, in terms of the values on the two sides. */
  lemma EvidenceIs(a: Asset, s: Signals, k: Kind)
    ensures Matches(a, s, k) <==> exists x :: Among(s.values, k, x) && Among(a.active, k, x)
    ensures Conflicts(a, s, k) <==>
      (exists x :: Among(s.values, k, x)) && (exists x :: Among(a.active, k, x)) && !exists x :: Among(s.values, k, x) && Among(a.active, k, x)
    ensures HasHostname(a, s) <==> s.hostname != "" && (Among(a.active, Hostname, s.hostname) || Among(a.active, Fqdn, s.hostname))
    ensures HasFqdn(a, s) <==> exists x :: Among(s.values, Fqdn, x) && (Among(a.active, Fqdn, x) || Among(a.active, Hostname, x))
    ensures HostnameClash(a, s) <==> s.hostname != "" && !HasHostname(a, s) && !AnyStrong(a, s) && exists x :: Among(a.active, Hostname, x)
    ensures SharesServices(a, s) <==> exists x :: x in s.tokens && x in a.tokens
  {
    MeetsIff(Of(s.values, k), Of(a.active, k));
    MeetsIff(Of(s.values, Fqdn), Of(a.active, Fqdn) + Of(a.active, Hostname));
    MeetsIff(s.tokens, a.tokens);
    assert Of(a.active, Hostname) != {} <==> exists x :: x in Of(a.active, Hostname);
    assert Of(s.values, k) != {} <==> exists x :: x in Of(s.values, k);
    assert Of(a.active, k) != {} <==> exists x :: x in Of(a.active, k);
    forall kind, x ensures x in Of(a.active, kind) <==> Among(a.active, kind, x) {
    }
    forall kind, x ensures x in Of(s.values, kind) <==> Among(s.values, kind, x) {
    }
  }

  lemma MeetsIff(a: set<string>, b: set<string>)
    ensures Meets(a, b) <==> exists x :: x in a && x in b
    ensures a * b != {} <==> exists x :: x in a && x in b
  {
    if a * b != {} {
      var x :| x in a * b;
      assert x in a && x in b;
    }
    if x :| x in a && x in b {
      assert x in a * b;
    }
  }

  /** On a LAN at a known site, being at that site counts, and so does the address, but only at that site; elsewhere the address counts anywhere. */
  lemma PlaceIs(a: Asset, s: Signals)
    ensures s.scope == Lan && s.site.Some? ==>
      (AtSite(a, s) <==> a.site == s.site) && (AtAddress(a, s) <==> s.ip != "" && Address(s.ip, s.site) in a.addresses)
    ensures s.scope != Lan || s.site.None? ==>
      !AtSite(a, s) && (AtAddress(a, s) <==> s.ip != "" && exists addr :: addr in a.addresses && addr.ip == s.ip)
  {
    if s.scope == Lan && s.site.Some? && s.ip != "" && Address(s.ip, s.site) in a.addresses {
      assert CountsAs(Address(s.ip, s.site), s);
    }
    if (s.scope != Lan || s.site.None?) && s.ip != "" && exists addr :: addr in a.addresses && addr.ip == s.ip {
      var addr :| addr in a.addresses && addr.ip == s.ip;
      assert CountsAs(addr, s);
    }
  }

  predicate Corroborated(a: Asset, s: Signals) {
    Matches(a, s, TlsName) || Matches(a, s, DnsName) || AtAddress(a, s) || SharesServices(a, s)
  }

  function Total(items: seq<Item>): int {
    if items == [] then 0 else Total(items[..|items| - 1]) + items[|items| - 1].contribution
  }

  lemma TotalSnoc(items: seq<Item>, i: Item)
    ensures Total(items + [i]) == Total(items) + i.contribution
  {
    assert (items + [i])[..|items|] == items;
  }

  /** What a scored candidate has to say about its asset, apart from the list of evidence itself. */
  ghost predicate Scores(c: Candidate, a: Asset, s: Signals, unique: bool) {
    && c.id == a.id && c.score == Score(a, s, unique) == Total(c.evidence)
    && c.blocked == AnyConflict(a, s) && c.strong == AnyStrong(a, s)
    && c.named == (HasHostname(a, s) || HasFqdn(a, s))
    && c.corroborated == Corroborated(a, s)
  }

  method StrongEvidenceOf(a: Asset, s: Signals, k: Kind, before: seq<Item>) returns (evidence: seq<Item>, matched: bool, conflicted: bool)
    requires forall i :: i in before ==> i.reason.StrongMatch? || i.reason.StrongConflict?
    ensures matched == Matches(a, s, k) && conflicted == Conflicts(a, s, k)
    ensures Total(evidence) == Total(before) + StrongPoints(a, s, k)
    ensures forall i :: i in evidence ==> i.reason.StrongMatch? || i.reason.StrongConflict?
  {
    evidence, matched, conflicted := before, false, false;
    var observed, existing := Of(s.values, k), Of(a.active, k);
    if observed != {} && existing != {} {
      matched := observed * existing != {};
      conflicted := !matched;
      var item := if matched then Item(StrongMatch(k), StrongWeight) else Item(StrongConflict(k), -StrongWeight);
      TotalSnoc(before, item);
      evidence := before + [item];
    }
  }

  method StrongEvidence(a: Asset, s: Signals) returns (evidence: seq<Item>, blocked: bool, strong: bool)
    ensures Total(evidence) == StrongTotal(a, s)
    ensures blocked == AnyConflict(a, s) && strong == AnyStrong(a, s)
    ensures forall i :: i in evidence ==> i.reason.StrongMatch? || i.reason.StrongConflict?
  {
    evidence, blocked, strong := [], false, false;
    var kinds := [Mac, Serial, DeviceId];
    for n := 0 to 3
      invariant Total(evidence) == Points(n > 0, StrongPoints(a, s, Mac)) + Points(n > 1, StrongPoints(a, s, Serial)) + Points(n > 2, StrongPoints(a, s, DeviceId))
      invariant blocked == exists k :: 0 <= k < n && Conflicts(a, s, kinds[k])
      invariant strong == exists k :: 0 <= k < n && Matches(a, s, kinds[k])
      invariant forall i :: i in evidence ==> i.reason.StrongMatch? || i.reason.StrongConflict?
    {
      var matched, conflicted;
      evidence, matched, conflicted := StrongEvidenceOf(a, s, kinds[n], evidence);
      strong := strong || matched;
      blocked := blocked || conflicted;
      assert n == 0 || n == 1 || n == 2;
    }
    assert kinds[0] == Mac && kinds[1] == Serial && kinds[2] == DeviceId;
  }

  method Add(evidence: seq<Item>, held: bool, reason: Reason, weight: int) returns (r: seq<Item>)
    ensures r == if held then evidence + [Item(reason, weight)] else evidence
    ensures Total(r) == Total(evidence) + Points(held, weight)
  {
    TotalSnoc(evidence, Item(reason, weight));
    r := if held then evidence + [Item(reason, weight)] else evidence;
  }

  method NameEvidence(a: Asset, s: Signals, unique: bool, strong: bool, before: seq<Item>) returns (evidence: seq<Item>, named: bool)
    requires strong == AnyStrong(a, s)
    requires forall i :: i in before ==> i.reason.StrongMatch? || i.reason.StrongConflict?
    ensures named == (HasHostname(a, s) || HasFqdn(a, s))
    ensures Total(evidence) == Total(before) + NameTotal(a, s, unique)
  {
    evidence, named := before, false;
    if s.hostname != "" {
      if s.hostname in Of(a.active, Hostname) || s.hostname in Of(a.active, Fqdn) {
        evidence := Add(evidence, true, SameHostname, HostnameWeight);
        named := true;
        assert evidence[|before|].reason == SameHostname;
        evidence := Add(evidence, unique, UniqueHostname, UniqueBonus);
        assert evidence[|before|].reason == SameHostname;
      } else if Of(a.active, Hostname) != {} && !strong {
        evidence := Add(evidence, true, HostnameConflict, -ConflictPenalty);
      }
    }
    if Meets(Of(s.values, Fqdn), Of(a.active, Fqdn) + Of(a.active, Hostname)) {
      if !exists i :: i in evidence && i.reason == SameHostname {
        evidence := Add(evidence, true, SameFqdn, FqdnWeight);
      }
      named := true;
    }
  }

  method OtherEvidence(a: Asset, s: Signals, before: seq<Item>) returns (evidence: seq<Item>, corroborated: bool)
    ensures Total(evidence) == Total(before) + OtherTotal(a, s)
    ensures corroborated == Corroborated(a, s)
  {
    var tls, dns, address, services := Matches(a, s, TlsName), Matches(a, s, DnsName), AtAddress(a, s), SharesServices(a, s);
    evidence := Add(before, tls, TlsMatch, TlsWeight);
    evidence := Add(evidence, dns, DnsMatch, DnsWeight);
    evidence := Add(evidence, AtSite(a, s), SameSite, SiteWeight);
    evidence := Add(evidence, address, SameAddress, AddressWeight);
    evidence := Add(evidence, services, SameServices, ServiceWeight);
    corroborated := tls || dns || address || services;
  }

  /** score_candidate */
  method ScoreCandidate(a: Asset, s: Signals, unique: bool) returns (c: Candidate)
    ensures Scores(c, a, s, unique)
  {
    var evidence, blocked, strong := StrongEvidence(a, s);
    var named, corroborated;
    evidence, named := NameEvidence(a, s, unique, strong, evidence);
    evidence, corroborated := OtherEvidence(a, s, evidence);
    c := Candidate(a.id, Total(evidence), evidence, blocked, strong, named, corroborated);
  }

  // ---------------------------------------------------------------- the decision

  datatype Confidence = High | Medium | Low

  function ConfidenceFor(score: int): Confidence {
    if score >= 70 then High else if score >= ReviewThreshold then Medium else Low
  }

  datatype Outcome = Linked(id: nat) | Ambiguous | CreatedNew

  datatype Decision = Decision(outcome: Outcome, confidence: Confidence, score: int, evidence: seq<Item>)

  /** qualifies_for_auto_match */
  predicate Qualifies(c: Candidate) {
    !c.blocked && (c.strong || (c.named && c.corroborated))
  }

  predicate AutoEligible(c: Candidate) {
    Qualifies(c) && c.score >= AutoThreshold
  }

  /** _competitor_blocks_auto */
  predicate Blocks(best: Candidate, competitor: Candidate) {
    best.score - competitor.score < Gap
    && (competitor.score >= ReviewThreshold || (best.named && competitor.named) || (best.strong && competitor.strong))
  }

  predicate RanksBefore(a: Candidate, b: Candidate) {
    a.score > b.score || (a.score == b.score && a.id <= b.id)
  }

  function Insert(c: Candidate, ranked: seq<Candidate>): seq<Candidate> {
    if ranked == [] || RanksBefore(c, ranked[0]) then [c] + ranked else [ranked[0]] + Insert(c, ranked[1..])
  }

  /** The viable candidates in rank order. */
  function Ranked(scored: seq<Candidate>): seq<Candidate> {
    if scored == [] then []
    else if scored[0].blocked then Ranked(scored[1..])
    else Insert(scored[0], Ranked(scored[1..]))
  }

  function FirstEligible(ranked: seq<Candidate>): Option<Candidate> {
    if ranked == [] then None
    else if AutoEligible(ranked[0]) then Some(ranked[0])
    else FirstEligible(ranked[1..])
  }

  function FirstOther(ranked: seq<Candidate>, id: nat): Option<Candidate> {
    if ranked == [] then None
    else if ranked[0].id != id then Some(ranked[0])
    else FirstOther(ranked[1..], id)
  }

  function With(outcome: Outcome, best: Candidate): Decision {
    Decision(outcome, ConfidenceFor(best.score), best.score, best.evidence)
  }

  /** decide */
  function Decide(scored: seq<Candidate>): Decision {
    var viable := Ranked(scored);
    var auto := FirstEligible(viable);
    if auto.None? then
      if viable == [] then Decision(CreatedNew, Low, 0, [])
      else if |viable| > 1 && Blocks(viable[0], viable[1]) then With(Ambiguous, viable[0])
      else With(CreatedNew, viable[0])
    else
      var best := auto.value;
      var competitor := FirstOther(viable, best.id);
      if competitor.Some? && Blocks(best, competitor.value) then With(Ambiguous, best)
      else if best.score < AutoThreshold || ConfidenceFor(best.score) == Low then With(CreatedNew, best)
      else With(Linked(best.id), best)
  }

  ghost predicate UniqueIds(scored: seq<Candidate>) {
    forall c, d :: c in scored && d in scored && c.id == d.id ==> c == d
  }

  predicate InRank(ranked: seq<Candidate>) {
    ranked == [] || (InRank(ranked[1..]) && (ranked[1..] == [] || RanksBefore(ranked[0], ranked[1])))
  }

  lemma {:induction false} InsertRank(c: Candidate, ranked: seq<Candidate>)
    requires InRank(ranked)
    ensures InRank(Insert(c, ranked)) && multiset(Insert(c, ranked)) == multiset(ranked) + multiset{c}
    ensures Insert(c, ranked)[0] == c || (ranked != [] && Insert(c, ranked)[0] == ranked[0])
  {
    if ranked != [] && !RanksBefore(c, ranked[0]) {
      InsertRank(c, ranked[1..]);
      assert ranked == [ranked[0]] + ranked[1..];
      assert ([ranked[0]] + Insert(c, ranked[1..]))[1..] == Insert(c, ranked[1..]);
    }
  }

  function Viable(scored: seq<Candidate>): seq<Candidate> {
    if scored == [] then [] else (if scored[0].blocked then [] else [scored[0]]) + Viable(scored[1..])
  }

  lemma {:induction false} RankedIs(scored: seq<Candidate>)
    ensures InRank(Ranked(scored)) && multiset(Ranked(scored)) == multiset(Viable(scored))
  {
    if scored != [] {
      RankedIs(scored[1..]);
      if !scored[0].blocked {
        InsertRank(scored[0], Ranked(scored[1..]));
      }
    }
  }

  lemma {:induction false} ViableMember(scored: seq<Candidate>, c: Candidate)
    ensures c in Viable(scored) <==> c in scored && !c.blocked
  {
    if scored != [] {
      ViableMember(scored[1..], c);
      assert scored == [scored[0]] + scored[1..];
    }
  }

  lemma RankedMember(scored: seq<Candidate>, c: Candidate)
    ensures c in Ranked(scored) <==> c in scored && !c.blocked
  {
    RankedIs(scored);
    ViableMember(scored, c);
    assert c in Ranked(scored) <==> c in multiset(Ranked(scored));
    assert c in Viable(scored) <==> c in multiset(Viable(scored));
  }

  lemma {:induction false} HeadRanks(ranked: seq<Candidate>, c: Candidate)
    requires InRank(ranked) && c in ranked
    ensures c == ranked[0] || RanksBefore(ranked[0], c)
  {
    if c != ranked[0] {
      assert ranked == [ranked[0]] + ranked[1..];
      HeadRanks(ranked[1..], c);
    }
  }

  lemma {:induction false} FirstEligibleIs(ranked: seq<Candidate>)
    requires InRank(ranked)
    ensures match FirstEligible(ranked)
      case None => forall c :: c in ranked ==> !AutoEligible(c)
      case Some(b) => b in ranked && AutoEligible(b) && forall c :: c in ranked && AutoEligible(c) ==> c == b || RanksBefore(b, c)
  {
    if ranked != [] {
      FirstEligibleIs(ranked[1..]);
      assert ranked == [ranked[0]] + ranked[1..];
      forall c | c in ranked ensures c == ranked[0] || RanksBefore(ranked[0], c) {
        HeadRanks(ranked, c);
      }
    }
  }

  lemma {:induction false} FirstOtherIs(ranked: seq<Candidate>, id: nat)
    requires InRank(ranked)
    ensures match FirstOther(ranked, id)
      case None => forall c :: c in ranked ==> c.id == id
      case Some(b) => b in ranked && b.id != id && forall c :: c in ranked && c.id != id ==> c == b || RanksBefore(b, c)
  {
    if ranked != [] {
      FirstOtherIs(ranked[1..], id);
      assert ranked == [ranked[0]] + ranked[1..];
      forall c | c in ranked ensures c == ranked[0] || RanksBefore(ranked[0], c) {
        HeadRanks(ranked, c);
      }
    }
  }

  // ---------------------------------------------------------------- what a decision means, in plain terms

  /** Known without doubt: unblocked, by a strong identifier or by a name with something to back it, with at least 50 points. */
  predicate Sure(c: Candidate) {
    !c.blocked && (c.strong || (c.named && c.corroborated)) && c.score >= 50
  }

  /** Ahead of the other on points, or level with it and no younger. */
  predicate Ahead(a: Candidate, b: Candidate) {
    b.score < a.score || (b.score == a.score && a.id <= b.id)
  }

  /** Less than 15 points behind, and either reviewable or known in the same way. */
  predicate TooClose(b: Candidate, c: Candidate) {
    b.score < c.score + 15 && (c.score >= 40 || (b.named && c.named) || (b.strong && c.strong))
  }

  /** `c` is the viable candidate other than `b` that is ahead of all such. */
  ghost predicate RunnerUp(scored: seq<Candidate>, b: Candidate, c: Candidate) {
    && c in scored && !c.blocked && c.id != b.id
    && forall d :: d in scored && !d.blocked && d.id != b.id ==> d == c || Ahead(c, d)
  }

  ghost predicate BestSure(scored: seq<Candidate>, b: Candidate) {
    b in scored && Sure(b) && forall d :: d in scored && Sure(d) ==> d == b || Ahead(b, d)
  }

  /** The viable candidate that is ahead of all others. */
  ghost predicate Best(scored: seq<Candidate>, b: Candidate) {
    b in scored && !b.blocked && forall d :: d in scored && !d.blocked ==> d == b || Ahead(b, d)
  }

  ghost predicate NoneSure(scored: seq<Candidate>) {
    forall c :: c in scored ==> !Sure(c)
  }

  /** The candidate a decision is about: the best sure one, or the best viable one if none is sure. */
  ghost predicate InQuestion(scored: seq<Candidate>, b: Candidate) {
    BestSure(scored, b) || (NoneSure(scored) && Best(scored, b))
  }

  ghost predicate Rivalled(scored: seq<Candidate>, b: Candidate) {
    exists c :: RunnerUp(scored, b, c) && TooClose(b, c)
  }

  lemma RankedFacts(scored: seq<Candidate>)
    ensures InRank(Ranked(scored))
    ensures forall c :: c in Ranked(scored) <==> c in scored && !c.blocked
  {
    RankedIs(scored);
    forall c ensures c in Ranked(scored) <==> c in scored && !c.blocked {
      RankedMember(scored, c);
    }
  }

  lemma BestFound(scored: seq<Candidate>, b: Candidate)
    requires UniqueIds(scored)
    ensures FirstEligible(Ranked(scored)) == Some(b) <==> BestSure(scored, b)
  {
    RankedFacts(scored);
    FirstEligibleIs(Ranked(scored));
  }

  lemma RunnerUpFound(scored: seq<Candidate>, b: Candidate, c: Candidate)
    requires UniqueIds(scored)
    ensures FirstOther(Ranked(scored), b.id) == Some(c) <==> RunnerUp(scored, b, c)
  {
    RankedFacts(scored);
    FirstOtherIs(Ranked(scored), b.id);
  }

  lemma HeadIsBest(scored: seq<Candidate>, b: Candidate)
    requires UniqueIds(scored)
    ensures Best(scored, b) <==> Ranked(scored) != [] && Ranked(scored)[0] == b
  {
    RankedFacts(scored);
    if Ranked(scored) != [] {
      forall d | d in Ranked(scored) ensures d == Ranked(scored)[0] || Ahead(Ranked(scored)[0], d) {
        HeadRanks(Ranked(scored), d);
      }
    }
  }

  lemma NoneSureFound(scored: seq<Candidate>)
    requires UniqueIds(scored)
    ensures NoneSure(scored) <==> FirstEligible(Ranked(scored)).None?
  {
    RankedFacts(scored);
    FirstEligibleIs(Ranked(scored));
  }

  ghost predicate Clear(scored: seq<Candidate>, b: Candidate) {
    BestSure(scored, b) && !Rivalled(scored, b)
  }

  /** A report is linked to an asset exactly when it is the best sure one and its runner-up is not too close. */
  lemma LinkedIff(scored: seq<Candidate>, id: nat)
    requires UniqueIds(scored)
    ensures Decide(scored).outcome == Linked(id) <==> exists b: Candidate :: b.id == id && Clear(scored, b)
  {
    var viable := Ranked(scored);
    var auto := FirstEligible(viable);
    forall b ensures auto == Some(b) <==> BestSure(scored, b) {
      BestFound(scored, b);
    }
    if auto.Some? {
      forall c ensures FirstOther(viable, auto.value.id) == Some(c) <==> RunnerUp(scored, auto.value, c) {
        RunnerUpFound(scored, auto.value, c);
      }
      assert Decide(scored).outcome == Linked(auto.value.id) <==> Clear(scored, auto.value);
    }
  }

  // No candidate is listed twice.
  ghost predicate OnceEach(scored: seq<Candidate>) {
    forall c :: multiset(scored)[c] <= 1
  }

  lemma FirstTwoDiffer(ranked: seq<Candidate>)
    requires |ranked| > 1 && multiset(ranked)[ranked[0]] <= 1
    ensures ranked[0] != ranked[1]
  {
    assert ranked == [ranked[0], ranked[1]] + ranked[2..];
    assert multiset(ranked) == multiset([ranked[0], ranked[1]]) + multiset(ranked[2..]);
  }

  lemma RankedOnce(scored: seq<Candidate>)
    requires UniqueIds(scored) && OnceEach(scored)
    ensures |Ranked(scored)| > 1 ==> FirstOther(Ranked(scored), Ranked(scored)[0].id) == Some(Ranked(scored)[1])
  {
    var ranked := Ranked(scored);
    if |ranked| > 1 {
      RankedIs(scored);
      ViableCount(scored, ranked[0]);
      FirstTwoDiffer(ranked);
      RankedMember(scored, ranked[0]);
      RankedMember(scored, ranked[1]);
      assert ranked[1..][0] == ranked[1];
    }
  }

  lemma RankedAlone(scored: seq<Candidate>)
    requires |Ranked(scored)| == 1
    ensures FirstOther(Ranked(scored), Ranked(scored)[0].id).None?
  {
    assert FirstOther(Ranked(scored)[1..], Ranked(scored)[0].id).None?;
  }

  lemma Rivals(scored: seq<Candidate>, b: Candidate)
    requires UniqueIds(scored)
    ensures var other := FirstOther(Ranked(scored), b.id); Rivalled(scored, b) <==> other.Some? && Blocks(b, other.value)
  {
    var other := FirstOther(Ranked(scored), b.id);
    forall c ensures other == Some(c) <==> RunnerUp(scored, b, c) {
      RunnerUpFound(scored, b, c);
    }
  }

  /**
   The whole decision: with no viable candidate a new asset; else it is about one candidate, whose
   score and evidence it carries: left open if the runner-up is too close, linked if that candidate is
   sure, and a new asset otherwise.
   */
  lemma DecisionIs(scored: seq<Candidate>)
    requires UniqueIds(scored) && OnceEach(scored)
    ensures (forall c :: c in scored ==> c.blocked) ==> Decide(scored) == Decision(CreatedNew, Low, 0, [])
    ensures (exists c :: c in scored && !c.blocked) ==> exists b :: InQuestion(scored, b)
    ensures forall b :: InQuestion(scored, b) ==>
      Decide(scored) == Decision(
        if Rivalled(scored, b) then Ambiguous else if Sure(b) then Linked(b.id) else CreatedNew,
        if b.score >= 70 then High else if b.score >= 40 then Medium else Low, b.score, b.evidence)
  {
    var viable := Ranked(scored);
    RankedFacts(scored);
    NoneSureFound(scored);
    forall b ensures InQuestion(scored, b) <==>
      FirstEligible(viable) == Some(b) || (FirstEligible(viable).None? && viable != [] && viable[0] == b)
    {
      BestFound(scored, b);
      HeadIsBest(scored, b);
    }
    if FirstEligible(viable).Some? {
      assert InQuestion(scored, FirstEligible(viable).value);
      Rivals(scored, FirstEligible(viable).value);
    } else if viable != [] {
      assert InQuestion(scored, viable[0]);
      Rivals(scored, viable[0]);
      if |viable| > 1 {
        RankedOnce(scored);
      } else {
        RankedAlone(scored);
      }
    }
  }

  /** A sole viable candidate is linked exactly if it is known by a strong identifier, or by name with corroboration, and has 50 points. */
  lemma SoleCandidate(scored: seq<Candidate>, b: Candidate)
    requires UniqueIds(scored) && b in scored && !b.blocked
    requires forall c :: c in scored && c != b ==> c.blocked
    ensures Decide(scored).outcome == Linked(b.id) <==> (b.strong || (b.named && b.corroborated)) && b.score >= 50
  {
    LinkedIff(scored, b.id);
    if Sure(b) {
      assert Clear(scored, b);
    }
  }

  /**
   A linked candidate is unblocked, scores enough, is known by a strong identifier or by name with
   corroboration, and leads: every other by at least 11, every reviewable one by the full gap.
   */
  lemma LinkedMeans(scored: seq<Candidate>, id: nat)
    requires UniqueIds(scored) && Decide(scored).outcome == Linked(id)
    ensures exists b :: b in scored && b.id == id && !b.blocked && (b.strong || (b.named && b.corroborated)) && b.score >= 50 && (forall c :: c in scored && !c.blocked && c.id != id ==>
        b.score - c.score >= 11 && (c.score >= 40 ==> b.score - c.score >= 15))
  {
    LinkedIff(scored, id);
    var b: Candidate :| b.id == id && Clear(scored, b);
    forall c | c in scored && !c.blocked && c.id != id
      ensures b.score - c.score >= 11 && (c.score >= 40 ==> b.score - c.score >= 15)
    {
      LeadsAll(scored, b, c);
    }
  }

  lemma LeadsAll(scored: seq<Candidate>, b: Candidate, c: Candidate)
    requires UniqueIds(scored) && Clear(scored, b) && c in scored && !c.blocked && c.id != b.id
    ensures b.score - c.score >= 11 && (c.score >= 40 ==> b.score - c.score >= 15)
  {
    RankedFacts(scored);
    FirstOtherIs(Ranked(scored), b.id);
    var r := FirstOther(Ranked(scored), b.id).value;
    RunnerUpFound(scored, b, r);
    assert r == c || Ahead(r, c);
  }

  /** Address, site and services alone never link a report, whatever the score. */
  lemma LocalityNeverLinks(scored: seq<Candidate>, c: Candidate, a: Asset, s: Signals, unique: bool)
    requires UniqueIds(scored) && c in scored && Scores(c, a, s, unique)
    requires !AnyStrong(a, s) && !HasHostname(a, s) && !HasFqdn(a, s)
    ensures Decide(scored).outcome != Linked(a.id)
  {
    LinkedIff(scored, a.id);
  }

  // ---------------------------------------------------------------- order independence

  lemma SameHead(a: seq<Candidate>, b: seq<Candidate>)
    requires InRank(a) && InRank(b) && multiset(a) == multiset(b) && UniqueIds(a) && a != []
    ensures b != [] && a[0] == b[0]
  {
    assert a[0] in multiset(b);
    HeadRanks(b, a[0]);
    assert b[0] in multiset(a);
    HeadRanks(a, b[0]);
  }

  lemma {:induction false} SortedUnique(a: seq<Candidate>, b: seq<Candidate>)
    requires InRank(a) && InRank(b) && multiset(a) == multiset(b) && UniqueIds(a)
    ensures a == b
  {
    if a == [] {
      assert |multiset(b)| == 0;
    } else {
      SameHead(a, b);
      assert a == [a[0]] + a[1..] && b == [b[0]] + b[1..];
      assert multiset(a[1..]) == multiset(a) - multiset{a[0]};
      assert multiset(b[1..]) == multiset(b) - multiset{b[0]};
      SortedUnique(a[1..], b[1..]);
    }
  }

  lemma {:induction false} ViableCount(scored: seq<Candidate>, c: Candidate)
    ensures multiset(Viable(scored))[c] == if c.blocked then 0 else multiset(scored)[c]
  {
    if scored != [] {
      ViableCount(scored[1..], c);
      assert scored == [scored[0]] + scored[1..];
    }
  }

  lemma SameViable(scored: seq<Candidate>, other: seq<Candidate>)
    requires multiset(scored) == multiset(other)
    ensures multiset(Viable(scored)) == multiset(Viable(other))
  {
    forall c ensures multiset(Viable(scored))[c] == multiset(Viable(other))[c] {
      ViableCount(scored, c);
      ViableCount(other, c);
    }
  }

  lemma SameRanking(scored: seq<Candidate>, other: seq<Candidate>)
    requires multiset(scored) == multiset(other) && UniqueIds(scored)
    ensures Ranked(scored) == Ranked(other)
  {
    RankedIs(scored);
    RankedIs(other);
    SameViable(scored, other);
    RankedFacts(scored);
    SortedUnique(Ranked(scored), Ranked(other));
  }

  /** The decision does not depend on the order in which the candidates were found. */
  lemma OrderIndependent(scored: seq<Candidate>, other: seq<Candidate>)
    requires multiset(scored) == multiset(other) && UniqueIds(scored)
    ensures Decide(scored) == Decide(other)
  {
    SameRanking(scored, other);
  }

  // ---------------------------------------------------------------- a competitor that goes unseen

  /**
   Only the runner-up is compared.  If some other viable candidate is too close to the best, the best is
   let through all the same exactly if the runner-up ranks before that candidate and is not too close
   itself; the one unseen then scores below review and is known only by a shared name or strong match.
   */
  lemma UnseenIff(scored: seq<Candidate>, b: Candidate, d: Candidate)
    requires UniqueIds(scored) && BestSure(scored, b)
    requires d in scored && !d.blocked && d.id != b.id && TooClose(b, d)
    ensures Clear(scored, b) <==>
      exists c :: RunnerUp(scored, b, c) && c != d && Ahead(c, d) && c.score < 40 && !(b.named && c.named) && !(b.strong && c.strong)
    ensures Clear(scored, b) ==> d.score < 40 && ((b.named && d.named) || (b.strong && d.strong))
  {
    RankedFacts(scored);
    FirstOtherIs(Ranked(scored), b.id);
    var c := FirstOther(Ranked(scored), b.id).value;
    forall r ensures RunnerUp(scored, b, r) <==> r == c {
      RunnerUpFound(scored, b, r);
    }
    assert c == d || Ahead(c, d);
    assert Rivalled(scored, b) <==> TooClose(b, c);
    if Clear(scored, b) {
      assert RunnerUp(scored, b, c) && c != d && Ahead(c, d);
    }
  }

  /** A report from the WAN with a hostname, an FQDN, a certificate name, a DNS name, an address and a service. */
  function SeenSignals(): Signals {
    Signals(None, Wan, "ip", "host", map[Fqdn := {"fqdn"}, TlsName := {"tls"}, DnsName := {"dns"}], {"service"})
  }

  /** Shares the FQDN and the address. */
  function BestAsset(id: nat): Asset {
    Asset(id, None, map[Fqdn := {"fqdn"}], [Address("ip", None)], {})
  }

  /** Shares the DNS name, the address and the service. */
  function NamelessAsset(id: nat): Asset {
    Asset(id, None, map[DnsName := {"dns"}], [Address("ip", None)], {"service"})
  }

  /** Shares the FQDN, the certificate name and the service, under another hostname. */
  function RivalAsset(id: nat): Asset {
    Asset(id, None, map[Hostname := {"other"}, Fqdn := {"fqdn"}, TlsName := {"tls"}], [], {"service"})
  }

  lemma BestScores(id: nat)
    ensures var a, s := BestAsset(id), SeenSignals();
      Score(a, s, false) == 50 && !AnyConflict(a, s) && !AnyStrong(a, s) && HasFqdn(a, s) && Corroborated(a, s)
  {
    var a, s := BestAsset(id), SeenSignals();
    assert "fqdn" in Of(s.values, Fqdn) * (Of(a.active, Fqdn) + Of(a.active, Hostname));
    assert a.addresses[0] in a.addresses && CountsAs(a.addresses[0], s);
  }

  lemma NamelessScores(id: nat)
    ensures var a, s := NamelessAsset(id), SeenSignals();
      Score(a, s, false) == 38 && !AnyConflict(a, s) && !AnyStrong(a, s) && !HasHostname(a, s) && !HasFqdn(a, s) && Corroborated(a, s)
  {
    var a, s := NamelessAsset(id), SeenSignals();
    assert "dns" in Of(s.values, DnsName) * Of(a.active, DnsName);
    assert a.addresses[0] in a.addresses && CountsAs(a.addresses[0], s);
    assert "service" in s.tokens * a.tokens;
  }

  lemma RivalScores(id: nat)
    ensures var a, s := RivalAsset(id), SeenSignals();
      Score(a, s, false) == 38 && !AnyConflict(a, s) && !AnyStrong(a, s) && HasFqdn(a, s) && Corroborated(a, s)
  {
    var a, s := RivalAsset(id), SeenSignals();
    assert "fqdn" in Of(s.values, Fqdn) * (Of(a.active, Fqdn) + Of(a.active, Hostname));
    assert "tls" in Of(s.values, TlsName) * Of(a.active, TlsName);
    assert "service" in s.tokens * a.tokens;
    assert "other" in Of(a.active, Hostname) && "host" != "other";
  }

  /**
   Only the runner-up is compared.  Of three scored assets the rival shares a name with the best and is
   within the gap, so it would block the link; but it scores the same as the nameless one, and which
   of the two has the smaller id decides whether it is looked at.
   */
  lemma UnseenCompetitor(b: Candidate, c: Candidate, d: Candidate, best: nat, second: nat, third: nat)
    requires best != second && best != third && second != third
    requires Scores(b, BestAsset(best), SeenSignals(), false)
    requires Scores(c, NamelessAsset(second), SeenSignals(), false)
    requires Scores(d, RivalAsset(third), SeenSignals(), false)
    ensures Blocks(b, d) && !Blocks(b, c)
    ensures Decide([b, c, d]).outcome == Linked(best) <==> second < third
  {
    BestScores(best);
    NamelessScores(second);
    RivalScores(third);
    ThreeRanked(b, c, d);
  }

  lemma ThreeRanked(b: Candidate, c: Candidate, d: Candidate)
    requires AutoEligible(b) && !c.blocked && !d.blocked && b.score > c.score && c.score == d.score
    requires b.id != c.id && b.id != d.id && c.id != d.id && !Blocks(b, c) && Blocks(b, d)
    ensures Decide([b, c, d]).outcome == Linked(b.id) <==> c.id < d.id
  {
    var tail := if c.id < d.id then [c, d] else [d, c];
    assert [b, c, d][1..] == [c, d] && [c, d][1..] == [d] && [d][1..] == [];
    assert Ranked([d]) == [d];
    assert Insert(c, [d]) == tail;
    assert Ranked([b, c, d]) == [b] + tail;
    assert FirstOther([b] + tail, b.id) == Some(tail[0]) by {
      assert ([b] + tail)[1..] == tail;
    }
  }
}
