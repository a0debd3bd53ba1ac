/** Resolving policy rules: for each action the most specific, then most urgent, then oldest rule wins. */
module Policy {
  import opened Options

  datatype Scope = Global | Tenant | Site | Network

  // Conditions are opaque; a context says which of them it meets.
  datatype Rule = Rule(
    id: nat, scope: Scope, tenant: Option<nat>, site: Option<nat>, network: Option<nat>, priority: int,
    enabled: bool, archived: bool, conditions: seq<string>, actions: map<string, string>)

  datatype Context = Context(tenant: Option<nat>, site: Option<nat>, network: Option<nat>, meets: set<string>)

  datatype Category = AssetHandling | AssetInactivity | FindingLifecycle | Alerting

  function Names(c: Category): set<string> {
    match c
    case AssetHandling => {"classification", "disposition"}
    case AssetInactivity => {"inactive_after_days"}
    case FindingLifecycle => {"resolution_clean_scans"}
    case Alerting => {"severity", "dashboard", "email", "webhook", "suppress_for_minutes"}
  }

  /** _scope_applies */
  predicate ScopeApplies(r: Rule, ctx: Context) {
    match r.scope
    case Global => true
    case Tenant => ctx.tenant.Some? && ctx.tenant == r.tenant
    case Site => ctx.site.Some? && ctx.site == r.site && ctx.tenant == r.tenant
    case Network => ctx.network.Some? && ctx.network == r.network && ctx.site == r.site && ctx.tenant == r.tenant
  }

  predicate Matches(r: Rule, ctx: Context) {
    !r.archived && r.enabled && ScopeApplies(r, ctx) && forall c :: c in r.conditions ==> c in ctx.meets
  }

  function Rank(s: Scope): nat {
    match s
    case Global => 1
    case Tenant => 2
    case Site => 3
    case Network => 4
  }

  /** _rule_sort_key(a) > _rule_sort_key(b) */
  predicate Above(a: Rule, b: Rule) {
    Rank(a.scope) > Rank(b.scope)
    || (Rank(a.scope) == Rank(b.scope) && (a.priority > b.priority || (a.priority == b.priority && a.id < b.id)))
  }

  predicate Offers(r: Rule, ctx: Context, action: string) {
    Matches(r, ctx) && action in r.actions
  }

  /** One rule's turn in the fold for one action. */
  function Challenge(current: Option<Rule>, r: Rule, ctx: Context, action: string): Option<Rule> {
    if Offers(r, ctx, action) && (current.None? || Above(r, current.value)) then Some(r) else current
  }

  function Winner(rules: seq<Rule>, ctx: Context, action: string): Option<Rule> {
    if rules == [] then None
    else Challenge(Winner(rules[..|rules| - 1], ctx, action), rules[|rules| - 1], ctx, action)
  }

  /** The value in effect: the winner's, else the fallback of the category. */
  function InEffect(rules: seq<Rule>, ctx: Context, fallback: map<string, string>, action: string): Option<string> {
    var w := Winner(rules, ctx, action);
    if w.Some? && action in w.value.actions then Some(w.value.actions[action])
    else if action in fallback then Some(fallback[action])
    else None
  }

  ghost predicate UniqueIds(rules: seq<Rule>) {
    forall a, b :: a in rules && b in rules && a.id == b.id ==> a == b
  }

  // ---------------------------------------------------------------- which rule wins, in plain terms

  /** A rule has a say on an action: it is in force, all its conditions are met, and its own tenant, site and network are the context's. */
  predicate HasSay(r: Rule, ctx: Context, action: string) {
    && r.enabled && !r.archived && action in r.actions && (forall c :: c in r.conditions ==> c in ctx.meets)
    && (r.scope != Global ==> r.tenant == ctx.tenant)
    && (r.scope == Tenant ==> ctx.tenant != None)
    && (r.scope == Site || r.scope == Network ==> r.site == ctx.site)
    && (r.scope == Site ==> ctx.site != None)
    && (r.scope == Network ==> r.network == ctx.network && ctx.network != None)
  }

  /** A network lies in a site, a site in a tenant, and a tenant in everything. */
  predicate Narrower(a: Scope, b: Scope) {
    (a != Global && b == Global) || ((a == Site || a == Network) && b == Tenant) || (a == Network && b == Site)
  }

  /** Narrower scope first, then higher priority, then the older rule. */
  predicate Outranks(a: Rule, b: Rule) {
    Narrower(a.scope, b.scope) || (a.scope == b.scope && (b.priority < a.priority || (b.priority == a.priority && a.id < b.id)))
  }

  lemma OffersIs(r: Rule, ctx: Context, action: string)
    ensures Offers(r, ctx, action) <==> HasSay(r, ctx, action)
  {
  }

  /** The rule with a say that outranks all others with one. */
  ghost predicate Greatest(rules: seq<Rule>, ctx: Context, action: string, w: Rule) {
    w in rules && HasSay(w, ctx, action) && forall r :: r in rules && HasSay(r, ctx, action) ==> r == w || Outranks(w, r)
  }

  /** The fold is the argmax: its winner is the rule with a say that outranks all others, and there is none only if no rule has a say. */
  lemma {:induction false} WinnerIsGreatest(rules: seq<Rule>, ctx: Context, action: string)
    requires UniqueIds(rules)
    ensures match Winner(rules, ctx, action)
      case Some(w) => Greatest(rules, ctx, action, w)
      case None => forall r :: r in rules ==> !HasSay(r, ctx, action)
  {
    if rules != [] {
      OffersIs(rules[|rules| - 1], ctx, action);
      var front, last := rules[..|rules| - 1], rules[|rules| - 1];
      assert rules == front + [last];
      WinnerIsGreatest(front, ctx, action);
    }
  }

  lemma GreatestIff(rules: seq<Rule>, ctx: Context, action: string, w: Rule)
    requires UniqueIds(rules)
    ensures Winner(rules, ctx, action) == Some(w) <==> Greatest(rules, ctx, action, w)
  {
    WinnerIsGreatest(rules, ctx, action);
  }

  /** Neither the load order nor rules that do not match have any influence. */
  lemma OnlyMatchingRulesCount(rules: seq<Rule>, other: seq<Rule>, ctx: Context, fallback: map<string, string>, action: string)
    requires UniqueIds(rules) && UniqueIds(other)
    requires forall r :: HasSay(r, ctx, action) ==> (r in rules <==> r in other)
    ensures InEffect(rules, ctx, fallback, action) == InEffect(other, ctx, fallback, action)
  {
    WinnerIsGreatest(rules, ctx, action);
    WinnerIsGreatest(other, ctx, action);
    var w := Winner(rules, ctx, action);
    if w.Some? {
      assert Greatest(other, ctx, action, w.value);
      GreatestIff(other, ctx, action, w.value);
    }
  }

  /** Which category decides an action; no action belongs to two. */
  lemma Governs(action: string)
    ensures action in Names(AssetHandling) <==> action == "classification" || action == "disposition"
    ensures action in Names(AssetInactivity) <==> action == "inactive_after_days"
    ensures action in Names(FindingLifecycle) <==> action == "resolution_clean_scans"
    ensures action in Names(Alerting) <==>
      action == "severity" || action == "dashboard" || action == "email" || action == "webhook" || action == "suppress_for_minutes"
    ensures forall c, d: Category :: action in Names(c) && action in Names(d) ==> c == d
  {
  }

  /** The value in effect is the greatest rule's, or the fallback if no rule has a say. */
  lemma InEffectIs(rules: seq<Rule>, ctx: Context, fallback: map<string, string>, action: string)
    requires UniqueIds(rules)
    ensures forall w :: Greatest(rules, ctx, action, w) ==> InEffect(rules, ctx, fallback, action) == Some(w.actions[action])
    ensures (exists w :: Greatest(rules, ctx, action, w)) <==> exists r :: r in rules && HasSay(r, ctx, action)
    ensures (forall r :: r in rules ==> !HasSay(r, ctx, action)) ==>
      InEffect(rules, ctx, fallback, action) == if action in fallback then Some(fallback[action]) else None
  {
    WinnerIsGreatest(rules, ctx, action);
    forall w | Greatest(rules, ctx, action, w) ensures InEffect(rules, ctx, fallback, action) == Some(w.actions[action]) {
      GreatestIff(rules, ctx, action, w);
    }
  }

  /** evaluate_draft: a draft, carrying id 0, takes effect exactly when no stored rule outranks it on scope and priority. */
  lemma DraftWinsTies(rules: seq<Rule>, draft: Rule, ctx: Context, fallback: map<string, string>, action: string)
    requires UniqueIds(rules) && draft.id == 0 && HasSay(draft, ctx, action)
    requires forall r :: r in rules ==> r.id > 0
    ensures Winner(rules + [draft], ctx, action) == Some(draft) <==>
      forall r :: r in rules && HasSay(r, ctx, action) ==>
        Narrower(draft.scope, r.scope) || (r.scope == draft.scope && r.priority <= draft.priority)
    ensures Winner(rules + [draft], ctx, action) != Some(draft) ==>
      InEffect(rules + [draft], ctx, fallback, action) == InEffect(rules, ctx, fallback, action)
  {
    GreatestIff(rules + [draft], ctx, action, draft);
    WinnerIsGreatest(rules + [draft], ctx, action);
    assert draft in rules + [draft];
    var w := Winner(rules + [draft], ctx, action).value;
    if w != draft {
      assert w in rules && Outranks(w, draft);
      assert Greatest(rules, ctx, action, w);
      GreatestIff(rules, ctx, action, w);
    } else {
      forall r | r in rules && HasSay(r, ctx, action)
        ensures Narrower(draft.scope, r.scope) || (r.scope == draft.scope && r.priority <= draft.priority)
      {
        assert r in rules + [draft] && Outranks(draft, r);
      }
    }
  }

  /** A rule with a say is never beaten by one of wider scope, whatever their priorities, nor within its scope by one of lower priority. */
  lemma NarrowerScopeWins(rules: seq<Rule>, ctx: Context, action: string, r: Rule)
    requires UniqueIds(rules) && r in rules && HasSay(r, ctx, action)
    ensures Winner(rules, ctx, action).Some?
    ensures var w := Winner(rules, ctx, action).value;
      && (r.scope == Network ==> w.scope == Network) && (r.scope == Site ==> w.scope == Site || w.scope == Network)
      && (r.scope == Tenant ==> w.scope != Global) && (w.scope == r.scope ==> w.priority >= r.priority)
  {
    WinnerIsGreatest(rules, ctx, action);
  }

  // ---------------------------------------------------------------- the resolver

  function Challenged(winners: map<string, Rule>, action: string): Option<Rule> {
    if action in winners then Some(winners[action]) else None
  }

  ghost predicate Leads(winners: map<string, Rule>, rules: seq<Rule>, ctx: Context) {
    forall action :: Challenged(winners, action) == Winner(rules, ctx, action)
  }

  method Consider(winners: map<string, Rule>, r: Rule, ctx: Context, ghost before: seq<Rule>) returns (next: map<string, Rule>)
    requires Leads(winners, before, ctx)
    ensures Leads(next, before + [r], ctx)
  {
    next := winners;
    assert (before + [r])[..|before|] == before;
    if !Matches(r, ctx) {
      return;
    }
    var todo := r.actions.Keys;
    while todo != {}
      invariant todo <= r.actions.Keys
      invariant forall a :: a in todo || a !in r.actions ==> Challenged(next, a) == Winner(before, ctx, a)
      invariant forall a :: a in r.actions && a !in todo ==> Challenged(next, a) == Winner(before + [r], ctx, a)
    {
      var action :| action in todo;
      if action !in next || Above(r, next[action]) {
        next := next[action := r];
      }
      todo := todo - {action};
    }
  }

  /** PolicyResolver.evaluate: each action of the category has the greatest offering rule's value, or the fallback. */
  method Evaluate(rules: seq<Rule>, ctx: Context, category: Category, fallback: map<string, string>) returns (effective: map<string, string>)
    ensures effective.Keys == set a | a in Names(category) && InEffect(rules, ctx, fallback, a).Some?
    ensures forall a :: a in effective ==> Some(effective[a]) == InEffect(rules, ctx, fallback, a)
  {
    var winners: map<string, Rule> := map[];
    assert rules[..0] == [];
    for i := 0 to |rules|
      invariant Leads(winners, rules[..i], ctx)
    {
      winners := Consider(winners, rules[i], ctx, rules[..i]);
      assert rules[..i] + [rules[i]] == rules[..i + 1];
    }
    assert rules[..|rules|] == rules;
    var todo := Names(category);
    effective := map[];
    while todo != {}
      invariant todo <= Names(category)
      invariant effective.Keys == set a | a in Names(category) && a !in todo && InEffect(rules, ctx, fallback, a).Some?
      invariant forall a :: a in effective ==> Some(effective[a]) == InEffect(rules, ctx, fallback, a)
    {
      var action :| action in todo;
      assert Challenged(winners, action) == Winner(rules, ctx, action);
      if action in winners && action in winners[action].actions {
        effective := effective[action := winners[action].actions[action]];
      } else if action in fallback {
        effective := effective[action := fallback[action]];
      }
      todo := todo - {action};
    }
  }
}
