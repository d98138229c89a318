/** The calendar of commission rules: which rule is in force for a scope at an instant, and how it changes. */
module RuleTimeline {
  import opened Results
  import opened Commission
  import opened FeeCoverage

  datatype Scope = Promotion | Technician | Category | Global

  /** Rules with the same scope and reference compete for the same instants. The global rule has no reference. */
  datatype Key = Key(scope: Scope, ref: string)

  const GLOBAL := Key(Global, "")

  datatype Rule = Rule(key: Key, terms: RuleTerms, start: int, end: Option<int>)
  {
    predicate ValidAt(t: int) {
      start <= t && (end.Some? ==> t < end.value)
    }

    predicate NonEmpty() {
      end.Some? ==> start < end.value
    }

    predicate EndsAfter(t: int) {
      end.Some? ==> t < end.value
    }
  }

  /** A rule may start at most a minute in the past. */
  const GRACE := 60

  datatype Proposal = Proposal(key: Key, terms: RuleTerms, start: int, end: Option<int>, refKnown: bool)

  /** No instant belongs to two rules of one key, and no rule is empty. */
  ghost predicate Timeline(rules: seq<Rule>) {
    && (forall i :: 0 <= i < |rules| ==> rules[i].NonEmpty())
    && (forall i, j, t :: 0 <= i < j < |rules| && rules[i].key == rules[j].key
                          ==> !(rules[i].ValidAt(t) && rules[j].ValidAt(t)))
  }

  // ---------------------------------------------------------------------------
  // Resolution
  // ---------------------------------------------------------------------------

  /** The position of the rule of `key` in force at `t`; the last one, should there be several. */
  function InForce(rules: seq<Rule>, key: Key, t: int): (r: Option<nat>)
    ensures r.Some? ==> r.value < |rules| && rules[r.value].key == key && rules[r.value].ValidAt(t)
    ensures r.None? ==> forall i :: 0 <= i < |rules| && rules[i].key == key ==> !rules[i].ValidAt(t)
  {
    if rules == [] then None
    else
      var last := |rules| - 1;
      if rules[last].key == key && rules[last].ValidAt(t) then Some(last)
      else
        var r := InForce(rules[..last], key, t);
        assert forall i :: 0 <= i < last ==> rules[..last][i] == rules[i];
        r
  }

  /** Promotion, then technician, then category, then the global rule. */
  function Resolve(rules: seq<Rule>, promotion: Option<string>, technician: Option<string>, category: string,
      t: int): Result<nat> {
    var byPromotion := if promotion.Some? then InForce(rules, Key(Promotion, promotion.value), t) else None;
    var byTechnician := if technician.Some? then InForce(rules, Key(Technician, technician.value), t) else None;
    var byCategory := InForce(rules, Key(Category, category), t);
    var global := InForce(rules, GLOBAL, t);
    if byPromotion.Some? then Ok(byPromotion.value)
    else if byTechnician.Some? then Ok(byTechnician.value)
    else if byCategory.Some? then Ok(byCategory.value)
    else if global.Some? then Ok(global.value)
    else Err(RuleMissing)
  }

  /** In a timeline the rule in force is the only one that could be. */
  lemma ResolutionUnique(rules: seq<Rule>, i: nat, t: int)
    requires Timeline(rules) && i < |rules| && rules[i].ValidAt(t)
    ensures InForce(rules, rules[i].key, t) == Some(i)
  {
    var r := InForce(rules, rules[i].key, t);
    assert r.Some?;
  }

  /** How specific a rule is: a promotion's before a technician's, then a category's, then the global one. */
  function Specificity(scope: Scope): nat {
    match scope
    case Promotion => 3
    case Technician => 2
    case Category => 1
    case Global => 0
  }

  /** The rule is in force and made for this order: its promotion, its technician, its category, or all orders. */
  predicate Applies(r: Rule, promotion: Option<string>, technician: Option<string>, category: string, t: int) {
    && r.ValidAt(t)
    && (match r.key.scope
        case Promotion => promotion == Some(r.key.ref)
        case Technician => technician == Some(r.key.ref)
        case Category => r.key.ref == category
        case Global => r.key.ref == "")
  }

  /** An order gets the most specific of the rules that apply to it, and none exactly when none applies. */
  lemma MostSpecificApplies(rules: seq<Rule>, promotion: Option<string>, technician: Option<string>, category: string,
      t: int)
    ensures var r := Resolve(rules, promotion, technician, category, t);
            && (r.Err? <==> forall j :: 0 <= j < |rules| ==> !Applies(rules[j], promotion, technician, category, t))
            && (r.Ok? ==> r.value < |rules| && Applies(rules[r.value], promotion, technician, category, t)
                          && forall j :: 0 <= j < |rules| && Applies(rules[j], promotion, technician, category, t) ==>
                               Specificity(rules[j].key.scope) <= Specificity(rules[r.value].key.scope))
  {
    forall j | 0 <= j < |rules| && Applies(rules[j], promotion, technician, category, t)
      ensures var r := Resolve(rules, promotion, technician, category, t);
              r.Ok? && Specificity(rules[j].key.scope) <= Specificity(rules[r.value].key.scope)
    {
      assert rules[j].key == Key(rules[j].key.scope, rules[j].key.ref);
      assert InForce(rules, rules[j].key, t).Some?;
    }
  }

  // ---------------------------------------------------------------------------
  // Creating and closing rules
  // ---------------------------------------------------------------------------

  /** A rule of the key that is still running, or has yet to start, when the new one starts. */
  predicate Affected(r: Rule, key: Key, start: int) {
    r.key == key && r.EndsAfter(start)
  }

  predicate WellFormed(p: Proposal) {
    && (p.end.Some? ==> p.start < p.end.value)
    && p.terms.rateBp <= 10_000
    && (p.terms.maxCents.Some? ==>
          p.terms.maxCents.value >= (if p.terms.minCents.Some? then p.terms.minCents.value else 0))
    && (p.terms.kind.Percent? ==> p.terms.fixedCents == 0)
    && (p.terms.kind.Fixed? ==> p.terms.rateBp == 0)
    && (p.key.scope.Global? <==> p.key.ref == "")
    && p.refKnown
  }

  function ClosedAt(r: Rule, key: Key, start: int): Rule {
    if Affected(r, key, start) then r.(end := Some(start)) else r
  }

  function CloseAffected(rules: seq<Rule>, key: Key, start: int): (closed: seq<Rule>)
    ensures |closed| == |rules|
    ensures forall i :: 0 <= i < |rules| ==> closed[i] == ClosedAt(rules[i], key, start)
  {
    seq(|rules|, i requires 0 <= i < |rules| => ClosedAt(rules[i], key, start))
  }

  predicate Collides(rules: seq<Rule>, key: Key, start: int) {
    exists i :: 0 <= i < |rules| && Affected(rules[i], key, start) && rules[i].start >= start
  }

  /** The rule book after an admitted proposal: running rules of the key end where the new one starts. */
  ghost function Create(rules: seq<Rule>, now: int, p: Proposal): Result<seq<Rule>> {
    if p.start < now - GRACE then Err(RuleBackdated)
    else if !WellFormed(p) then Err(RuleInvalid)
    else if !Checked(p.terms, MIN_SERVICE_CENTS, MAX_SERVICE_CENTS, DEFAULT_FEE) then Err(BelowProviderCost)
    else if Collides(rules, p.key, p.start) then Err(RuleOverlap)
    else Ok(CloseAffected(rules, p.key, p.start) + [Rule(p.key, p.terms, p.start, p.end)])
  }

  function Close(rules: seq<Rule>, id: nat, end: int): Result<seq<Rule>> {
    if id >= |rules| then Err(NotFound)
    else if rules[id].key.scope.Global? then Err(RuleGlobalRequired)
    else if end <= rules[id].start || (rules[id].end.Some? && end > rules[id].end.value) then Err(RuleInvalid)
    else Ok(rules[id := rules[id].(end := Some(end))])
  }

  class RuleBook {
    var rules: seq<Rule>

    constructor ()
      ensures rules == []
    {
      rules := [];
    }

    /** Ends every running rule of the key at `start`; stops at the first one that starts later. */
    method CloseRunning(key: Key, start: int) returns (ok: bool)
      modifies this
      ensures ok <==> !Collides(old(rules), key, start)
      ensures ok ==> rules == CloseAffected(old(rules), key, start)
    {
      ghost var before := rules;
      var i := 0;
      while i < |rules|
        invariant 0 <= i <= |rules| == |before|
        invariant forall k :: 0 <= k < i ==> rules[k] == ClosedAt(before[k], key, start)
        invariant forall k :: i <= k < |rules| ==> rules[k] == before[k]
        invariant forall k :: 0 <= k < i && Affected(before[k], key, start) ==> before[k].start < start
      {
        if Affected(rules[i], key, start) {
          if rules[i].start >= start {
            assert Affected(before[i], key, start);
            return false;
          }
          rules := rules[i := rules[i].(end := Some(start))];
        }
        i := i + 1;
      }
      return true;
    }

    /** Closes the running rules and appends the new one; a collision undoes everything. */
    method CreateRule(now: int, p: Proposal) returns (r: Result<nat>)
      modifies this
      ensures Create(old(rules), now, p).Ok? ==> r == Ok(|old(rules)|) && rules == Create(old(rules), now, p).value
      ensures Create(old(rules), now, p).Err? ==> r == Err(Create(old(rules), now, p).error) && rules == old(rules)
    {
      if p.start < now - GRACE { return Err(RuleBackdated); }
      if !WellFormed(p) { return Err(RuleInvalid); }
      var bad := UncoveredPrice(p.terms, MIN_SERVICE_CENTS, MAX_SERVICE_CENTS, DEFAULT_FEE);
      if bad.Some? { return Err(BelowProviderCost); }
      var saved := rules;
      var ok := CloseRunning(p.key, p.start);
      if !ok {
        rules := saved;
        return Err(RuleOverlap);
      }
      rules := rules + [Rule(p.key, p.terms, p.start, p.end)];
      return Ok(|saved|);
    }

    method CloseRule(id: nat, end: int) returns (r: Result<nat>)
      modifies this
      ensures Close(old(rules), id, end).Ok? ==> r == Ok(id) && rules == Close(old(rules), id, end).value
      ensures Close(old(rules), id, end).Err? ==> r == Err(Close(old(rules), id, end).error) && rules == old(rules)
    {
      if id >= |rules| { return Err(NotFound); }
      if rules[id].key.scope.Global? { return Err(RuleGlobalRequired); }
      if end <= rules[id].start || (rules[id].end.Some? && end > rules[id].end.value) { return Err(RuleInvalid); }
      rules := rules[id := rules[id].(end := Some(end))];
      return Ok(id);
    }
  }

  // ---------------------------------------------------------------------------
  // What every change keeps
  // ---------------------------------------------------------------------------

  /** The new rule overlaps nothing, so the database's exclusion constraint never rejects it. */
  lemma CreateKeepsTimeline(rules: seq<Rule>, now: int, p: Proposal)
    requires Timeline(rules)
    ensures Create(rules, now, p).Ok? ==> Timeline(Create(rules, now, p).value)
  {
    if Create(rules, now, p).Ok? {
      var after := Create(rules, now, p).value;
      forall i | 0 <= i < |rules|
        ensures after[i].NonEmpty() && after[i].key == rules[i].key
        ensures forall t :: after[i].ValidAt(t) ==> rules[i].ValidAt(t)
        ensures forall t :: after[i].key == p.key && t >= p.start ==> !after[i].ValidAt(t)
      {
        if Affected(rules[i], p.key, p.start) { assert rules[i].start < p.start; }
      }
    }
  }

  lemma CloseKeepsTimeline(rules: seq<Rule>, id: nat, end: int)
    requires Timeline(rules)
    ensures Close(rules, id, end).Ok? ==> Timeline(Close(rules, id, end).value)
  {
    if Close(rules, id, end).Ok? {
      var after := Close(rules, id, end).value;
      forall i | 0 <= i < |rules|
        ensures after[i].NonEmpty() && after[i].key == rules[i].key
        ensures forall t :: after[i].ValidAt(t) ==> rules[i].ValidAt(t)
      {
      }
    }
  }

  datatype Change = Creation(now: int, proposal: Proposal) | Closing(id: nat, end: int)

  ghost function Apply(rules: seq<Rule>, c: Change): seq<Rule> {
    var r := match c case Creation(now, p) => Create(rules, now, p) case Closing(id, end) => Close(rules, id, end);
    if r.Ok? then r.value else rules
  }

  ghost function Run(rules: seq<Rule>, changes: seq<Change>): seq<Rule>
    decreases |changes|
  {
    if changes == [] then rules else Run(Apply(rules, changes[0]), changes[1..])
  }

  lemma {:induction false} RunKeepsTimeline(rules: seq<Rule>, changes: seq<Change>)
    requires Timeline(rules)
    ensures Timeline(Run(rules, changes))
    decreases |changes|
  {
    if changes == [] {
    } else {
      match changes[0] {
        case Creation(now, p) => CreateKeepsTimeline(rules, now, p);
        case Closing(id, end) => CloseKeepsTimeline(rules, id, end);
      }
      RunKeepsTimeline(Apply(rules, changes[0]), changes[1..]);
    }
  }

  /** Where the rules of `key` that are in force at `t` agree, so does the resolution. */
  lemma {:induction false} InForceAgrees(a: seq<Rule>, b: seq<Rule>, key: Key, t: int)
    requires |a| == |b|
    requires forall i :: 0 <= i < |a| ==> (a[i].key == key && a[i].ValidAt(t) <==> b[i].key == key && b[i].ValidAt(t))
    ensures InForce(a, key, t) == InForce(b, key, t)
    decreases |a|
  {
    if a == [] {
    } else {
      InForceAgrees(a[..|a| - 1], b[..|b| - 1], key, t);
    }
  }

  /** A new rule leaves the past alone: before its start every resolution is what it was, with the same terms. */
  lemma CreateKeepsPast(rules: seq<Rule>, now: int, p: Proposal, key: Key, t: int)
    requires Create(rules, now, p).Ok? && t < p.start
    ensures var after := Create(rules, now, p).value;
            && InForce(after, key, t) == InForce(rules, key, t)
            && forall i :: 0 <= i < |rules| ==> after[i].terms == rules[i].terms
  {
    var after := Create(rules, now, p).value;
    var closed := CloseAffected(rules, p.key, p.start);
    assert after[..|after| - 1] == closed;
    InForceAgrees(closed, rules, key, t);
  }

  lemma CreateKeepsPastResolutions(rules: seq<Rule>, now: int, p: Proposal,
                                   promotion: Option<string>, technician: Option<string>, category: string, t: int)
    requires Create(rules, now, p).Ok? && t < p.start
    ensures Resolve(Create(rules, now, p).value, promotion, technician, category, t)
            == Resolve(rules, promotion, technician, category, t)
  {
    if promotion.Some? { CreateKeepsPast(rules, now, p, Key(Promotion, promotion.value), t); }
    if technician.Some? { CreateKeepsPast(rules, now, p, Key(Technician, technician.value), t); }
    CreateKeepsPast(rules, now, p, Key(Category, category), t);
    CreateKeepsPast(rules, now, p, GLOBAL, t);
  }

  /** From its start to its end the new rule, and no other of its key, is in force; afterwards none is. */
  lemma CreateTakesOver(rules: seq<Rule>, now: int, p: Proposal, t: int)
    requires Timeline(rules) && Create(rules, now, p).Ok? && t >= p.start
    ensures Create(rules, now, p).value[|rules|].terms == p.terms
    ensures InForce(Create(rules, now, p).value, p.key, t)
            == if p.end.Some? && t >= p.end.value then None else Some(|rules|)
  {
    var after := Create(rules, now, p).value;
    forall i | 0 <= i < |rules| && after[i].key == p.key ensures !after[i].ValidAt(t) {
      if Affected(rules[i], p.key, p.start) { assert rules[i].start < p.start; }
    }
  }

  /** A rule that is closed ends at that instant, no later than it would have; until then all is as it was. */
  lemma CloseEndsRule(rules: seq<Rule>, id: nat, end: int, t: int)
    requires Timeline(rules) && Close(rules, id, end).Ok?
    ensures var after := Close(rules, id, end).value;
            && id < |rules| && rules[id].start < end && (rules[id].end.Some? ==> end <= rules[id].end.value)
            && (t < end || InForce(rules, rules[id].key, t) != Some(id) ==>
                  InForce(after, rules[id].key, t) == InForce(rules, rules[id].key, t))
            && (t >= end && InForce(rules, rules[id].key, t) == Some(id) ==> InForce(after, rules[id].key, t).None?)
  {
    var after, key := Close(rules, id, end).value, rules[id].key;
    var r := InForce(rules, key, t);
    if t < end || r != Some(id) {
      if rules[id].ValidAt(t) { ResolutionUnique(rules, id, t); }
      InForceAgrees(after, rules, key, t);
    } else {
      forall i | 0 <= i < |rules| && after[i].key == key ensures !after[i].ValidAt(t) {
        if i != id && rules[i].ValidAt(t) { ResolutionUnique(rules, i, t); }
      }
    }
  }

  /** A change that is made at `since` or later, and dated no more than the grace before it. */
  predicate MadeSince(c: Change, since: int) {
    match c
    case Creation(now, _) => now >= since
    case Closing(_, end) => end >= since - GRACE
  }

  /**
   What was resolved more than a minute before some changes began is resolved the same after all of them: a creation
   is refused when it is dated earlier. A closing is not, and has to be dated later for this to hold.
   */
  lemma {:induction false} RunKeepsPast(rules: seq<Rule>, changes: seq<Change>, since: int,
      promotion: Option<string>, technician: Option<string>, category: string, t: int)
    requires Timeline(rules) && t < since - GRACE && forall c :: c in changes ==> MadeSince(c, since)
    ensures Resolve(Run(rules, changes), promotion, technician, category, t)
            == Resolve(rules, promotion, technician, category, t)
    decreases |changes|
  {
    hide Create, Close, Timeline, Resolve;
    if changes == [] {
    } else {
      var c := changes[0];
      assert c in changes;
      match c {
        case Creation(now, p) =>
          CreateKeepsTimeline(rules, now, p);
          NeverBackdated(rules, now, p);
          if Create(rules, now, p).Ok? {
            CreateKeepsPastResolutions(rules, now, p, promotion, technician, category, t);
          }
        case Closing(id, end) =>
          CloseKeepsTimeline(rules, id, end);
          if Close(rules, id, end).Ok? {
            CloseKeepsPastResolutions(rules, id, end, promotion, technician, category, t);
          }
      }
      RunKeepsPast(Apply(rules, c), changes[1..], since, promotion, technician, category, t);
    }
  }

  lemma NeverBackdated(rules: seq<Rule>, now: int, p: Proposal)
    ensures Create(rules, now, p).Ok? ==> p.start >= now - GRACE
  {
  }

  lemma CloseKeepsPastResolutions(rules: seq<Rule>, id: nat, end: int,
                                  promotion: Option<string>, technician: Option<string>, category: string, t: int)
    requires Close(rules, id, end).Ok? && t < end
    ensures Resolve(Close(rules, id, end).value, promotion, technician, category, t)
            == Resolve(rules, promotion, technician, category, t)
  {
    var after := Close(rules, id, end).value;
    if promotion.Some? { InForceAgrees(after, rules, Key(Promotion, promotion.value), t); }
    if technician.Some? { InForceAgrees(after, rules, Key(Technician, technician.value), t); }
    InForceAgrees(after, rules, Key(Category, category), t);
    InForceAgrees(after, rules, GLOBAL, t);
  }

  /** A closing that is dated in the past does change it: an order of that category had this rule, and now has none. */
  lemma ClosingRewritesPast(terms: RuleTerms)
    ensures var rules := [Rule(Key(Category, "c"), terms, 0, None)];
            && Timeline(rules) && Close(rules, 0, 10).Ok?
            && Resolve(rules, None, None, "c", 50) == Ok(0)
            && Resolve(Close(rules, 0, 10).value, None, None, "c", 50).Err?
  {
    var rules := [Rule(Key(Category, "c"), terms, 0, None)];
    var after := Close(rules, 0, 10).value;
    assert rules[..0] == [] && after[..0] == [];
  }

  /** What every rule in the book satisfies: its type's own fields, a rate within 100 %, and the fee check. */
  ghost predicate Sensible(terms: RuleTerms) {
    && terms.rateBp <= 10_000
    && (terms.minCents.Some? && terms.maxCents.Some? ==> terms.minCents.value <= terms.maxCents.value)
    && (terms.kind.Percent? ==> terms.fixedCents == 0) && (terms.kind.Fixed? ==> terms.rateBp == 0)
    && FeeCoverage.Checked(terms, MIN_SERVICE_CENTS, MAX_SERVICE_CENTS, DEFAULT_FEE)
  }

  /** On every run each rule that may ever be resolved is sensible, and the terms of a rule never change. */
  lemma {:induction false} RunKeepsSensible(rules: seq<Rule>, changes: seq<Change>)
    requires forall i :: 0 <= i < |rules| ==> Sensible(rules[i].terms)
    ensures var after := Run(rules, changes);
            && |rules| <= |after|
            && (forall i :: 0 <= i < |after| ==> Sensible(after[i].terms))
            && forall i :: 0 <= i < |rules| ==> after[i].key == rules[i].key && after[i].terms == rules[i].terms
                                                && after[i].start == rules[i].start
    decreases |changes|
  {
    hide FeeCoverage.Checked;
    if changes == [] {
    } else {
      RunKeepsSensible(Apply(rules, changes[0]), changes[1..]);
    }
  }

  // ---------------------------------------------------------------------------
  // Is there always a rule?
  // ---------------------------------------------------------------------------

  ghost predicate GloballyCovered(rules: seq<Rule>, since: int) {
    forall t :: t >= since ==> InForce(rules, GLOBAL, t).Some?
  }

  lemma CoveredResolves(rules: seq<Rule>, since: int, promotion: Option<string>, technician: Option<string>,
      category: string, t: int)
    requires GloballyCovered(rules, since) && t >= since
    ensures Resolve(rules, promotion, technician, category, t).Ok?
  {
    assert InForce(rules, GLOBAL, t).Some?;
  }

  /**
   The platform counts on a global rule at every instant, and refuses to close one. Creating a global rule
   with an end date still opens a gap: coverage survives a creation exactly when the new global rule is open-ended.
   */
  lemma CoverageSurvivesCreation(rules: seq<Rule>, since: int, now: int, p: Proposal)
    requires Timeline(rules) && GloballyCovered(rules, since) && Create(rules, now, p).Ok?
    ensures GloballyCovered(Create(rules, now, p).value, since) <==> (p.key == GLOBAL ==> p.end.None?)
  {
    var after := Create(rules, now, p).value;
    if p.key == GLOBAL && p.end.Some? {
      var t := if p.end.value >= since then p.end.value else since;
      CreateTakesOver(rules, now, p, t);
      assert InForce(after, GLOBAL, t).None?;
    } else {
      forall t | t >= since ensures InForce(after, GLOBAL, t).Some? {
        if p.key == GLOBAL && t >= p.start {
          CreateTakesOver(rules, now, p, t);
        } else if p.key == GLOBAL {
          CreateKeepsPast(rules, now, p, GLOBAL, t);
        } else {
          OtherKeysKept(rules, now, p, GLOBAL, t);
        }
      }
    }
  }

  lemma OtherKeysKept(rules: seq<Rule>, now: int, p: Proposal, key: Key, t: int)
    requires Create(rules, now, p).Ok? && key != p.key
    ensures InForce(Create(rules, now, p).value, key, t) == InForce(rules, key, t)
  {
    var after := Create(rules, now, p).value;
    var closed := CloseAffected(rules, p.key, p.start);
    assert after[..|after| - 1] == closed;
    InForceAgrees(closed, rules, key, t);
  }

  lemma CloseKeepsGlobal(rules: seq<Rule>, id: nat, end: int, t: int)
    requires Close(rules, id, end).Ok?
    ensures InForce(Close(rules, id, end).value, GLOBAL, t) == InForce(rules, GLOBAL, t)
  {
    InForceAgrees(Close(rules, id, end).value, rules, GLOBAL, t);
  }

  /** No change puts an end to a global rule when it is made. */
  predicate Lasting(changes: seq<Change>) {
    forall c :: c in changes && c.Creation? && c.proposal.key == GLOBAL ==> c.proposal.end.None?
  }

  lemma {:induction false} RunStaysCovered(rules: seq<Rule>, since: int, changes: seq<Change>)
    requires Timeline(rules) && GloballyCovered(rules, since) && Lasting(changes)
    ensures GloballyCovered(Run(rules, changes), since)
    decreases |changes|
  {
    hide Create, Close, Timeline, InForce;
    if changes == [] {
    } else {
      var c := changes[0];
      assert c in changes;
      match c {
        case Creation(now, p) =>
          CreateKeepsTimeline(rules, now, p);
          if Create(rules, now, p).Ok? { CoverageSurvivesCreation(rules, since, now, p); }
        case Closing(id, end) =>
          CloseKeepsTimeline(rules, id, end);
          if Close(rules, id, end).Ok? {
            forall t | t >= since ensures InForce(Close(rules, id, end).value, GLOBAL, t).Some? {
              CloseKeepsGlobal(rules, id, end, t);
            }
          }
      }
      RunStaysCovered(Apply(rules, c), since, changes[1..]);
    }
  }

  /**
   Whatever rules are created and closed, in whatever order, an order of any category, technician and
   promotion finds its rule at every instant, as long as new global rules are made without an end.
   */
  lemma RunStaysResolvable(rules: seq<Rule>, since: int, changes: seq<Change>,
                           promotion: Option<string>, technician: Option<string>, category: string, t: int)
    requires Timeline(rules) && GloballyCovered(rules, since) && Lasting(changes) && t >= since
    ensures Resolve(Run(rules, changes), promotion, technician, category, t).Ok?
  {
    RunStaysCovered(rules, since, changes);
    CoveredResolves(Run(rules, changes), since, promotion, technician, category, t);
  }
}
