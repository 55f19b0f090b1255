/** Rules, decisions, and the edits of an allowlist (allowlist.ts). */
module AllowlistRules {
  import opened Options

  datatype Mode = Allow | Deny

  datatype Rule = Rule(mode: Mode, phase: Option<string>, sideEffects: Option<seq<string>>, argsHash: Option<string>)

  datatype ToolEntry = ToolEntry(mode: Option<Mode>, phases: Option<map<string, Mode>>, rules: Option<seq<Rule>>)

  /** The tools of an allowlist file. */
  type Tools = map<string, ToolEntry>

  datatype Context = Context(toolName: string, phase: string, sideEffects: Option<seq<string>>,
                             argsHash: Option<string>)

  datatype EffectMatch = Any | All

  /** Configured side effect matching; the defaults are any for deny and all for allow. */
  datatype Matching = Matching(deny: EffectMatch, allow: EffectMatch)

  function NonEmpty(s: Option<seq<string>>): seq<string> {
    if s.Some? then s.value else []
  }

  /** rule.sideEffects.some(...): stops at the first effect that is present. */
  predicate SomeIncluded(effects: seq<string>, present: seq<string>) {
    effects != [] && (effects[0] in present || SomeIncluded(effects[1..], present))
  }

  /** The loop over all effects: stops at the first one that is absent. */
  predicate AllIncluded(effects: seq<string>, present: seq<string>) {
    effects == [] || (effects[0] in present && AllIncluded(effects[1..], present))
  }

  predicate RuleMatches(rule: Rule, ctx: Context, how: EffectMatch) {
    var wanted, present := NonEmpty(rule.sideEffects), NonEmpty(ctx.sideEffects);
    if Truthy(rule.phase) && rule.phase.value != ctx.phase then false
    else if wanted != [] && present == [] then false
    else if wanted != [] && how == Any && !SomeIncluded(wanted, present) then false
    else if wanted != [] && how == All && !AllIncluded(wanted, present) then false
    else if Truthy(rule.argsHash) && rule.argsHash != ctx.argsHash then false
    else true
  }

  function RulesOf(entry: ToolEntry): seq<Rule> {
    if entry.rules.Some? then entry.rules.value else []
  }

  /** One pass over the rules in list order: stops at the first rule of a mode that matches. */
  predicate Scan(rules: seq<Rule>, mode: Mode, ctx: Context, how: EffectMatch) {
    if rules == [] then false
    else if RuleMatches(rules[0], ctx, how) && rules[0].mode == mode then true
    else Scan(rules[1..], mode, ctx, how)
  }

  /** The two passes: the first match for deny answers, then the first match for allow. */
  function MatchRules(rules: seq<Rule>, ctx: Context, cfg: Matching): Option<Mode> {
    if Scan(rules, Deny, ctx, cfg.deny) then Some(Deny)
    else if Scan(rules, Allow, ctx, cfg.allow) then Some(Allow)
    else None
  }

  function MatchEntry(entry: ToolEntry, ctx: Context, cfg: Matching): Option<Mode> {
    var byRule := MatchRules(RulesOf(entry), ctx, cfg);
    if byRule.Some? then byRule
    else if entry.phases.Some? && ctx.phase in entry.phases.value then Some(entry.phases.value[ctx.phase])
    else entry.mode
  }

  function IsAllowed(tools: Tools, ctx: Context, cfg: Matching): Option<Mode> {
    if ctx.toolName in tools then MatchEntry(tools[ctx.toolName], ctx, cfg) else None
  }

  /** loadAllowlistDecision on loaded files; `None` stands for a scope that is not configured. */
  function Decide(user: Option<Tools>, repo: Option<Tools>, ctx: Context, cfg: Matching): Option<Mode> {
    var userDecision := if user.Some? then IsAllowed(user.value, ctx, cfg) else None;
    var repoDecision := if repo.Some? then IsAllowed(repo.value, ctx, cfg) else None;
    if userDecision == Some(Deny) then Some(Deny)
    else if repoDecision == Some(Deny) then Some(Deny)
    else if userDecision == Some(Allow) then Some(Allow)
    else if repoDecision == Some(Allow) then Some(Allow)
    else None
  }

  // ---------------------------------------------------------------- edits

  function RuleFor(mode: Mode, ctx: Context): Rule {
    Rule(mode, Some(ctx.phase), if NonEmpty(ctx.sideEffects) == [] then None else ctx.sideEffects, ctx.argsHash)
  }

  const NEW_ENTRY := ToolEntry(None, Some(map[]), Some([]))

  function Persist(tools: Tools, mode: Mode, ctx: Context): Tools {
    var entry := if ctx.toolName in tools then tools[ctx.toolName] else NEW_ENTRY;
    tools[ctx.toolName := entry.(rules := Some(RulesOf(entry) + [RuleFor(mode, ctx)]))]
  }

  /** What a removal names; empty strings and lists select nothing. */
  datatype Selector = Selector(phase: Option<string>, argsHash: Option<string>, sideEffects: Option<seq<string>>)

  predicate SelectsAll(sel: Selector) {
    !Truthy(sel.phase) && !Truthy(sel.argsHash) && NonEmpty(sel.sideEffects) == []
  }

  /** A rule survives unless it carries every selector that is given. */
  predicate Survives(rule: Rule, sel: Selector) {
    || (Truthy(sel.phase) && rule.phase != sel.phase)
    || (Truthy(sel.argsHash) && rule.argsHash != sel.argsHash)
    || exists e :: e in NonEmpty(sel.sideEffects) && e !in NonEmpty(rule.sideEffects)
  }

  function Surviving(rules: seq<Rule>, sel: Selector): seq<Rule> {
    if rules == [] then []
    else
      var last := rules[|rules| - 1];
      Surviving(rules[..|rules| - 1], sel) + if Survives(last, sel) then [last] else []
  }

  predicate Bare(entry: ToolEntry) {
    entry.mode.None? && (entry.phases.None? || entry.phases.value == map[])
  }

  function Remove(tools: Tools, toolName: string, sel: Selector): Tools {
    if toolName !in tools then tools
    else if SelectsAll(sel) then tools - {toolName}
    else
      var entry := tools[toolName];
      var rules := Surviving(RulesOf(entry), sel);
      if rules == [] && Bare(entry) then tools - {toolName}
      else tools[toolName := entry.(rules := Some(rules))]
  }

  /** The allowlist object read, edited in memory and written back by persist and remove. */
  class AllowlistDocument {
    var tools: Tools

    constructor (tools: Tools)
      ensures this.tools == tools
    {
      this.tools := tools;
    }

    method PersistRule(mode: Mode, ctx: Context)
      modifies this
      ensures tools == Persist(old(tools), mode, ctx)
    {
      var entry := if ctx.toolName in tools then tools[ctx.toolName] else NEW_ENTRY;
      var rules := if entry.rules.Some? then entry.rules.value else [];
      rules := rules + [RuleFor(mode, ctx)];
      tools := tools[ctx.toolName := entry.(rules := Some(rules))];
    }

    /** Answers whether the tool had an entry. */
    method RemoveRules(toolName: string, sel: Selector) returns (found: bool)
      modifies this
      ensures found == (toolName in old(tools)) && tools == Remove(old(tools), toolName, sel)
    {
      if toolName !in tools {
        return false;
      }
      found := true;
      var entry := tools[toolName];
      if SelectsAll(sel) {
        tools := tools - {toolName};
      } else {
        var all := RulesOf(entry);
        var rules := [];
        for k := 0 to |all|
          invariant rules == Surviving(all[..k], sel)
        {
          assert all[..k + 1][..k] == all[..k];
          if Survives(all[k], sel) {
            rules := rules + [all[k]];
          }
        }
        assert all[..|all|] == all;
        if |rules| == 0 && Bare(entry) {
          tools := tools - {toolName};
        } else {
          tools := tools[toolName := entry.(rules := Some(rules))];
        }
      }
    }
  }

  // ---------------------------------------------------------------- decision laws

  predicate Denies(rules: seq<Rule>, ctx: Context, cfg: Matching) {
    exists r :: r in rules && r.mode == Deny && RuleMatches(r, ctx, cfg.deny)
  }

  predicate Allows(rules: seq<Rule>, ctx: Context, cfg: Matching) {
    exists r :: r in rules && r.mode == Allow && RuleMatches(r, ctx, cfg.allow)
  }

  /** A pass finds a rule of the mode exactly if some rule of that mode matches. */
  lemma {:induction false} ScanFinds(rules: seq<Rule>, mode: Mode, ctx: Context, how: EffectMatch)
    ensures Scan(rules, mode, ctx, how) <==> exists r :: r in rules && r.mode == mode && RuleMatches(r, ctx, how)
  {
    if rules == [] {
    } else {
      ScanFinds(rules[1..], mode, ctx, how);
      assert rules == [rules[0]] + rules[1..];
      if Scan(rules, mode, ctx, how) && !(RuleMatches(rules[0], ctx, how) && rules[0].mode == mode) {
        var r :| r in rules[1..] && r.mode == mode && RuleMatches(r, ctx, how);
        assert r in rules;
      }
    }
  }

  /** The ordered passes with early return amount to: deny if any deny rule matches, else allow if any does. */
  lemma MatchRulesMeaning(rules: seq<Rule>, ctx: Context, cfg: Matching)
    ensures MatchRules(rules, ctx, cfg)
            == if Denies(rules, ctx, cfg) then Some(Deny) else if Allows(rules, ctx, cfg) then Some(Allow) else None
  {
    ScanFinds(rules, Deny, ctx, cfg.deny);
    ScanFinds(rules, Allow, ctx, cfg.allow);
  }

  /** Only which rules there are matters, not their order or multiplicity. */
  lemma DecisionIgnoresRuleOrder(entry: ToolEntry, p: seq<Rule>, q: seq<Rule>, ctx: Context, cfg: Matching)
    requires forall r :: r in p <==> r in q
    ensures MatchEntry(entry.(rules := Some(p)), ctx, cfg) == MatchEntry(entry.(rules := Some(q)), ctx, cfg)
  {
    MatchRulesMeaning(p, ctx, cfg);
    MatchRulesMeaning(q, ctx, cfg);
  }

  /** In particular no permutation of the rules changes a decision. */
  lemma DecisionIgnoresPermutation(tools: Tools, tool: string, q: seq<Rule>, ctx: Context, cfg: Matching)
    requires tool in tools && tools[tool].rules.Some? && multiset(q) == multiset(tools[tool].rules.value)
    ensures IsAllowed(tools[tool := tools[tool].(rules := Some(q))], ctx, cfg) == IsAllowed(tools, ctx, cfg)
  {
    var p := tools[tool].rules.value;
    forall r ensures r in p <==> r in q {
      assert r in p <==> r in multiset(p);
      assert r in q <==> r in multiset(q);
    }
    DecisionIgnoresRuleOrder(tools[tool], p, q, ctx, cfg);
    assert tools[tool].(rules := Some(p)) == tools[tool];
  }

  lemma {:induction false} IncludedMeaning(effects: seq<string>, present: seq<string>)
    ensures SomeIncluded(effects, present) <==> exists e :: e in effects && e in present
    ensures AllIncluded(effects, present) <==> forall e | e in effects :: e in present
  {
    if effects == [] {
    } else {
      IncludedMeaning(effects[1..], present);
      assert effects == [effects[0]] + effects[1..];
      if e :| e in effects[1..] && e in present {
        assert e in effects;
      }
    }
  }

  /** Neither does the order or multiplicity of a rule's side effects. */
  lemma MatchIgnoresEffectOrder(rule: Rule, wanted: seq<string>, ctx: Context, how: EffectMatch)
    requires forall e :: e in wanted <==> e in NonEmpty(rule.sideEffects)
    ensures RuleMatches(rule.(sideEffects := Some(wanted)), ctx, how) == RuleMatches(rule, ctx, how)
  {
    var given := NonEmpty(rule.sideEffects);
    assert (wanted == [] ==> given == []) && (given == [] ==> wanted == []) by {
      if wanted != [] {
        assert wanted[0] in given;
      }
      if given != [] {
        assert given[0] in wanted;
      }
    }
    IncludedMeaning(wanted, NonEmpty(ctx.sideEffects));
    IncludedMeaning(given, NonEmpty(ctx.sideEffects));
  }

  /** A persisted rule matches the context it was made from, however side effects are matched. */
  lemma RuleMatchesItsContext(mode: Mode, ctx: Context, how: EffectMatch)
    ensures RuleMatches(RuleFor(mode, ctx), ctx, how)
  {
    var effects := NonEmpty(ctx.sideEffects);
    IncludedMeaning(effects, effects);
    if effects != [] {
      assert effects[0] in effects;
    }
  }

  /** After persisting deny, the same question is answered deny in that scope. */
  lemma PersistDenyDenies(tools: Tools, ctx: Context, cfg: Matching)
    ensures IsAllowed(Persist(tools, Deny, ctx), ctx, cfg) == Some(Deny)
  {
    RuleMatchesItsContext(Deny, ctx, cfg.deny);
    var after := RulesOf(Persist(tools, Deny, ctx)[ctx.toolName]);
    assert RuleFor(Deny, ctx) in after;
    MatchRulesMeaning(after, ctx, cfg);
  }

  /** After persisting allow, the scope answers allow, unless a deny rule that was there matches. */
  lemma PersistAllowAllows(tools: Tools, ctx: Context, cfg: Matching)
    ensures var denied := ctx.toolName in tools && Denies(RulesOf(tools[ctx.toolName]), ctx, cfg);
            IsAllowed(Persist(tools, Allow, ctx), ctx, cfg) == Some(if denied then Deny else Allow)
  {
    RuleMatchesItsContext(Allow, ctx, cfg.allow);
    var after := RulesOf(Persist(tools, Allow, ctx)[ctx.toolName]);
    assert RuleFor(Allow, ctx) in after;
    MatchRulesMeaning(after, ctx, cfg);
    if ctx.toolName in tools {
      var before := RulesOf(tools[ctx.toolName]);
      assert forall r :: r in before ==> r in after;
      assert forall r :: r in after && r.mode == Deny ==> r in before;
    }
  }

  /**
   Whole decisions. Denying in either scope denies. Allowing in one scope allows if and only if no
   matching deny rule was in that scope's entry and the other scope does not deny; otherwise the
   decision is deny.
   */
  lemma PersistDecides(user: Option<Tools>, repo: Option<Tools>, ctx: Context, cfg: Matching)
    ensures user.Some? ==> Decide(Some(Persist(user.value, Deny, ctx)), repo, ctx, cfg) == Some(Deny)
    ensures repo.Some? ==> Decide(user, Some(Persist(repo.value, Deny, ctx)), ctx, cfg) == Some(Deny)
    ensures user.Some? ==>
              var denied := ctx.toolName in user.value && Denies(RulesOf(user.value[ctx.toolName]), ctx, cfg);
              var other := repo.Some? && IsAllowed(repo.value, ctx, cfg) == Some(Deny);
              Decide(Some(Persist(user.value, Allow, ctx)), repo, ctx, cfg)
              == Some(if denied || other then Deny else Allow)
    ensures repo.Some? ==>
              var denied := ctx.toolName in repo.value && Denies(RulesOf(repo.value[ctx.toolName]), ctx, cfg);
              var other := user.Some? && IsAllowed(user.value, ctx, cfg) == Some(Deny);
              Decide(user, Some(Persist(repo.value, Allow, ctx)), ctx, cfg)
              == Some(if denied || other then Deny else Allow)
  {
    if user.Some? {
      PersistDenyDenies(user.value, ctx, cfg);
      PersistAllowAllows(user.value, ctx, cfg);
    }
    if repo.Some? {
      PersistDenyDenies(repo.value, ctx, cfg);
      PersistAllowAllows(repo.value, ctx, cfg);
    }
  }

  // ---------------------------------------------------------------- what a persisted rule is about

  /**
   The question is not the one a rule was persisted for: of another tool, another phase, other
   arguments, or without the side effects that count - some of them for `Any`, all for `All`. What
   the persisted context left empty does not count.
   */
  predicate Foreign(ctx: Context, question: Context, how: EffectMatch) {
    var wanted := match ctx.sideEffects case Some(effects) => effects case None => [];
    var present := match question.sideEffects case Some(effects) => effects case None => [];
    || question.toolName != ctx.toolName
    || (ctx.phase != "" && question.phase != ctx.phase)
    || (Truthy(ctx.argsHash) && question.argsHash != ctx.argsHash)
    || (wanted != [] && match how
                        case Any => forall e | e in wanted :: e !in present
                        case All => exists e :: e in wanted && e !in present)
  }

  /** A persisted rule matches a question of its tool exactly if the question is not foreign. */
  lemma PersistedMatches(mode: Mode, ctx: Context, question: Context, how: EffectMatch)
    requires question.toolName == ctx.toolName
    ensures RuleMatches(RuleFor(mode, ctx), question, how) <==> !Foreign(ctx, question, how)
  {
    var wanted, present := NonEmpty(ctx.sideEffects), NonEmpty(question.sideEffects);
    IncludedMeaning(wanted, present);
    if wanted != [] {
      assert wanted[0] in wanted;
    }
  }

  /** One more rule at the end, and no other change, as far as the passes go. */
  lemma OneMoreRule(rules: seq<Rule>, rule: Rule, question: Context, cfg: Matching)
    ensures Denies(rules + [rule], question, cfg)
            <==> Denies(rules, question, cfg) || (rule.mode == Deny && RuleMatches(rule, question, cfg.deny))
    ensures Allows(rules + [rule], question, cfg)
            <==> Allows(rules, question, cfg) || (rule.mode == Allow && RuleMatches(rule, question, cfg.allow))
  {
    var all := rules + [rule];
    assert forall r :: r in all <==> r in rules || r == rule;
  }

  /**
   Persisting decides exactly the questions it is about: foreign ones are answered as before, and the
   others by the new rule, where a deny rule that was there still overrides an allow.
   */
  lemma PersistDecidesExactly(tools: Tools, mode: Mode, ctx: Context, question: Context, cfg: Matching)
    ensures var t := question.toolName;
      var denied := t in tools && Denies(RulesOf(tools[t]), question, cfg);
      IsAllowed(Persist(tools, mode, ctx), question, cfg)
      == if Foreign(ctx, question, if mode == Deny then cfg.deny else cfg.allow) then IsAllowed(tools, question, cfg)
         else Some(if mode == Deny || denied then Deny else Allow)
  {
    if question.toolName == ctx.toolName {
      var entry := if ctx.toolName in tools then tools[ctx.toolName] else NEW_ENTRY;
      var rule := RuleFor(mode, ctx);
      PersistedMatches(mode, ctx, question, if mode == Deny then cfg.deny else cfg.allow);
      OneMoreRule(RulesOf(entry), rule, question, cfg);
      MatchRulesMeaning(RulesOf(entry), question, cfg);
      MatchRulesMeaning(RulesOf(entry) + [rule], question, cfg);
    }
  }

  /** Where no rule matches, the entry's own mode for the phase decides, and without one its general mode. */
  lemma EntryDecides(tools: Tools, question: Context, cfg: Matching)
    requires question.toolName in tools
    requires var rules := RulesOf(tools[question.toolName]);
      !Denies(rules, question, cfg) && !Allows(rules, question, cfg)
    ensures var entry := tools[question.toolName];
      if entry.phases.Some? && question.phase in entry.phases.value
      then IsAllowed(tools, question, cfg) == Some(entry.phases.value[question.phase])
      else IsAllowed(tools, question, cfg) == entry.mode
  {
    MatchRulesMeaning(RulesOf(tools[question.toolName]), question, cfg);
  }

  /** Deny in either scope wins; then allow in either scope; the scopes are alike. */
  lemma DecideMeaning(user: Option<Tools>, repo: Option<Tools>, ctx: Context, cfg: Matching)
    ensures var says := (m: Mode) => (user.Some? && IsAllowed(user.value, ctx, cfg) == Some(m))
                                     || (repo.Some? && IsAllowed(repo.value, ctx, cfg) == Some(m));
      && (Decide(user, repo, ctx, cfg) == Some(Deny) <==> says(Deny))
      && (Decide(user, repo, ctx, cfg) == Some(Allow) <==> says(Allow) && !says(Deny))
    ensures Decide(user, repo, ctx, cfg) == Decide(repo, user, ctx, cfg)
  {
  }

  // ---------------------------------------------------------------- persist, then remove

  function SelectorFor(ctx: Context): Selector {
    Selector(Some(ctx.phase), ctx.argsHash, ctx.sideEffects)
  }

  lemma {:induction false} SurvivingAll(rules: seq<Rule>, sel: Selector)
    ensures |Surviving(rules, sel)| <= |rules|
    ensures Surviving(rules, sel) == rules <==> forall r | r in rules :: Survives(r, sel)
  {
    if rules == [] {
    } else {
      var front, last := rules[..|rules| - 1], rules[|rules| - 1];
      SurvivingAll(front, sel);
      assert rules == front + [last];
    }
  }

  /** What is left after persisting a rule and removing it with the same selectors. */
  lemma {:induction false} PersistThenRemove(tools: Tools, mode: Mode, ctx: Context)
    ensures var t, sel := ctx.toolName, SelectorFor(ctx);
            var entry := if t in tools then tools[t] else NEW_ENTRY;
            var kept := Surviving(RulesOf(entry), sel);
            Remove(Persist(tools, mode, ctx), t, sel)
            == if SelectsAll(sel) || (kept == [] && Bare(entry)) then tools - {t}
               else tools[t := entry.(rules := Some(kept))]
  {
    var t, sel := ctx.toolName, SelectorFor(ctx);
    var entry := if t in tools then tools[t] else NEW_ENTRY;
    var after := Persist(tools, mode, ctx);
    assert RulesOf(after[t]) == RulesOf(entry) + [RuleFor(mode, ctx)];
    assert Surviving(RulesOf(after[t]), sel) == Surviving(RulesOf(entry), sel);
    assert after - {t} == tools - {t};
  }

  lemma SameUpdate(tools: Tools, t: string, entry: ToolEntry)
    requires t in tools
    ensures tools[t := entry] == tools <==> entry == tools[t]
    ensures tools - {t} != tools
  {
    assert tools[t := entry][t] == entry;
    assert t !in tools - {t};
    if entry == tools[t] {
      assert tools[t := entry] == tools;
    }
  }

  /**
   Persisting a rule and removing it with the same selectors restores the file if and only if the
   tool had no entry, or the selectors name something, the entry had a rule list, none of its rules
   is selected too, and the entry is not an empty one that removal cleans up.
   */
  lemma PersistRemoveRestores(tools: Tools, mode: Mode, ctx: Context)
    ensures var sel := SelectorFor(ctx);
      Remove(Persist(tools, mode, ctx), ctx.toolName, sel) == tools
      <==> || ctx.toolName !in tools
           || var entry := tools[ctx.toolName];
              && !SelectsAll(sel) && entry.rules.Some?
              && (forall r | r in entry.rules.value :: Survives(r, sel))
              && !(entry.rules.value == [] && Bare(entry))
  {
    var sel, t := SelectorFor(ctx), ctx.toolName;
    PersistThenRemove(tools, mode, ctx);
    if t !in tools {
      assert tools - {t} == tools;
    } else {
      var before := RulesOf(tools[t]);
      SurvivingAll(before, sel);
      SameUpdate(tools, t, tools[t].(rules := Some(Surviving(before, sel))));
    }
  }

  /** An entry without a rule list comes back with an empty one. */
  lemma PersistRemoveCanChange(mode: Mode)
    ensures var tools: Tools := map["tool" := ToolEntry(Some(Allow), None, None)];
            var ctx := Context("tool", "plan", None, None);
            Remove(Persist(tools, mode, ctx), ctx.toolName, SelectorFor(ctx)) != tools
  {
    var tools: Tools := map["tool" := ToolEntry(Some(Allow), None, None)];
    PersistRemoveRestores(tools, mode, Context("tool", "plan", None, None));
  }

  // ---------------------------------------------------------------- what a removal is about

  lemma {:induction false} SurvivingMeaning(rules: seq<Rule>, sel: Selector)
    ensures forall r :: r in Surviving(rules, sel) <==> r in rules && Survives(r, sel)
  {
    if rules == [] {
    } else {
      var front, last := rules[..|rules| - 1], rules[|rules| - 1];
      SurvivingMeaning(front, sel);
      assert rules == front + [last];
    }
  }

  lemma SparedIfSurvives(tools: Tools, tool: string, sel: Selector, r: Rule)
    requires tool in tools && r in RulesOf(tools[tool])
    ensures var after := Remove(tools, tool, sel);
            (tool in after && r in RulesOf(after[tool])) <==> Survives(r, sel)
  {
    SurvivingMeaning(RulesOf(tools[tool]), sel);
  }

  lemma PersistedSurvives(mode: Mode, ctx: Context, sel: Selector)
    ensures Survives(RuleFor(mode, ctx), sel)
            <==> || (Truthy(sel.phase) && sel.phase.value != ctx.phase)
                 || (Truthy(sel.argsHash) && sel.argsHash != ctx.argsHash)
                 || exists e :: e in NonEmpty(sel.sideEffects) && e !in NonEmpty(ctx.sideEffects)
  {
    assert NonEmpty(RuleFor(mode, ctx).sideEffects) == NonEmpty(ctx.sideEffects);
  }

  /**
   Removing with selectors spares a persisted rule exactly if some selector that is given names
   something else: another phase, other arguments, or a side effect the rule does not have.
   */
  lemma RemoveSparesExactly(tools: Tools, mode: Mode, ctx: Context, sel: Selector)
    ensures var t, after := ctx.toolName, Remove(Persist(tools, mode, ctx), ctx.toolName, sel);
      (t in after && RuleFor(mode, ctx) in RulesOf(after[t]))
      <==> || (Truthy(sel.phase) && sel.phase.value != ctx.phase)
           || (Truthy(sel.argsHash) && sel.argsHash != ctx.argsHash)
           || exists e :: e in NonEmpty(sel.sideEffects) && e !in NonEmpty(ctx.sideEffects)
  {
    assert RuleFor(mode, ctx) in RulesOf(Persist(tools, mode, ctx)[ctx.toolName]);
    SparedIfSurvives(Persist(tools, mode, ctx), ctx.toolName, sel, RuleFor(mode, ctx));
    PersistedSurvives(mode, ctx, sel);
  }

  /** The entry says something without its rules. */
  predicate HasModes(entry: ToolEntry) {
    entry.mode.Some? || (entry.phases.Some? && entry.phases.value != map[])
  }

  /** With selectors, an entry goes exactly if neither rules nor modes are left; and it keeps its modes. */
  lemma RemoveKeepsModes(tools: Tools, tool: string, sel: Selector)
    requires tool in tools && !SelectsAll(sel)
    ensures var after := Remove(tools, tool, sel);
      && (tool in after <==>
            HasModes(tools[tool]) || exists r :: r in RulesOf(tools[tool]) && Survives(r, sel))
      && (tool in after ==> after[tool].mode == tools[tool].mode && after[tool].phases == tools[tool].phases)
  {
    var rules := Surviving(RulesOf(tools[tool]), sel);
    SurvivingMeaning(RulesOf(tools[tool]), sel);
    if rules != [] {
      assert rules[0] in rules;
    }
  }

  /** Other tools are decided as before; a removal without selectors forgets its tool. */
  lemma RemoveForgetsOnlyItsTool(tools: Tools, tool: string, sel: Selector, question: Context, cfg: Matching)
    ensures question.toolName != tool ==>
              IsAllowed(Remove(tools, tool, sel), question, cfg) == IsAllowed(tools, question, cfg)
    ensures question.toolName == tool && SelectsAll(sel) ==> IsAllowed(Remove(tools, tool, sel), question, cfg) == None
  {
  }
}
