/** Task-based model routing (ai/router.py, ai/provider.py). */
module Routing {
  import opened Wrappers
  import opened AiTypes

  datatype AIModel = AIModel(name: string, provider: string, tier: Tier, maxContextChars: nat, supportsTools: bool)

  /** Every model a healthy provider offers, in registry order. */
  type Registry = seq<AIModel>

  const COMPLEXITY_ESCALATION_THRESHOLD := 0.8

  function BaseTier(task: TaskType): Tier {
    match task
    case Summarization => Local
    case Classification => Local
    case EntityExtraction => Local
    case JournalReview => Local
    case ResearchSynthesis => Frontier
    case ThesisReview => FrontierHigh
  }

  function Cheaper(tier: Tier): Tier {
    match tier
    case FrontierHigh => Frontier
    case Frontier => Local
    case Local => Local
    case NoModel => NoModel
  }

  function Costlier(tier: Tier): Tier {
    match tier
    case Local => Frontier
    case Frontier => FrontierHigh
    case FrontierHigh => FrontierHigh
    case NoModel => NoModel
  }

  /** The tier a question deserves beyond its base, if any. Only properties of the question matter. */
  function EscalationFor(request: Request, tier: Tier): Option<Tier> {
    if tier == FrontierHigh then None
    else if request.hasContradictions && tier == Frontier then Some(FrontierHigh)
    else if request.policy.risk == HighRisk && tier == Local then Some(Frontier)
    else if request.complexity >= COMPLEXITY_ESCALATION_THRESHOLD && Costlier(tier) != tier then Some(Costlier(tier))
    else None
  }

  datatype TierChoice = TierChoice(tier: Tier, escalated: bool, downgraded: bool)

  /** Escalation, budget pressure and privacy applied one after the other, each reassigning the tier. */
  method ChooseTierStepwise(request: Request, budgetDegraded: bool) returns (choice: TierChoice)
    ensures choice == ChooseTier(request, budgetDegraded)
  {
    var tier := BaseTier(request.task);
    var escalated, downgraded := false, false;
    if request.policy.allowEscalation {
      var target := EscalationFor(request, tier);
      if target.Some? {
        tier, escalated := target.value, true;
      }
    }
    if budgetDegraded && tier != Local {
      var cheaper := Cheaper(tier);
      if cheaper != tier {
        tier, downgraded := cheaper, true;
      }
    }
    if request.policy.privacy == LocalOnly && tier != Local {
      tier, downgraded := Local, true;
    }
    if !request.policy.allowFrontier && tier != Local {
      tier, downgraded := Local, true;
    }
    return TierChoice(tier, escalated, downgraded);
  }

  /** The tier wanted for the question, before any constraint. */
  function WantedTier(request: Request): Tier {
    var target := EscalationFor(request, BaseTier(request.task));
    if request.policy.allowEscalation && target.Some? then target.value else BaseTier(request.task)
  }

  function ChooseTier(request: Request, budgetDegraded: bool): TierChoice {
    var wanted := WantedTier(request);
    var afforded := if budgetDegraded then Cheaper(wanted) else wanted;
    var final := if request.policy.allowFrontier then afforded else Local;
    TierChoice(final, wanted != BaseTier(request.task), final != wanted)
  }

  function OfTier(tier: Tier): AIModel -> bool {
    (model: AIModel) => model.tier == tier
  }

  function ListedIn(policy: Policy): AIModel -> bool {
    (model: AIModel) => model.name in policy.allowedModels
  }

  function Fits(request: Request): AIModel -> bool {
    (model: AIModel) => request.ContextSize() <= model.maxContextChars
  }

  function UsesTools(): AIModel -> bool {
    (model: AIModel) => model.supportsTools
  }

  function AtTier(registry: Registry, tier: Tier): seq<AIModel> {
    Filter(registry, OfTier(tier))
  }

  function Allowed(models: seq<AIModel>, policy: Policy): seq<AIModel> {
    if policy.allowedModels == [] then models else Filter(models, ListedIn(policy))
  }

  function Named(models: seq<AIModel>, name: string): Option<AIModel> {
    if models == [] then None
    else if models[0].name == name then Some(models[0])
    else Named(models[1..], name)
  }

  function Fitting(models: seq<AIModel>, request: Request): seq<AIModel> {
    var fitting := Filter(models, Fits(request));
    var withTools := Filter(fitting, UsesTools());
    if request.schema.Some? && withTools != [] then withTools else fitting
  }

  function SelectModel(registry: Registry, request: Request, tier: Tier): Option<AIModel> {
    var candidates := Allowed(AtTier(registry, tier), request.policy);
    var requested := request.policy.requestedModel;
    if requested.Some? && requested.value != "" && Named(candidates, requested.value).Some? then
      Named(candidates, requested.value)
    else
      var fitting := Fitting(candidates, request);
      if fitting == [] then None else Some(fitting[0])
  }

  /** Where a request goes, or None when no model satisfies its constraints. */
  function Route(registry: Registry, request: Request, budgetDegraded: bool): Option<Decision> {
    var choice := ChooseTier(request, budgetDegraded);
    var model := SelectModel(registry, request, choice.tier);
    if model.None? then None
    else Some(Decision(choice.tier, model.value.provider, model.value.name, choice.escalated, choice.downgraded))
  }

  /** Routing as the source does it, tier first. */
  method RouteStepwise(registry: Registry, request: Request, budgetDegraded: bool) returns (decision: Option<Decision>)
    ensures decision == Route(registry, request, budgetDegraded)
  {
    var choice := ChooseTierStepwise(request, budgetDegraded);
    var model := SelectModel(registry, request, choice.tier);
    if model.None? {
      return None;
    }
    return Some(Decision(choice.tier, model.value.provider, model.value.name, choice.escalated, choice.downgraded));
  }

  lemma {:induction false} NamedIsFirst(models: seq<AIModel>, name: string)
    ensures Named(models, name).Some? <==> exists m :: m in models && m.name == name
    ensures Named(models, name).Some? ==> Named(models, name).value in models && Named(models, name).value.name == name
  {
    if models != [] {
      NamedIsFirst(models[1..], name);
    }
  }

  /** A request that may not leave the machine never does: whatever its task, its risk, its complexity
      and the budget, the routed tier is local. Otherwise the tier is at most one above the base, above it
      only when escalation is allowed, and below the wanted one only under budget pressure. */
  lemma TierIsConstrained(request: Request, budgetDegraded: bool)
    ensures var choice := ChooseTier(request, budgetDegraded);
      && (request.policy.privacy == LocalOnly || !request.policy.allowFrontier ==> choice.tier == Local)
      && (choice.tier in {Local, BaseTier(request.task), Cheaper(WantedTier(request)),
           Costlier(BaseTier(request.task))})
      && (choice.escalated ==> request.policy.allowEscalation)
      && (request.policy.allowFrontier && !budgetDegraded ==> choice.tier == WantedTier(request) && !choice.downgraded)
      && choice.tier != NoModel
  {
  }

  lemma CandidatesAre(registry: Registry, tier: Tier, policy: Policy)
    ensures forall m :: m in Allowed(AtTier(registry, tier), policy) <==>
              m in registry && m.tier == tier && (policy.allowedModels == [] || m.name in policy.allowedModels)
  {
    FilterMembers(registry, OfTier(tier));
    FilterMembers(AtTier(registry, tier), ListedIn(policy));
  }

  lemma FittingAre(models: seq<AIModel>, request: Request)
    ensures forall m | m in Fitting(models, request) :: m in models && request.ContextSize() <= m.maxContextChars
    ensures Fitting(models, request) == [] <==> forall m | m in models :: request.ContextSize() > m.maxContextChars
  {
    var fitting := Filter(models, Fits(request));
    FilterMembers(models, Fits(request));
    FilterMembers(fitting, UsesTools());
    if fitting != [] {
      assert fitting[0] in fitting;
    }
  }

  /** The routed model is a registered model of the routed tier and of the request's allow-list. It fits
      the request's context unless it is the one the request named. */
  lemma RoutedModelIsLegitimate(registry: Registry, request: Request, budgetDegraded: bool)
    ensures var decision := Route(registry, request, budgetDegraded);
      decision.Some? ==>
        exists m :: m in registry && m.name == decision.value.model && m.provider == decision.value.provider
                    && m.tier == decision.value.tier == ChooseTier(request, budgetDegraded).tier
                    && (request.policy.allowedModels == [] || m.name in request.policy.allowedModels)
                    && (|request.system| + |request.staticPrefix| + |request.prompt| <= m.maxContextChars
                        || Some(m.name) == request.policy.requestedModel)
  {
    var tier := ChooseTier(request, budgetDegraded).tier;
    var candidates := Allowed(AtTier(registry, tier), request.policy);
    if request.policy.requestedModel.Some? {
      NamedIsFirst(candidates, request.policy.requestedModel.value);
    }
    CandidatesAre(registry, tier, request.policy);
    FittingAre(candidates, request);
    hide Fitting, Allowed, AtTier, Named, ChooseTier;
    var model := SelectModel(registry, request, tier);
    if model.Some? {
      var fitting := Fitting(candidates, request);
      assert fitting != [] ==> fitting[0] in fitting;
      assert model.value in candidates;
    }
  }

  /** Routing fails exactly when no candidate of the tier is named by the request and none fits. */
  lemma UnroutableExactly(registry: Registry, request: Request, budgetDegraded: bool)
    ensures var tier := ChooseTier(request, budgetDegraded).tier;
      Route(registry, request, budgetDegraded).None? <==>
        forall m | m in Allowed(AtTier(registry, tier), request.policy) ::
          && request.ContextSize() > m.maxContextChars
          && !(request.policy.requestedModel == Some(m.name) && m.name != "")
  {
    var tier := ChooseTier(request, budgetDegraded).tier;
    var candidates := Allowed(AtTier(registry, tier), request.policy);
    var requested := request.policy.requestedModel;
    if requested.Some? {
      NamedIsFirst(candidates, requested.value);
    }
    FittingAre(candidates, request);
  }

  /** An answer with a schema goes to a tool-using model whenever one of the candidates fits -- unless the
      request named its model. */
  lemma SchemaPrefersTools(registry: Registry, request: Request, budgetDegraded: bool, tooled: AIModel)
    requires var tier := ChooseTier(request, budgetDegraded).tier;
      tooled in Allowed(AtTier(registry, tier), request.policy) && tooled.supportsTools
      && request.ContextSize() <= tooled.maxContextChars
    requires request.schema.Some? && request.policy.requestedModel.None?
    ensures var decision := Route(registry, request, budgetDegraded);
      decision.Some? && exists m :: m in registry && m.name == decision.value.model && m.supportsTools
                                    && request.ContextSize() <= m.maxContextChars
  {
    var tier := ChooseTier(request, budgetDegraded).tier;
    var candidates := Allowed(AtTier(registry, tier), request.policy);
    var fitting := Filter(candidates, Fits(request));
    CandidatesAre(registry, tier, request.policy);
    FilterMembers(candidates, Fits(request));
    FilterMembers(fitting, UsesTools());
    hide Allowed, AtTier, Filter, ChooseTier, Named;
    var withTools := Filter(fitting, UsesTools());
    assert tooled in withTools;
    assert withTools[0] in withTools;
  }

  /** The candidate a request names, if it names one. */
  function NamedCandidate(registry: Registry, request: Request, budgetDegraded: bool): Option<AIModel> {
    var requested := request.policy.requestedModel;
    if requested.None? || requested.value == "" then None
    else Named(Allowed(AtTier(registry, ChooseTier(request, budgetDegraded).tier), request.policy), requested.value)
  }

  /** A named candidate is always the one selected, and it is the only way to a model the request does not
      fit: the selected model overflows exactly when the request named a candidate that is too small. */
  lemma OnlyNamedModelsOverflow(registry: Registry, request: Request, budgetDegraded: bool)
    ensures var named := NamedCandidate(registry, request, budgetDegraded);
      var selected := SelectModel(registry, request, ChooseTier(request, budgetDegraded).tier);
      && (named.Some? ==> selected == named)
      && (selected.Some? ==>
            (request.ContextSize() > selected.value.maxContextChars <==>
               named.Some? && request.ContextSize() > named.value.maxContextChars))
      && (Route(registry, request, budgetDegraded).Some? <==> selected.Some?)
      && (selected.Some? ==> Route(registry, request, budgetDegraded).value.model == selected.value.name
                             && Route(registry, request, budgetDegraded).value.provider == selected.value.provider)
  {
    var candidates := Allowed(AtTier(registry, ChooseTier(request, budgetDegraded).tier), request.policy);
    FittingAre(candidates, request);
    hide Fitting, Allowed, AtTier, Named, ChooseTier;
    if Fitting(candidates, request) != [] {
      assert Fitting(candidates, request)[0] in Fitting(candidates, request);
    }
  }

  // ----- the choice itself -----

  function Rank(tier: Tier): int {
    match tier
    case NoModel => 0
    case Local => 1
    case Frontier => 2
    case FrontierHigh => 3
  }

  /** The question deserves a tier above its task's: contradictory evidence on the frontier, high risk on the local
      machine, or a complexity of eight tenths and more anywhere below the top. */
  predicate DeservesMore(request: Request) {
    && request.task != ThesisReview
    && (|| (request.hasContradictions && request.task == ResearchSynthesis)
        || (request.policy.risk == HighRisk && request.task != ResearchSynthesis)
        || request.complexity >= 0.8)
  }

  /** The tier, exactly: reviews of a thesis start at the top, research on the frontier, all else locally; one step up
      if that is deserved and permitted; one step down, not below local, under budget pressure; and local whatever
      else when the frontier is forbidden. */
  lemma TierExactly(request: Request, budgetDegraded: bool)
    ensures var choice := ChooseTier(request, budgetDegraded);
      var base := if request.task == ThesisReview then 3 else if request.task == ResearchSynthesis then 2 else 1;
      var wanted := if request.policy.allowEscalation && DeservesMore(request) then base + 1 else base;
      && Rank(choice.tier) ==
         (if !request.policy.allowFrontier || (budgetDegraded && wanted == 1) then 1
          else if budgetDegraded then wanted - 1 else wanted)
      && (choice.escalated <==> wanted > base)
      && (choice.downgraded <==> Rank(choice.tier) < wanted)
  {
  }

  /** A candidate the request fits, that uses tools if that is asked for. */
  predicate Eligible(request: Request, tier: Tier, tooled: bool, model: AIModel) {
    && model.tier == tier && (request.policy.allowedModels == [] || model.name in request.policy.allowedModels)
    && |request.system| + |request.staticPrefix| + |request.prompt| <= model.maxContextChars
    && (tooled ==> model.supportsTools)
  }

  lemma EligibleAre(registry: Registry, request: Request, tier: Tier)
    ensures var candidates := Allowed(AtTier(registry, tier), request.policy);
      var fitting := Filter(candidates, Fits(request));
      && fitting == Filter(registry, (m: AIModel) => Eligible(request, tier, false, m))
      && Filter(fitting, UsesTools()) == Filter(registry, (m: AIModel) => Eligible(request, tier, true, m))
  {
    var all, tooled := (m: AIModel) => Eligible(request, tier, false, m),
      (m: AIModel) => Eligible(request, tier, true, m);
    var listed := (m: AIModel) => m.tier == tier
      && (request.policy.allowedModels == [] || m.name in request.policy.allowedModels);
    var candidates := Allowed(AtTier(registry, tier), request.policy);
    hide Filter;
    if request.policy.allowedModels == [] {
      FilterSame(registry, OfTier(tier), listed);
    } else {
      FilterTwice(registry, OfTier(tier), ListedIn(request.policy), listed);
    }
    FilterTwice(registry, listed, Fits(request), all);
    FilterTwice(registry, all, UsesTools(), tooled);
  }

  /** Unless the request names a candidate it gets the first model of the registry that is eligible -- and, if it
      asks for a schema and some eligible model uses tools, the first of those. */
  lemma FirstEligibleIsSelected(registry: Registry, request: Request, budgetDegraded: bool) returns (i: nat)
    requires NamedCandidate(registry, request, budgetDegraded).None?
    requires Route(registry, request, budgetDegraded).Some?
    ensures var tier := ChooseTier(request, budgetDegraded).tier;
      var tooled := request.schema.Some? && exists m :: m in registry && Eligible(request, tier, true, m);
      && i < |registry| && Eligible(request, tier, tooled, registry[i])
      && (forall j | 0 <= j < i :: !Eligible(request, tier, tooled, registry[j]))
      && SelectModel(registry, request, tier) == Some(registry[i])
      && Route(registry, request, budgetDegraded).value.model == registry[i].name
      && Route(registry, request, budgetDegraded).value.provider == registry[i].provider
      && Route(registry, request, budgetDegraded).value.tier == tier
  {
    hide Filter, ChooseTier, Eligible, Allowed, AtTier, Named;
    var tier := ChooseTier(request, budgetDegraded).tier;
    EligibleAre(registry, request, tier);
    var candidates := Allowed(AtTier(registry, tier), request.policy);
    var withTools := Filter(Filter(candidates, Fits(request)), UsesTools());
    var tooled := request.schema.Some? && withTools != [];
    FilterMembers(registry, (m: AIModel) => Eligible(request, tier, true, m));
    if withTools != [] {
      assert withTools[0] in withTools;
    }
    i := FilterFirst(registry, (m: AIModel) => Eligible(request, tier, tooled, m));
  }
}
