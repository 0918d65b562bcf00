/** Requests, responses and costs of the AI gateway (ai/schemas.py). Instants are microseconds. */
module AiTypes {
  import opened Wrappers

  const SECOND := 1000000
  const MINUTE := 60 * SECOND
  const HOUR := 3600 * SECOND
  const DAY := 24 * HOUR

  const MAX_OUTPUT_TOKENS_CEILING := 8192
  const MAX_ATTEMPTS_CEILING := 3

  datatype Tier = NoModel | Local | Frontier | FrontierHigh

  datatype TaskType =
    | ResearchSynthesis | ThesisReview | JournalReview | Summarization | Classification | EntityExtraction

  datatype Privacy = Normal | LocalOnly

  datatype Risk = LowRisk | MediumRisk | HighRisk

  datatype ErrorKind =
    | InvalidResponse | ProviderUnavailable | ProviderAuth | ProviderRateLimited
    | BudgetExceeded | RateLimitExceeded | NoRoute | InternalError

  datatype Usage = Usage(
    inputTokens: Option<int>, outputTokens: Option<int>, cacheRead: Option<int>, cacheWrite: Option<int>)

  /** An estimate, or None when no honest estimate exists. Unknown is not zero. */
  type Cost = Option<real>

  datatype PolicyFields = PolicyFields(
    privacy: Privacy,
    risk: Risk,
    maxOutputTokens: int,
    allowFrontier: bool,
    allowEscalation: bool,
    allowedModels: seq<string>,
    requestedModel: Option<string>,
    maxAttempts: int)

  /** The checks made when a policy is constructed. */
  predicate ValidPolicy(p: PolicyFields) {
    && 0 < p.maxOutputTokens <= MAX_OUTPUT_TOKENS_CEILING
    && 1 <= p.maxAttempts <= MAX_ATTEMPTS_CEILING
    && !(p.privacy == LocalOnly && p.allowFrontier)
  }

  type Policy = p: PolicyFields | ValidPolicy(p)
    witness PolicyFields(Normal, MediumRisk, 1024, true, true, [], None, 2)

  datatype Request = Request(
    requestId: string,
    principal: Option<string>,
    task: TaskType,
    system: string,
    staticPrefix: string,
    prompt: string,
    schema: Option<string>,
    hasContradictions: bool,
    complexity: real,
    policy: Policy)
  {
    function ContextSize(): nat {
      |system| + |staticPrefix| + |prompt|
    }

    function FingerprintOf(): Fingerprint {
      Fingerprint(task, system, staticPrefix, prompt, schema, policy.maxOutputTokens)
    }
  }

  /** Everything that changes the answer and nothing that does not; stands for its SHA-256. */
  datatype Fingerprint = Fingerprint(
    task: TaskType, system: string, staticPrefix: string, prompt: string, schema: Option<string>, maxOutputTokens: int)

  /** The same question: alike in task, instructions, context, prompt, answer schema and output allowance. Who
      asks, when, and under what other policy does not matter. */
  predicate SameQuestion(a: Request, b: Request) {
    && a.task == b.task && a.system == b.system && a.staticPrefix == b.staticPrefix && a.prompt == b.prompt
    && a.schema == b.schema && a.policy.maxOutputTokens == b.policy.maxOutputTokens
  }

  lemma FingerprintsTellQuestionsApart(a: Request, b: Request)
    ensures a.FingerprintOf() == b.FingerprintOf() <==> SameQuestion(a, b)
  {
  }

  datatype Decision = Decision(tier: Tier, provider: string, model: string, escalated: bool, downgraded: bool)

  datatype ResponseFields = ResponseFields(
    requestId: string,
    success: bool,
    provider: string,
    model: string,
    text: string,
    usage: Usage,
    cost: Cost,
    routing: Option<Decision>,
    errorKind: Option<ErrorKind>,
    cached: bool,
    retryCount: int)

  const NO_USAGE := Usage(None, None, None, None)

  /** A failed response carries no content. */
  type Response = r: ResponseFields | !r.success ==> r.text == ""
    witness ResponseFields("", false, "none", "none", "", NO_USAGE, None, None, None, false, 0)

  function Unavailable(requestId: string, kind: ErrorKind, provider: string, model: string, routing: Option<Decision>)
    : Response
  {
    ResponseFields(requestId, false, provider, model, "", NO_USAGE, None, routing, Some(kind), false, 0)
  }

  /** A cached body under the current request's id, with its price zeroed rather than repeated. */
  function AsCached(response: Response, requestId: string): Response {
    response.(requestId := requestId, cached := true, cost := Some(0.0))
  }

  function TaskTtl(task: TaskType): int {
    match task
    case JournalReview => 3600
    case Summarization => 3600
    case Classification => 3600
    case EntityExtraction => 3600
    case ResearchSynthesis => 600
    case ThesisReview => 300
  }
}
