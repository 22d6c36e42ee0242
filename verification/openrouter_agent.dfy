/** The OpenRouter agent's query: a chat request with the agent's
    instruction as the system message, retried with doubling waits while the
    service reports a rate limit, at most three attempts in all.  The service
    is an oracle: `service(n)` is how the n-th attempt turns out. */
module OpenRouter {
  import opened Text

  const MaxRetries := 3
  const FirstDelay := 5
  const MaxTokens := 4096

  const NoChoices := "Error: No response choices returned from OpenRouter."
  const RateLimitPrefix := "Error: Rate limit exceeded after 3 attempts. "
  const ContactPrefix := "Error contacting OpenRouter: "
  const Fallback := "Error: Failed to get response after multiple attempts."

  datatype Agent = Agent(name: string, model: string, instruction: string)

  datatype Message = Message(role: string, content: string)

  /** A chat completion request (the sampling temperature is not modelled). */
  datatype Request = Request(model: string, messages: seq<Message>, maxTokens: nat)

  /** How an attempt turns out: the contents of the returned choices, a rate
      limit error, or any other error, each error with its message. */
  datatype Outcome = Choices(contents: seq<string>) | RateLimited(message: string) | Failed(message: string)

  function RequestFor(agent: Agent, text: string): (r: Request)
    ensures |r.messages| == 2 && r.model == agent.model && r.maxTokens == MaxTokens
    ensures r.messages[0].role == "system" && r.messages[0].content == agent.instruction
    ensures r.messages[1].role == "user" && r.messages[1].content == text
  {
    Request(agent.model, [Message("system", agent.instruction), Message("user", text)], MaxTokens)
  }

  /** The reply, from attempt `attempt` on: the first choice's content, or
      an error text; a rate limit before the last attempt moves on to the
      next one. */
  function Answer(service: nat -> Outcome, attempt: nat): string
    requires attempt < MaxRetries
    decreases MaxRetries - attempt
  {
    match service(attempt)
    case Choices(cs) => if |cs| == 0 then NoChoices else cs[0]
    case RateLimited(m) => if attempt < MaxRetries - 1 then Answer(service, attempt + 1) else RateLimitPrefix + m
    case Failed(m) => ContactPrefix + m
  }

  /** The number of attempts made from `attempt` on. */
  function Attempts(service: nat -> Outcome, attempt: nat): (n: nat)
    requires attempt < MaxRetries
    ensures 1 <= n <= MaxRetries - attempt
    decreases MaxRetries - attempt
  {
    if service(attempt).RateLimited? && attempt < MaxRetries - 1 then 1 + Attempts(service, attempt + 1) else 1
  }

  /** The waits made from `attempt` on, starting at `delay` and doubling. */
  function Waits(service: nat -> Outcome, attempt: nat, delay: nat): seq<nat>
    requires attempt < MaxRetries
    decreases MaxRetries - attempt
  {
    if service(attempt).RateLimited? && attempt < MaxRetries - 1 then [delay] + Waits(service, attempt + 1, 2 * delay)
    else []
  }

  /** `OpenRouterAgent.query`: the reply, the requests sent and the waits
      made, in order. */
  method Query(agent: Agent, text: string, service: nat -> Outcome) returns (reply: string, sent: seq<Request>, waits: seq<nat>)
    ensures reply == Answer(service, 0)
    ensures |sent| == Attempts(service, 0) && forall i :: 0 <= i < |sent| ==> sent[i] == RequestFor(agent, text)
    ensures waits == Waits(service, 0, FirstDelay)
  {
    var request := RequestFor(agent, text);
    var delay: nat := FirstDelay;
    sent := [];
    waits := [];
    var attempt := 0;
    while attempt < MaxRetries
      invariant attempt <= MaxRetries - 1
      invariant Answer(service, 0) == Answer(service, attempt)
      invariant |sent| == attempt && Attempts(service, 0) == attempt + Attempts(service, attempt)
      invariant forall i :: 0 <= i < |sent| ==> sent[i] == request
      invariant waits + Waits(service, attempt, delay) == Waits(service, 0, FirstDelay)
      decreases MaxRetries - attempt
    {
      sent := sent + [request];
      match service(attempt) {
        case Choices(cs) =>
          reply := if |cs| == 0 then NoChoices else cs[0];
          return;
        case RateLimited(m) =>
          if attempt < MaxRetries - 1 {
            waits := waits + [delay];
            delay := delay * 2;
          } else {
            reply := RateLimitPrefix + m;
            return;
          }
        case Failed(m) =>
          reply := ContactPrefix + m;
          return;
      }
      attempt := attempt + 1;
    }
    assert false;
    reply := Fallback;
  }

  /** At most three attempts, with waits of 5 and then 10 seconds between
      them: one wait fewer than attempts. */
  lemma {:induction false} WaitsDouble(service: nat -> Outcome)
    ensures Waits(service, 0, FirstDelay) == [5, 10][..Attempts(service, 0) - 1]
  {
    assert Waits(service, 2, 20) == [];
    if service(0).RateLimited? {
      if service(1).RateLimited? {
        assert Waits(service, 1, 10) == [10];
      } else {
        assert Waits(service, 1, 10) == [];
      }
    }
  }

  /** The reply is decided by the first attempt that is not rate limited, or
      by the third attempt's rate limit. */
  lemma {:induction false} FirstDecides(service: nat -> Outcome, k: nat)
    requires k < MaxRetries
    requires forall j :: 0 <= j < k ==> service(j).RateLimited?
    requires !service(k).RateLimited? || k == MaxRetries - 1
    ensures Answer(service, 0) == match service(k)
      case Choices(cs) => if |cs| == 0 then NoChoices else cs[0]
      case RateLimited(m) => RateLimitPrefix + m
      case Failed(m) => ContactPrefix + m
    ensures Attempts(service, 0) == k + 1
  {
    if k >= 1 {
      assert service(0).RateLimited?;
    }
    if k >= 2 {
      assert service(1).RateLimited?;
    }
  }

  /** The fallback text is never produced by the loop: every reply is a
      choice's content or one of the three error texts. */
  lemma ReplyShape(service: nat -> Outcome)
    ensures var r := Answer(service, 0);
      || r == NoChoices
      || (exists k :: 0 <= k < MaxRetries && service(k).Choices? && |service(k).contents| > 0
            && r == service(k).contents[0])
      || StartsWith(r, RateLimitPrefix) || StartsWith(r, ContactPrefix)
  {
    var k: nat := if !service(0).RateLimited? then 0 else if !service(1).RateLimited? then 1 else 2;
    FirstDecides(service, k);
    match service(k)
    case Choices(cs) =>
    case RateLimited(m) =>
      assert (RateLimitPrefix + m)[..|RateLimitPrefix|] == RateLimitPrefix;
    case Failed(m) =>
      assert (ContactPrefix + m)[..|ContactPrefix|] == ContactPrefix;
  }
}
