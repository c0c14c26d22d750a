/** The reply-decision judge (src/chat/social.rs): ask the provider for a
    `{"should_reply": bool}` object, and on malformed output append a
    corrective system message and ask again, within an attempt budget. */
module Social {
  import opened Results
  import opened Provider

  /** The `ShouldReply` record. */
  datatype Judgment = Judgment(shouldReply: bool)

  /** `serde_json::to_string(&ShouldReply { should_reply })` */
  function Serialize(j: Judgment): string {
    if j.shouldReply then "{\"should_reply\":true}" else "{\"should_reply\":false}"
  }

  /** `serde_json::from_str::<ShouldReply>`, an oracle: a judgment, or the
      parse error's debug text. */
  type Parser = string -> Result<Judgment>

  /** The system message appended after a malformed answer. */
  function Correction(error: string): ChatMessage {
    ChatMessage(System, "Failed to parse JSON:\n" + error + "\nTry again, and ensure your response is valid JSON")
  }

  /** How one attempt turns out. */
  datatype Attempt = ProviderFailed(error: string) | WellFormed(shouldReply: bool) | Malformed(error: string)

  /** One attempt: a provider error, or the content (missing content read as
      the empty string) handed to the parser. */
  function Classify(c: Completion, parse: Parser): (a: Attempt)
    ensures c.ProviderError? <==> a.ProviderFailed?
    ensures c.Answer? ==> a.WellFormed? == parse(c.content.GetOr("")).Ok?
    ensures c.ProviderError? ==> a == ProviderFailed(c.error)
    ensures c.Answer? && parse(c.content.GetOr("")).Ok? ==>
      a == WellFormed(parse(c.content.GetOr("")).value.shouldReply)
    ensures c.Answer? && parse(c.content.GetOr("")).Err? ==>
      a == Malformed(parse(c.content.GetOr("")).error)
  {
    match c
    case ProviderError(e) => ProviderFailed(e)
    case Answer(content) =>
      match parse(content.GetOr(""))
      case Ok(j) => WellFormed(j.shouldReply)
      case Err(e) => Malformed(e)
  }

  function ErrorText(a: Attempt): string {
    match a
    case WellFormed(_) => ""
    case ProviderFailed(e) => e
    case Malformed(e) => e
  }

  /** The number of requests the counter allows: `max_attempts`, but at least one. */
  function Budget(maxAttempts: int): nat {
    if maxAttempts >= 1 then maxAttempts else 1
  }

  /** The outcome of the loop and the context sent with each request, in order. */
  datatype JudgeRun = JudgeRun(result: Result<bool>, sent: seq<seq<ChatMessage>>)

  /** The loop from the point where the counter holds `i`, the context is
      `context` and the next request is the provider's `n`-th. */
  function JudgeFrom(context: seq<ChatMessage>, i: int, n: nat, provider: nat -> Completion, parse: Parser): JudgeRun
    decreases if i > 0 then i else 0
  {
    match Classify(provider(n), parse)
    case ProviderFailed(e) => JudgeRun(Err(e), [context])
    case WellFormed(b) => JudgeRun(Ok(b), [context])
    case Malformed(e) =>
      if i - 1 <= 0 then JudgeRun(Err(e), [context])
      else
        var rest := JudgeFrom(context + [Correction(e)], i - 1, n + 1, provider, parse);
        JudgeRun(rest.result, [context] + rest.sent)
  }

  /** `should_reply` with the counter initialised from `max_attempts`. */
  function Judge(context: seq<ChatMessage>, maxAttempts: int, provider: nat -> Completion, parse: Parser): JudgeRun {
    JudgeFrom(context, maxAttempts, 0, provider, parse)
  }

  /** The context sent with the `j`-th request of a run that started at
      request `first`: the original context plus one correction per earlier
      failure, carrying that failure's error. */
  ghost predicate SentAt(s: seq<ChatMessage>, context: seq<ChatMessage>, provider: nat -> Completion, parse: Parser, first: nat, j: nat) {
    && |s| == |context| + j
    && s[..|context|] == context
    && forall t :: |context| <= t < |s| ==>
         s[t] == Correction(ErrorText(Classify(provider(first + t - |context|), parse)))
  }

  /** The shape of every run: between one request and the budget; all requests
      but the last answered malformed; the last decides the result, and a
      malformed last answer means the budget is used up. */
  lemma {:induction false} JudgeFromShape(context: seq<ChatMessage>, i: int, n: nat, provider: nat -> Completion, parse: Parser)
    ensures var r := JudgeFrom(context, i, n, provider, parse);
      && 1 <= |r.sent| <= Budget(i)
      && (forall a :: n <= a < n + |r.sent| - 1 ==> Classify(provider(a), parse).Malformed?)
      && match Classify(provider(n + |r.sent| - 1), parse)
         case ProviderFailed(e) => r.result == Err(e)
         case WellFormed(b) => r.result == Ok(b)
         case Malformed(e) => r.result == Err(e) && |r.sent| == Budget(i)
    decreases if i > 0 then i else 0
  {
    match Classify(provider(n), parse)
    case ProviderFailed(e) =>
    case WellFormed(b) =>
    case Malformed(e) =>
      if i - 1 > 0 {
        var ctx' := context + [Correction(e)];
        JudgeFromShape(ctx', i - 1, n + 1, provider, parse);
      }
  }

  ghost predicate AllSentAt(sent: seq<seq<ChatMessage>>, context: seq<ChatMessage>, provider: nat -> Completion, parse: Parser, first: nat) {
    forall j :: 0 <= j < |sent| ==> SentAt(sent[j], context, provider, parse, first, j)
  }

  /** The j-th context of every run carries j corrections, one per earlier
      malformed answer and in that order. */
  lemma {:induction false} JudgeFromSent(context: seq<ChatMessage>, i: int, n: nat, provider: nat -> Completion, parse: Parser)
    ensures AllSentAt(JudgeFrom(context, i, n, provider, parse).sent, context, provider, parse, n)
    decreases if i > 0 then i else 0
  {
    var r := JudgeFrom(context, i, n, provider, parse);
    match Classify(provider(n), parse)
    case ProviderFailed(e) =>
      assert r.sent == [context];
    case WellFormed(b) =>
      assert r.sent == [context];
    case Malformed(e) =>
      if i - 1 <= 0 {
        assert r.sent == [context];
      } else {
        var ctx' := context + [Correction(e)];
        var rest := JudgeFrom(ctx', i - 1, n + 1, provider, parse);
        JudgeFromSent(ctx', i - 1, n + 1, provider, parse);
        assert AllSentAt(rest.sent, ctx', provider, parse, n + 1);
        assert r.sent == [context] + rest.sent;
        forall j | 0 <= j < |r.sent| ensures SentAt(r.sent[j], context, provider, parse, n, j) {
          if j == 0 {
            assert r.sent[0] == context;
          } else {
            var s := r.sent[j];
            assert j - 1 < |rest.sent| && s == rest.sent[j - 1];
            assert SentAt(rest.sent[j - 1], ctx', provider, parse, n + 1, j - 1);
            assert s[..|context|] == s[..|ctx'|][..|context|];
            assert ctx'[..|context|] == context;
            forall t | |context| <= t < |s|
              ensures s[t] == Correction(ErrorText(Classify(provider(n + t - |context|), parse)))
            {
              if t == |context| {
                assert s[t] == s[..|ctx'|][t] == ctx'[t];
              }
            }
          }
        }
      }
  }

  /** A judge that always answers malformed gets exactly `max_attempts`
      requests (one when `max_attempts <= 0`) and fails. */
  lemma AllMalformedFails(context: seq<ChatMessage>, maxAttempts: int, provider: nat -> Completion, parse: Parser)
    requires forall a :: 0 <= a < Budget(maxAttempts) ==> Classify(provider(a), parse).Malformed?
    ensures var r := Judge(context, maxAttempts, provider, parse);
      |r.sent| == Budget(maxAttempts) && r.result.Err?
  {
    JudgeFromShape(context, maxAttempts, 0, provider, parse);
  }

  /** With `max_attempts <= 0` only one request is ever made. */
  lemma NonPositiveBudgetAsksOnce(context: seq<ChatMessage>, maxAttempts: int, provider: nat -> Completion, parse: Parser)
    requires maxAttempts <= 0
    ensures |Judge(context, maxAttempts, provider, parse).sent| == 1
  {
    JudgeFromShape(context, maxAttempts, 0, provider, parse);
  }

  /** When the first well-formed answer is the j-th (0-based) and within the
      budget, the loop returns it after exactly j + 1 requests. */
  lemma FirstWellFormedDecides(context: seq<ChatMessage>, maxAttempts: int, provider: nat -> Completion, parse: Parser, j: nat, b: bool)
    requires j < Budget(maxAttempts)
    requires forall a :: 0 <= a < j ==> Classify(provider(a), parse).Malformed?
    requires Classify(provider(j), parse) == WellFormed(b)
    ensures var r := Judge(context, maxAttempts, provider, parse);
      r.result == Ok(b) && |r.sent| == j + 1
  {
    JudgeFromShape(context, maxAttempts, 0, provider, parse);
  }

  /** A provider error ends the loop at once with that error, whatever
      budget is left. */
  lemma ProviderErrorPropagates(context: seq<ChatMessage>, maxAttempts: int, provider: nat -> Completion, parse: Parser, j: nat, e: string)
    requires j < Budget(maxAttempts)
    requires forall a :: 0 <= a < j ==> Classify(provider(a), parse).Malformed?
    requires provider(j) == ProviderError(e)
    ensures var r := Judge(context, maxAttempts, provider, parse);
      r.result == Err(e) && |r.sent| == j + 1
  {
    JudgeFromShape(context, maxAttempts, 0, provider, parse);
  }

  /** Each retry grows the context by exactly one system message: the j-th
      request carries the original context and j corrections. */
  lemma SentContextsGrowByOne(context: seq<ChatMessage>, maxAttempts: int, provider: nat -> Completion, parse: Parser)
    ensures var r := Judge(context, maxAttempts, provider, parse);
      forall j :: 0 <= j < |r.sent| ==>
        && |r.sent[j]| == |context| + j
        && r.sent[j][..|context|] == context
        && forall t :: |context| <= t < |r.sent[j]| ==> r.sent[j][t].role == System
  {
    JudgeFromSent(context, maxAttempts, 0, provider, parse);
    var r := Judge(context, maxAttempts, provider, parse);
    assert AllSentAt(r.sent, context, provider, parse, 0);
    forall j | 0 <= j < |r.sent|
      ensures forall t :: |context| <= t < |r.sent[j]| ==> r.sent[j][t].role == System
    {
      assert SentAt(r.sent[j], context, provider, parse, 0, j);
    }
  }

  /** Missing content is read as the empty string: it is malformed whenever
      the parser rejects "" (as a JSON parser does), and never a "no". */
  lemma MissingContentIsNotANo(parse: Parser)
    requires parse("").Err?
    ensures Classify(Answer(None), parse) == Classify(Answer(Some("")), parse)
    ensures Classify(Answer(None), parse) == Malformed(parse("").error)
  {
  }

  /** `should_reply`: the retry loop. */
  method ShouldReply(context: seq<ChatMessage>, maxAttempts: int, provider: nat -> Completion, parse: Parser)
    returns (r: Result<bool>, sent: seq<seq<ChatMessage>>)
    ensures JudgeRun(r, sent) == Judge(context, maxAttempts, provider, parse)
  {
    var i := maxAttempts;
    var ctx := context;
    var n := 0;
    sent := [];
    while true
      invariant var rest := JudgeFrom(ctx, i, n, provider, parse);
        Judge(context, maxAttempts, provider, parse) == JudgeRun(rest.result, sent + rest.sent)
      decreases if i > 0 then i else 0
    {
      var response := provider(n);
      ghost var rest := JudgeFrom(ctx, i, n, provider, parse);
      sent := sent + [ctx];
      match response {
        case ProviderError(e) =>
          r := Err(e);
          return;
        case Answer(content) =>
          match parse(content.GetOr("")) {
            case Ok(judgment) =>
              r := Ok(judgment.shouldReply);
              return;
            case Err(e) =>
              i := i - 1;
              if i <= 0 {
                r := Err(e);
                return;
              }
              ctx := ctx + [Correction(e)];
              assert rest.sent == [ctx[..|ctx| - 1]] + JudgeFrom(ctx, i, n + 1, provider, parse).sent;
          }
      }
      n := n + 1;
    }
  }
}
