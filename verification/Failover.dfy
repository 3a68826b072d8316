/** The runner's walk over its model endpoints: the first that answers wins, a failure that may be the
    endpoint's own moves on to the next. */
module Failover {
  import opened Options
  import opened Text
  import opened EnvFiles
  import opened Positions

  /** What calling an endpoint gave. */
  datatype Reply = Reply(text: string) | Failure(message: string)

  /** What calling the endpoint at each position would give; any behaviour at all. */
  type Calls = nat -> Reply

  datatype Attempt = Unsupported(who: Candidate) | Failed(who: Candidate, throttled: bool, message: string)

  datatype Outcome =
    | NoCandidates
    | Answer(text: string, who: Candidate)
    | GaveUp(who: Candidate, attempts: seq<Attempt>)
    | AllFailed(attempts: seq<Attempt>)

  /** A kind this build can drive; without a kind, the provider's name will do. */
  predicate Runnable(c: Candidate) {
    if c.kind == "" then c.provider != ""
    else c.kind in ["api_openai", "api_anthropic", "cli_cursor", "cli_claude_code", "cli_qwen_code", "cli_generic"]
  }

  predicate Mentions(message: string, signs: seq<string>) {
    exists i :: 0 <= i < |signs| && Contains(Lower(message), signs[i])
  }

  const STOPS := ["context canceled", "context deadline exceeded: prompt", "invalid prompt"]

  const QUOTA_SIGNS := ["429", "quota", "rate limit", "rate_limit", "insufficient_quota", "too many requests",
      "billing"]

  predicate Retryable(message: string) {
    !Mentions(message, STOPS)
  }

  predicate QuotaLike(message: string) {
    Mentions(message, QUOTA_SIGNS)
  }

  /** The walk ends at this endpoint: it answers, or fails in a way every endpoint would. */
  predicate Decisive(c: Candidate, reply: Reply) {
    Runnable(c) && (reply.Failure? ==> !Retryable(reply.message))
  }

  function AttemptOf(c: Candidate, reply: Reply): Attempt
    requires Runnable(c) ==> reply.Failure?
  {
    if Runnable(c) then Failed(c, QuotaLike(reply.message), reply.message) else Unsupported(c)
  }

  /** The walk from endpoint `i` on; `call(k)` is what calling endpoint `k` would give. Also the positions
      it calls. */
  function Walk(cands: seq<Candidate>, call: Calls, i: nat, attempts: seq<Attempt>): (Outcome, seq<nat>)
    requires i <= |cands|
    decreases |cands| - i
  {
    if i == |cands| then (AllFailed(attempts), [])
    else if !Runnable(cands[i]) then Walk(cands, call, i + 1, attempts + [Unsupported(cands[i])])
    else if call(i).Reply? then (Answer(call(i).text, cands[i]), [i])
    else
      var tried := attempts + [AttemptOf(cands[i], call(i))];
      if !Retryable(call(i).message) then (GaveUp(cands[i], tried), [i])
      else
        var rest := Walk(cands, call, i + 1, tried);
        (rest.0, [i] + rest.1)
  }

  function Outcomes(cands: seq<Candidate>, call: Calls): (Outcome, seq<nat>) {
    if cands == [] then (NoCandidates, []) else Walk(cands, call, 0, [])
  }

  method CallWithFailover(cands: seq<Candidate>, call: Calls) returns (outcome: Outcome, called: seq<nat>)
    ensures (outcome, called) == Outcomes(cands, call)
  {
    called := [];
    if |cands| == 0 {
      return NoCandidates, called;
    }
    var attempts: seq<Attempt> := [];
    ghost var all := Walk(cands, call, 0, []);
    assert [] + all.1 == all.1;
    for i := 0 to |cands|
      invariant var rest := Walk(cands, call, i, attempts); all == (rest.0, called + rest.1)
    {
      var c := cands[i];
      if !Runnable(c) {
        attempts := attempts + [Unsupported(c)];
        continue;
      }
      var reply := call(i);
      ghost var before := called;
      called := called + [i];
      if reply.Reply? {
        return Answer(reply.text, c), called;
      }
      attempts := attempts + [Failed(c, QuotaLike(reply.message), reply.message)];
      if !Retryable(reply.message) {
        return GaveUp(c, attempts), called;
      }
      ghost var rest := Walk(cands, call, i + 1, attempts);
      assert before + ([i] + rest.1) == called + rest.1;
    }
    assert called + [] == called;
    return AllFailed(attempts), called;
  }

  // ---- where the walk ends ----

  /** The first decisive endpoint from `i` on, or the length of the list. */
  function FirstDecisive(cands: seq<Candidate>, call: Calls, i: nat): (k: nat)
    requires i <= |cands|
    ensures i <= k <= |cands|
    ensures k < |cands| ==> Decisive(cands[k], call(k))
    ensures forall j :: i <= j < k ==> !Decisive(cands[j], call(j))
    decreases |cands| - i
  {
    if i == |cands| || Decisive(cands[i], call(i)) then i else FirstDecisive(cands, call, i + 1)
  }

  /** The runnable positions from `i` up to `k`. */
  function RunnableFrom(cands: seq<Candidate>, i: nat, k: nat): seq<nat>
    requires i <= k <= |cands|
    decreases k - i
  {
    if i == k then [] else (if Runnable(cands[i]) then [i] else []) + RunnableFrom(cands, i + 1, k)
  }

  /** One record per endpoint passed over. */
  predicate Records(attempts: seq<Attempt>, cands: seq<Candidate>, call: Calls) {
    |attempts| <= |cands|
    && forall j :: 0 <= j < |attempts| ==>
         (Runnable(cands[j]) ==> call(j).Failure?) && attempts[j] == AttemptOf(cands[j], call(j))
  }

  lemma {:induction false} WalkEnds(cands: seq<Candidate>, call: Calls, i: nat, attempts: seq<Attempt>)
    requires i <= |cands| && |attempts| == i && Records(attempts, cands, call)
    ensures var k := FirstDecisive(cands, call, i);
            var (outcome, called) := Walk(cands, call, i, attempts);
            && (called == RunnableFrom(cands, i, k) + if k < |cands| then [k] else [])
            && (if k == |cands| then
                  outcome.AllFailed? && |outcome.attempts| == k && Records(outcome.attempts, cands, call)
                else if call(k).Reply? then outcome == Answer(call(k).text, cands[k])
                else outcome.GaveUp? && outcome.who == cands[k] && |outcome.attempts| == k + 1
                     && Records(outcome.attempts, cands, call))
    decreases |cands| - i
  {
    hide Runnable;
    hide QuotaLike;
    hide Retryable;
    if i == |cands| || Decisive(cands[i], call(i)) {
    } else {
      WalkEnds(cands, call, i + 1, attempts + [AttemptOf(cands[i], call(i))]);
    }
  }

  /** The walk's outcome is settled by the first decisive endpoint. It is the one that answers, or the one whose
      failure stops the walk; with none, every endpoint fails and leaves one record, in order. The endpoints called
      are the runnable ones up to there, each once. */
  lemma {:induction false} FirstDecisiveSettles(cands: seq<Candidate>, call: Calls)
    requires |cands| > 0
    ensures var k := FirstDecisive(cands, call, 0);
            var (outcome, called) := Outcomes(cands, call);
            && (called == RunnableFrom(cands, 0, k) + if k < |cands| then [k] else [])
            && !outcome.NoCandidates?
            && (outcome.AllFailed? <==> k == |cands|)
            && (outcome.Answer? <==> k < |cands| && call(k).Reply?)
            && (outcome.Answer? ==> outcome == Answer(call(k).text, cands[k]))
            && (outcome.GaveUp? ==>
                  outcome.who == cands[k] && |outcome.attempts| == k + 1 && Records(outcome.attempts, cands, call))
            && (outcome.AllFailed? ==> |outcome.attempts| == |cands| && Records(outcome.attempts, cands, call))
  {
    WalkEnds(cands, call, 0, []);
  }

  lemma {:induction false} RunnableFromMembers(cands: seq<Candidate>, i: nat, k: nat, p: nat)
    requires i <= k <= |cands|
    ensures p in RunnableFrom(cands, i, k) <==> i <= p < k && Runnable(cands[p])
    decreases k - i
  {
    hide Runnable;
    if i == k {
    } else {
      var rest := RunnableFrom(cands, i + 1, k);
      RunnableFromMembers(cands, i + 1, k, p);
      assert RunnableFrom(cands, i, k) == if Runnable(cands[i]) then [i] + rest else rest;
      hide RunnableFrom;
      assert p in [i] + rest <==> p == i || p in rest;
    }
  }

  lemma {:induction false} RunnableFromIncreases(cands: seq<Candidate>, i: nat, k: nat)
    requires i <= k <= |cands|
    ensures Increasing(RunnableFrom(cands, i, k))
    decreases k - i
  {
    hide Runnable;
    if i == k {
    } else {
      var rest := RunnableFrom(cands, i + 1, k);
      RunnableFromIncreases(cands, i + 1, k);
      forall p | p in rest ensures i < p {
        RunnableFromMembers(cands, i + 1, k, p);
      }
      IncreasingCons(i, rest);
      hide Increasing;
      assert RunnableFrom(cands, i, k) == if Runnable(cands[i]) then [i] + rest else rest;
    }
  }

  lemma {:induction false} RunnableFromSpec(cands: seq<Candidate>, i: nat, k: nat)
    requires i <= k <= |cands|
    ensures forall p :: p in RunnableFrom(cands, i, k) <==> i <= p < k && Runnable(cands[p])
    ensures Increasing(RunnableFrom(cands, i, k))
  {
    hide Runnable;
    forall p: nat ensures p in RunnableFrom(cands, i, k) <==> i <= p < k && Runnable(cands[p]) {
      RunnableFromMembers(cands, i, k, p);
    }
    RunnableFromIncreases(cands, i, k);
  }

  /** Endpoints are called in order, none twice, none that this build cannot drive, and none after the one that
      settles the walk. */
  lemma {:induction false} CalledInOrder(cands: seq<Candidate>, call: Calls)
    ensures var called := Outcomes(cands, call).1;
            && Increasing(called)
            && (forall p: nat :: p in called <==>
                  p < |cands| && Runnable(cands[p]) && forall j :: 0 <= j < p ==> !Decisive(cands[j], call(j)))
  {
    hide Runnable;
    hide Retryable;
    if cands != [] {
      var k := FirstDecisive(cands, call, 0);
      FirstDecisiveSettles(cands, call);
      RunnableFromSpec(cands, 0, k);
      var before, called := RunnableFrom(cands, 0, k), Outcomes(cands, call).1;
      assert forall m :: 0 <= m < |before| ==> before[m] in before;
      assert forall p: nat :: p in called <==> p in before || (p == k && k < |cands|);
    }
  }

  /** Endpoints added behind the list are a last resort: they are consulted only when all before them failed. */
  lemma {:induction false} AddedBehind(cands: seq<Candidate>, call: Calls, more: seq<Candidate>)
    ensures Outcomes(cands, call).0.Answer? || Outcomes(cands, call).0.GaveUp? ==>
              Outcomes(cands + more, call) == Outcomes(cands, call)
  {
    WalkExtends(cands, call, more, 0, []);
  }

  lemma {:induction false} WalkExtends(cands: seq<Candidate>, call: Calls, more: seq<Candidate>, i: nat,
                                       attempts: seq<Attempt>)
    requires i <= |cands|
    ensures !Walk(cands, call, i, attempts).0.AllFailed? ==>
              Walk(cands + more, call, i, attempts) == Walk(cands, call, i, attempts)
    decreases |cands| - i
  {
    if i == |cands| {
    } else {
      assert (cands + more)[i] == cands[i];
      if !Runnable(cands[i]) {
        WalkExtends(cands, call, more, i + 1, attempts + [Unsupported(cands[i])]);
      } else if call(i).Failure? {
        WalkExtends(cands, call, more, i + 1, attempts + [AttemptOf(cands[i], call(i))]);
      }
    }
  }

  // ---- which failures end the walk ----

  /** The message has one of the three phrases that tell of a failure that every endpoint would have. */
  predicate SaysStop(message: string) {
    var lower := Lower(message);
    || Occurs("context canceled", lower)
    || Occurs("context deadline exceeded: prompt", lower)
    || Occurs("invalid prompt", lower)
  }

  /** The message has a sign of an exhausted quota. */
  predicate SaysQuota(message: string) {
    var lower := Lower(message);
    || Occurs("429", lower) || Occurs("quota", lower) || Occurs("rate limit", lower) || Occurs("rate_limit", lower)
    || Occurs("insufficient_quota", lower) || Occurs("too many requests", lower) || Occurs("billing", lower)
  }

  /** A kind that can be driven, or no kind but a provider. */
  predicate Drivable(c: Candidate) {
    if c.kind == "" then c.provider != ""
    else c.kind == "api_openai" || c.kind == "api_anthropic" || c.kind == "cli_cursor" || c.kind == "cli_claude_code"
         || c.kind == "cli_qwen_code" || c.kind == "cli_generic"
  }

  /** The walk goes on behind this endpoint: it cannot be driven, or failed without a stop phrase. */
  predicate GoesOn(c: Candidate, reply: Reply) {
    !Drivable(c) || (reply.Failure? && !SaysStop(reply.message))
  }

  lemma {:induction false} MentionsOccurs(message: string, signs: seq<string>)
    ensures Mentions(message, signs) <==> exists i :: 0 <= i < |signs| && Occurs(signs[i], Lower(message))
  {
    forall sign ensures Contains(Lower(message), sign) <==> Occurs(sign, Lower(message)) {
      ContainsOccurs(Lower(message), sign);
    }
  }

  lemma {:induction false} StopsByPhrase(message: string)
    ensures Retryable(message) <==> !SaysStop(message)
  {
    hide Occurs;
    MentionsOccurs(message, STOPS);
    assert STOPS[0] == "context canceled" && STOPS[1] == "context deadline exceeded: prompt";
    assert STOPS[2] == "invalid prompt";
  }

  lemma {:induction false} QuotaBySign(message: string)
    ensures QuotaLike(message) <==> SaysQuota(message)
  {
    hide Occurs;
    MentionsOccurs(message, QUOTA_SIGNS);
    assert QUOTA_SIGNS[0] == "429" && QUOTA_SIGNS[1] == "quota" && QUOTA_SIGNS[2] == "rate limit"
           && QUOTA_SIGNS[3] == "rate_limit" && QUOTA_SIGNS[4] == "insufficient_quota"
           && QUOTA_SIGNS[5] == "too many requests" && QUOTA_SIGNS[6] == "billing";
  }

  /** The record of an endpoint that the walk left behind. */
  predicate RecordOf(a: Attempt, c: Candidate, reply: Reply) {
    if !Drivable(c) then a == Unsupported(c)
    else reply.Failure? && a == Failed(c, SaysQuota(reply.message), reply.message)
  }

  /** The endpoints before `k` are all left behind. */
  predicate Reaches(cands: seq<Candidate>, call: Calls, k: nat) {
    k <= |cands| && forall j :: 0 <= j < k ==> GoesOn(cands[j], call(j))
  }

  lemma {:induction false} ReachesFirst(cands: seq<Candidate>, call: Calls, k: nat)
    requires Reaches(cands, call, k) && (k < |cands| ==> !GoesOn(cands[k], call(k)))
    ensures FirstDecisive(cands, call, 0) == k
  {
    var d := FirstDecisive(cands, call, 0);
    if d < |cands| {
      assert Decisive(cands[d], call(d));
      GoesOnDecisive(cands[d], call(d));
    }
    if k < |cands| {
      GoesOnDecisive(cands[k], call(k));
    }
  }

  lemma {:induction false} GoesOnDecisive(c: Candidate, reply: Reply)
    ensures GoesOn(c, reply) <==> !Decisive(c, reply)
  {
    if reply.Failure? {
      StopsByPhrase(reply.message);
    }
    DrivableRunnable(c);
    hide SaysStop;
    hide Retryable;
  }

  lemma {:induction false} DrivableRunnable(c: Candidate)
    ensures Drivable(c) <==> Runnable(c)
  {}

  lemma {:induction false} RecordsByPhrase(attempts: seq<Attempt>, cands: seq<Candidate>, call: Calls)
    requires Records(attempts, cands, call)
    ensures forall j :: 0 <= j < |attempts| ==> RecordOf(attempts[j], cands[j], call(j))
  {
    forall j | 0 <= j < |attempts| ensures RecordOf(attempts[j], cands[j], call(j)) {
      DrivableRunnable(cands[j]);
      if call(j).Failure? {
        QuotaBySign(call(j).message);
      }
      hide Drivable;
      hide Runnable;
      hide SaysQuota;
      hide QuotaLike;
    }
  }

  /** Where the walk reaches an endpoint, having left all earlier ones behind, the endpoint's reply decides. The walk
      answers with it exactly if it answers; it gives up there exactly if it fails with a stop phrase in any letter
      case; and a walk that reaches the end has failed. Each endpoint left behind is on record, with the mark of an
      exhausted quota where its message tells of one. */
  lemma {:induction false} ReplyDecides(cands: seq<Candidate>, call: Calls, k: nat)
    requires cands != [] && Reaches(cands, call, k)
    ensures var outcome := Outcomes(cands, call).0;
            && (k == |cands| ==> outcome.AllFailed? && |outcome.attempts| == |cands|)
            && (k < |cands| && Drivable(cands[k]) && call(k).Reply? ==> outcome == Answer(call(k).text, cands[k]))
            && (outcome.GaveUp? && |outcome.attempts| == k + 1 <==>
                k < |cands| && Drivable(cands[k]) && call(k).Failure? && SaysStop(call(k).message))
            && (outcome.GaveUp? && |outcome.attempts| == k + 1 ==> outcome.who == cands[k])
            && (outcome.AllFailed? || outcome.GaveUp? ==>
                  |outcome.attempts| <= |cands|
                  && forall j :: 0 <= j < |outcome.attempts| ==> RecordOf(outcome.attempts[j], cands[j], call(j)))
  {
    hide Drivable;
    hide SaysStop;
    hide Occurs;
    hide RecordOf;
    hide Decisive;
    FirstDecisiveSettles(cands, call);
    var outcome := Outcomes(cands, call).0;
    hide Outcomes;
    if outcome.AllFailed? || outcome.GaveUp? {
      RecordsByPhrase(outcome.attempts, cands, call);
    }
    if k == |cands| || !GoesOn(cands[k], call(k)) {
      ReachesFirst(cands, call, k);
    } else {
      BehindFirst(cands, call, k);
    }
  }

  /** Without endpoints none is called, and the outcome says so. */
  lemma {:induction false} NobodyToCall(call: Calls)
    ensures Outcomes([], call) == (NoCandidates, [])
  {}

  lemma {:induction false} BehindFirst(cands: seq<Candidate>, call: Calls, k: nat)
    requires Reaches(cands, call, k) && k < |cands| && GoesOn(cands[k], call(k))
    ensures FirstDecisive(cands, call, 0) > k
  {
    var d := FirstDecisive(cands, call, 0);
    if d < |cands| {
      GoesOnDecisive(cands[d], call(d));
    }
  }

  lemma {:induction false} ShortSaysNoStop(message: string)
    requires |message| < 14
    ensures !SaysStop(message)
  {
    assert |"context canceled"| == 16 && |"invalid prompt"| == 14 && |"context deadline exceeded: prompt"| == 33;
  }

  /** Two endpoints, of which the first is over its quota: the second one answers. */
  lemma {:induction false} QuotaPassedOver(first: Candidate, second: Candidate, text: string)
    requires first.kind == "api_openai" && second.kind == "" && second.provider != ""
    ensures var call: Calls := k => if k == 0 then Failure("429") else Reply(text);
            Outcomes([first, second], call).0 == Answer(text, second)
  {
    var call: Calls := k => if k == 0 then Failure("429") else Reply(text);
    ShortSaysNoStop("429");
    assert GoesOn([first, second][0], call(0));
    ReplyDecides([first, second], call, 1);
  }

  /** The first one is asked something that no endpoint takes: the walk gives up at once, and the second one is not
      asked. */
  lemma {:induction false} PromptGivenUp(first: Candidate, second: Candidate, text: string)
    requires first.kind == "api_openai"
    ensures var call: Calls := k => if k == 0 then Failure("Invalid Prompt") else Reply(text);
            var outcome := Outcomes([first, second], call).0;
            outcome.GaveUp? && outcome.who == first && |outcome.attempts| == 1
  {
    var call: Calls := k => if k == 0 then Failure("Invalid Prompt") else Reply(text);
    var lower := Lower("Invalid Prompt");
    assert lower == "invalid prompt";
    assert StandsAt("invalid prompt", lower, 0);
    ReplyDecides([first, second], call, 0);
  }

  // ---- from the configuration to the answer ----

  /** The endpoint configured at this position was called and failed in a way that may be its own. */
  predicate PassedOver(cands: seq<Candidate>, call: Calls, index: nat) {
    exists q :: 0 <= q < |cands| && cands[q].index == index && call(q).Failure? && Retryable(call(q).message)
  }

  /** The answer comes from a configured endpoint that has a key and that the runner can drive, under its own
      position in the configuration, and every such endpoint configured before it was tried and passed over. */
  lemma {:induction false} AnswerFromConfig(cfg: ModelConfig, bin: string, call: Calls)
    requires SinglesForeign(cfg, bin) && |cfg.endpoints| <= MAX_CANDIDATES
    ensures var loaded := Loaded(ParseEnvFile(EnvFile(cfg, bin)));
            loaded.Some? &&
            var cands := loaded.value;
            var outcome := Outcomes(cands, call).0;
            outcome.Answer? ==>
              && FromList(outcome.who, cfg.endpoints) && Runnable(outcome.who)
              && forall p ::
                   0 <= p < outcome.who.index - 1
                   && Keyed(cfg.endpoints[p]) && Runnable(Seen(cfg.endpoints[p], p + 1)) ==>
                     PassedOver(cands, call, p + 1)
  {
    RoundTrip(cfg, bin);
    var cands := Usable(cfg.endpoints);
    if cands != [] {
      FirstDecisiveSettles(cands, call);
      var k := FirstDecisive(cands, call, 0);
      if k < |cands| {
        UsableFromList(cfg.endpoints, k);
        forall p | 0 <= p < cands[k].index - 1 && Keyed(cfg.endpoints[p]) && Runnable(Seen(cfg.endpoints[p], p + 1))
          ensures PassedOver(cands, call, p + 1)
        {
          EarlierPassedOver(cfg.endpoints, call, k, p);
        }
      }
    }
  }

  lemma {:induction false} FailedEarlier(cands: seq<Candidate>, call: Calls, q: nat)
    requires q < |cands| && Runnable(cands[q]) && !Decisive(cands[q], call(q))
    ensures PassedOver(cands, call, cands[q].index)
  {}

  lemma {:induction false} SeenRunnable(c: Candidate, endpoints: seq<Endpoint>, p: nat)
    requires FromList(c, endpoints) && c.index == p + 1 && Runnable(Seen(endpoints[p], p + 1))
    ensures Runnable(c)
  {}

  lemma {:induction false} EarlierPassedOver(endpoints: seq<Endpoint>, call: Calls, k: nat, p: nat)
    requires k < |Usable(endpoints)|
    requires forall j :: 0 <= j < k ==> !Decisive(Usable(endpoints)[j], call(j))
    requires p < |endpoints| && p < Usable(endpoints)[k].index - 1
    requires Keyed(endpoints[p]) && Runnable(Seen(endpoints[p], p + 1))
    ensures PassedOver(Usable(endpoints), call, p + 1)
  {
    hide Usable;
    hide Seen;
    hide Keyed;
    hide Runnable;
    hide Decisive;
    hide PassedOver;
    var q := UsableComplete(endpoints, p);
    UsableFromList(endpoints, q);
    SeenRunnable(Usable(endpoints)[q], endpoints, p);
    if k < q {
      UsableOrdered(endpoints, k, q);
    }
    FailedEarlier(Usable(endpoints), call, q);
  }
}
