/** What is kept out of the outputs, request by request, over the steps of the runner. */
module OutputSpec {
  import opened Basics
  import opened InputBatches
  import opened RunnerSpec
  import opened SampleSpec
  import Masks = SamplingMasks

  function Least(q: Req): Masks.MinTokens {
    Masks.MinTokens(q.sampling.minTokens, q.sampling.stopIds)
  }

  /** The request may produce the token next: it completes no bad word, and is no stop token too early. */
  ghost predicate Free(q: Req, token: int) {
    !Masks.CompletesAny(q.sampling.badWords, q.output, token) && !Masks.TooEarly(Least(q), q.output, token)
  }

  /** No bad word stands anywhere in the output, and no stop token among the first ones. */
  ghost predicate Spotless(q: Req) {
    && Masks.FreeOf(q.sampling.badWords, q.output)
    && forall i | 0 <= i < |q.output| && i < q.sampling.minTokens :: q.output[i] !in q.sampling.stopIds
  }

  lemma SpotlessSays(q: Req)
    ensures Spotless(q) <==>
            && (forall w, i, j | 0 <= w < |q.sampling.badWords| && q.sampling.badWords[w] != []
                                 && 0 <= i <= j <= |q.output| ::
                  q.output[i..j] != q.sampling.badWords[w])
            && forall i | 0 <= i < |q.output| && i < q.sampling.minTokens :: q.output[i] !in q.sampling.stopIds
  {
    hide Masks.FreeOf;
    Masks.FreeOfIs(q.sampling.badWords, q.output);
  }

  ghost predicate AllSpotless(reqs: map<ReqId, Req>) {
    forall id | id in reqs :: Spotless(reqs[id])
  }

  /** One more token keeps an output spotless exactly when it was free. */
  lemma GrowSpotless(q: Req, token: int)
    requires Spotless(q)
    ensures Spotless(Grow(q, token)) <==> Free(q, token)
  {
    var words, least, output := q.sampling.badWords, Least(q), q.output + [token];
    Masks.OutputIsClean(words, least, q.output);
    Masks.OutputIsClean(words, least, output);
    assert output[..|q.output|] == q.output;
    forall i | 0 <= i < |q.output| ensures output[..i] == q.output[..i] && output[i] == q.output[i] {}
  }

  /** Every token that counts is free for its request. */
  ghost predicate AllFree(reqs: map<ReqId, Req>, scheduled: map<ReqId, nat>, tokens: map<ReqId, int>)
    requires scheduled.Keys <= tokens.Keys
  {
    forall id | id in reqs && id in scheduled && Due(reqs[id], scheduled[id]) :: Free(reqs[id], tokens[id])
  }

  lemma SampledSpotless(reqs: map<ReqId, Req>, scheduled: map<ReqId, nat>, tokens: map<ReqId, int>)
    requires scheduled.Keys <= tokens.Keys && AllSpotless(reqs)
    ensures AllSpotless(Sampled(reqs, scheduled, tokens)) <==> AllFree(reqs, scheduled, tokens)
  {
    hide Spotless, Free;
    var after := Sampled(reqs, scheduled, tokens);
    forall id | id in reqs
      ensures Spotless(after[id])
              <==> (id in scheduled && Due(reqs[id], scheduled[id]) ==> Free(reqs[id], tokens[id]))
    {
      if id in scheduled && Due(reqs[id], scheduled[id]) {
        GrowSpotless(reqs[id], tokens[id]);
        GrowIs(reqs[id], tokens[id]);
      }
    }
  }

  // ---- the scheduler's word touches no output ----

  lemma FreshSpotless(n: NewRequest)
    ensures Spotless(Fresh(n))
  {}

  lemma UpdatedSpotless(q: Req, u: CachedUpdate)
    ensures Spotless(Updated(q, u)) <==> Spotless(q)
  {}

  lemma {:induction false} NewSpotless(reqs: map<ReqId, Req>, news: seq<NewRequest>, k: nat)
    requires k <= |news| && AllSpotless(reqs)
    ensures AllSpotless(WithNew(reqs, news, k))
  {
    if k > 0 {
      NewSpotless(reqs, news, k - 1);
      FreshSpotless(news[k - 1]);
    }
  }

  lemma {:induction false} CachedSpotless(reqs: map<ReqId, Req>, cached: seq<CachedUpdate>, k: nat)
    requires k <= |cached| && AllSpotless(reqs)
    ensures AllSpotless(WithCached(reqs, cached, k))
  {
    if k > 0 {
      hide Spotless, Updated;
      CachedSpotless(reqs, cached, k - 1);
      var before := WithCached(reqs, cached, k - 1);
      if cached[k - 1].id in before {
        UpdatedSpotless(before[cached[k - 1].id], cached[k - 1]);
      }
    }
  }

  lemma NextSpotless(reqs: map<ReqId, Req>, so: SchedulerOutput)
    requires AllSpotless(reqs)
    ensures AllSpotless(NextRequests(reqs, so))
  {
    var left := reqs - IdSet(so.finished);
    NewSpotless(left, so.news, |so.news|);
    CachedSpotless(WithNew(left, so.news, |so.news|), so.cached, |so.cached|);
  }

  /** A step keeps all outputs spotless exactly when every token that counts is free. */
  lemma StepSpotless(reqs: map<ReqId, Req>, step: Step)
    requires AllSpotless(reqs) && step.so.scheduled.Keys <= step.tokens.Keys
    ensures AllSpotless(AfterStep(reqs, step)) <==> AllFree(NextRequests(reqs, step.so), step.so.scheduled, step.tokens)
  {
    NextSpotless(reqs, step.so);
    SampledSpotless(NextRequests(reqs, step.so), step.so.scheduled, step.tokens);
  }
}
