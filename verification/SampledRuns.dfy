/** The runner with the sampler in it: tokens drawn under the batch's own bans keep every output spotless. */
module SampledRuns {
  import opened Basics
  import opened InputBatches
  import opened RunnerSpec
  import opened SampleSpec
  import opened ModelRunners
  import opened OutputSpec
  import opened Softmax
  import Masks = SamplingMasks
  import Draw = SamplingStep
  import Rows = Sampler

  // ---- the batch's bans are the requests' own ----

  function LeastOf(minTokens: map<nat, (nat, set<int>)>): map<nat, Masks.MinTokens> {
    map i | i in minTokens :: Masks.MinTokens(minTokens[i].0, minTokens[i].1)
  }

  function OutputsOf(batch: InputBatch): (r: seq<Option<seq<int>>>)
    reads batch, set i | 0 <= i < |batch.outputs| && batch.outputs[i].Some? :: batch.outputs[i].value
    ensures |r| == |batch.outputs|
  {
    seq(|batch.outputs|, i requires 0 <= i < |batch.outputs|
                           reads batch, set i | 0 <= i < |batch.outputs| && batch.outputs[i].Some? ::
                                 batch.outputs[i].value
      => if batch.outputs[i].Some? then Some(batch.outputs[i].value.ids) else None)
  }

  /** What the batch bans, together with a mask of disallowed tokens. */
  function BansOf(batch: InputBatch, anyAllowed: bool, disallowed: array2<bool>): Draw.Bans
    reads batch, set i | 0 <= i < |batch.outputs| && batch.outputs[i].Some? :: batch.outputs[i].value
  {
    Draw.Bans(anyAllowed, disallowed, LeastOf(batch.optionals.minTokens), batch.optionals.badWords, OutputsOf(batch))
  }

  lemma SlotSays(runner: ModelRunner, id: ReqId)
    requires runner.Valid() && id in runner.batch.index
    ensures id in runner.requests && runner.batch.index[id] < |runner.batch.outputs|
    ensures var b, slot, q := runner.batch, runner.batch.index[id], runner.requests[id].Snap();
            && Masks.Past(OutputsOf(b), slot) == q.output
            && Find(b.optionals.minTokens, slot)
               == (if q.sampling.minTokens > 0 then Some((q.sampling.minTokens, q.sampling.stopIds)) else None)
            && Find(b.optionals.badWords, slot)
               == if q.sampling.badWords != [] then Some(q.sampling.badWords) else None
  {
    runner.SlotIsOwn(id);
  }

  lemma NoWords(past: seq<int>, t: int)
    ensures !Masks.CompletesAny([], past, t)
  {}

  /** A live request's slot bans what the request itself bans. */
  lemma BansAreOwn(runner: ModelRunner, id: ReqId, t: int)
    requires runner.Valid() && id in runner.batch.index
    ensures id in runner.requests
    ensures var slot, q := runner.batch.index[id], runner.requests[id].Snap();
            var b := runner.batch;
            && (Masks.Early(LeastOf(b.optionals.minTokens), OutputsOf(b), slot, t)
                <==> Masks.TooEarly(Least(q), q.output, t))
            && (Masks.BadWord(b.optionals.badWords, OutputsOf(b), slot, t)
                <==> Masks.CompletesAny(q.sampling.badWords, q.output, t))
  {
    hide Masks.CompletesAny, ModelRunner.Valid;
    SlotSays(runner, id);
    var b, slot, q := runner.batch, runner.batch.index[id], runner.requests[id].Snap();
    NoWords(q.output, t);
  }

  // ---- drawing the tokens of a batch ----

  /** Stop tokens and last tokens of bad words are no negative ids. */
  ghost predicate Nonnegative(p: Sampling) {
    (forall t | t in p.stopIds :: t >= 0) && Masks.Indexable(p.badWords)
  }

  ghost predicate AllNonnegative(reqs: map<ReqId, Req>) {
    forall id | id in reqs :: Nonnegative(reqs[id].sampling)
  }

  lemma Occupant(runner: ModelRunner, r: nat) returns (id: ReqId)
    requires runner.Valid() && (r in runner.batch.optionals.minTokens || r in runner.batch.optionals.badWords)
    ensures id in runner.batch.index && runner.batch.index[id] == r
    ensures id in runner.requests && id in runner.Reqs() && runner.Reqs()[id] == runner.requests[id].Snap()
  {
    assert runner.batch.Full(r);
    id := runner.batch.reqIds[r].value;
    runner.SlotIsOwn(id);
  }

  lemma BansFit(runner: ModelRunner, anyAllowed: bool, disallowed: array2<bool>, padded: nat, vocab: nat)
    requires runner.Valid() && AllNonnegative(runner.Reqs())
    requires |runner.batch.reqIds| <= padded <= disallowed.Length0 && vocab == disallowed.Length1
    ensures Draw.Fits(BansOf(runner.batch, anyAllowed, disallowed), padded, vocab)
  {
    hide Masks.Indexable, ModelRunner.Valid;
    var b := runner.batch;
    forall r | r in b.optionals.minTokens || r in b.optionals.badWords
      ensures r < |b.outputs|
      ensures r in b.optionals.minTokens ==> forall t | t in b.optionals.minTokens[r].1 :: t >= 0
      ensures r in b.optionals.badWords ==> Masks.Indexable(b.optionals.badWords[r])
    {
      var id := Occupant(runner, r);
      SlotSays(runner, id);
    }
  }

  /** What a row is sampled from: its logits, its part of the metadata, and its noise. */
  datatype Input = Input(logits: seq<Logit>, meta: Rows.Metadata, noise: seq<real>) {
    predicate Sized(vocab: nat) {
      |logits| == vocab && meta.Fits(vocab) && |noise| == vocab && Rows.Noise(noise)
    }
  }

  /** Some token is left to the row. */
  ghost predicate HasToken(b: Draw.Bans, r: nat, logits: seq<Logit>)
    requires r < b.disallowed.Length0 && |logits| == b.disallowed.Length1
    reads b.disallowed
  {
    exists t :: 0 <= t < |logits| && logits[t].Fin? && !Draw.Banned(b, r, t)
  }

  method DrawOne(exp: real -> real, b: Draw.Bans, padded: nat, r: nat, input: Input) returns (token: nat)
    requires Exponential(exp) && input.Sized(b.disallowed.Length1) && Draw.Fits(b, padded, b.disallowed.Length1)
    requires r < padded && HasToken(b, r, input.logits)
    ensures token < b.disallowed.Length1 && !Draw.Banned(b, r, token)
  {
    hide Exponential, Draw.Banned;
    var logits := Rows.Rebound(input.logits);
    assert logits[..] == input.logits;
    token := Draw.NextToken(exp, b, padded, r, logits, input.meta, input.noise);
  }

  lemma Seated(runner: ModelRunner, r: nat) returns (id: ReqId)
    requires runner.Valid() && r < |runner.batch.reqIds|
    ensures runner.batch.reqIds[r] == Some(id) && id in runner.batch.index && runner.batch.index[id] == r
    ensures id in runner.requests && id in runner.Reqs() && runner.Reqs()[id] == runner.requests[id].Snap()
  {
    id := runner.batch.reqIds[r].value;
    assert runner.batch.reqIds[r] == Some(id);
    runner.SlotIsOwn(id);
  }

  lemma NotBanned(runner: ModelRunner, anyAllowed: bool, disallowed: array2<bool>, r: nat, token: int)
    requires runner.Valid() && r < |runner.batch.reqIds| && r < disallowed.Length0 && 0 <= token < disallowed.Length1
    requires !Draw.Banned(BansOf(runner.batch, anyAllowed, disallowed), r, token)
    ensures runner.batch.reqIds[r].Some? && runner.batch.reqIds[r].value in runner.requests
    ensures runner.batch.reqIds[r].value in runner.Reqs()
    ensures Free(runner.Reqs()[runner.batch.reqIds[r].value], token)
  {
    hide Masks.CompletesAny;
    var id := Seated(runner, r);
    hide ModelRunner.Valid;
    BansAreOwn(runner, id, token);
  }

  /** One token for every slot of the batch, under the batch's own bans: each is free for the
      request that sits there. */
  method DrawTokens(runner: ModelRunner, exp: real -> real, anyAllowed: bool, disallowed: array2<bool>, padded: nat,
                    inputs: seq<Input>)
    returns (selected: seq<int>)
    requires runner.Valid() && AllNonnegative(runner.Reqs()) && Exponential(exp)
    requires |runner.batch.reqIds| == |inputs| <= padded <= disallowed.Length0
    requires forall r: nat | r < |inputs| ::
               inputs[r].Sized(disallowed.Length1)
               && HasToken(BansOf(runner.batch, anyAllowed, disallowed), r, inputs[r].logits)
    ensures |selected| == |inputs|
    ensures forall r: nat | r < |selected| ::
              && runner.batch.reqIds[r].Some? && runner.batch.reqIds[r].value in runner.Reqs()
              && Free(runner.Reqs()[runner.batch.reqIds[r].value], selected[r])
  {
    hide Exponential, HasToken, Free, ModelRunner.Valid, Draw.Banned, Draw.Fits, AllNonnegative;
    BansFit(runner, anyAllowed, disallowed, padded, disallowed.Length1);
    var b := BansOf(runner.batch, anyAllowed, disallowed);
    forall r: nat, token: int
      | r < |inputs| && 0 <= token < disallowed.Length1 && !Draw.Banned(b, r, token)
      ensures runner.batch.reqIds[r].Some? && runner.batch.reqIds[r].value in runner.Reqs()
      ensures Free(runner.Reqs()[runner.batch.reqIds[r].value], token)
    {
      NotBanned(runner, anyAllowed, disallowed, r, token);
    }
    ghost var reqs := runner.Reqs();
    selected := [];
    for r := 0 to |inputs|
      invariant |selected| == r
      invariant forall i: nat | i < r ::
                  && runner.batch.reqIds[i].Some? && runner.batch.reqIds[i].value in reqs
                  && Free(reqs[runner.batch.reqIds[i].value], selected[i])
    {
      var token := DrawOne(exp, b, padded, r, inputs[r]);
      selected := selected + [token];
    }
  }

  // ---- whole runs ----

  lemma ChosenBy(runner: ModelRunner, selected: seq<int>) returns (tokens: map<ReqId, int>)
    requires runner.Valid() && |selected| == |runner.batch.reqIds|
    ensures tokens.Keys == runner.batch.index.Keys && Chosen(runner.batch.reqIds, selected, tokens)
    ensures forall r: nat | r < |selected| ::
              runner.batch.reqIds[r].Some? && runner.batch.reqIds[r].value in tokens
              && tokens[runner.batch.reqIds[r].value] == selected[r]
    ensures forall id | id in tokens :: exists r: nat :: r < |selected| && runner.batch.reqIds[r] == Some(id)
  {
    var index := runner.batch.index;
    forall id | id in index ensures index[id] < |selected| && runner.batch.reqIds[index[id]] == Some(id) {
      runner.SlotIsOwn(id);
    }
    tokens := map id | id in index :: selected[index[id]];
    forall r: nat | r < |selected|
      ensures runner.batch.reqIds[r].Some? && runner.batch.reqIds[r].value in index
      ensures index[runner.batch.reqIds[r].value] == r
    {
      var id := Seated(runner, r);
    }
  }

  /** Draw a token for every slot, and book what counts: some tokens that are free for their requests. */
  method DrawAndBook(runner: ModelRunner, scheduled: map<ReqId, nat>, exp: real -> real, anyAllowed: bool,
                     disallowed: array2<bool>, padded: nat, inputs: seq<Input>)
    returns (ghost tokens: map<ReqId, int>)
    requires runner.Valid() && AllNonnegative(runner.Reqs()) && Exponential(exp)
    requires runner.batch.index.Keys == scheduled.Keys && Bounded(runner.Reqs(), scheduled, runner.batch.maxLen)
    requires |runner.batch.reqIds| == |inputs| <= padded <= disallowed.Length0
    requires forall r: nat | r < |inputs| ::
               inputs[r].Sized(disallowed.Length1)
               && HasToken(BansOf(runner.batch, anyAllowed, disallowed), r, inputs[r].logits)
    modifies runner.Footprint() - {runner}, runner.batch`columns, runner.batch.tokenIds
    ensures runner.Valid() && tokens.Keys == scheduled.Keys && AllFree(old(runner.Reqs()), scheduled, tokens)
    ensures runner.Reqs() == Sampled(old(runner.Reqs()), scheduled, tokens)
  {
    hide Exponential, HasToken, Free, AllNonnegative, Bounded, Sampled, ModelRunner.Valid, ModelRunner.Reqs, Chosen;
    ghost var reqs := runner.Reqs();
    var selected := DrawTokens(runner, exp, anyAllowed, disallowed, padded, inputs);
    tokens := ChosenBy(runner, selected);
    forall id | id in reqs && id in scheduled ensures Free(reqs[id], tokens[id]) {
      var r: nat :| r < |selected| && runner.batch.reqIds[r] == Some(id);
    }
    var valid := runner.BookTokens(scheduled, selected, tokens);
  }

  /** What the model says of a request in a step, and what it is sampled with. */
  datatype Model = Model(logits: (nat, ReqId, Req) -> seq<Logit>, meta: (nat, ReqId) -> Rows.Metadata,
                         noise: (nat, ReqId) -> seq<real>)
  {
    function InputFor(k: nat, id: ReqId, q: Req): Input {
      Input(logits(k, id, q), meta(k, id), noise(k, id))
    }

    /** The row is well formed, and leaves the request a free token. */
    ghost predicate Serves(k: nat, id: ReqId, q: Req, vocab: nat) {
      && InputFor(k, id, q).Sized(vocab)
      && exists t :: 0 <= t < vocab && logits(k, id, q)[t].Fin? && Free(q, t)
    }
  }

  ghost predicate LegalDraw(reqs: map<ReqId, Req>, scheduled: map<ReqId, nat>, k: nat, model: Model, vocab: nat,
                            maxLen: nat) {
    && Bounded(reqs, scheduled, maxLen) && AllNonnegative(reqs)
    && forall id | id in scheduled && id in reqs :: model.Serves(k, id, reqs[id], vocab)
  }

  ghost predicate Draws(reqs: map<ReqId, Req>, scheduled: map<ReqId, nat>, tokens: map<ReqId, int>) {
    tokens.Keys == scheduled.Keys && AllFree(reqs, scheduled, tokens)
  }

  /** The scheduler keeps to the protocol and the model leaves every request a token, whichever free
      tokens are drawn. */
  ghost predicate LegalDraws(reqs: map<ReqId, Req>, live: set<ReqId>, sos: seq<SchedulerOutput>, k: nat, model: Model,
                             vocab: nat, maxReqs: nat, maxLen: nat)
    decreases |sos|
  {
    sos == []
    || (Legal(reqs, live, sos[0], maxReqs, maxLen) && LegalDraw(NextRequests(reqs, sos[0]), sos[0].scheduled, k, model,
                                                                vocab, maxLen)
        && forall tokens: map<ReqId, int> | Draws(NextRequests(reqs, sos[0]), sos[0].scheduled, tokens) ::
             LegalDraws(Sampled(NextRequests(reqs, sos[0]), sos[0].scheduled, tokens), sos[0].scheduled.Keys, sos[1..],
                        k + 1, model, vocab, maxReqs, maxLen))
  }

  /** A token that is free for the request is not banned in its slot. */
  lemma ServedRow(runner: ModelRunner, disallowed: array2<bool>, r: nat, k: nat, model: Model)
    requires runner.Valid() && r < |runner.batch.reqIds| && r < disallowed.Length0
    requires runner.batch.reqIds[r].Some? && runner.batch.reqIds[r].value in runner.Reqs()
    requires var id := runner.batch.reqIds[r].value; model.Serves(k, id, runner.Reqs()[id], disallowed.Length1)
    ensures var id := runner.batch.reqIds[r].value;
            HasToken(BansOf(runner.batch, false, disallowed), r, model.logits(k, id, runner.Reqs()[id]))
  {
    hide Masks.CompletesAny;
    var id := Seated(runner, r);
    hide ModelRunner.Valid;
    var q, logits := runner.Reqs()[id], model.logits(k, id, runner.Reqs()[id]);
    var t :| 0 <= t < disallowed.Length1 && logits[t].Fin? && Free(q, t);
    BansAreOwn(runner, id, t);
    assert !Draw.Banned(BansOf(runner.batch, false, disallowed), r, t);
  }

  /** The rows of a step, slot by slot. */
  method BuildInputs(runner: ModelRunner, k: nat, model: Model) returns (inputs: seq<Input>)
    requires runner.Valid()
    ensures |inputs| == |runner.batch.reqIds|
    ensures forall r: nat | r < |inputs| ::
              && runner.batch.reqIds[r].Some? && runner.batch.reqIds[r].value in runner.Reqs()
              && var id := runner.batch.reqIds[r].value; inputs[r] == model.InputFor(k, id, runner.Reqs()[id])
  {
    hide ModelRunner.Valid;
    ghost var reqs := runner.Reqs();
    forall r: nat | r < |runner.batch.reqIds|
      ensures runner.batch.reqIds[r].Some? && runner.batch.reqIds[r].value in runner.requests
      ensures runner.batch.reqIds[r].value in reqs
      ensures reqs[runner.batch.reqIds[r].value] == runner.requests[runner.batch.reqIds[r].value].Snap()
    {
      var id := Seated(runner, r);
    }
    inputs := [];
    for r := 0 to |runner.batch.reqIds|
      invariant |inputs| == r
      invariant forall i: nat | i < r ::
                  && runner.batch.reqIds[i].Some? && runner.batch.reqIds[i].value in reqs
                  && var id := runner.batch.reqIds[i].value; inputs[i] == model.InputFor(k, id, reqs[id])
    {
      var id := runner.batch.reqIds[r].value;
      inputs := inputs + [model.InputFor(k, id, runner.requests[id].Snap())];
    }
  }

  lemma AllServed(runner: ModelRunner, disallowed: array2<bool>, scheduled: map<ReqId, nat>, k: nat, model: Model,
                  inputs: seq<Input>)
    requires runner.Valid() && runner.batch.index.Keys == scheduled.Keys
    requires LegalDraw(runner.Reqs(), scheduled, k, model, disallowed.Length1, runner.batch.maxLen)
    requires |inputs| == |runner.batch.reqIds| <= disallowed.Length0
    requires forall r: nat | r < |inputs| ::
               && runner.batch.reqIds[r].Some? && runner.batch.reqIds[r].value in runner.Reqs()
               && var id := runner.batch.reqIds[r].value; inputs[r] == model.InputFor(k, id, runner.Reqs()[id])
    ensures forall r: nat | r < |inputs| ::
              inputs[r].Sized(disallowed.Length1)
              && HasToken(BansOf(runner.batch, false, disallowed), r, inputs[r].logits)
  {
    hide ModelRunner.Valid, HasToken, Free, AllNonnegative, Bounded;
    forall r: nat | r < |inputs|
      ensures inputs[r].Sized(disallowed.Length1)
      ensures HasToken(BansOf(runner.batch, false, disallowed), r, inputs[r].logits)
    {
      var id := Seated(runner, r);
      assert model.Serves(k, id, runner.Reqs()[id], disallowed.Length1);
      ServedRow(runner, disallowed, r, k, model);
    }
  }

  /** The scheduler's word alone. */
  method TakeIn(runner: ModelRunner, so: SchedulerOutput)
    requires runner.Valid()
    requires Legal(runner.Reqs(), runner.batch.index.Keys, so, runner.batch.maxReqs, runner.batch.maxLen)
    modifies runner.Footprint(), runner.batch, runner.batch.tokenIds
    ensures runner.Valid() && runner.Reqs() == NextRequests(old(runner.Reqs()), so)
    ensures runner.batch.index.Keys == so.scheduled.Keys
    ensures fresh(runner.Footprint() - old(runner.Footprint()))
  {
    hide ModelRunner.Valid, ModelRunner.Reqs, Legal, NextRequests, MovesBias, OwnBiases, Staying, ModelRunner.Tidied,
      ModelRunner.NothingLeft;
    var changed := runner.BringUp(so);
  }

  /** The model's rows, the draws, and the books. */
  method ServeAndBook(runner: ModelRunner, scheduled: map<ReqId, nat>, k: nat, model: Model, exp: real -> real,
                      vocab: nat)
    returns (ghost tokens: map<ReqId, int>)
    requires runner.Valid() && Exponential(exp) && runner.batch.index.Keys == scheduled.Keys
    requires LegalDraw(runner.Reqs(), scheduled, k, model, vocab, runner.batch.maxLen)
    modifies runner.Footprint() - {runner}, runner.batch`columns, runner.batch.tokenIds
    ensures runner.Valid() && Draws(old(runner.Reqs()), scheduled, tokens)
    ensures runner.Reqs() == Sampled(old(runner.Reqs()), scheduled, tokens)
  {
    hide ModelRunner.Valid, ModelRunner.Reqs, Exponential, HasToken, Free, Input.Sized,
      AllNonnegative, Bounded, Sampled;
    var inputs := BuildInputs(runner, k, model);
    var disallowed := new bool[|inputs|, vocab]((i, j) => false);
    AllServed(runner, disallowed, scheduled, k, model, inputs);
    tokens := DrawAndBook(runner, scheduled, exp, false, disallowed, |inputs|, inputs);
  }

  /** One step with the sampler in it: some free tokens are drawn, and booked. */
  method StepDrawn(runner: ModelRunner, so: SchedulerOutput, k: nat, model: Model, exp: real -> real, vocab: nat)
    returns (ghost tokens: map<ReqId, int>)
    requires runner.Valid() && Exponential(exp)
    requires Legal(runner.Reqs(), runner.batch.index.Keys, so, runner.batch.maxReqs, runner.batch.maxLen)
    requires LegalDraw(NextRequests(runner.Reqs(), so), so.scheduled, k, model, vocab, runner.batch.maxLen)
    modifies runner.Footprint(), runner.batch, runner.batch.tokenIds
    ensures runner.Valid() && runner.batch.index.Keys == so.scheduled.Keys
    ensures Draws(NextRequests(old(runner.Reqs()), so), so.scheduled, tokens)
    ensures runner.Reqs() == Sampled(NextRequests(old(runner.Reqs()), so), so.scheduled, tokens)
    ensures fresh(runner.Footprint() - old(runner.Footprint()))
  {
    hide ModelRunner.Valid, ModelRunner.Reqs, Exponential, LegalDraw, Legal, NextRequests, Sampled, AllFree;
    TakeIn(runner, so);
    tokens := ServeAndBook(runner, so.scheduled, k, model, exp, vocab);
  }

  /** One step of a legal run leaves a legal run, and spotless outputs. */
  lemma DrawsGoOn(reqs: map<ReqId, Req>, live: set<ReqId>, sos: seq<SchedulerOutput>, k: nat, model: Model, vocab: nat,
                  maxReqs: nat, maxLen: nat, tokens: map<ReqId, int>)
    requires LegalDraws(reqs, live, sos, k, model, vocab, maxReqs, maxLen) && sos != [] && AllSpotless(reqs)
    requires Draws(NextRequests(reqs, sos[0]), sos[0].scheduled, tokens)
    ensures var after := Sampled(NextRequests(reqs, sos[0]), sos[0].scheduled, tokens);
            && LegalDraws(after, sos[0].scheduled.Keys, sos[1..], k + 1, model, vocab, maxReqs, maxLen)
            && AllSpotless(after)
  {
    hide Legal, LegalDraw, NextRequests, Sampled, AllSpotless, AllFree;
    NextSpotless(reqs, sos[0]);
    SampledSpotless(NextRequests(reqs, sos[0]), sos[0].scheduled, tokens);
  }

  /** The run may go on from here with what the scheduler still has to say, and all outputs are spotless. */
  ghost predicate Drawing(runner: ModelRunner, sos: seq<SchedulerOutput>, k: nat, model: Model, vocab: nat)
    reads runner.Footprint(), runner.batch, runner.batch.tokenIds
  {
    && runner.Valid() && AllSpotless(runner.Reqs())
    && LegalDraws(runner.Reqs(), runner.batch.index.Keys, sos, k, model, vocab, runner.batch.maxReqs,
                  runner.batch.maxLen)
  }

  method DrawStep(runner: ModelRunner, sos: seq<SchedulerOutput>, k: nat, model: Model, exp: real -> real, vocab: nat)
    requires Drawing(runner, sos, k, model, vocab) && sos != [] && Exponential(exp)
    modifies runner.Footprint(), runner.batch, runner.batch.tokenIds
    ensures Drawing(runner, sos[1..], k + 1, model, vocab)
    ensures fresh(runner.Footprint() - old(runner.Footprint()))
  {
    hide ModelRunner.Valid, ModelRunner.Reqs, Exponential, Legal, LegalDraw, NextRequests, Sampled, AllSpotless, Draws;
    ghost var reqs, live := runner.Reqs(), runner.batch.index.Keys;
    var tokens := StepDrawn(runner, sos[0], k, model, exp, vocab);
    DrawsGoOn(reqs, live, sos, k, model, vocab, runner.batch.maxReqs, runner.batch.maxLen, tokens);
  }

  lemma DrawingIs(runner: ModelRunner, sos: seq<SchedulerOutput>, k: nat, model: Model, vocab: nat)
    requires Drawing(runner, sos, k, model, vocab)
    ensures runner.Valid() && AllSpotless(runner.Reqs())
  {
    hide ModelRunner.Valid, AllSpotless, LegalDraws;
  }

  /** A spotless request: no part of its output is one of its bad words, no early token one of its stop tokens. */
  lemma OutputSays(runner: ModelRunner, id: ReqId)
    requires AllSpotless(runner.Reqs()) && id in runner.requests
    ensures var words, output := runner.requests[id].sampling.badWords, runner.requests[id].output.ids;
            && (forall w, i, j | 0 <= w < |words| && words[w] != [] && 0 <= i <= j <= |output| ::
                  output[i..j] != words[w])
            && forall i | 0 <= i < |output| && i < runner.requests[id].sampling.minTokens ::
                 output[i] !in runner.requests[id].sampling.stopIds
  {
    hide Spotless;
    SpotlessSays(runner.Reqs()[id]);
  }

  /** Over every run whose tokens are drawn by the sampler under the batch's own bans, whatever the model, the metadata
      and the noise: no request's output ever contains one of its bad words, or a stop token too early. */
  method RunDrawn(runner: ModelRunner, sos: seq<SchedulerOutput>, model: Model, exp: real -> real, vocab: nat)
    requires Drawing(runner, sos, 0, model, vocab) && Exponential(exp)
    modifies runner.Footprint(), runner.batch, runner.batch.tokenIds
    ensures runner.Valid() && AllSpotless(runner.Reqs())
    ensures forall id | id in runner.requests ::
              var words, output := runner.requests[id].sampling.badWords, runner.requests[id].output.ids;
              && (forall w, i, j | 0 <= w < |words| && words[w] != [] && 0 <= i <= j <= |output| ::
                    output[i..j] != words[w])
              && forall i | 0 <= i < |output| && i < runner.requests[id].sampling.minTokens ::
                   output[i] !in runner.requests[id].sampling.stopIds
  {
    hide ModelRunner.Valid, ModelRunner.Reqs, ModelRunner.Footprint, Exponential, AllSpotless, LegalDraws, Drawing;
    var k := 0;
    assert sos[0..] == sos;
    while k < |sos|
      invariant 0 <= k <= |sos| && Drawing(runner, sos[k..], k, model, vocab)
      invariant fresh(runner.Footprint() - old(runner.Footprint()))
    {
      label Before:
      DrawStep(runner, sos[k..], k, model, exp, vocab);
      assert sos[k..][1..] == sos[k + 1..];
      forall o | o in runner.Footprint() && o !in old(runner.Footprint()) && o !in old@Before(runner.Footprint())
        ensures fresh(o)
      {
        assert fresh@Before(o);
      }
      k := k + 1;
    }
    DrawingIs(runner, sos[k..], k, model, vocab);
    forall id | id in runner.requests
      ensures var words, output := runner.requests[id].sampling.badWords, runner.requests[id].output.ids;
              && (forall w, i, j | 0 <= w < |words| && words[w] != [] && 0 <= i <= j <= |output| ::
                    output[i..j] != words[w])
              && forall i | 0 <= i < |output| && i < runner.requests[id].sampling.minTokens ::
                   output[i] !in runner.requests[id].sampling.stopIds
    {
      OutputSays(runner, id);
    }
  }
}
