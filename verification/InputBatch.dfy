/** The persistent batch: a table of slots, one request per slot, kept as parallel columns. */
module InputBatches {
  import opened Basics

  /** The sampling parameters a request brings. */
  datatype Sampling = Sampling(
    temperature: real, topP: real, topK: int, minP: real,
    frequency: real, presence: real, repetition: real,
    minTokens: nat, stopIds: set<int>, badWords: seq<seq<int>>, logitBias: Option<map<int, real>>)
  {
    /** The sampling type is greedy for a vanishing temperature. */
    predicate Greedy() {
      temperature < SAMPLING_EPS
    }
  }

  /** A list of output tokens, shared between a request and its slot. */
  class TokenList {
    var ids: seq<int>

    constructor ()
      ensures ids == []
    {
      ids := [];
    }

    method Append(token: int)
      modifies this
      ensures ids == old(ids) + [token]
    {
      ids := ids + [token];
    }
  }

  /** What is known of a request at one moment. */
  datatype Req = Req(prompt: seq<int>, output: seq<int>, sampling: Sampling, generator: Option<nat>, lora: Option<nat>,
                     computed: nat, blocks: seq<nat>)
  {
    function NumTokens(): nat {
      |prompt| + |output|
    }
  }

  /** The cached state of a request. */
  class CachedRequest {
    const id: ReqId
    const prompt: seq<int>
    const sampling: Sampling
    const generator: Option<nat>
    const lora: Option<nat>
    const output: TokenList
    var computed: nat
    var blocks: seq<nat>

    constructor (id: ReqId, prompt: seq<int>, sampling: Sampling, generator: Option<nat>, lora: Option<nat>,
                 computed: nat, blocks: seq<nat>)
      ensures this.id == id && this.prompt == prompt && this.sampling == sampling
      ensures this.generator == generator && this.lora == lora
      ensures this.computed == computed && this.blocks == blocks
      ensures fresh(output) && output.ids == []
    {
      this.id, this.prompt, this.sampling := id, prompt, sampling;
      this.generator, this.lora := generator, lora;
      this.computed, this.blocks := computed, blocks;
      output := new TokenList();
    }

    function Snap(): Req
      reads this, output
    {
      Req(prompt, output.ids, sampling, generator, lora, computed, blocks)
    }

    function NumTokens(): nat
      reads output
    {
      |prompt| + |output.ids|
    }

    /** Blocks are added to those of a running request, and replace those of a resumed one. */
    method Advance(computed: nat, blocks: Option<seq<nat>>, resumed: bool)
      requires resumed ==> blocks.Some?
      modifies this
      ensures Snap() == old(Snap()).(computed := computed,
                                     blocks := if resumed then blocks.value else Extended(old(this.blocks), blocks))
    {
      this.computed := computed;
      if !resumed {
        if blocks.Some? {
          this.blocks := this.blocks + blocks.value;
        }
      } else {
        this.blocks := blocks.value;
      }
    }
  }

  /** Everything a slot says about its request. */
  datatype Row = Row(
    output: TokenList, prompt: int, tokens: seq<int>, noSpec: int, computed: int, blocks: seq<nat>,
    temperature: real, topP: real, topK: int, minP: real, frequency: real, presence: real, repetition: real,
    lora: int, generator: Option<nat>, minTokens: Option<(nat, set<int>)>, badWords: Option<seq<seq<int>>>)

  /** The top-k a slot stores: the whole vocabulary when the request does not restrict it. */
  function StoredTopK(topK: int, vocab: int): int {
    if 0 < topK < vocab then topK else vocab
  }

  /** The row of a request that has just been added, sharing the list of its output tokens. */
  function RowOf(q: Req, output: TokenList, vocab: int): Row {
    Row(output, |q.prompt|, q.prompt + q.output, q.NumTokens(), q.computed, q.blocks,
        if q.sampling.Greedy() then 0.0 else q.sampling.temperature,
        q.sampling.topP, StoredTopK(q.sampling.topK, vocab), q.sampling.minP,
        q.sampling.frequency, q.sampling.presence, q.sampling.repetition,
        if q.lora.Some? then q.lora.value else 0,
        q.generator,
        if q.sampling.minTokens > 0 then Some((q.sampling.minTokens, q.sampling.stopIds)) else None,
        if q.sampling.badWords != [] then Some(q.sampling.badWords) else None)
  }

  function Find<T>(m: map<nat, T>, i: nat): Option<T> {
    if i in m then Some(m[i]) else None
  }

  predicate FullSlot(reqIds: seq<Option<ReqId>>, i: int) {
    0 <= i < |reqIds| && reqIds[i].Some?
  }

  /** The id table and the index are inverse to each other. */
  ghost predicate Inverse(reqIds: seq<Option<ReqId>>, index: map<ReqId, nat>) {
    && (forall id | id in index :: index[id] < |reqIds| && reqIds[index[id]] == Some(id))
    && (forall i | 0 <= i < |reqIds| && reqIds[i].Some? :: reqIds[i].value in index && index[reqIds[i].value] == i)
  }

  function SlotOf(index: map<ReqId, nat>, id: ReqId): Option<nat> {
    if id in index then Some(index[id]) else None
  }

  lemma InverseEntry(reqIds: seq<Option<ReqId>>, index: map<ReqId, nat>, id: ReqId)
    requires Inverse(reqIds, index) && id in index
    ensures index[id] < |reqIds| && reqIds[index[id]] == Some(id)
    ensures forall k | k in index && k != id :: index[k] != index[id]
  {
    forall k | k in index && k != id ensures index[k] != index[id] {
      assert reqIds[index[k]] == Some(k);
    }
  }

  /** Every live request has a full slot, and only its own one. */
  lemma Occupants(reqIds: seq<Option<ReqId>>, index: map<ReqId, nat>, slot: nat)
    requires Inverse(reqIds, index) && slot < |reqIds| && reqIds[slot].Some?
    ensures reqIds[slot].value in index && index[reqIds[slot].value] == slot
    ensures forall k | k in index :: FullSlot(reqIds, index[k]) && (k != reqIds[slot].value ==> index[k] != slot)
  {
    InverseEntry(reqIds, index, reqIds[slot].value);
  }

  function CountFull(reqIds: seq<Option<ReqId>>): nat {
    if reqIds == [] then 0
    else CountFull(reqIds[..|reqIds| - 1]) + if reqIds[|reqIds| - 1].Some? then 1 else 0
  }

  function Without(index: map<ReqId, nat>, id: ReqId): (rest: map<ReqId, nat>)
    ensures forall k :: k in rest <==> k in index && k != id
    ensures forall k | k in rest :: rest[k] == index[k]
  {
    map k | k in index && k != id :: index[k]
  }

  lemma WithoutNone(index: map<ReqId, nat>, id: ReqId)
    requires id !in index
    ensures Without(index, id) == index
  {}

  lemma WithoutSize(index: map<ReqId, nat>, id: ReqId)
    requires id in index
    ensures |index| == |Without(index, id)| + 1
  {
    assert index.Keys == Without(index, id).Keys + {id};
  }

  /** Dropping the last slot, with its entry if it is full, keeps table and index inverse. */
  lemma InverseFront(reqIds: seq<Option<ReqId>>, index: map<ReqId, nat>)
    requires Inverse(reqIds, index) && reqIds != []
    ensures var last := |reqIds| - 1;
            Inverse(reqIds[..last], if reqIds[last].Some? then Without(index, reqIds[last].value) else index)
  {
    var last := |reqIds| - 1;
    assert forall i :: 0 <= i < last ==> reqIds[..last][i] == reqIds[i];
  }

  /** There are as many entries in the index as full slots. */
  lemma {:induction false} IndexSize(reqIds: seq<Option<ReqId>>, index: map<ReqId, nat>)
    requires Inverse(reqIds, index)
    ensures |index| == CountFull(reqIds)
  {
    if reqIds == [] {
      assert index == map[];
    } else {
      var last := |reqIds| - 1;
      InverseFront(reqIds, index);
      if reqIds[last].Some? {
        IndexSize(reqIds[..last], Without(index, reqIds[last].value));
        WithoutSize(index, reqIds[last].value);
      } else {
        IndexSize(reqIds[..last], index);
      }
    }
  }

  /** Slots 0..n-1 full and the rest empty: n full slots. */
  lemma {:induction false} CountPrefix(reqIds: seq<Option<ReqId>>, n: nat)
    requires n <= |reqIds|
    requires forall i :: 0 <= i < n ==> reqIds[i].Some?
    requires forall i :: n <= i < |reqIds| ==> reqIds[i] == None
    ensures CountFull(reqIds) == n
  {
    if reqIds != [] {
      var last := |reqIds| - 1;
      CountPrefix(reqIds[..last], if n == |reqIds| then n - 1 else n);
    }
  }

  lemma {:induction false} CountAtMost(reqIds: seq<Option<ReqId>>)
    ensures CountFull(reqIds) <= |reqIds|
  {
    if reqIds != [] {
      CountAtMost(reqIds[..|reqIds| - 1]);
    }
  }

  /** With nothing full from `end` on, and an empty slot before it, fewer than `end` are full. */
  lemma {:induction false} CountWithHole(reqIds: seq<Option<ReqId>>, end: nat, hole: nat)
    requires hole < end <= |reqIds| && reqIds[hole] == None
    requires forall i :: end <= i < |reqIds| ==> reqIds[i] == None
    ensures CountFull(reqIds) < end
  {
    var last := |reqIds| - 1;
    if end <= last {
      CountWithHole(reqIds[..last], end, hole);
    } else if hole < last {
      CountWithHole(reqIds[..last], last, hole);
    } else {
      CountAtMost(reqIds[..last]);
    }
  }

  /** The parallel columns, one entry per slot. */
  datatype Columns = Columns(
    numTokens: seq<int>, noSpec: seq<int>, numPrompt: seq<int>, computed: seq<int>, blocks: seq<seq<nat>>,
    temperature: seq<real>, topP: seq<real>, topK: seq<int>, minP: seq<real>,
    frequency: seq<real>, presence: seq<real>, repetition: seq<real>,
    lora: seq<int>, logitBias: seq<Option<map<int, real>>>)
  {
    predicate Sized(n: nat) {
      && |numTokens| == |noSpec| == |numPrompt| == |computed| == |blocks| == n
      && |temperature| == |topP| == |topK| == |minP| == n
      && |frequency| == |presence| == |repetition| == |lora| == |logitBias| == n
    }
  }

  /** The entries that only some slots have. */
  datatype Optionals = Optionals(generators: map<nat, nat>, minTokens: map<nat, (nat, set<int>)>,
                                 badWords: map<nat, seq<seq<int>>>)

  /** The derived index sets. */
  datatype ReqSets = ReqSets(
    greedy: set<ReqId>, random: set<ReqId>, topP: set<ReqId>, topK: set<ReqId>, minP: set<ReqId>,
    frequency: set<ReqId>, presence: set<ReqId>, repetition: set<ReqId>)

  /** The LoRA maps: who uses an id, and which ids are loaded. */
  datatype Loras = Loras(toReqs: map<int, set<ReqId>>, requests: set<int>)

  // ---- the derived index sets agree with a scan of the rows ----

  ghost predicate Indexed(index: map<ReqId, nat>, n: nat) {
    forall id | id in index :: index[id] < n
  }

  /** Greedy and random requests, read off the columns. */
  ghost predicate KindScan(index: map<ReqId, nat>, c: Columns, sets: ReqSets, n: nat)
    requires c.Sized(n) && Indexed(index, n)
  {
    && (forall id :: id in sets.greedy <==> id in index && c.temperature[index[id]] < SAMPLING_EPS)
    && (forall id :: id in sets.random <==> id in index && c.temperature[index[id]] >= SAMPLING_EPS)
  }

  /** The requests whose filters do something. */
  ghost predicate FilterScan(index: map<ReqId, nat>, c: Columns, sets: ReqSets, n: nat, vocab: int)
    requires c.Sized(n) && Indexed(index, n)
  {
    && (forall id :: id in sets.topP <==> id in index && c.topP[index[id]] < 1.0)
    && (forall id :: id in sets.topK <==> id in index && c.topK[index[id]] != vocab)
    && (forall id :: id in sets.minP <==> id in index && c.minP[index[id]] > SAMPLING_EPS)
  }

  /** The requests that are penalized. */
  ghost predicate PenaltyScan(index: map<ReqId, nat>, c: Columns, sets: ReqSets, n: nat)
    requires c.Sized(n) && Indexed(index, n)
  {
    && (forall id :: id in sets.frequency <==> id in index && c.frequency[index[id]] != 0.0)
    && (forall id :: id in sets.presence <==> id in index && c.presence[index[id]] != 0.0)
    && (forall id :: id in sets.repetition <==> id in index && c.repetition[index[id]] != 1.0)
  }

  /** The index sets are what a scan of the live requests' columns finds. */
  ghost predicate SamplingScan(index: map<ReqId, nat>, c: Columns, sets: ReqSets, n: nat, vocab: int)
    requires c.Sized(n) && Indexed(index, n)
  {
    KindScan(index, c, sets, n) && FilterScan(index, c, sets, n, vocab) && PenaltyScan(index, c, sets, n)
  }

  ghost predicate LoraScan(index: map<ReqId, nat>, c: Columns, loras: Loras, n: nat)
    requires c.Sized(n) && Indexed(index, n)
  {
    && (forall l :: l in loras.toReqs ==> loras.toReqs[l] != {} && l != 0)
    && (forall l, id :: (l in loras.toReqs && id in loras.toReqs[l])
                        <==> (id in index && l != 0 && c.lora[index[id]] == l))
    && loras.requests == loras.toReqs.Keys
  }

  /** The members of a LoRA id, none for an id that is not loaded. */
  function Members(m: map<int, set<ReqId>>, l: int): set<ReqId> {
    if l in m then m[l] else {}
  }

  /** The columns of a slot, as a request fills them in; an absent logit bias leaves the old entry. */
  function PutColumns(c: Columns, slot: nat, prompt: nat, numTokens: nat, computed: nat, blocks: seq<nat>,
                      p: Sampling, lora: Option<nat>, vocab: int): (r: Columns)
    requires c.Sized(|c.lora|) && slot < |c.lora|
    ensures r.Sized(|c.lora|)
    ensures r.numTokens == c.numTokens[slot := numTokens]
    ensures r.logitBias == if p.logitBias.Some? then c.logitBias[slot := p.logitBias] else c.logitBias
  {
    c.(numPrompt := c.numPrompt[slot := prompt],
       numTokens := c.numTokens[slot := numTokens],
       noSpec := c.noSpec[slot := numTokens],
       computed := c.computed[slot := computed],
       blocks := c.blocks[slot := blocks],
       temperature := c.temperature[slot := if p.Greedy() then 0.0 else p.temperature],
       topP := c.topP[slot := p.topP],
       topK := c.topK[slot := StoredTopK(p.topK, vocab)],
       minP := c.minP[slot := p.minP],
       frequency := c.frequency[slot := p.frequency],
       presence := c.presence[slot := p.presence],
       repetition := c.repetition[slot := p.repetition],
       logitBias := if p.logitBias.Some? then c.logitBias[slot := p.logitBias] else c.logitBias,
       lora := c.lora[slot := if lora.Some? then lora.value else 0])
  }

  function Joining(s: set<ReqId>, id: ReqId, joins: bool): set<ReqId> {
    if joins then s + {id} else s
  }

  /** The index sets a request joins. */
  function PutSets(s: ReqSets, id: ReqId, p: Sampling, vocab: int): ReqSets {
    ReqSets(Joining(s.greedy, id, p.Greedy()), Joining(s.random, id, !p.Greedy()), Joining(s.topP, id, p.topP < 1.0),
            Joining(s.topK, id, 0 < p.topK < vocab), Joining(s.minP, id, p.minP > SAMPLING_EPS),
            Joining(s.frequency, id, p.frequency != 0.0), Joining(s.presence, id, p.presence != 0.0),
            Joining(s.repetition, id, p.repetition != 1.0))
  }

  function PutOptionals(o: Optionals, slot: nat, p: Sampling, generator: Option<nat>): Optionals {
    Optionals(if generator.Some? then o.generators[slot := generator.value] else o.generators,
              if p.minTokens > 0 then o.minTokens[slot := (p.minTokens, p.stopIds)] else o.minTokens,
              if p.badWords != [] then o.badWords[slot := p.badWords] else o.badWords)
  }

  function PutLora(loras: Loras, id: ReqId, lora: Option<nat>): Loras {
    match lora
    case Some(l) => Loras(loras.toReqs[l := Members(loras.toReqs, l) + {id}], loras.requests + {l})
    case None => loras
  }

  lemma PutKindScan(index: map<ReqId, nat>, c: Columns, s: ReqSets, n: nat, vocab: int, id: ReqId, slot: nat,
                    prompt: nat, numTokens: nat, computed: nat, blocks: seq<nat>, p: Sampling, lora: Option<nat>)
    requires c.Sized(n) && Indexed(index, n) && KindScan(index, c, s, n)
    requires id !in index && slot < n && forall k | k in index :: index[k] != slot
    ensures Indexed(index[id := slot], n)
    ensures KindScan(index[id := slot], PutColumns(c, slot, prompt, numTokens, computed, blocks, p, lora, vocab),
                    PutSets(s, id, p, vocab), n)
  {}

  lemma PutFilterScan(index: map<ReqId, nat>, c: Columns, s: ReqSets, n: nat, vocab: int, id: ReqId, slot: nat,
                      prompt: nat, numTokens: nat, computed: nat, blocks: seq<nat>, p: Sampling, lora: Option<nat>)
    requires c.Sized(n) && Indexed(index, n) && FilterScan(index, c, s, n, vocab)
    requires id !in index && slot < n && forall k | k in index :: index[k] != slot
    ensures Indexed(index[id := slot], n)
    ensures FilterScan(index[id := slot], PutColumns(c, slot, prompt, numTokens, computed, blocks, p, lora, vocab),
                      PutSets(s, id, p, vocab), n, vocab)
  {}

  lemma PutPenaltyScan(index: map<ReqId, nat>, c: Columns, s: ReqSets, n: nat, vocab: int, id: ReqId, slot: nat,
                       prompt: nat, numTokens: nat, computed: nat, blocks: seq<nat>, p: Sampling, lora: Option<nat>)
    requires c.Sized(n) && Indexed(index, n) && PenaltyScan(index, c, s, n)
    requires id !in index && slot < n && forall k | k in index :: index[k] != slot
    ensures Indexed(index[id := slot], n)
    ensures PenaltyScan(index[id := slot], PutColumns(c, slot, prompt, numTokens, computed, blocks, p, lora, vocab),
                       PutSets(s, id, p, vocab), n)
  {}

  lemma PutSetsScans(index: map<ReqId, nat>, c: Columns, s: ReqSets, n: nat, vocab: int, id: ReqId, slot: nat,
                     prompt: nat, numTokens: nat, computed: nat, blocks: seq<nat>, p: Sampling, lora: Option<nat>)
    requires c.Sized(n) && Indexed(index, n) && SamplingScan(index, c, s, n, vocab)
    requires id !in index && slot < n && forall k | k in index :: index[k] != slot
    ensures Indexed(index[id := slot], n)
    ensures SamplingScan(index[id := slot], PutColumns(c, slot, prompt, numTokens, computed, blocks, p, lora, vocab),
                         PutSets(s, id, p, vocab), n, vocab)
  {
    hide KindScan, FilterScan, PenaltyScan, PutColumns, PutSets;
    PutKindScan(index, c, s, n, vocab, id, slot, prompt, numTokens, computed, blocks, p, lora);
    PutFilterScan(index, c, s, n, vocab, id, slot, prompt, numTokens, computed, blocks, p, lora);
    PutPenaltyScan(index, c, s, n, vocab, id, slot, prompt, numTokens, computed, blocks, p, lora);
  }

  lemma PutLoraScans(index: map<ReqId, nat>, c: Columns, loras: Loras, n: nat, vocab: int, id: ReqId, slot: nat,
                     prompt: nat, numTokens: nat, computed: nat, blocks: seq<nat>, p: Sampling, lora: Option<nat>)
    requires c.Sized(n) && Indexed(index, n) && LoraScan(index, c, loras, n)
    requires id !in index && slot < n && forall k | k in index :: index[k] != slot
    requires lora.Some? ==> lora.value != 0
    ensures Indexed(index[id := slot], n)
    ensures LoraScan(index[id := slot], PutColumns(c, slot, prompt, numTokens, computed, blocks, p, lora, vocab),
                     PutLora(loras, id, lora), n)
  {
    var c', after := PutColumns(c, slot, prompt, numTokens, computed, blocks, p, lora, vocab), PutLora(loras, id, lora);
    forall l, k
      ensures (l in after.toReqs && k in after.toReqs[l])
              <==> (k in index[id := slot] && l != 0 && c'.lora[index[id := slot][k]] == l)
    {
      if k != id && l in loras.toReqs {
        assert k in after.toReqs[l] <==> k in loras.toReqs[l];
      }
    }
  }

  /** The slot table, possibly with holes. */
  ghost predicate TableOf(reqIds: seq<Option<ReqId>>, index: map<ReqId, nat>, outputs: seq<Option<TokenList>>,
                          c: Columns, o: Optionals, n: nat, maxLen: nat) {
    && c.Sized(n)
    && |reqIds| == |outputs| <= n
    && Inverse(reqIds, index) && Indexed(index, n)
    && (forall i | 0 <= i < |reqIds| :: outputs[i].Some? <==> reqIds[i].Some?)
    && (forall i | FullSlot(reqIds, i) :: 0 <= c.numTokens[i] <= maxLen)
    && (forall i | i in o.generators :: FullSlot(reqIds, i))
    && (forall i | i in o.minTokens :: FullSlot(reqIds, i))
    && (forall i | i in o.badWords :: FullSlot(reqIds, i))
  }

  /** What slot i says, given its tokens. */
  function SlotRow(output: TokenList, tokens: seq<int>, c: Columns, o: Optionals, i: nat): Row
    requires c.Sized(|c.lora|) && i < |c.lora|
  {
    Row(output, c.numPrompt[i], tokens, c.noSpec[i], c.computed[i], c.blocks[i],
        c.temperature[i], c.topP[i], c.topK[i], c.minP[i], c.frequency[i], c.presence[i], c.repetition[i], c.lora[i],
        Find(o.generators, i), Find(o.minTokens, i), Find(o.badWords, i))
  }

  lemma SameTokens(output: TokenList, tokens: seq<int>, tokens': seq<int>, c: Columns, o: Optionals, i: nat)
    requires c.Sized(|c.lora|) && i < |c.lora|
    ensures SlotRow(output, tokens', c, o, i) == SlotRow(output, tokens, c, o, i).(tokens := tokens')
    ensures SlotRow(output, tokens, c, o, i).tokens == tokens
  {}

  function PutAt<T>(s: seq<Option<T>>, slot: nat, v: T): seq<Option<T>>
    requires slot <= |s|
  {
    if slot < |s| then s[slot := Some(v)] else s + [Some(v)]
  }

  /** The filled slot says what the request says, and no other slot changes. */
  lemma PutRows(c: Columns, o: Optionals, slot: nat, prompt: nat, numTokens: nat, computed: nat, blocks: seq<nat>,
                p: Sampling, generator: Option<nat>, lora: Option<nat>, vocab: int, output: TokenList,
                tokens: seq<int>, i: nat)
    requires c.Sized(|c.lora|) && slot < |c.lora| && i < |c.lora|
    requires slot !in o.generators && slot !in o.minTokens && slot !in o.badWords
    ensures var c', o' := PutColumns(c, slot, prompt, numTokens, computed, blocks, p, lora, vocab),
            PutOptionals(o, slot, p, generator);
            SlotRow(output, tokens, c', o', i) ==
            if i == slot then
              Row(output, prompt, tokens, numTokens, computed, blocks, if p.Greedy() then 0.0 else p.temperature,
                  p.topP, StoredTopK(p.topK, vocab), p.minP, p.frequency, p.presence, p.repetition,
                  if lora.Some? then lora.value else 0, generator,
                  if p.minTokens > 0 then Some((p.minTokens, p.stopIds)) else None,
                  if p.badWords != [] then Some(p.badWords) else None)
            else SlotRow(output, tokens, c, o, i)
  {}

  /** The filled slot, column by column. */
  lemma PutReads(c: Columns, slot: nat, prompt: nat, numTokens: nat, computed: nat, blocks: seq<nat>, p: Sampling,
                 lora: Option<nat>, vocab: int)
    requires c.Sized(|c.lora|) && slot < |c.lora|
    ensures var c' := PutColumns(c, slot, prompt, numTokens, computed, blocks, p, lora, vocab);
            && c'.Sized(|c.lora|)
            && c'.numPrompt[slot] == prompt && c'.computed[slot] == computed
            && c'.numTokens[slot] == c'.noSpec[slot] == numTokens
            && c'.blocks[slot] == blocks && c'.topP[slot] == p.topP && c'.minP[slot] == p.minP
            && c'.temperature[slot] == (if p.temperature < 0.00001 then 0.0 else p.temperature)
            && c'.topK[slot] == (if 0 < p.topK < vocab then p.topK else vocab)
            && c'.frequency[slot] == p.frequency && c'.presence[slot] == p.presence
            && c'.repetition[slot] == p.repetition
            && c'.lora[slot] == if lora.Some? then lora.value else 0
  {}

  lemma PutInverse(reqIds: seq<Option<ReqId>>, index: map<ReqId, nat>, id: ReqId, slot: nat)
    requires Inverse(reqIds, index) && id !in index && slot <= |reqIds| && !FullSlot(reqIds, slot)
    ensures Inverse(PutAt(reqIds, slot, id), index[id := slot])
  {}

  lemma PutTable(reqIds: seq<Option<ReqId>>, index: map<ReqId, nat>, outputs: seq<Option<TokenList>>,
                 c: Columns, o: Optionals, n: nat, maxLen: nat, id: ReqId, output: TokenList, slot: nat,
                 c': Columns, numTokens: nat, p: Sampling, generator: Option<nat>)
    requires TableOf(reqIds, index, outputs, c, o, n, maxLen)
    requires id !in index && slot < n && slot <= |reqIds| && !FullSlot(reqIds, slot)
    requires c'.Sized(n) && c'.numTokens == c.numTokens[slot := numTokens] && numTokens <= maxLen
    ensures forall k | k in index :: index[k] != slot
    ensures TableOf(PutAt(reqIds, slot, id), index[id := slot], PutAt(outputs, slot, output),
                    c', PutOptionals(o, slot, p, generator), n, maxLen)
    ensures forall i | FullSlot(reqIds, i) :: i != slot && FullSlot(PutAt(reqIds, slot, id), i)
  {
    forall k | k in index ensures index[k] != slot {
      assert FullSlot(reqIds, index[k]);
    }
    forall i | FullSlot(reqIds, i) ensures i != slot && FullSlot(PutAt(reqIds, slot, id), i) {}
    PutInverse(reqIds, index, id, slot);
  }

  // ---- what removing a request does to each part ----

  function DropColumns(c: Columns, slot: nat): (r: Columns)
    requires c.Sized(|c.lora|) && slot < |c.lora|
    ensures r.Sized(|c.lora|) && r.numTokens == c.numTokens && r.logitBias == c.logitBias[slot := None]
  {
    c.(lora := c.lora[slot := 0], logitBias := c.logitBias[slot := None])
  }

  function DropSets(s: ReqSets, id: ReqId): ReqSets {
    ReqSets(s.greedy - {id}, s.random - {id}, s.topP - {id}, s.topK - {id}, s.minP - {id},
            s.frequency - {id}, s.presence - {id}, s.repetition - {id})
  }

  function DropOptionals(o: Optionals, slot: nat): Optionals {
    Optionals(o.generators - {slot}, o.minTokens - {slot}, o.badWords - {slot})
  }

  /** A LoRA id leaves with its last member. */
  function DropLora(loras: Loras, id: ReqId, l: int): Loras {
    if l == 0 || l !in loras.toReqs then loras
    else if loras.toReqs[l] - {id} == {} then Loras(loras.toReqs - {l}, loras.requests - {l})
    else loras.(toReqs := loras.toReqs[l := loras.toReqs[l] - {id}])
  }

  lemma DropTable(reqIds: seq<Option<ReqId>>, index: map<ReqId, nat>, outputs: seq<Option<TokenList>>,
                  c: Columns, o: Optionals, n: nat, maxLen: nat, id: ReqId)
    requires TableOf(reqIds, index, outputs, c, o, n, maxLen) && id in index
    ensures TableOf(reqIds[index[id] := None], Without(index, id), outputs[index[id] := None],
                    DropColumns(c, index[id]), DropOptionals(o, index[id]), n, maxLen)
    ensures forall i | FullSlot(reqIds, i) && i != index[id] :: FullSlot(reqIds[index[id] := None], i)
  {
    InverseEntry(reqIds, index, id);
  }

  lemma DropSetsScans(index: map<ReqId, nat>, c: Columns, s: ReqSets, n: nat, vocab: int, id: ReqId)
    requires c.Sized(n) && Indexed(index, n) && id in index && SamplingScan(index, c, s, n, vocab)
    ensures Indexed(Without(index, id), n)
    ensures SamplingScan(Without(index, id), DropColumns(c, index[id]), DropSets(s, id), n, vocab)
  {}

  lemma DropLoraScans(index: map<ReqId, nat>, c: Columns, loras: Loras, n: nat, id: ReqId)
    requires c.Sized(n) && Indexed(index, n) && id in index && forall k | k in index && k != id :: index[k] != index[id]
    requires LoraScan(index, c, loras, n)
    ensures Indexed(Without(index, id), n)
    ensures LoraScan(Without(index, id), DropColumns(c, index[id]), DropLora(loras, id, c.lora[index[id]]), n)
  {
    var l := c.lora[index[id]];
    var after, c' := DropLora(loras, id, l), DropColumns(c, index[id]);
    assert l != 0 ==> l in loras.toReqs && id in loras.toReqs[l];
    forall m, k
      ensures (m in after.toReqs && k in after.toReqs[m])
              <==> (k in Without(index, id) && m != 0 && c'.lora[Without(index, id)[k]] == m)
    {
      assert (m in loras.toReqs && k in loras.toReqs[m]) <==> (k in index && m != 0 && c.lora[index[k]] == m);
      if m == l && m in loras.toReqs {
        assert k in loras.toReqs[l] - {id} <==> k in loras.toReqs[l] && k != id;
      }
    }
  }

  lemma DropRows(c: Columns, o: Optionals, slot: nat, output: TokenList, tokens: seq<int>, i: nat)
    requires c.Sized(|c.lora|) && slot < |c.lora| && i < |c.lora| && i != slot
    ensures SlotRow(output, tokens, DropColumns(c, slot), DropOptionals(o, slot), i) == SlotRow(output, tokens, c, o, i)
  {}

  // ---- what moving a slot does to each part ----

  /** Every column entry of `from` is copied to `to`; the old entries stay behind. */
  function MoveColumns(c: Columns, from: nat, to: nat): (r: Columns)
    requires c.Sized(|c.lora|) && from < |c.lora| && to < |c.lora|
    ensures r.Sized(|c.lora|) && r.numTokens == c.numTokens[to := c.numTokens[from]]
    ensures r.logitBias == c.logitBias[to := c.logitBias[from]]
  {
    c.(numTokens := c.numTokens[to := c.numTokens[from]],
       noSpec := c.noSpec[to := c.noSpec[from]],
       numPrompt := c.numPrompt[to := c.numPrompt[from]],
       computed := c.computed[to := c.computed[from]],
       blocks := c.blocks[to := c.blocks[from]],
       lora := c.lora[to := c.lora[from]],
       temperature := c.temperature[to := c.temperature[from]],
       topP := c.topP[to := c.topP[from]],
       topK := c.topK[to := c.topK[from]],
       frequency := c.frequency[to := c.frequency[from]],
       presence := c.presence[to := c.presence[from]],
       repetition := c.repetition[to := c.repetition[from]],
       minP := c.minP[to := c.minP[from]],
       logitBias := c.logitBias[to := c.logitBias[from]])
  }

  /** Take the entry of `from` out, and put it under `to` if there is one. */
  function MoveKey<T>(m: map<nat, T>, from: nat, to: nat): map<nat, T> {
    if from in m then (m - {from})[to := m[from]] else m
  }

  function MoveOptionals(o: Optionals, from: nat, to: nat): Optionals {
    Optionals(MoveKey(o.generators, from, to), MoveKey(o.minTokens, from, to), MoveKey(o.badWords, from, to))
  }

  lemma MoveInverse(reqIds: seq<Option<ReqId>>, index: map<ReqId, nat>, n: nat, from: nat, to: nat)
    requires Inverse(reqIds, index) && Indexed(index, n) && |reqIds| <= n
    requires to < from < |reqIds| && reqIds[to] == None && reqIds[from].Some?
    ensures Inverse(reqIds[to := reqIds[from]][from := None], index[reqIds[from].value := to])
    ensures Indexed(index[reqIds[from].value := to], n)
  {}

  lemma MoveKeys<T>(m: map<nat, T>, reqIds: seq<Option<ReqId>>, from: nat, to: nat)
    requires to < from < |reqIds| && reqIds[to] == None && reqIds[from].Some?
    requires forall i | i in m :: FullSlot(reqIds, i)
    ensures forall i | i in MoveKey(m, from, to) :: FullSlot(reqIds[to := reqIds[from]][from := None], i)
  {}

  lemma MoveTable(reqIds: seq<Option<ReqId>>, index: map<ReqId, nat>, outputs: seq<Option<TokenList>>,
                  c: Columns, o: Optionals, n: nat, maxLen: nat, from: nat, to: nat)
    requires TableOf(reqIds, index, outputs, c, o, n, maxLen)
    requires to < from < |reqIds| && reqIds[to] == None && reqIds[from].Some?
    ensures TableOf(reqIds[to := reqIds[from]][from := None], index[reqIds[from].value := to],
                    outputs[to := outputs[from]][from := None], MoveColumns(c, from, to),
                    MoveOptionals(o, from, to), n, maxLen)
  {
    hide Inverse, MoveKey;
    MoveInverse(reqIds, index, n, from, to);
    MoveKeys(o.generators, reqIds, from, to);
    MoveKeys(o.minTokens, reqIds, from, to);
    MoveKeys(o.badWords, reqIds, from, to);
  }

  lemma MoveKindScan(index: map<ReqId, nat>, c: Columns, s: ReqSets, n: nat, vocab: int, id: ReqId, to: nat)
    requires c.Sized(n) && Indexed(index, n) && id in index && to < n && forall k | k in index :: index[k] != to
    requires KindScan(index, c, s, n)
    ensures Indexed(index[id := to], n)
    ensures KindScan(index[id := to], MoveColumns(c, index[id], to), s, n)
  {}

  lemma MoveFilterScan(index: map<ReqId, nat>, c: Columns, s: ReqSets, n: nat, vocab: int, id: ReqId, to: nat)
    requires c.Sized(n) && Indexed(index, n) && id in index && to < n && forall k | k in index :: index[k] != to
    requires FilterScan(index, c, s, n, vocab)
    ensures Indexed(index[id := to], n)
    ensures FilterScan(index[id := to], MoveColumns(c, index[id], to), s, n, vocab)
  {}

  lemma MovePenaltyScan(index: map<ReqId, nat>, c: Columns, s: ReqSets, n: nat, vocab: int, id: ReqId, to: nat)
    requires c.Sized(n) && Indexed(index, n) && id in index && to < n && forall k | k in index :: index[k] != to
    requires PenaltyScan(index, c, s, n)
    ensures Indexed(index[id := to], n)
    ensures PenaltyScan(index[id := to], MoveColumns(c, index[id], to), s, n)
  {}

  lemma MoveSetsScans(index: map<ReqId, nat>, c: Columns, s: ReqSets, n: nat, vocab: int, id: ReqId, to: nat)
    requires c.Sized(n) && Indexed(index, n) && id in index && to < n && forall k | k in index :: index[k] != to
    requires SamplingScan(index, c, s, n, vocab)
    ensures Indexed(index[id := to], n)
    ensures SamplingScan(index[id := to], MoveColumns(c, index[id], to), s, n, vocab)
  {
    hide KindScan, FilterScan, PenaltyScan, MoveColumns;
    MoveKindScan(index, c, s, n, vocab, id, to);
    MoveFilterScan(index, c, s, n, vocab, id, to);
    MovePenaltyScan(index, c, s, n, vocab, id, to);
  }

  lemma MoveLoraScans(index: map<ReqId, nat>, c: Columns, loras: Loras, n: nat, id: ReqId, to: nat)
    requires c.Sized(n) && Indexed(index, n) && id in index && to < n && forall k | k in index :: index[k] != to
    requires LoraScan(index, c, loras, n)
    ensures Indexed(index[id := to], n)
    ensures LoraScan(index[id := to], MoveColumns(c, index[id], to), loras, n)
  {}

  /** The moved row arrives whole, and no other row changes. */
  lemma MoveRows(c: Columns, o: Optionals, from: nat, to: nat, output: TokenList, tokens: seq<int>, i: nat)
    requires c.Sized(|c.lora|) && from < |c.lora| && to < |c.lora| && i < |c.lora| && i != from && from != to
    requires to !in o.generators && to !in o.minTokens && to !in o.badWords
    ensures SlotRow(output, tokens, MoveColumns(c, from, to), MoveOptionals(o, from, to), i)
            == SlotRow(output, tokens, c, o, if i == to then from else i)
  {}

  // ---- the logit bias, the one column that filling a slot does not always overwrite ----

  type Bias = Option<map<int, real>>

  /** The bias entry of every live request. */
  function BiasMap(index: map<ReqId, nat>, bias: seq<Bias>): (m: map<ReqId, Bias>)
    requires Indexed(index, |bias|)
    ensures m.Keys == index.Keys && forall id | id in index :: m[id] == bias[index[id]]
  {
    map id | id in index :: bias[index[id]]
  }

  /** What a request finds in its slot: its own bias, or what the slot had if it brings none. */
  function Found(own: Bias, left: Bias): Bias {
    if own.Some? then own else left
  }

  /** No bias lies in a slot that nobody is in. */
  ghost predicate Clean(reqIds: seq<Option<ReqId>>, bias: seq<Bias>) {
    forall i | 0 <= i < |bias| && !FullSlot(reqIds, i) :: bias[i] == None
  }

  lemma PutBias(reqIds: seq<Option<ReqId>>, index: map<ReqId, nat>, bias: seq<Bias>, id: ReqId, slot: nat, own: Bias)
    requires Inverse(reqIds, index) && Indexed(index, |bias|) && id !in index
    requires slot <= |reqIds| && slot < |bias| && !FullSlot(reqIds, slot)
    ensures var after := if own.Some? then bias[slot := own] else bias;
            && BiasMap(index[id := slot], after) == BiasMap(index, bias)[id := Found(own, bias[slot])]
            && (Clean(reqIds, bias) ==> Clean(PutAt(reqIds, slot, id), after) && Found(own, bias[slot]) == own)
  {
    forall k | k in index ensures index[k] != slot {
      assert FullSlot(reqIds, index[k]);
    }
    forall i | FullSlot(reqIds, i) ensures FullSlot(PutAt(reqIds, slot, id), i) {}
    assert FullSlot(PutAt(reqIds, slot, id), slot);
  }

  lemma DropBias(reqIds: seq<Option<ReqId>>, index: map<ReqId, nat>, bias: seq<Bias>, id: ReqId)
    requires Inverse(reqIds, index) && Indexed(index, |bias|) && id in index
    ensures BiasMap(Without(index, id), bias[index[id] := None]) == BiasMap(index, bias) - {id}
    ensures Clean(reqIds, bias) ==> Clean(reqIds[index[id] := None], bias[index[id] := None])
  {
    InverseEntry(reqIds, index, id);
    forall i | FullSlot(reqIds, i) && i != index[id] ensures FullSlot(reqIds[index[id] := None], i) {}
  }

  /** Only slots that were holes, and lie below the remaining ones, have had their bias overwritten. */
  ghost predicate Overwrites(reqIds: seq<Option<ReqId>>, empty: seq<nat>, before: seq<Bias>, bias: seq<Bias>) {
    && |bias| == |before|
    && forall i | 0 <= i < |bias| && bias[i] != before[i] :: FullSlot(reqIds, i) && forall h | h in empty :: i < h
  }

  /** A list of slots, largest first, without repetition. */
  predicate Descending(s: seq<nat>) {
    forall i, j :: 0 <= i < j < |s| ==> s[i] > s[j]
  }

  lemma NoHoleBelow(empty: seq<nat>, hole: nat)
    requires Descending(empty) && empty != [] && hole == empty[|empty| - 1]
    ensures forall i | i in empty :: hole <= i
  {}

  /** Dropping the smallest entry keeps the order, and loses that entry only. */
  lemma PopHole(empty: seq<nat>)
    requires Descending(empty) && empty != []
    ensures Descending(empty[..|empty| - 1])
    ensures forall i: int :: i in empty[..|empty| - 1] <==> i in empty && i != empty[|empty| - 1]
  {
    var front, hole := empty[..|empty| - 1], empty[|empty| - 1];
    assert empty == front + [hole];
  }

  /** Up to `last` the holes are the listed ones; from there on there is nothing else. */
  predicate HolesUpTo(reqIds: seq<Option<ReqId>>, empty: seq<nat>, last: int) {
    && Descending(empty) && -1 <= last < |reqIds|
    && (forall i | 0 <= i <= last :: reqIds[i] == None <==> i in empty)
    && (forall i | last < i < |reqIds| :: reqIds[i] == None)
  }

  /** One move overwrites the smallest hole's bias, and leaves the moved request's bias behind. */
  lemma MoveBias(reqIds: seq<Option<ReqId>>, empty: seq<nat>, before: seq<Bias>, bias: seq<Bias>, last: int)
    requires HolesUpTo(reqIds, empty, last) && empty != [] && Overwrites(reqIds, empty, before, bias)
    requires var hole := empty[|empty| - 1]; hole < last < |bias| && reqIds[last].Some?
    ensures var hole := empty[|empty| - 1];
            Overwrites(reqIds[hole := reqIds[last]][last := None], empty[..|empty| - 1], before,
                       bias[hole := bias[last]])
  {
    var hole, rest := empty[|empty| - 1], empty[..|empty| - 1];
    var after, moved := bias[hole := bias[last]], reqIds[hole := reqIds[last]][last := None];
    assert hole in empty;
    PopHole(empty);
    forall i | 0 <= i < |bias| && after[i] != before[i]
      ensures FullSlot(moved, i) && forall h | h in rest :: i < h
    {
      if i == hole {
        forall h | h in rest ensures hole < h {
          NoHoleBelow(empty, hole);
        }
      } else {
        assert i < hole;
      }
    }
  }

  /** Empty slots keep the bias they had; a request below n stays, and the slots from n on are empty. */
  ghost predicate Vacates(reqIds: seq<Option<ReqId>>, index: map<ReqId, nat>, places: map<ReqId, nat>,
                          before: seq<Bias>, bias: seq<Bias>) {
    && |before| == |bias| && Indexed(index, |bias|) && Indexed(places, |bias|) && index.Keys == places.Keys
    && BiasMap(index, bias) == BiasMap(places, before)
    && (forall i | 0 <= i < |bias| && !FullSlot(reqIds, i) :: bias[i] == before[i])
    && (forall id | id in index && places[id] < |reqIds| :: index[id] == places[id])
    && (forall id | id in index :: FullSlot(reqIds, index[id]))
  }

  /** A clean table stays clean through condense exactly when no request with a bias is moved. */
  lemma CleanAfterMoves(were: seq<Option<ReqId>>, reqIds: seq<Option<ReqId>>, index: map<ReqId, nat>,
                        places: map<ReqId, nat>,
                        before: seq<Bias>, bias: seq<Bias>)
    requires Inverse(were, places) && Clean(were, before) && Vacates(reqIds, index, places, before, bias)
    ensures Clean(reqIds, bias) <==> forall id | id in index && index[id] != places[id] :: bias[index[id]] == None
  {
    if Clean(reqIds, bias) {
      forall id | id in index && index[id] != places[id] ensures bias[index[id]] == None {
        assert BiasMap(index, bias)[id] == BiasMap(places, before)[id];
        assert !FullSlot(reqIds, places[id]);
      }
    }
    if forall id | id in index && index[id] != places[id] :: bias[index[id]] == None {
      forall i | 0 <= i < |bias| && !FullSlot(reqIds, i) ensures bias[i] == None {
        if FullSlot(were, i) {
          var id := were[i].value;
          assert id in index && places[id] == i;
          assert BiasMap(index, bias)[id] == BiasMap(places, before)[id];
        }
      }
    }
  }

  // ---- what a step writes into a row that stays ----

  /** Blocks already in a row, followed by those a step brings. */
  function Extended(blocks: seq<nat>, more: Option<seq<nat>>): seq<nat> {
    if more.Some? then blocks + more.value else blocks
  }

  function PutProgress(c: Columns, slot: nat, computed: nat, more: Option<seq<nat>>): (r: Columns)
    requires c.Sized(|c.lora|) && slot < |c.lora|
    ensures r.Sized(|c.lora|) && r.numTokens == c.numTokens
  {
    c.(computed := c.computed[slot := computed], blocks := c.blocks[slot := Extended(c.blocks[slot], more)])
  }

  lemma ProgressScans(index: map<ReqId, nat>, c: Columns, s: ReqSets, loras: Loras, n: nat, vocab: int, slot: nat,
                      computed: nat, more: Option<seq<nat>>)
    requires c.Sized(n) && Indexed(index, n) && slot < n
    requires SamplingScan(index, c, s, n, vocab) && LoraScan(index, c, loras, n)
    ensures SamplingScan(index, PutProgress(c, slot, computed, more), s, n, vocab)
    ensures LoraScan(index, PutProgress(c, slot, computed, more), loras, n)
  {}

  lemma ProgressTable(reqIds: seq<Option<ReqId>>, index: map<ReqId, nat>, outputs: seq<Option<TokenList>>,
                      c: Columns, o: Optionals, n: nat, maxLen: nat, slot: nat, computed: nat, more: Option<seq<nat>>)
    requires TableOf(reqIds, index, outputs, c, o, n, maxLen) && slot < n
    ensures TableOf(reqIds, index, outputs, PutProgress(c, slot, computed, more), o, n, maxLen)
  {}

  lemma ProgressRows(c: Columns, o: Optionals, slot: nat, computed: nat, more: Option<seq<nat>>, output: TokenList,
                     tokens: seq<int>, i: nat)
    requires c.Sized(|c.lora|) && slot < |c.lora| && i < |c.lora|
    ensures var row := SlotRow(output, tokens, c, o, i);
            SlotRow(output, tokens, PutProgress(c, slot, computed, more), o, i) ==
            if i == slot then row.(computed := computed, blocks := Extended(row.blocks, more)) else row
  {}

  function PutToken(c: Columns, slot: nat): (r: Columns)
    requires c.Sized(|c.lora|) && slot < |c.lora|
    ensures r.Sized(|c.lora|) && r.numTokens == c.numTokens[slot := c.numTokens[slot] + 1]
  {
    c.(numTokens := c.numTokens[slot := c.numTokens[slot] + 1])
  }

  lemma TokenScans(index: map<ReqId, nat>, c: Columns, s: ReqSets, loras: Loras, n: nat, vocab: int, slot: nat)
    requires c.Sized(n) && Indexed(index, n) && slot < n
    requires SamplingScan(index, c, s, n, vocab) && LoraScan(index, c, loras, n)
    ensures SamplingScan(index, PutToken(c, slot), s, n, vocab) && LoraScan(index, PutToken(c, slot), loras, n)
  {}

  lemma TokenTable(reqIds: seq<Option<ReqId>>, index: map<ReqId, nat>, outputs: seq<Option<TokenList>>,
                   c: Columns, o: Optionals, n: nat, maxLen: nat, slot: nat)
    requires TableOf(reqIds, index, outputs, c, o, n, maxLen) && slot < n && c.numTokens[slot] < maxLen
    requires FullSlot(reqIds, slot)
    ensures TableOf(reqIds, index, outputs, PutToken(c, slot), o, n, maxLen)
  {}

  /** The token row is the only part of a row that grows. */
  lemma TokenRows(c: Columns, o: Optionals, slot: nat, output: TokenList, tokens: seq<int>, i: nat)
    requires c.Sized(|c.lora|) && slot < |c.lora| && i < |c.lora|
    ensures SlotRow(output, tokens, PutToken(c, slot), o, i) == SlotRow(output, tokens, c, o, i)
  {}

  // ---- what the scans say ----

  /** A live request is in the sets its own columns put it in. */
  lemma ScanOf(index: map<ReqId, nat>, c: Columns, s: ReqSets, loras: Loras, n: nat, vocab: int, id: ReqId)
    requires c.Sized(n) && Indexed(index, n) && id in index && SamplingScan(index, c, s, n, vocab)
             && LoraScan(index, c, loras, n)
    ensures var i := index[id];
            && (id in s.greedy <==> c.temperature[i] < SAMPLING_EPS)
            && (id in s.random <==> c.temperature[i] >= SAMPLING_EPS)
            && (id in s.topP <==> c.topP[i] < 1.0) && (id in s.topK <==> c.topK[i] != vocab)
            && (id in s.minP <==> c.minP[i] > SAMPLING_EPS) && (id in s.frequency <==> c.frequency[i] != 0.0)
            && (id in s.presence <==> c.presence[i] != 0.0) && (id in s.repetition <==> c.repetition[i] != 1.0)
    ensures forall l :: id in Members(loras.toReqs, l) <==> l != 0 && c.lora[index[id]] == l
  {}

  lemma ScalarsOf(output: TokenList, tokens: seq<int>, c: Columns, o: Optionals, i: nat)
    requires c.Sized(|c.lora|) && i < |c.lora|
    ensures var row := SlotRow(output, tokens, c, o, i);
            && row.temperature == c.temperature[i] && row.topP == c.topP[i] && row.topK == c.topK[i]
            && row.minP == c.minP[i]
            && row.frequency == c.frequency[i] && row.presence == c.presence[i] && row.repetition == c.repetition[i]
            && row.lora == c.lora[i]
  {}

  lemma SetsLive(index: map<ReqId, nat>, c: Columns, s: ReqSets, n: nat, vocab: int)
    requires c.Sized(n) && Indexed(index, n) && SamplingScan(index, c, s, n, vocab)
    ensures s.greedy + s.random == index.Keys && s.greedy !! s.random
    ensures s.topP <= index.Keys && s.topK <= index.Keys && s.minP <= index.Keys
    ensures s.frequency <= index.Keys && s.presence <= index.Keys && s.repetition <= index.Keys
  {}

  lemma LorasLive(index: map<ReqId, nat>, c: Columns, loras: Loras, n: nat)
    requires c.Sized(n) && Indexed(index, n) && LoraScan(index, c, loras, n)
    ensures loras.requests == loras.toReqs.Keys
    ensures forall l | l in loras.toReqs :: loras.toReqs[l] != {} && loras.toReqs[l] <= index.Keys
  {
    forall l, id | l in loras.toReqs && id in loras.toReqs[l] ensures id in index {}
  }

  lemma TableBounds(reqIds: seq<Option<ReqId>>, index: map<ReqId, nat>, outputs: seq<Option<TokenList>>,
                    c: Columns, o: Optionals, n: nat, maxLen: nat)
    requires TableOf(reqIds, index, outputs, c, o, n, maxLen)
    ensures Inverse(reqIds, index) && |reqIds| == |outputs| <= n && c.Sized(n)
    ensures forall k | k in index :: FullSlot(reqIds, index[k])
  {}

  lemma HasOutput(reqIds: seq<Option<ReqId>>, index: map<ReqId, nat>, outputs: seq<Option<TokenList>>,
                  c: Columns, o: Optionals, n: nat, maxLen: nat, slot: nat)
    requires TableOf(reqIds, index, outputs, c, o, n, maxLen) && FullSlot(reqIds, slot)
    ensures outputs[slot].Some?
  {}

  lemma TrimTable(reqIds: seq<Option<ReqId>>, index: map<ReqId, nat>, outputs: seq<Option<TokenList>>,
                  c: Columns, o: Optionals, n: nat, maxLen: nat, k: nat)
    requires TableOf(reqIds, index, outputs, c, o, n, maxLen) && k <= |reqIds|
    requires forall i | k <= i < |reqIds| :: reqIds[i] == None
    ensures TableOf(reqIds[..k], index, outputs[..k], c, o, n, maxLen)
  {}

  /** The listed slots are exactly the holes. */
  predicate ListsHoles(reqIds: seq<Option<ReqId>>, empty: seq<nat>) {
    && Descending(empty)
    && (forall i | 0 <= i < |reqIds| :: reqIds[i] == None <==> i in empty)
    && (forall i | i in empty :: i < |reqIds|)
  }

  /** Moving the last request into the smallest hole leaves the other holes, one slot further down. */
  lemma HoleFilled(reqIds: seq<Option<ReqId>>, empty: seq<nat>, last: int)
    requires HolesUpTo(reqIds, empty, last) && empty != []
    requires var hole := empty[|empty| - 1]; hole < last && reqIds[last].Some?
    ensures var hole := empty[|empty| - 1];
            && reqIds[hole] == None && CountFull(reqIds) <= last
            && HolesUpTo(reqIds[hole := reqIds[last]][last := None], empty[..|empty| - 1], last - 1)
  {
    assert empty[|empty| - 1] in empty;
    CountWithHole(reqIds, last + 1, empty[|empty| - 1]);
    PopHole(empty);
  }

  /** When no listed hole lies below `last`, exactly the slots up to `last` are full. */
  lemma NoHolesLeft(reqIds: seq<Option<ReqId>>, empty: seq<nat>, last: int)
    requires HolesUpTo(reqIds, empty, last)
    requires empty != [] ==> last >= 0 && reqIds[last].Some? && empty[|empty| - 1] >= last
    ensures CountFull(reqIds) == last + 1 <= |reqIds|
    ensures forall i | 0 <= i < |reqIds| :: reqIds[i].Some? <==> i < last + 1
  {
    if empty != [] {
      NoHoleBelow(empty, empty[|empty| - 1]);
    }
    CountPrefix(reqIds, last + 1);
  }

  lemma {:induction false} CountZero(reqIds: seq<Option<ReqId>>)
    requires CountFull(reqIds) == 0
    ensures forall i :: 0 <= i < |reqIds| ==> reqIds[i] == None
  {
    if reqIds != [] {
      CountZero(reqIds[..|reqIds| - 1]);
    }
  }

  lemma FirstListed(empty: seq<nat>)
    requires |empty| > 0
    ensures exists i :: i in empty && i >= 0
  {
    assert empty[0] in empty;
  }

  lemma {:induction false} HolesAndFull(reqIds: seq<Option<ReqId>>, empty: seq<nat>)
    requires ListsHoles(reqIds, empty)
    ensures CountFull(reqIds) + |empty| == |reqIds|
  {
    if reqIds == [] {
      if |empty| > 0 {
        FirstListed(empty);
        assert false;
      }
    } else {
      var last := |reqIds| - 1;
      var front := reqIds[..last];
      assert forall i :: 0 <= i < last ==> front[i] == reqIds[i];
      if reqIds[last].Some? {
        assert ListsHoles(front, empty);
        HolesAndFull(front, empty);
      } else {
        assert last in empty;
        assert empty[0] == last by {
          var i :| 0 <= i < |empty| && empty[i] == last;
          assert empty[0] in empty;
        }
        assert empty == [last] + empty[1..];
        assert forall i | i in empty[1..] :: i < last by {
          forall i | i in empty[1..] ensures i < last {
            var j :| 1 <= j < |empty| && empty[j] == i;
          }
        }
        HolesAndFull(front, empty[1..]);
      }
    }
  }

  lemma AllHoles(reqIds: seq<Option<ReqId>>, empty: seq<nat>)
    requires ListsHoles(reqIds, empty)
    ensures CountFull(reqIds) + |empty| == |reqIds| && HolesUpTo(reqIds, empty, |reqIds| - 1)
  {
    HolesAndFull(reqIds, empty);
  }

  class InputBatch {
    const maxReqs: nat
    const maxLen: nat
    const vocab: int

    var reqIds: seq<Option<ReqId>>
    var index: map<ReqId, nat>
    var outputs: seq<Option<TokenList>>
    const tokenIds: array2<int>
    var columns: Columns
    var optionals: Optionals
    var sets: ReqSets
    var loras: Loras

    predicate Full(i: int)
      reads this
    {
      FullSlot(reqIds, i)
    }

    /** The slot table, possibly with holes. */
    ghost predicate Table()
      reads this
    {
      && tokenIds.Length0 == maxReqs && tokenIds.Length1 == maxLen
      && TableOf(reqIds, index, outputs, columns, optionals, maxReqs, maxLen)
    }

    /** The tokens of slot i. */
    ghost function TokensAt(i: nat): (r: seq<int>)
      reads this, tokenIds
      requires Table() && Full(i)
      ensures |r| == columns.numTokens[i] && forall j :: 0 <= j < |r| ==> r[j] == tokenIds[i, j]
    {
      seq(columns.numTokens[i], j requires 0 <= j < maxLen reads tokenIds => tokenIds[i, j])
    }

    /** What slot i says. */
    ghost function RowAt(i: nat): Row
      reads this, tokenIds
      requires Table() && Full(i)
    {
      SlotRow(outputs[i].value, TokensAt(i), columns, optionals, i)
    }

    /** The abstract value of the batch: the row of every live request. */
    ghost function Rows(): (m: map<ReqId, Row>)
      reads this, tokenIds
      requires Table()
      ensures m.Keys == index.Keys
      ensures forall id | id in index :: m[id] == RowAt(index[id])
    {
      map id | id in index :: RowAt(index[id])
    }

    /** The bias entry of every live request. */
    ghost function Biases(): map<ReqId, Bias>
      reads this
      requires Table()
    {
      BiasMap(index, columns.logitBias)
    }

    lemma RowsAre(m: map<ReqId, Row>)
      requires Table() && m.Keys == index.Keys && forall k | k in index :: m[k] == RowAt(index[k])
      ensures Rows() == m
    {}

    ghost predicate Holding()
      reads this
    {
      && Table()
      && SamplingScan(index, columns, sets, maxReqs, vocab)
      && LoraScan(index, columns, loras, maxReqs)
    }

    /** Between steps there are no holes. */
    ghost predicate Valid()
      reads this
    {
      Holding() && forall i | 0 <= i < |reqIds| :: reqIds[i].Some?
    }

    constructor (maxReqs: nat, maxLen: nat, vocab: int)
      ensures this.maxReqs == maxReqs && this.maxLen == maxLen && this.vocab == vocab
      ensures Valid() && index == map[] && fresh(tokenIds)
      ensures forall i | 0 <= i < maxReqs :: columns.logitBias[i] == None
    {
      this.maxReqs, this.maxLen, this.vocab := maxReqs, maxLen, vocab;
      reqIds, index, outputs := [], map[], [];
      tokenIds := new int[maxReqs, maxLen]((i, j) => 0);
      var ints, reals := seq(maxReqs, i => 0), seq(maxReqs, i => 0.0);
      columns := Columns(ints, ints, ints, ints, seq(maxReqs, i => []), reals, reals, ints, reals, reals, reals, reals,
                         ints, seq(maxReqs, i => None));
      optionals := Optionals(map[], map[], map[]);
      sets := ReqSets({}, {}, {}, {}, {}, {}, {}, {});
      loras := Loras(map[], {});
    }

    // ---- add_request ----

    /** Copy prompt and output tokens to the front of the slot's token row. */
    method CopyTokens(request: CachedRequest, slot: nat)
      requires tokenIds.Length0 == maxReqs && tokenIds.Length1 == maxLen
      requires slot < maxReqs && request.NumTokens() <= maxLen
      modifies tokenIds
      ensures forall j | 0 <= j < request.NumTokens() :: tokenIds[slot, j] == (request.prompt + request.output.ids)[j]
      ensures forall i, j | 0 <= i < maxReqs && 0 <= j < maxLen && i != slot :: tokenIds[i, j] == old(tokenIds[i, j])
    {
      var start := |request.prompt|;
      forall j | 0 <= j < start {
        tokenIds[slot, j] := request.prompt[j];
      }
      forall j | start <= j < request.NumTokens() {
        tokenIds[slot, j] := request.output.ids[j - start];
      }
    }

    /** The updates of add_request, column by column. */
    method PutRequest(request: CachedRequest, slot: nat)
      requires tokenIds.Length0 == maxReqs && tokenIds.Length1 == maxLen && columns.Sized(maxReqs)
      requires slot < maxReqs && slot <= |reqIds| == |outputs| && request.NumTokens() <= maxLen
      modifies this, tokenIds
      ensures reqIds == PutAt(old(reqIds), slot, request.id) && outputs == PutAt(old(outputs), slot, request.output)
      ensures index == old(index)[request.id := slot]
      ensures columns == PutColumns(old(columns), slot, |request.prompt|, request.NumTokens(), request.computed,
                                    request.blocks,
                                    request.sampling, request.lora, vocab)
      ensures optionals == PutOptionals(old(optionals), slot, request.sampling, request.generator)
      ensures sets == PutSets(old(sets), request.id, request.sampling, vocab)
      ensures loras == PutLora(old(loras), request.id, request.lora)
      ensures forall j | 0 <= j < request.NumTokens() :: tokenIds[slot, j] == (request.prompt + request.output.ids)[j]
      ensures forall i, j | 0 <= i < maxReqs && 0 <= j < maxLen && i != slot :: tokenIds[i, j] == old(tokenIds[i, j])
    {
      CopyTokens(request, slot);
      reqIds, index, outputs := PutAt(reqIds, slot, request.id), index[request.id := slot],
        PutAt(outputs, slot, request.output);
      columns := PutColumns(columns, slot, |request.prompt|, request.NumTokens(), request.computed, request.blocks,
                            request.sampling, request.lora, vocab);
      optionals := PutOptionals(optionals, slot, request.sampling, request.generator);
      sets, loras := PutSets(sets, request.id, request.sampling, vocab), PutLora(loras, request.id, request.lora);
    }

    /** Fill a free slot.  The logit bias is the one column that an absent option does not clear. */
    method AddRequest(request: CachedRequest, reqIndex: Option<nat>) returns (slot: nat)
      requires Holding() && request.id !in index
      requires match reqIndex
               case Some(i) => i < |reqIds| && reqIds[i] == None
               case None => |index| == |reqIds| < maxReqs
      requires request.NumTokens() <= maxLen
      requires request.lora.Some? ==> request.lora.value != 0
      modifies this, tokenIds
      ensures columns.Sized(maxReqs) && slot < maxReqs
      ensures var c, p := columns, request.sampling;
              && c.numPrompt[slot] == |request.prompt| && c.computed[slot] == request.computed
              && c.numTokens[slot] == c.noSpec[slot] == |request.prompt| + |request.output.ids|
              && c.blocks[slot] == request.blocks && c.topP[slot] == p.topP && c.minP[slot] == p.minP
              && c.temperature[slot] == (if p.temperature < 0.00001 then 0.0 else p.temperature)
              && c.topK[slot] == (if 0 < p.topK < vocab then p.topK else vocab)
              && c.frequency[slot] == p.frequency && c.presence[slot] == p.presence
              && c.repetition[slot] == p.repetition
              && c.lora[slot] == if request.lora.Some? then request.lora.value else 0
      ensures Holding()
      ensures slot == (if reqIndex.Some? then reqIndex.value else |old(reqIds)|)
      ensures slot <= |old(reqIds)| && reqIds == PutAt(old(reqIds), slot, request.id)
      ensures index == old(index)[request.id := slot]
      ensures RowAt(slot) == RowOf(request.Snap(), request.output, vocab)
      ensures forall i | 0 <= i < |old(reqIds)| && old(reqIds)[i].Some? :: Full(i) && RowAt(i) == old(RowAt(i))
      ensures columns.logitBias == if request.sampling.logitBias.Some?
                                   then old(columns.logitBias)[slot := request.sampling.logitBias]
                                   else old(columns.logitBias)
    {
      hide Inverse, SamplingScan, LoraScan, PutColumns, PutOptionals, SlotRow;
      slot := match reqIndex case Some(i) => i case None => |index|;
      ghost var c, o, p := columns, optionals, request.sampling;
      ghost var prompt, n := |request.prompt|, request.NumTokens();
      PutRequest(request, slot);
      PutReads(c, slot, prompt, n, request.computed, request.blocks, p, request.lora, vocab);
      PutTable(old(reqIds), old(index), old(outputs), c, o, maxReqs, maxLen, request.id, request.output, slot,
               columns, n, p,
               request.generator);
      PutSetsScans(old(index), c, old(sets), maxReqs, vocab, request.id, slot, prompt, n, request.computed,
                   request.blocks,
                   p, request.lora);
      PutLoraScans(old(index), c, old(loras), maxReqs, vocab, request.id, slot, prompt, n, request.computed,
                   request.blocks,
                   p, request.lora);
      assert TokensAt(slot) == request.prompt + request.output.ids;
      PutRows(c, o, slot, prompt, n, request.computed, request.blocks, p, request.generator, request.lora, vocab,
              request.output, TokensAt(slot), slot);
      forall i | 0 <= i < |old(reqIds)| && old(reqIds)[i].Some? ensures Full(i) && RowAt(i) == old(RowAt(i)) {
        assert TokensAt(i) == old(TokensAt(i));
        PutRows(c, o, slot, prompt, n, request.computed, request.blocks, p, request.generator, request.lora, vocab,
                outputs[i].value, TokensAt(i), i);
      }
    }

    /** Adding a request adds its row, and keeps every other one. */
    method Add(request: CachedRequest, reqIndex: Option<nat>) returns (slot: nat)
      requires Holding() && request.id !in index
      requires match reqIndex
               case Some(i) => i < |reqIds| && reqIds[i] == None
               case None => |index| == |reqIds| < maxReqs
      requires request.NumTokens() <= maxLen
      requires request.lora.Some? ==> request.lora.value != 0
      modifies this, tokenIds
      ensures Holding()
      ensures slot == (if reqIndex.Some? then reqIndex.value else |old(reqIds)|)
      ensures slot <= |old(reqIds)| && reqIds == PutAt(old(reqIds), slot, request.id)
      ensures Rows() == old(Rows())[request.id := RowOf(old(request.Snap()), request.output, vocab)]
      ensures index == old(index)[request.id := slot] && slot < maxReqs
      ensures columns.logitBias == if request.sampling.logitBias.Some?
                                   then old(columns.logitBias)[slot := request.sampling.logitBias]
                                   else old(columns.logitBias)
    {
      hide Inverse, SamplingScan, LoraScan, SlotRow, RowOf, TableOf, RowAt, PutAt;
      TableBounds(reqIds, index, outputs, columns, optionals, maxReqs, maxLen);
      ghost var rows := Rows()[request.id := RowOf(request.Snap(), request.output, vocab)];
      slot := AddRequest(request, reqIndex);
      RowsAre(rows);
    }

    /** The new request carries its own bias if it brings one; if not, it carries what its slot had:
        its own, in a clean table. */
    method AddTracked(request: CachedRequest, reqIndex: Option<nat>) returns (slot: nat)
      requires Holding() && request.id !in index
      requires match reqIndex
               case Some(i) => i < |reqIds| && reqIds[i] == None
               case None => |index| == |reqIds| < maxReqs
      requires request.NumTokens() <= maxLen
      requires request.lora.Some? ==> request.lora.value != 0
      modifies this, tokenIds
      ensures Holding() && slot < maxReqs
      ensures slot == (if reqIndex.Some? then reqIndex.value else |old(reqIds)|)
      ensures slot <= |old(reqIds)| && reqIds == PutAt(old(reqIds), slot, request.id)
      ensures index == old(index)[request.id := slot]
      ensures Rows() == old(Rows())[request.id := RowOf(old(request.Snap()), request.output, vocab)]
      ensures Biases() == old(Biases())[request.id := Found(request.sampling.logitBias, old(columns.logitBias)[slot])]
      ensures Biases()[request.id] == request.sampling.logitBias
              <==> request.sampling.logitBias.Some? || old(columns.logitBias)[slot] == None
      ensures old(Clean(reqIds, columns.logitBias)) ==>
                Clean(reqIds, columns.logitBias) && Biases() == old(Biases())[request.id := request.sampling.logitBias]
      ensures request.sampling.logitBias == None ==> columns.logitBias == old(columns.logitBias)
    {
      hide Inverse, SamplingScan, LoraScan, SlotRow, RowOf, TableOf, RowAt, PutAt, BiasMap, Clean, Rows;
      TableBounds(reqIds, index, outputs, columns, optionals, maxReqs, maxLen);
      ghost var at := if reqIndex.Some? then reqIndex.value else |reqIds|;
      PutBias(reqIds, index, columns.logitBias, request.id, at, request.sampling.logitBias);
      slot := Add(request, reqIndex);
    }

    // ---- remove_request ----

    /** The updates of remove_request, part by part. */
    method ClearSlot(id: ReqId, slot: nat)
      requires |reqIds| == |outputs| && slot < |reqIds| && slot < |columns.lora| && columns.Sized(|columns.lora|)
      modifies `reqIds, `index, `outputs, `columns, `optionals, `sets, `loras
      ensures index == Without(old(index), id)
      ensures reqIds == old(reqIds)[slot := None] && outputs == old(outputs)[slot := None]
      ensures columns == DropColumns(old(columns), slot) && optionals == DropOptionals(old(optionals), slot)
      ensures sets == DropSets(old(sets), id) && loras == DropLora(old(loras), id, old(columns).lora[slot])
    {
      index := Without(index, id);
      reqIds, outputs := reqIds[slot := None], outputs[slot := None];
      loras := DropLora(loras, id, columns.lora[slot]);
      columns, sets, optionals := DropColumns(columns, slot), DropSets(sets, id), DropOptionals(optionals, slot);
    }

    /** Empty the slot of a request; an unknown id changes nothing. */
    method RemoveRequest(id: ReqId) returns (slot: Option<nat>)
      requires Holding()
      modifies this
      ensures Holding()
      ensures slot == SlotOf(old(index), id)
      ensures slot == None ==> reqIds == old(reqIds) && index == old(index) && columns == old(columns)
      ensures slot.Some? ==>
                && slot.value < |old(reqIds)| && old(reqIds)[slot.value] == Some(id)
                && reqIds == old(reqIds)[slot.value := None]
                && index == Without(old(index), id)
                && columns.logitBias == old(columns.logitBias)[slot.value := None]
      ensures forall i | old(Full(i)) && Some(i) != slot :: Full(i) && RowAt(i) == old(RowAt(i))
    {
      hide Inverse, SamplingScan, LoraScan, SlotRow, DropOptionals;
      slot := SlotOf(index, id);
      if slot.Some? {
        var i := index[id];
        InverseEntry(reqIds, index, id);
        ClearSlot(id, i);
        DropTable(old(reqIds), old(index), old(outputs), old(columns), old(optionals), maxReqs, maxLen, id);
        DropSetsScans(old(index), old(columns), old(sets), maxReqs, vocab, id);
        DropLoraScans(old(index), old(columns), old(loras), maxReqs, id);
        forall j | old(Full(j)) && j != i ensures Full(j) && RowAt(j) == old(RowAt(j)) {
          assert TokensAt(j) == old(TokensAt(j));
          DropRows(old(columns), old(optionals), i, outputs[j].value, TokensAt(j), j);
        }
      }
    }

    /** Removing a request removes its row, and keeps every other one. */
    method Remove(id: ReqId) returns (slot: Option<nat>)
      requires Holding()
      modifies this
      ensures Holding()
      ensures slot == SlotOf(old(index), id)
      ensures slot == None ==> reqIds == old(reqIds)
      ensures slot.Some? ==> slot.value < |old(reqIds)| && old(reqIds)[slot.value].Some?
      ensures slot.Some? ==> reqIds == old(reqIds)[slot.value := None]
      ensures Rows() == old(Rows()) - {id}
      ensures slot.Some? ==> index == Without(old(index), id)
      ensures slot.Some? ==> columns.logitBias == old(columns.logitBias)[slot.value := None]
      ensures slot == None ==> index == old(index) && columns.logitBias == old(columns.logitBias)
    {
      hide Inverse, SamplingScan, LoraScan, SlotRow, TableOf, RowAt;
      TableBounds(reqIds, index, outputs, columns, optionals, maxReqs, maxLen);
      if id in index {
        Occupants(reqIds, index, index[id]);
      }
      ghost var rows := Rows() - {id};
      slot := RemoveRequest(id);
      RowsAre(rows);
    }

    /** A request leaves with its bias, and a clean table stays clean. */
    method RemoveTracked(id: ReqId) returns (slot: Option<nat>)
      requires Holding()
      modifies this
      ensures Holding()
      ensures slot == SlotOf(old(index), id)
      ensures slot == None ==> reqIds == old(reqIds)
      ensures slot.Some? ==> slot.value < |old(reqIds)| && old(reqIds)[slot.value].Some?
      ensures slot.Some? ==> reqIds == old(reqIds)[slot.value := None]
      ensures Rows() == old(Rows()) - {id}
      ensures index == Without(old(index), id) && Biases() == old(Biases()) - {id}
      ensures old(Clean(reqIds, columns.logitBias)) ==> Clean(reqIds, columns.logitBias)
    {
      hide Inverse, SamplingScan, LoraScan, SlotRow, TableOf, RowAt, BiasMap, Clean, Rows;
      TableBounds(reqIds, index, outputs, columns, optionals, maxReqs, maxLen);
      if id in index {
        DropBias(reqIds, index, columns.logitBias, id);
      } else {
        WithoutNone(index, id);
      }
      slot := Remove(id);
    }

    // ---- the writes of a step into a row that stays ----

    /** Record the progress of a request that is already in the batch. */
    method Progress(id: ReqId, computed: nat, more: Option<seq<nat>>)
      requires Holding() && id in index
      modifies `columns
      ensures Holding() && columns.logitBias == old(columns.logitBias)
      ensures Rows() == old(Rows())[id := old(Rows())[id].(computed := computed,
                                                          blocks := Extended(old(Rows())[id].blocks, more))]
    {
      hide Inverse, SamplingScan, LoraScan, SlotRow, TableOf;
      var slot := index[id];
      TableBounds(reqIds, index, outputs, columns, optionals, maxReqs, maxLen);
      Occupants(reqIds, index, slot);
      ProgressTable(reqIds, index, outputs, columns, optionals, maxReqs, maxLen, slot, computed, more);
      ProgressScans(index, columns, sets, loras, maxReqs, vocab, slot, computed, more);
      ghost var row := Rows()[id];
      ghost var rows := Rows()[id := row.(computed := computed, blocks := Extended(row.blocks, more))];
      columns := PutProgress(columns, slot, computed, more);
      forall k | k in index ensures RowAt(index[k]) == rows[k] {
        var i := index[k];
        assert TokensAt(i) == old(TokensAt(i));
        ProgressRows(old(columns), optionals, slot, computed, more, outputs[i].value, TokensAt(i), i);
      }
      RowsAre(rows);
    }

    /** Write a token behind the tokens of a slot. */
    method WriteToken(slot: nat, seqLen: nat, token: int)
      requires Holding() && Full(slot) && seqLen == columns.numTokens[slot] < maxLen
      modifies `columns, tokenIds
      ensures Holding() && columns.logitBias == old(columns.logitBias)
      ensures RowAt(slot) == old(RowAt(slot)).(tokens := old(RowAt(slot)).tokens + [token])
      ensures forall i | old(Full(i)) && i != slot :: RowAt(i) == old(RowAt(i))
    {
      hide Inverse, SamplingScan, LoraScan, SlotRow, TableOf;
      TableBounds(reqIds, index, outputs, columns, optionals, maxReqs, maxLen);
      HasOutput(reqIds, index, outputs, columns, optionals, maxReqs, maxLen, slot);
      TokenTable(reqIds, index, outputs, columns, optionals, maxReqs, maxLen, slot);
      TokenScans(index, columns, sets, loras, maxReqs, vocab, slot);
      tokenIds[slot, seqLen] := token;
      columns := PutToken(columns, slot);
      assert TokensAt(slot) == old(TokensAt(slot)) + [token];
      TokenRows(old(columns), optionals, slot, outputs[slot].value, TokensAt(slot), slot);
      SameTokens(outputs[slot].value, old(TokensAt(slot)), TokensAt(slot), old(columns), optionals, slot);
      forall i | old(Full(i)) && i != slot ensures RowAt(i) == old(RowAt(i)) {
        assert TokensAt(i) == old(TokensAt(i));
        TokenRows(old(columns), optionals, slot, outputs[i].value, TokensAt(i), i);
      }
    }

    /** Write a sampled token behind the tokens of a request. */
    method AppendToken(ghost id: ReqId, slot: nat, seqLen: nat, token: int)
      requires Holding() && id in index && index[id] == slot && seqLen == |Rows()[id].tokens| < maxLen
      modifies `columns, tokenIds
      ensures Holding() && columns.logitBias == old(columns.logitBias)
      ensures Rows() == old(Rows())[id := old(Rows())[id].(tokens := old(Rows())[id].tokens + [token])]
    {
      hide Inverse, SamplingScan, LoraScan, SlotRow, TableOf;
      TableBounds(reqIds, index, outputs, columns, optionals, maxReqs, maxLen);
      Occupants(reqIds, index, slot);
      HasOutput(reqIds, index, outputs, columns, optionals, maxReqs, maxLen, slot);
      SameTokens(outputs[slot].value, TokensAt(slot), TokensAt(slot), columns, optionals, slot);
      ghost var rows := Rows()[id := Rows()[id].(tokens := Rows()[id].tokens + [token])];
      WriteToken(slot, seqLen, token);
      RowsAre(rows);
    }

    // ---- condense ----

    /** The updates of one move, part by part. */
    method CopySlot(from: nat, to: nat)
      requires tokenIds.Length0 == maxReqs && tokenIds.Length1 == maxLen && columns.Sized(maxReqs)
      requires to < from < |reqIds| == |outputs| <= maxReqs && reqIds[from].Some?
               && 0 <= columns.numTokens[from] <= maxLen
      modifies `reqIds, `index, `outputs, `columns, `optionals, tokenIds
      ensures reqIds == old(reqIds)[to := old(reqIds)[from]][from := None]
      ensures outputs == old(outputs)[to := old(outputs)[from]][from := None]
      ensures index == old(index)[old(reqIds)[from].value := to]
      ensures columns == MoveColumns(old(columns), from, to) && optionals == MoveOptionals(old(optionals), from, to)
      ensures forall j | 0 <= j < old(columns).numTokens[from] :: tokenIds[to, j] == old(tokenIds[from, j])
      ensures forall i, j | 0 <= i < maxReqs && 0 <= j < maxLen && i != to :: tokenIds[i, j] == old(tokenIds[i, j])
    {
      index := index[reqIds[from].value := to];
      reqIds, outputs := reqIds[to := reqIds[from]][from := None], outputs[to := outputs[from]][from := None];
      forall j | 0 <= j < columns.numTokens[from] {
        tokenIds[to, j] := tokenIds[from, j];
      }
      columns, optionals := MoveColumns(columns, from, to), MoveOptionals(optionals, from, to);
    }

    method MoveSlot(from: nat, to: nat)
      requires Holding() && to < from && Full(from) && reqIds[to] == None
      modifies this, tokenIds
      ensures Holding()
      ensures reqIds == old(reqIds)[to := old(reqIds)[from]][from := None]
      ensures index == old(index)[old(reqIds)[from].value := to]
      ensures Full(to) && RowAt(to) == old(RowAt(from))
      ensures forall i | old(Full(i)) && i != from :: Full(i) && RowAt(i) == old(RowAt(i))
      ensures columns.logitBias == old(columns.logitBias)[to := old(columns.logitBias)[from]]
    {
      hide SamplingScan, LoraScan, SlotRow, MoveOptionals;
      ghost var id := reqIds[from].value;
      MoveTable(reqIds, index, outputs, columns, optionals, maxReqs, maxLen, from, to);
      assert forall k | k in index :: index[k] != to;
      MoveSetsScans(index, columns, sets, maxReqs, vocab, id, to);
      MoveLoraScans(index, columns, loras, maxReqs, id, to);
      CopySlot(from, to);
      assert TokensAt(to) == old(TokensAt(from));
      MoveRows(old(columns), old(optionals), from, to, outputs[to].value, TokensAt(to), to);
      forall i | old(Full(i)) && i != from ensures Full(i) && RowAt(i) == old(RowAt(i)) {
        assert TokensAt(i) == old(TokensAt(i));
        MoveRows(old(columns), old(optionals), from, to, outputs[i].value, TokensAt(i), i);
      }
    }

    /** One move keeps the row and the bias of every request. */
    method MoveDown(from: nat, to: nat)
      requires Holding() && to < from && Full(from) && reqIds[to] == None
      modifies this, tokenIds
      ensures Holding() && Rows() == old(Rows()) && Biases() == old(Biases())
      ensures columns.logitBias == old(columns.logitBias)[to := old(columns.logitBias)[from]]
      ensures reqIds == old(reqIds)[to := old(reqIds)[from]][from := None]
      ensures index.Keys == old(index).Keys
      ensures forall k | k in index && old(index)[k] != from :: index[k] == old(index)[k]
    {
      hide SamplingScan, LoraScan, SlotRow, Inverse, TableOf, BiasMap, InputBatch.RowAt;
      TableBounds(reqIds, index, outputs, columns, optionals, maxReqs, maxLen);
      Occupants(reqIds, index, from);
      MoveSlot(from, to);
      forall k | k in index ensures RowAt(index[k]) == old(RowAt(index[k])) {}
    }

    /** Every request has the row and the bias it had, and those that were below `n` are where they were. */
    ghost predicate Keeps(rows: map<ReqId, Row>, biases: map<ReqId, Bias>, places: map<ReqId, nat>, n: nat)
      reads this, tokenIds
      requires Table()
    {
      && Rows() == rows && Biases() == biases && index.Keys == places.Keys && |index| == n
      && forall k | k in index && places[k] < n :: index[k] == places[k]
    }

    /** What holds between two moves of condense. */
    ghost predicate Condensing(empty: seq<nat>, last: int, rows: map<ReqId, Row>, biases: map<ReqId, Bias>,
                               places: map<ReqId, nat>, n: nat, before: seq<Bias>)
      reads this, tokenIds
    {
      && Holding() && Keeps(rows, biases, places, n) && HolesUpTo(reqIds, empty, last) && CountFull(reqIds) == n
      && Overwrites(reqIds, empty, before, columns.logitBias)
    }

    /** One round of condense: the last request moves into the smallest hole. */
    method MoveLast(empty: seq<nat>, last: int, ghost rows: map<ReqId, Row>, ghost biases: map<ReqId, Bias>,
                    ghost places: map<ReqId, nat>, ghost n: nat, ghost before: seq<Bias>)
      requires Condensing(empty, last, rows, biases, places, n, before)
      requires empty != [] && Full(last) && empty[|empty| - 1] < last
      modifies this, tokenIds
      ensures Condensing(empty[..|empty| - 1], last - 1, rows, biases, places, n, before)
    {
      hide SamplingScan, LoraScan, SlotRow, Inverse, TableOf, RowAt, CountFull, HolesUpTo, Overwrites;
      TableBounds(reqIds, index, outputs, columns, optionals, maxReqs, maxLen);
      HoleFilled(reqIds, empty, last);
      MoveBias(reqIds, empty, before, columns.logitBias, last);
      MoveDown(last, empty[|empty| - 1]);
      TableBounds(reqIds, index, outputs, columns, optionals, maxReqs, maxLen);
      assert |index.Keys| == |places.Keys| == n;
      IndexSize(reqIds, index);
    }

    /** The largest full slot at or below `start`. */
    method LastFull(empty: seq<nat>, start: int, ghost rows: map<ReqId, Row>, ghost biases: map<ReqId, Bias>,
                    ghost places: map<ReqId, nat>, ghost n: nat, ghost before: seq<Bias>) returns (last: int)
      requires Condensing(empty, start, rows, biases, places, n, before) && n > 0
      ensures Full(last) && Condensing(empty, last, rows, biases, places, n, before)
    {
      hide Holding, Keeps;
      last := start;
      while last in empty
        invariant HolesUpTo(reqIds, empty, last)
        decreases last + 1
      {
        last := last - 1;
      }
      if last == -1 {
        CountPrefix(reqIds, 0);
      }
    }

    /** Cut the table to its first `n` slots. */
    method Trim(n: nat)
      requires Holding() && n <= |reqIds| && forall i | 0 <= i < |reqIds| :: reqIds[i].Some? <==> i < n
      modifies `reqIds, `outputs
      ensures Valid() && |reqIds| == n && Rows() == old(Rows()) && Biases() == old(Biases())
    {
      hide SamplingScan, LoraScan, SlotRow, Inverse, TableOf;
      TableBounds(reqIds, index, outputs, columns, optionals, maxReqs, maxLen);
      TrimTable(reqIds, index, outputs, columns, optionals, maxReqs, maxLen, n);
      reqIds, outputs := reqIds[..n], outputs[..n];
      forall k | k in index ensures RowAt(index[k]) == old(RowAt(index[k])) {
        assert TokensAt(index[k]) == old(TokensAt(index[k]));
      }
    }

    method MoveAllDown(emptyIndices: seq<nat>, ghost rows: map<ReqId, Row>, ghost biases: map<ReqId, Bias>,
                       ghost places: map<ReqId, nat>, n: nat, ghost before: seq<Bias>)
      returns (empty: seq<nat>, last: int)
      requires n > 0 && Condensing(emptyIndices, n + |emptyIndices| - 1, rows, biases, places, n, before)
      modifies this, tokenIds
      ensures Condensing(empty, last, rows, biases, places, n, before)
      ensures empty != [] ==> Full(last) && empty[|empty| - 1] >= last
    {
      hide Condensing;
      empty, last := emptyIndices, n + |emptyIndices| - 1;
      while empty != []
        invariant Condensing(empty, last, rows, biases, places, n, before)
        decreases |empty|
      {
        last := LastFull(empty, last, rows, biases, places, n, before);
        if empty[|empty| - 1] >= last {
          break;
        }
        MoveLast(empty, last, rows, biases, places, n, before);
        empty, last := empty[..|empty| - 1], last - 1;
      }
    }

    lemma CondenseStart(empty: seq<nat>)
      requires Holding() && ListsHoles(reqIds, empty)
      ensures |reqIds| == |index| + |empty|
      ensures Condensing(empty, |reqIds| - 1, Rows(), Biases(), index, |index|, columns.logitBias)
    {
      hide SamplingScan, LoraScan, SlotRow, RowAt, HolesUpTo, ListsHoles, Inverse, TableOf;
      TableBounds(reqIds, index, outputs, columns, optionals, maxReqs, maxLen);
      IndexSize(reqIds, index);
      AllHoles(reqIds, empty);
    }

    lemma EmptyKept(empty: seq<nat>, last: int, rows: map<ReqId, Row>, biases: map<ReqId, Bias>,
                    places: map<ReqId, nat>,
                    n: nat, before: seq<Bias>)
      requires Condensing(empty, last, rows, biases, places, n, before)
      ensures Holding() && Keeps(rows, biases, places, n) && |before| == maxReqs == |columns.logitBias|
      ensures HolesUpTo(reqIds, empty, last) && CountFull(reqIds) == n
      ensures forall i | 0 <= i < maxReqs && !Full(i) :: columns.logitBias[i] == before[i]
    {
      hide SamplingScan, LoraScan, SlotRow, RowAt, HolesUpTo, Inverse, Keeps;
    }

    /** Cut the table to its full slots. */
    method Cut(n: nat, ghost rows: map<ReqId, Row>, ghost biases: map<ReqId, Bias>, ghost places: map<ReqId, nat>)
      requires Holding() && Keeps(rows, biases, places, n)
      requires n <= |reqIds| && forall i | 0 <= i < |reqIds| :: reqIds[i].Some? <==> i < n
      modifies `reqIds, `outputs
      ensures Valid() && |reqIds| == n == |index| && Keeps(rows, biases, places, n)
      ensures forall i :: Full(i) == old(Full(i))
    {
      hide SamplingScan, LoraScan, SlotRow, RowAt, Inverse, TableOf;
      Trim(n);
    }

    /** Move the last requests down into the holes, smallest hole first, and cut the table to size. */
    method Condense(emptyIndices: seq<nat>)
      requires Holding() && ListsHoles(reqIds, emptyIndices)
      modifies this, tokenIds
      ensures Valid() && |reqIds| == |index|
      ensures Keeps(old(Rows()), old(Biases()), old(index), |old(index)|)
      ensures forall i | 0 <= i < maxReqs && !Full(i) :: columns.logitBias[i] == old(columns.logitBias)[i]
    {
      hide SamplingScan, LoraScan, SlotRow, RowAt, HolesUpTo, ListsHoles, Inverse, TableOf, Keeps, Biases, Rows,
        Condensing, Valid;
      CondenseStart(emptyIndices);
      ghost var rows, biases, places, before := Rows(), Biases(), index, columns.logitBias;
      var n := |index|;
      var empty, last := emptyIndices, |reqIds| - 1;
      if n == 0 {
        EmptyKept(empty, last, rows, biases, places, n, before);
        CountZero(reqIds);
      } else {
        empty, last := MoveAllDown(emptyIndices, rows, biases, places, n, before);
        EmptyKept(empty, last, rows, biases, places, n, before);
        NoHolesLeft(reqIds, empty, last);
      }
      Cut(n, rows, biases, places);
    }

    /** Condense keeps every request's bias; a clean table stays clean exactly when no request whose slot lies past the
        number of requests carries one. */
    method CondenseTracked(emptyIndices: seq<nat>)
      requires Holding() && ListsHoles(reqIds, emptyIndices)
      modifies this, tokenIds
      ensures Valid() && |reqIds| == |index| && index.Keys == old(index).Keys
      ensures Rows() == old(Rows()) && Biases() == old(Biases())
      ensures forall id | id in index && old(index)[id] < |index| :: index[id] == old(index)[id]
      ensures forall i | 0 <= i < maxReqs && !Full(i) :: columns.logitBias[i] == old(columns.logitBias)[i]
      ensures old(Clean(reqIds, columns.logitBias)) ==>
                (Clean(reqIds, columns.logitBias)
                 <==> old(forall id | id in index && index[id] >= |index| :: Biases()[id] == None))
    {
      hide SamplingScan, LoraScan, SlotRow, RowAt, ListsHoles, Inverse, TableOf, Clean, Rows;
      TableBounds(reqIds, index, outputs, columns, optionals, maxReqs, maxLen);
      Condense(emptyIndices);
      TableBounds(reqIds, index, outputs, columns, optionals, maxReqs, maxLen);
      if old(Clean(reqIds, columns.logitBias)) {
        CleanAfterMoves(old(reqIds), reqIds, index, old(index), old(columns.logitBias), columns.logitBias);
      }
    }
  }

  /** Requests a and b enter an empty batch. */
  method EnterBoth(batch: InputBatch, a: CachedRequest, b: CachedRequest)
    requires batch.Holding() && batch.reqIds == [] && batch.index == map[] && batch.maxReqs >= 2 && a.id != b.id
    requires a.NumTokens() <= batch.maxLen && b.NumTokens() <= batch.maxLen && a.lora == b.lora == None
    requires b.sampling.logitBias.Some?
    modifies batch, batch.tokenIds
    ensures batch.Holding() && batch.reqIds == [Some(a.id), Some(b.id)] && batch.index == map[a.id := 0, b.id := 1]
    ensures b.id in batch.Biases() && batch.Biases()[b.id] == b.sampling.logitBias
  {
    hide TableOf, SamplingScan, LoraScan, Inverse, Clean, BiasMap, RowOf, InputBatch.Rows, InputBatch.RowAt;
    var slotA := batch.AddTracked(a, None);
    var slotB := batch.AddTracked(b, None);
  }

  /** Requests a and b enter an empty batch, and a leaves. */
  method EnterAndLeave(batch: InputBatch, a: CachedRequest, b: CachedRequest)
    requires batch.Holding() && batch.reqIds == [] && batch.index == map[] && batch.maxReqs >= 2 && a.id != b.id
    requires a.NumTokens() <= batch.maxLen && b.NumTokens() <= batch.maxLen && a.lora == b.lora == None
    requires b.sampling.logitBias.Some?
    modifies batch, batch.tokenIds
    ensures batch.Holding() && batch.reqIds == [None, Some(b.id)] && batch.index == map[b.id := 1]
    ensures b.id in batch.Biases() && batch.Biases()[b.id] == b.sampling.logitBias
  {
    hide TableOf, SamplingScan, LoraScan, Inverse, Clean, BiasMap, RowOf, InputBatch.Rows, InputBatch.RowAt;
    EnterBoth(batch, a, b);
    var gone := batch.RemoveTracked(a.id);
    assert batch.index == map[b.id := 1];
  }

  /** A run in which a live request ends up with another one's bias: a and b enter, a leaves, b
      moves down into its slot, and the next request, which brings no bias, takes the slot b has
      left. */
  method StaleBias(batch: InputBatch, a: CachedRequest, b: CachedRequest, next: CachedRequest)
    requires batch.Holding() && batch.reqIds == [] && batch.index == map[] && batch.maxReqs >= 2
    requires a.id != b.id && b.id != next.id && next.id != a.id
    requires a.NumTokens() <= batch.maxLen && b.NumTokens() <= batch.maxLen && next.NumTokens() <= batch.maxLen
    requires a.lora == b.lora == next.lora == None
    requires b.sampling.logitBias.Some? && next.sampling.logitBias == None
    modifies batch, batch.tokenIds
    ensures batch.Holding() && next.id in batch.index
    ensures batch.Biases()[next.id] == b.sampling.logitBias != next.sampling.logitBias
  {
    hide TableOf, SamplingScan, LoraScan, Inverse, Clean, BiasMap, RowOf, InputBatch.Rows, InputBatch.RowAt;
    EnterAndLeave(batch, a, b);
    TableBounds(batch.reqIds, batch.index, batch.outputs, batch.columns, batch.optionals, batch.maxReqs, batch.maxLen);
    assert batch.Biases()[b.id] == batch.columns.logitBias[1];
    batch.CondenseTracked([0]);
    assert !batch.Full(1);
    var slot := batch.AddTracked(next, None);
  }
}
