/**
 The state of the block-space manager as a value, and every manager operation as a function on it.

 The first seven fields of `State` are the fields of the program's `BlockSpaceManager`. The last four are
 history: no operation's result and no program field ever depends on them. They record what the
 properties talk about and the program does not store.
 */
module BlockSpace {
  import opened Prelude

  type Chunk = seq<u32>

  type Path = seq<Chunk>

  datatype MemoryError =
    | OutOfMemory
    | SequenceNotFound(seqId: nat)
    | DoubleFree(blockId: nat)
    | CapacityExceeded

  datatype Result<+T> = Ok(value: T) | Err(error: MemoryError)

  datatype Config = Config(totalBlocks: nat, blockSize: nat, maxBlocksPerSeq: nat)

  datatype PhysicalBlock = PhysicalBlock(
    refCount: nat, isFree: bool, mappedSeqId: Option<nat>, isPrefixCached: bool, isSpeculative: bool)

  datatype PageTable = PageTable(logicalTokens: nat, blockIds: seq<nat>)

  datatype TrieNode = TrieNode(block: Option<nat>, chunk: Chunk, children: map<Chunk, nat>)

  datatype State = State(
    cfg: Config,
    blocks: seq<PhysicalBlock>,
    freeStack: seq<nat>,
    tables: map<nat, PageTable>,
    nodes: seq<TrieNode>,
    lookups: nat,
    hits: nat,
    // History: lists of references held by no page table; trie nodes whose block has not gone back to
    // the pool since the node was made; the prompt tokens each table still covers; each node's parent.
    loose: seq<seq<nat>>,
    valid: set<nat>,
    prompts: map<nat, seq<u32>>,
    parents: seq<nat>)

  const FREE_BLOCK := PhysicalBlock(0, true, None, false, false)

  // ----- Integrity: what holds after any calls whatsoever -----

  /** The free stack and the block records agree. */
  ghost predicate PoolOk(s: State) {
    && |s.blocks| == s.cfg.totalBlocks
    && Distinct(s.freeStack)
    && AllBelow(s.freeStack, |s.blocks|)
    && (forall b :: 0 <= b < |s.blocks| ==> (s.blocks[b].isFree <==> b in s.freeStack))
    && (forall b :: 0 <= b < |s.blocks| && s.blocks[b].refCount == 0 ==> b in s.freeStack)
  }

  /** A non-root node has a block and hangs under its parent by its own chunk. */
  ghost predicate NodeOk(nodes: seq<TrieNode>, parents: seq<nat>, total: nat, j: nat)
    requires 0 < j < |nodes| == |parents|
  {
    && nodes[j].block.Some? && nodes[j].block.value < total
    && parents[j] < j
    && nodes[j].chunk in nodes[parents[j]].children
    && nodes[parents[j]].children[nodes[j].chunk] == j
  }

  /** A child sits later in the arena, knows its key and has this parent. */
  ghost predicate ChildOk(nodes: seq<TrieNode>, parents: seq<nat>, i: nat, c: Chunk)
    requires i < |nodes| == |parents| && c in nodes[i].children
  {
    var k := nodes[i].children[c];
    i < k < |nodes| && parents[k] == i && nodes[k].chunk == c
  }

  /** The arena is a tree rooted at node 0. */
  ghost predicate TrieOk(nodes: seq<TrieNode>, parents: seq<nat>, total: nat) {
    && |nodes| == |parents| >= 1
    && nodes[0].block == None
    && (forall j :: 0 < j < |nodes| ==> NodeOk(nodes, parents, total, j))
    && (forall i, c :: 0 <= i < |nodes| && c in nodes[i].children ==> ChildOk(nodes, parents, i, c))
  }

  ghost predicate TablesOk(s: State) {
    && (forall id :: id in s.tables ==> AllBelow(s.tables[id].blockIds, |s.blocks|))
    && (forall i :: 0 <= i < |s.loose| ==> AllBelow(s.loose[i], |s.blocks|))
  }

  ghost predicate Wf(s: State) {
    && s.cfg.blockSize > 0
    && PoolOk(s)
    && TrieOk(s.nodes, s.parents, |s.blocks|)
    && TablesOk(s)
    && (forall n :: n in s.valid ==> 0 < n < |s.nodes|)
  }

  // ----- The pool -----

  /** n-1 down to 0, the order in which the constructor fills the free stack. */
  function CountDown(n: nat): (r: seq<nat>)
    ensures |r| == n && forall i :: 0 <= i < n ==> r[i] == n - 1 - i
    ensures forall b: nat :: b < n ==> b in r
  {
    if n == 0 then [] else [n - 1] + CountDown(n - 1)
  }

  function InitState(cfg: Config): (s: State)
    requires cfg.blockSize > 0
    ensures Wf(s)
  {
    var stack := CountDown(cfg.totalBlocks);
    State(cfg, seq(cfg.totalBlocks, i => FREE_BLOCK), stack, map[], [TrieNode(None, [], map[])], 0, 0, [], {}, map[],
          [0])
  }

  /** Take the top of the free stack. */
  function AllocateBlock(s: State): (r: (State, Result<nat>))
    requires Wf(s)
    ensures Wf(r.0)
    ensures r.1.Ok? ==> r.1.value < |s.blocks| && |r.0.blocks| == |s.blocks| && r.0.nodes == s.nodes
  {
    if s.freeStack == [] then (s, Err(OutOfMemory))
    else
      var b := Last(s.freeStack);
      var rec := s.blocks[b].(isFree := false, refCount := 1, isPrefixCached := false, isSpeculative := false);
      (s.(freeStack := Init(s.freeStack), blocks := s.blocks[b := rec]), Ok(b))
  }

  /** Drop one reference; the last one returns the block to the pool. */
  function FreeBlock(s: State, b: nat): (r: (State, Result<()>))
    requires Wf(s)
    ensures Wf(r.0)
  {
    if b >= s.cfg.totalBlocks || s.blocks[b].refCount == 0 then (s, Err(DoubleFree(b)))
    else if s.blocks[b].refCount > 1 then
      (s.(blocks := s.blocks[b := s.blocks[b].(refCount := s.blocks[b].refCount - 1)]), Ok(()))
    else
      var stack := if b in s.freeStack then s.freeStack else s.freeStack + [b];
      (s.(blocks := s.blocks[b := FREE_BLOCK], freeStack := stack,
          valid := set n | n in s.valid && s.nodes[n].block != Some(b)), Ok(()))
  }

  /** Free a list of references front to back, stopping at the first error. */
  function FreeAll(s: State, l: seq<nat>): (r: (State, Result<()>))
    requires Wf(s)
    ensures Wf(r.0)
    decreases |l|
  {
    if l == [] then (s, Ok(()))
    else
      var (s1, res) := FreeBlock(s, l[0]);
      if res.Err? then (s1, res) else FreeAll(s1, l[1..])
  }

  // ----- History -----

  /** Record a list of references that no table holds any more. */
  function AddLoose(loose: seq<seq<nat>>, l: seq<nat>): seq<seq<nat>> {
    if l == [] then loose else loose + [l]
  }

  /** The list a table insertion at `id` would strand. */
  function Stranded(s: State, id: nat): seq<nat> {
    if id in s.tables then s.tables[id].blockIds else []
  }

  /** Put `t` at `id`, stranding what was there; `p` says which prompt tokens the new table covers. */
  function PutTable(s: State, id: nat, t: PageTable, p: Option<seq<u32>>): (r: State)
    requires Wf(s) && AllBelow(t.blockIds, |s.blocks|)
    ensures Wf(r)
  {
    s.(tables := s.tables[id := t],
       loose := AddLoose(s.loose, Stranded(s, id)),
       prompts := if p.Some? then s.prompts[id := p.value] else s.prompts - {id})
  }

  // ----- Sequences -----

  function RegisterSequence(s: State, id: nat): (r: State)
    requires Wf(s)
    ensures Wf(r)
  {
    PutTable(s, id, PageTable(0, []), None)
  }

  /** Progress of the chunk loop: state, trie cursor, references taken, hits, and whether it still runs. */
  datatype Walk = Walk(s: State, cur: nat, held: seq<nat>, matched: nat, ok: bool)

  ghost predicate WalkOk(w: Walk) {
    Wf(w.s) && w.cur < |w.s.nodes| && AllBelow(w.held, |w.s.blocks|)
  }

  /** A loop that failed keeps the references it had taken: nobody gives them back. */
  function Leak(w: Walk): (r: State)
    requires WalkOk(w)
    ensures Wf(r)
  {
    w.s.(loose := AddLoose(w.s.loose, w.held))
  }

  function ChunkAt(prompt: seq<u32>, blockSize: nat, i: nat): Chunk
    requires blockSize > 0 && i < PageOf(|prompt|, blockSize)
  {
    FullPageInRange(|prompt|, blockSize, i);
    prompt[i * blockSize..i * blockSize + blockSize]
  }

  /** The full chunks of a prompt, in order. */
  function Chunks(prompt: seq<u32>, blockSize: nat): (r: Path)
    requires blockSize > 0
  {
    seq(PageOf(|prompt|, blockSize), i requires 0 <= i < PageOf(|prompt|, blockSize) => ChunkAt(prompt, blockSize, i))
  }

  /** One more reference to a cached block. */
  function HitBlock(s: State, id: nat, b: nat): (r: State)
    requires Wf(s) && b < |s.blocks|
    ensures Wf(r)
  {
    var rec := s.blocks[b].(refCount := s.blocks[b].refCount + 1, isPrefixCached := true, mappedSeqId := Some(id));
    s.(blocks := s.blocks[b := rec], hits := s.hits + 1)
  }

  /** Label a block that was just allocated. */
  function LabelBlock(s: State, id: nat, b: nat, cached: bool): (r: State)
    requires Wf(s) && b < |s.blocks|
    ensures Wf(r)
  {
    var rec := s.blocks[b].(mappedSeqId := Some(id), isPrefixCached := s.blocks[b].isPrefixCached || cached);
    s.(blocks := s.blocks[b := rec])
  }

  /** Push a node for block `b` onto the arena and hang it under `cur`. */
  function AddNode(nodes: seq<TrieNode>, cur: nat, chunk: Chunk, b: nat): seq<TrieNode>
    requires cur < |nodes|
  {
    nodes[cur := nodes[cur].(children := nodes[cur].children[chunk := |nodes|])] + [TrieNode(Some(b), chunk, map[])]
  }

  function InsertChild(s: State, cur: nat, chunk: Chunk, b: nat): State
    requires cur < |s.nodes|
  {
    s.(nodes := AddNode(s.nodes, cur, chunk, b), parents := s.parents + [cur], valid := s.valid + {|s.nodes|})
  }

  lemma InsertChildOk(s: State, cur: nat, chunk: Chunk, b: nat)
    requires Wf(s) && cur < |s.nodes| && b < |s.blocks| && chunk !in s.nodes[cur].children
    ensures Wf(InsertChild(s, cur, chunk, b))
  {
    var r := InsertChild(s, cur, chunk, b);
    forall j | 0 < j < |r.nodes| ensures NodeOk(r.nodes, r.parents, |s.blocks|, j) {
      if j < |s.nodes| { assert NodeOk(s.nodes, s.parents, |s.blocks|, j); }
    }
    forall i, c | 0 <= i < |r.nodes| && c in r.nodes[i].children ensures ChildOk(r.nodes, r.parents, i, c) {
      if i < |s.nodes| && c in s.nodes[i].children { assert ChildOk(s.nodes, s.parents, i, c); }
    }
  }

  predicate IsHit(nodes: seq<TrieNode>, cur: nat, chunk: Chunk)
    requires cur < |nodes| && forall c :: c in nodes[cur].children ==> nodes[cur].children[c] < |nodes|
  {
    chunk in nodes[cur].children && nodes[nodes[cur].children[chunk]].block.Some?
  }

  /** One iteration of the chunk loop. */
  function WalkStep(w: Walk, id: nat, chunk: Chunk): (r: Walk)
    requires WalkOk(w) && w.ok
    ensures WalkOk(r)
    ensures r.s.cfg == w.s.cfg
  {
    assert forall c :: c in w.s.nodes[w.cur].children ==> ChildOk(w.s.nodes, w.s.parents, w.cur, c);
    var s0 := w.s.(lookups := w.s.lookups + 1);
    if IsHit(s0.nodes, w.cur, chunk) then
      var child := s0.nodes[w.cur].children[chunk];
      assert NodeOk(s0.nodes, s0.parents, |s0.blocks|, child);
      var b := s0.nodes[child].block.value;
      Walk(HitBlock(s0, id, b), child, w.held + [b], w.matched + 1, true)
    else
      var (s1, res) := AllocateBlock(s0);
      if res.Err? then w.(s := s1, ok := false)
      else
        var b := res.value;
        var s2 := LabelBlock(s1, id, b, true);
        assert chunk in s0.nodes[w.cur].children
          ==> NodeOk(s0.nodes, s0.parents, |s0.blocks|, s0.nodes[w.cur].children[chunk]);
        InsertChildOk(s2, w.cur, chunk, b);
        Walk(InsertChild(s2, w.cur, chunk, b), |s2.nodes|, w.held + [b], w.matched, true)
  }

  /** The loop over the chunks of `path`; a failed loop stays where it failed. */
  function WalkChunks(s: State, id: nat, path: Path): (w: Walk)
    requires Wf(s)
    ensures WalkOk(w) && w.s.cfg == s.cfg
  {
    if path == [] then Walk(s, 0, [], 0, true)
    else
      var w := WalkChunks(s, id, Init(path));
      if w.ok then WalkStep(w, id, Last(path)) else w
  }

  /** The chunk loop, then the block for the remainder tokens. */
  function TakePrompt(s: State, id: nat, prompt: seq<u32>): (w: Walk)
    requires Wf(s)
    ensures WalkOk(w) && w.s.cfg == s.cfg
  {
    var w := WalkChunks(s, id, Chunks(prompt, s.cfg.blockSize));
    if !w.ok || Overhang(|prompt|, s.cfg.blockSize) == 0 then w
    else TakeBlock(w, id)
  }

  /** Allocate one more block for `id` and hold it. */
  function TakeBlock(w: Walk, id: nat): (r: Walk)
    requires WalkOk(w) && w.ok
    ensures WalkOk(r) && r.s.cfg == w.s.cfg && r.s.tables == w.s.tables && r.s.loose == w.s.loose
  {
    var (s1, res) := AllocateBlock(w.s);
    if res.Err? then w.(s := s1, ok := false)
    else w.(s := LabelBlock(s1, id, res.value, false), held := w.held + [res.value])
  }

  function MatchOrAllocatePrefix(s: State, id: nat, prompt: seq<u32>): (r: (State, Result<nat>))
    requires Wf(s)
    ensures Wf(r.0)
  {
    var s0 := if id in s.tables then s else RegisterSequence(s, id);
    var w := TakePrompt(s0, id, prompt);
    if !w.ok then (Leak(w), Err(OutOfMemory))
    else (PutTable(w.s, id, PageTable(|prompt|, w.held), Some(prompt)), Ok(w.matched))
  }

  /** One more block, unless the loop has failed. */
  function TakeNext(w: Walk, id: nat): (r: Walk)
    requires WalkOk(w)
    ensures WalkOk(r) && r.s.cfg == w.s.cfg && r.s.tables == w.s.tables && r.s.loose == w.s.loose
  {
    if w.ok then TakeBlock(w, id) else w
  }

  /** The allocation loop of an append, after `k` blocks. */
  function AllocateMany(s: State, id: nat, k: nat): (w: Walk)
    requires Wf(s)
    ensures WalkOk(w) && w.s.cfg == s.cfg && w.s.tables == s.tables && w.s.loose == s.loose
  {
    if k == 0 then Walk(s, 0, [], 0, true)
    else TakeNext(AllocateMany(s, id, k - 1), id)
  }

  /** The length of a known sequence after an append. */
  function Lengthened(s: State, id: nat, n: nat): nat
    requires id in s.tables
  {
    s.tables[id].logicalTokens + n
  }

  /** How many blocks an append to a known sequence asks for. */
  function Wanted(s: State, id: nat, n: nat): nat
    requires s.cfg.blockSize > 0 && id in s.tables
  {
    var needed := BlocksFor(Lengthened(s, id, n), s.cfg.blockSize);
    if needed > |s.tables[id].blockIds| then needed - |s.tables[id].blockIds| else 0
  }

  /** The table of a known sequence has the pages its tokens need. */
  predicate PagesMatch(s: State, id: nat)
    requires s.cfg.blockSize > 0 && id in s.tables
  {
    |s.tables[id].blockIds| == BlocksFor(s.tables[id].logicalTokens, s.cfg.blockSize)
  }

  /** The page limit of a sequence allows `n` more tokens. */
  predicate FitsLimit(s: State, id: nat, n: nat)
    requires s.cfg.blockSize > 0 && id in s.tables
  {
    BlocksFor(Lengthened(s, id, n), s.cfg.blockSize) <= s.cfg.maxBlocksPerSeq
  }

  /** The end of an append: extend the table, or leave the blocks stranded. */
  function FinishAppend(w: Walk, id: nat, tokens: nat): (r: State)
    requires WalkOk(w) && id in w.s.tables
    ensures Wf(r)
  {
    if w.ok then w.s.(tables := w.s.tables[id := PageTable(tokens, w.s.tables[id].blockIds + w.held)])
    else Leak(w)
  }

  function AppendTokens(s: State, id: nat, n: nat): (r: (State, Result<()>))
    requires Wf(s)
    ensures Wf(r.0)
  {
    if id !in s.tables then (s, Err(SequenceNotFound(id)))
    else if !FitsLimit(s, id, n) then (s, Err(CapacityExceeded))
    else
      var w := AllocateMany(s, id, Wanted(s, id, n));
      (FinishAppend(w, id, Lengthened(s, id, n)), if w.ok then Ok(()) else Err(OutOfMemory))
  }

  /** One more reference to every block of a list. */
  function Share(blocks: seq<PhysicalBlock>, l: seq<nat>): (r: seq<PhysicalBlock>)
    requires AllBelow(l, |blocks|)
    ensures |r| == |blocks|
  {
    if l == [] then blocks
    else
      var r := Share(blocks, Init(l));
      r[Last(l) := r[Last(l)].(refCount := r[Last(l)].refCount + 1)]
  }

  lemma {:induction false} ShareCounts(blocks: seq<PhysicalBlock>, l: seq<nat>)
    requires AllBelow(l, |blocks|)
    ensures forall b :: 0 <= b < |blocks| ==>
              Share(blocks, l)[b] == blocks[b].(refCount := blocks[b].refCount + multiset(l)[b])
  {
    if l == [] {
    } else {
      ShareCounts(blocks, Init(l));
      InitLast(l);
    }
  }

  function ForkSequence(s: State, parent: nat, child: nat): (r: (State, Result<()>))
    requires Wf(s)
    ensures Wf(r.0)
  {
    if parent !in s.tables then (s, Err(SequenceNotFound(parent)))
    else
      var t := s.tables[parent];
      var p := if parent in s.prompts then Some(s.prompts[parent]) else None;
      ShareCounts(s.blocks, t.blockIds);
      (PutTable(s.(blocks := Share(s.blocks, t.blockIds)), child, t, p), Ok(()))
  }

  /** Cut a table to `retain` tokens without freeing anything yet. */
  function CutTable(s: State, id: nat, retain: nat): (r: State)
    requires Wf(s) && id in s.tables
    ensures Wf(r)
  {
    var t := s.tables[id];
    var keep := Min(BlocksFor(retain, s.cfg.blockSize), |t.blockIds|);
    s.(tables := s.tables[id := PageTable(retain, t.blockIds[..keep])],
       prompts := if id in s.prompts then s.prompts[id := s.prompts[id][..Min(retain, |s.prompts[id]|)]] else s.prompts)
  }

  /** The blocks a rollback drops, in the order in which it frees them: last page first. */
  function Dropped(s: State, id: nat, retain: nat): seq<nat>
    requires s.cfg.blockSize > 0 && id in s.tables
  {
    var t := s.tables[id];
    Reverse(t.blockIds[Min(BlocksFor(retain, s.cfg.blockSize), |t.blockIds|)..])
  }

  function RollbackSequence(s: State, id: nat, retain: nat): (r: (State, Result<()>))
    requires Wf(s)
    ensures Wf(r.0)
  {
    if id !in s.tables then (s, Err(SequenceNotFound(id)))
    else FreeAll(CutTable(s, id, retain), Dropped(s, id, retain))
  }

  function RemoveTable(s: State, id: nat): (r: State)
    requires Wf(s)
    ensures Wf(r)
  {
    s.(tables := s.tables - {id}, prompts := s.prompts - {id})
  }

  function FreeSequence(s: State, id: nat): (r: (State, Result<()>))
    requires Wf(s)
    ensures Wf(r.0)
  {
    if id !in s.tables then (s, Ok(()))
    else FreeAll(RemoveTable(s, id), s.tables[id].blockIds)
  }

  function FreeBlocksCount(s: State): nat {
    Min(|s.freeStack|, s.cfg.totalBlocks)
  }

  function AllocatedBlocksCount(s: State): nat {
    if s.cfg.totalBlocks > |s.freeStack| then s.cfg.totalBlocks - |s.freeStack| else 0
  }
}
