/** Speculative decoding: what verification accepts, that it is lossless, and the memory it leaves. */
module Speculative {
  import opened Prelude
  import opened BlockSpace
  import opened Accounting
  import opened Runs
  import opened ReferenceCounts
  import opened Manager
  import opened MatchSound
  import opened DistinctPages
  import opened PageCounts
  import opened ReleaseOutcomes

  datatype SpeculativeError = Memory(error: MemoryError) | LengthMismatch

  datatype Verification = Verification(acceptedTokens: seq<u32>, numAccepted: nat, numRejected: nat,
                                       acceptanceRate: real)

  datatype Verdict = Verified(result: Verification) | Failed(error: SpeculativeError)

  /** The acceptance rate over all rounds. */
  function Rate(accepted: nat, proposed: nat): real {
    if proposed > 0 then accepted as real / proposed as real else 0.0
  }

  /** Tokens proposed and accepted over all rounds. */
  datatype Tally = Tally(proposed: nat, accepted: nat)

  /** The length a round leaves a sequence with. */
  function Kept(baseline: nat, accepted: seq<u32>): nat {
    baseline + |accepted|
  }

  /** The verdict on a round, given how the rollback went. */
  function Report(rollback: Result<()>, accepted: seq<u32>, rejected: nat, rate: real): Verdict {
    if rollback.Err? then Failed(Memory(rollback.error))
      else Verified(Verification(accepted, |accepted|, rejected, rate))
  }

  // ----- What is accepted -----

  /** From position `i` on, the first place where the two differ or one of them ends. */
  function AgreeUpTo(draft: seq<u32>, target: seq<u32>, i: nat): (n: nat)
    requires i <= |draft| && i <= |target|
    ensures i <= n <= |draft| && n <= |target|
    ensures forall j :: i <= j < n ==> draft[j] == target[j]
    ensures n < |draft| && n < |target| ==> draft[n] != target[n]
    decreases |draft| - i
  {
    if i < |draft| && i < |target| && draft[i] == target[i] then AgreeUpTo(draft, target, i + 1) else i
  }

  /** Length of the longest common prefix. */
  function CommonPrefix(draft: seq<u32>, target: seq<u32>): (n: nat)
    ensures n <= |draft| && n <= |target|
  {
    AgreeUpTo(draft, target, 0)
  }

  lemma CommonPrefixIsLongest(draft: seq<u32>, target: seq<u32>, k: nat)
    requires k <= |draft| && k <= |target|
    ensures draft[..k] == target[..k] <==> k <= CommonPrefix(draft, target)
  {
    var n := CommonPrefix(draft, target);
    if n < k { assert draft[..k][n] != target[..k][n]; }
  }

  /** The common prefix and, if the draft diverges, the target's correction. */
  function Accepted(draft: seq<u32>, target: seq<u32>): seq<u32>
    requires |draft| == |target|
  {
    target[..Min(CommonPrefix(draft, target) + 1, |target|)]
  }

  lemma CommonPrefixAt(draft: seq<u32>, target: seq<u32>, i: nat)
    requires |draft| == |target| && i < |draft| && draft[..i] == target[..i]
    ensures CommonPrefix(draft, target) >= i
    ensures draft[i] == target[i] ==> draft[..i + 1] == target[..i + 1]
    ensures draft[i] != target[i] ==> CommonPrefix(draft, target) == i
  {
    CommonPrefixIsLongest(draft, target, i);
    CommonPrefixIsLongest(draft, target, i + 1);
    assert draft[..i + 1] == draft[..i] + [draft[i]];
    assert target[..i + 1] == target[..i] + [target[i]];
  }

  /**
   What a round is to accept: tokens of the target, all before the last in agreement with the draft, the last
   one the first divergence or, if there is none, the end of the draft.
   */
  predicate IsAccepted(draft: seq<u32>, target: seq<u32>, a: seq<u32>) {
    && |a| <= |draft| && |a| <= |target| && a == target[..|a|]
    && (draft != [] ==> a != [])
    && (a != [] ==> draft[..|a| - 1] == a[..|a| - 1])
    && (a != [] && |a| < |draft| ==> draft[|a| - 1] != a[|a| - 1])
  }

  /** Exactly one list meets that, and it is the one accepted. */
  lemma AcceptedIff(draft: seq<u32>, target: seq<u32>, a: seq<u32>)
    requires |draft| == |target|
    ensures IsAccepted(draft, target, a) <==> a == Accepted(draft, target)
  {
    var n := CommonPrefix(draft, target);
    CommonPrefixIsLongest(draft, target, n);
    if IsAccepted(draft, target, a) && a != [] {
      assert draft[..|a| - 1] == target[..|a|][..|a| - 1] == target[..|a| - 1];
      CommonPrefixIsLongest(draft, target, |a| - 1);
    }
    if n < |draft| { assert target[..n + 1][..n] == target[..n]; }
  }

  /** Number of draft tokens a round rejects: those from the first divergence on. */
  lemma RejectedFrom(draft: seq<u32>, target: seq<u32>, rejected: nat)
    requires |draft| == |target| && rejected <= |draft|
    ensures rejected == |draft| - CommonPrefix(draft, target)
            <==> (var k := |draft| - rejected;
                  draft[..k] == target[..k] && (k < |draft| ==> draft[k] != target[k]))
  {
    var k := |draft| - rejected;
    CommonPrefixIsLongest(draft, target, k);
  }

  // ----- Losslessness -----

  /** `k` tokens of pure greedy decoding. */
  function Greedy(model: seq<u32> -> u32, context: seq<u32>, k: nat): (r: seq<u32>)
    ensures |r| == k
  {
    if k == 0 then []
    else
      var r := Greedy(model, context, k - 1);
      r + [model(context + r)]
  }

  /** The target's choices, each after the context and the draft tokens before it. */
  function Targets(model: seq<u32> -> u32, context: seq<u32>, draft: seq<u32>): seq<u32> {
    seq(|draft|, i requires 0 <= i < |draft| => model(context + draft[..i]))
  }

  lemma {:induction false} GreedyPrefix(model: seq<u32> -> u32, context: seq<u32>, j: nat, k: nat)
    requires j <= k
    ensures Greedy(model, context, k)[..j] == Greedy(model, context, j)
    decreases k
  {
    if j == k {
    } else {
      GreedyPrefix(model, context, j, k - 1);
      assert Greedy(model, context, k)[..j] == Greedy(model, context, k - 1)[..j];
    }
  }

  /** Greedy decoding may be resumed from what it has produced. */
  lemma {:induction false} GreedyResumes(model: seq<u32> -> u32, context: seq<u32>, j: nat, k: nat)
    ensures Greedy(model, context, j) + Greedy(model, context + Greedy(model, context, j), k)
            == Greedy(model, context, j + k)
  {
    var first := Greedy(model, context, j);
    if k == 0 {
      assert first + [] == first;
    } else {
      GreedyResumes(model, context, j, k - 1);
      var more := Greedy(model, context + first, k - 1);
      assert context + first + more == context + (first + more);
      assert first + (more + [model(context + first + more)]) == (first + more) + [model(context + (first + more))];
    }
  }

  /** While the draft agrees with the targets, it is greedy decoding, and so is the next target. */
  lemma {:induction false} AgreementIsGreedy(model: seq<u32> -> u32, context: seq<u32>, draft: seq<u32>, k: nat)
    requires k <= |draft| && draft[..k] == Targets(model, context, draft)[..k]
    ensures draft[..k] == Greedy(model, context, k)
    ensures k < |draft| ==> Targets(model, context, draft)[..k + 1] == Greedy(model, context, k + 1)
  {
    var target := Targets(model, context, draft);
    if k == 0 {
    } else {
      assert draft[..k - 1] == draft[..k][..k - 1] == target[..k][..k - 1] == target[..k - 1];
      AgreementIsGreedy(model, context, draft, k - 1);
    }
    if k < |draft| {
      assert target[..k + 1] == target[..k] + [target[k]];
    }
  }

  /** One round accepts exactly the greedy continuation, at least one token of it. */
  lemma RoundIsGreedy(model: seq<u32> -> u32, context: seq<u32>, draft: seq<u32>)
    ensures var a := Accepted(draft, Targets(model, context, draft));
            && a == Greedy(model, context, |a|)
            && |a| <= |draft| && (draft != [] ==> |a| >= 1)
  {
    var target := Targets(model, context, draft);
    var n := CommonPrefix(draft, target);
    CommonPrefixIsLongest(draft, target, n);
    AgreementIsGreedy(model, context, draft, n);
    if n == |draft| {
      assert target[..n] == target && draft[..n] == draft;
    }
  }

  /** The tokens that rounds of verification with these drafts produce, each round after the previous ones. */
  function Decode(model: seq<u32> -> u32, context: seq<u32>, drafts: seq<seq<u32>>): seq<u32> {
    if drafts == [] then []
    else
      var out := Decode(model, context, Init(drafts));
      out + Accepted(Last(drafts), Targets(model, context + out, Last(drafts)))
  }

  /**
   Speculative decoding is lossless: whatever the drafts, any number of rounds produces a prefix of pure
   greedy decoding, and with non-empty drafts at least one new token per round.
   */
  lemma {:induction false} DecodingIsLossless(model: seq<u32> -> u32, context: seq<u32>, drafts: seq<seq<u32>>)
    ensures var out := Decode(model, context, drafts);
            && out == Greedy(model, context, |out|)
            && ((forall i :: 0 <= i < |drafts| ==> drafts[i] != []) ==> |out| >= |drafts|)
  {
    if drafts == [] {
    } else {
      DecodingIsLossless(model, context, Init(drafts));
      var out := Decode(model, context, Init(drafts));
      RoundIsGreedy(model, context + out, Last(drafts));
      var a := Accepted(Last(drafts), Targets(model, context + out, Last(drafts)));
      GreedyResumes(model, context, |out|, |a|);
    }
  }

  // ----- Memory -----

  /** Dropped blocks to which no reference is left. */
  ghost function Unreferenced(l: seq<nat>, refs: multiset<nat>): set<nat> {
    set b | b in l && refs[b] == 0
  }

  /** Freeing a list returns exactly the listed blocks without another reference. */
  lemma {:induction false} FreedCount(s: State, l: seq<nat>, refs: multiset<nat>)
    requires Wf(s) && AccountedFor(s, refs + multiset(l))
    ensures |FreeAll(s, l).0.freeStack| == |s.freeStack| + |Unreferenced(l, refs)|
    decreases |l|
  {
    if l == [] {
      assert Unreferenced(l, refs) == {};
    } else {
      assert l == [l[0]] + l[1..];
      var rest := refs + multiset(l[1..]);
      assert refs + multiset(l) == rest + multiset{l[0]};
      FreeAccounted(s, l[0], rest);
      FreedCount(FreeBlock(s, l[0]).0, l[1..], refs);
      UnreferencedStep(l, refs);
    }
  }

  lemma UnreferencedStep(l: seq<nat>, refs: multiset<nat>)
    requires l != []
    ensures |Unreferenced(l, refs)|
            == |Unreferenced(l[1..], refs)| + (if (refs + multiset(l[1..]))[l[0]] == 0 then 1 else 0)
  {
    assert l == [l[0]] + l[1..];
    assert multiset(l[1..])[l[0]] == 0 <==> l[0] !in l[1..];
    if refs[l[0]] == 0 {
      assert Unreferenced(l, refs) == Unreferenced(l[1..], refs) + {l[0]};
    } else {
      assert Unreferenced(l, refs) == Unreferenced(l[1..], refs);
    }
  }

  /** The blocks of a list that are counted once. */
  function CountedAsOne(s: State, l: seq<nat>): set<nat> {
    set b | b in l && b < |s.blocks| && s.blocks[b].refCount == 1
  }

  /** Without repetition in the list, those are the blocks that were counted once. */
  lemma CountedOnce(s: State, l: seq<nat>, refs: multiset<nat>)
    requires AccountedFor(s, refs + multiset(l)) && Distinct(l)
    ensures Unreferenced(l, refs) == CountedAsOne(s, l)
  {
    forall b | b in l ensures b < |s.blocks| && s.blocks[b].refCount == refs[b] + 1 {
      DistinctOnce(l, b);
      assert b in refs + multiset(l);
    }
  }

  lemma {:induction false} DistinctOnce(l: seq<nat>, b: nat)
    requires Distinct(l) && b in l
    ensures multiset(l)[b] == 1
  {
    InitLast(l);
    if b == Last(l) {
      assert b !in Init(l);
    } else {
      DistinctOnce(Init(l), b);
    }
  }

  /** One round of the verifier on the manager's state and the counters. */
  function VerifyRound(s: State, c: Tally, id: nat, draft: seq<u32>, target: seq<u32>, baseline: nat)
      : (r: (State, Tally, Verdict))
    requires Wf(s)
    ensures Wf(r.0)
  {
    if |draft| != |target| then (s, c, Failed(LengthMismatch))
    else
      var a := Accepted(draft, target);
      var c1 := Tally(c.proposed + |draft|, c.accepted + |a|);
      var (t, res) := RollbackSequence(s, id, Kept(baseline, a));
      (t, c1, Report(res, a, |draft| - CommonPrefix(draft, target), Rate(c1.accepted, c1.proposed)))
  }

  /**
   A round in any books, with `a` what is to be accepted: both counters go up by the draft and by `a`, even if
   the rollback fails; a known sequence is left with baseline + |a| tokens, on the first of its pages, as many
   as those need or as there are. A verified round reports `a`, the draft tokens from the first divergence on
   as rejected, and the quotient of the counters.
   */
  lemma RoundOutcome(s: State, c: Tally, id: nat, draft: seq<u32>, target: seq<u32>, baseline: nat, a: seq<u32>,
                     kept: nat)
    requires Wf(s) && |draft| == |target| && IsAccepted(draft, target, a) && kept == baseline + |a|
    ensures var (t, c1, v) := VerifyRound(s, c, id, draft, target, baseline);
            && c1.proposed == c.proposed + |draft| && c1.accepted == c.accepted + |a|
            && (id !in s.tables ==> t == s && v == Failed(Memory(SequenceNotFound(id))))
            && (id in s.tables ==>
                  && t.tables == s.tables[id := PageTable(kept, FirstPages(s, id, kept))]
                  && (v.Verified? <==> WithinCounts(s.blocks, LaterPages(s, id, kept))))
            && (v.Verified? ==> VerdictFits(draft, target, a, c1, v.result))
  {
    RoundIs(s, c, id, draft, target, baseline, a, kept);
    RollbackTables(s, id, kept);
    if id in s.tables { RollbackSucceeds(s, id, kept); }
    ReportFits(draft, target, a, Tally(c.proposed + |draft|, c.accepted + |a|), RollbackSequence(s, id, kept).1);
  }

  /** Only a mismatch of lengths is reported as one, and it changes nothing. */
  lemma MismatchChangesNothing(s: State, c: Tally, id: nat, draft: seq<u32>, target: seq<u32>, baseline: nat)
    requires Wf(s)
    ensures var (t, c1, v) := VerifyRound(s, c, id, draft, target, baseline);
            && (v == Failed(LengthMismatch) <==> |draft| != |target|)
            && (|draft| != |target| ==> t == s && c1 == c)
  {
  }

  lemma RoundIs(s: State, c: Tally, id: nat, draft: seq<u32>, target: seq<u32>, baseline: nat, a: seq<u32>, kept: nat)
    requires Wf(s) && |draft| == |target| && IsAccepted(draft, target, a) && kept == baseline + |a|
    ensures var (t, res) := RollbackSequence(s, id, kept);
            var c1 := Tally(c.proposed + |draft|, c.accepted + |a|);
            VerifyRound(s, c, id, draft, target, baseline)
            == (t, c1, Report(res, a, |draft| - CommonPrefix(draft, target), Rate(c1.accepted, c1.proposed)))
  {
    AcceptedIff(draft, target, a);
    assert Kept(baseline, a) == kept;
  }

  lemma ReportFits(draft: seq<u32>, target: seq<u32>, a: seq<u32>, c: Tally, res: Result<()>)
    requires |draft| == |target|
    ensures var v := Report(res, a, |draft| - CommonPrefix(draft, target), Rate(c.accepted, c.proposed));
            && (v.Verified? <==> res.Ok?) && (res.Err? ==> v == Failed(Memory(res.error)))
            && (v.Verified? ==> VerdictFits(draft, target, a, c, v.result))
  {
    RejectedFrom(draft, target, |draft| - CommonPrefix(draft, target));
  }

  /** What a verified round reports. */
  predicate VerdictFits(draft: seq<u32>, target: seq<u32>, a: seq<u32>, c: Tally, v: Verification) {
    && v.acceptedTokens == a && v.numAccepted == |a|
    && v.numRejected <= |draft| == |target|
    && (var k := |draft| - v.numRejected; draft[..k] == target[..k] && (k < |draft| ==> draft[k] != target[k]))
    && v.acceptanceRate * c.proposed as real == (if c.proposed == 0 then 0.0 else c.accepted as real)
    && (c.proposed == 0 ==> v.acceptanceRate == 0.0)
  }

  /**
   A round leaves exact memory: from a table of `baseline` plus draft tokens, without repetition, in order
   books, it is verified, the table keeps exactly the pages of the baseline and the accepted tokens, the first
   of the old ones, and the free pool grows by exactly the dropped blocks whose count was one.
   */
  lemma VerifyLeavesExactMemory(s: State, c: Tally, id: nat, draft: seq<u32>, target: seq<u32>, baseline: nat,
                                a: seq<u32>, kept: nat)
    requires Wf(s) && Accounted(s) && |draft| == |target| && id in s.tables && Distinct(s.tables[id].blockIds)
    requires s.tables[id].logicalTokens == baseline + |draft| && PagesMatch(s, id)
    requires IsAccepted(draft, target, a) && kept == baseline + |a|
    ensures ExactMemory(s, VerifyRound(s, c, id, draft, target, baseline).0, id, kept)
    ensures VerifyRound(s, c, id, draft, target, baseline).2.Verified?
  {
    RoundIs(s, c, id, draft, target, baseline, a, kept);
    CutsExactly(s, id, kept, RollbackSequence(s, id, kept));
  }

  lemma CutsExactly(s: State, id: nat, kept: nat, o: (State, Result<()>))
    requires Wf(s) && Accounted(s) && id in s.tables && Distinct(s.tables[id].blockIds)
    requires kept <= s.tables[id].logicalTokens && PagesMatch(s, id) && o == RollbackSequence(s, id, kept)
    ensures o.1 == Ok(()) && ExactMemory(s, o.0, id, kept)
  {
    BlocksForMonotone(kept, s.tables[id].logicalTokens, s.cfg.blockSize);
    RollbackExact(s, id, kept, BlocksFor(kept, s.cfg.blockSize), o);
  }

  /** `id` was cut to so many tokens and the pages for them, and the pool grew by what only the other pages used. */
  ghost predicate ExactMemory(s: State, t: State, id: nat, tokens: nat) {
    && s.cfg.blockSize > 0 && id in s.tables
    && var n := BlocksFor(tokens, s.cfg.blockSize);
       && n <= |s.tables[id].blockIds|
       && t.tables == s.tables[id := PageTable(tokens, s.tables[id].blockIds[..n])]
       && |t.freeStack| == |s.freeStack| + |CountedAsOne(s, s.tables[id].blockIds[n..])|
  }

  /** The same in every state that careful calls reach from the empty pool without rolling a sequence past its pages. */
  lemma RoundsLeaveExactMemory(cfg: Config, ops: seq<Op>, c: Tally, id: nat, draft: seq<u32>, target: seq<u32>,
                               baseline: nat, a: seq<u32>, kept: nat)
    requires cfg.blockSize > 0 && |draft| == |target| && IsAccepted(draft, target, a) && kept == baseline + |a|
    requires RunCareful(InitState(cfg), ops) && RunWithinPages(InitState(cfg), ops)
    requires var s := Run(InitState(cfg), ops);
             id in s.tables && s.tables[id].logicalTokens == baseline + |draft|
    ensures var s := Run(InitState(cfg), ops);
            var (t, _, v) := VerifyRound(s, c, id, draft, target, baseline);
            ExactMemory(s, t, id, kept) && v.Verified?
  {
    CarefulRunsAreSound(cfg, ops);
    ReachableShaped(cfg, ops);
    assert PagesMatch(Run(InitState(cfg), ops), id);
    VerifyLeavesExactMemory(Run(InitState(cfg), ops), c, id, draft, target, baseline, a, kept);
  }

  lemma RollbackExact(s: State, id: nat, kept: nat, n: nat, o: (State, Result<()>))
    requires Wf(s) && Accounted(s) && id in s.tables && Distinct(s.tables[id].blockIds)
             && o == RollbackSequence(s, id, kept)
    requires n == BlocksFor(kept, s.cfg.blockSize) <= |s.tables[id].blockIds|
    ensures o.1 == Ok(())
    ensures o.0.tables == s.tables[id := PageTable(kept, s.tables[id].blockIds[..n])]
    ensures |o.0.freeStack| == |s.freeStack| + |CountedAsOne(s, s.tables[id].blockIds[n..])|
  {
    var gone := s.tables[id].blockIds[n..];
    RollbackAccounted(s, id, kept);
    CutTableHeld(s, id, kept);
    RollbackAt(s, CutTable(s, id, kept), id, kept, n, o.0);
    ReverseMultiset(gone);
    CountedOnce(s, gone, Held(CutTable(s, id, kept)));
  }

  lemma RollbackAt(s: State, c: State, id: nat, kept: nat, n: nat, t: State)
    requires Wf(s) && Wf(c) && AccountedFor(s, Held(s)) && id in s.tables && c == CutTable(s, id, kept)
    requires n == BlocksFor(kept, s.cfg.blockSize) <= |s.tables[id].blockIds|
    requires Held(c) + multiset(Dropped(s, id, kept)) == Held(s)
    requires t == FreeAll(c, Dropped(s, id, kept)).0
    ensures t.tables == s.tables[id := PageTable(kept, s.tables[id].blockIds[..n])]
    ensures |t.freeStack| == |s.freeStack| + |Unreferenced(s.tables[id].blockIds[n..], Held(c))|
  {
    FreedCount(c, Dropped(s, id, kept), Held(c));
    FreeAllKeepsTables(c, Dropped(s, id, kept));
    UnreferencedReversed(s.tables[id].blockIds[n..], Held(c));
  }

  lemma UnreferencedReversed(l: seq<nat>, refs: multiset<nat>)
    ensures Unreferenced(Reverse(l), refs) == Unreferenced(l, refs)
  {
    assert forall i :: 0 <= i < |l| ==> l[i] == Reverse(l)[|l| - 1 - i];
  }

  // ----- The verifier -----

  class SpeculativeVerifier {
    var totalProposed: nat
    var totalAccepted: nat
    const blockManager: BlockSpaceManager

    constructor (blockManager: BlockSpaceManager)
      ensures this.blockManager == blockManager && totalProposed == totalAccepted == 0
    {
      this.blockManager := blockManager;
      totalProposed, totalAccepted := 0, 0;
    }

    /** Compare draft and target, accept, count, and cut the page table back to the accepted length. */
    method VerifyAndRollback(seqId: nat, draft: seq<u32>, target: seq<u32>, baseline: nat) returns (r: Verdict)
      requires blockManager.Valid()
      modifies this, blockManager, blockManager.physicalBlocks
      ensures blockManager.Valid()
      ensures (blockManager.Model(), Tally(totalProposed, totalAccepted), r)
              == VerifyRound(old(blockManager.Model()), Tally(old(totalProposed), old(totalAccepted)), seqId, draft,
                             target,
                             baseline)
      ensures old(totalAccepted <= totalProposed) ==> totalAccepted <= totalProposed
    {
      if |draft| != |target| {
        return Failed(LengthMismatch);
      }
      var accepted, rejectIdx := Compare(draft, target);
      totalProposed := totalProposed + |draft|;
      totalAccepted := totalAccepted + |accepted|;
      var res := blockManager.RollbackSequence(seqId, Kept(baseline, accepted));
      if res.Err? {
        return Failed(Memory(res.error));
      }
      var rejected := if |draft| > rejectIdx then |draft| - rejectIdx else 0;
      r := Verified(Verification(accepted, |accepted|, rejected, Rate(totalAccepted, totalProposed)));
    }

    /** Accept while draft and target agree; at the first divergence accept the target's token and stop. */
    method Compare(draft: seq<u32>, target: seq<u32>) returns (accepted: seq<u32>, rejectIdx: nat)
      requires |draft| == |target|
      ensures accepted == Accepted(draft, target) && rejectIdx == CommonPrefix(draft, target)
    {
      accepted, rejectIdx := [], |draft|;
      var i := 0;
      while i < |draft|
        invariant i <= |draft| == rejectIdx
        invariant accepted == target[..i] == draft[..i]
      {
        CommonPrefixAt(draft, target, i);
        if draft[i] == target[i] {
          accepted := accepted + [draft[i]];
        } else {
          rejectIdx := i;
          accepted := accepted + [target[i]];
          return;
        }
        i := i + 1;
      }
      CommonPrefixIsLongest(draft, target, |draft|);
    }

    /** The rate shown before any sample is the fixed estimate 0.85. */
    method OverallAcceptanceRate() returns (rate: real)
      ensures totalProposed == 0 ==> rate == 0.85
      ensures totalProposed > 0 ==> rate * totalProposed as real == totalAccepted as real
      ensures totalAccepted <= totalProposed ==> 0.0 <= rate <= 1.0
    {
      if totalProposed == 0 {
        return 0.85;
      }
      rate := totalAccepted as real / totalProposed as real;
    }
  }
}
