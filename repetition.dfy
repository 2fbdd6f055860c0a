/** The repetition rules of extra.h: `next_phrase` walks a track's phrase
    chain, spending each phrase's `repetitions` budget and keeping the
    largest budget seen in the track's hold register so that the budget can
    be written back when the phrase is left; `reset_phrase` writes it back
    on demand; `next_section` walks a section chain without a register.

    A chain is described by a ghost sequence of its phrases; `Walk` is the
    value-level view of one track: the budgets along its chain, the
    position of the current phrase and the track's hold register. */
module Repetition {
  import opened Extra

  /** Number of tracks, and so of hold registers (`phrase_rep_hold[6]`). */
  const TRACKS: nat := 6

  /** The track indices, in the order `musicbox_task` advances them. */
  const BASS: nat := 0
  const MELODY: nat := 1
  const HAT: nat := 2
  const GHOST: nat := 3
  const SNARE: nat := 4
  const KICK: nat := 5

  datatype Walk = Walk(reps: seq<int>, at: nat, hold: int)

  /** `next_phrase` on values: leave the current phrase when its budget is
      spent and a next phrase exists, writing the register back into it
      and clearing the register; then raise the register to the (new)
      current phrase's budget and spend one repetition of it. */
  function Advance(w: Walk): (w': Walk)
    requires w.at < |w.reps|
    ensures |w'.reps| == |w.reps| && w'.at < |w'.reps|
  {
    var moved := w.reps[w.at] < 1 && w.at + 1 < |w.reps|;
    var reps := if moved then w.reps[w.at := w.hold] else w.reps;
    var at := if moved then w.at + 1 else w.at;
    var hold := if moved then 0 else w.hold;
    var hold' := if reps[at] > hold then reps[at] else hold;
    Walk(reps[at := reps[at] - 1], at, hold')
  }

  function Max(a: int, b: int): int
  {
    if a < b then b else a
  }

  /** What one call does: it moves on exactly when the budget is spent and
      a next phrase exists; the phrase it leaves gets the register's value;
      the phrase it returns loses one repetition; the register ends at
      least one above the returned phrase's budget; nothing else changes. */
  lemma AdvanceEffect(w: Walk)
    requires w.at < |w.reps|
    ensures var moved := w.reps[w.at] < 1 && w.at + 1 < |w.reps|;
      && Advance(w).at == (if moved then w.at + 1 else w.at)
      && (moved ==> Advance(w).reps[w.at] == w.hold)
      && Advance(w).reps[Advance(w).at] == w.reps[Advance(w).at] - 1
      && Advance(w).hold == Max(if moved then 0 else w.hold, w.reps[Advance(w).at])
      && Advance(w).hold >= Advance(w).reps[Advance(w).at] + 1
      && forall k :: 0 <= k < |w.reps| && k != w.at && k != Advance(w).at ==> Advance(w).reps[k] == w.reps[k]
  {
  }

  /** The last phrase of a chain is never left: its budget keeps dropping,
      below zero, one per call. */
  lemma {:induction false} LastPhraseKeepsDecreasing(w: Walk, n: nat)
    requires w.at == |w.reps| - 1
    ensures AdvanceN(w, n).at == w.at
    ensures AdvanceN(w, n).reps[w.at] == w.reps[w.at] - n
    decreases n
  {
    if n > 0 {
      LastPhraseKeepsDecreasing(Advance(w), n - 1);
    }
  }

  /** `n` consecutive calls. */
  function AdvanceN(w: Walk, n: nat): (w': Walk)
    requires w.at < |w.reps|
    ensures |w'.reps| == |w.reps| && w'.at < |w'.reps|
    decreases n
  {
    if n == 0 then w else AdvanceN(Advance(w), n - 1)
  }

  lemma {:induction false} AdvanceNAdd(w: Walk, a: nat, b: nat)
    requires w.at < |w.reps|
    ensures AdvanceN(w, a + b) == AdvanceN(AdvanceN(w, a), b)
    decreases a
  {
    if a > 0 {
      AdvanceNAdd(Advance(w), a - 1, b);
    }
  }

  /** While a phrase with budget `c` is current and the register is above
      it, the next `c` calls stay on it, leave the register alone and spend
      its budget; the call after moves on and writes the register back. */
  lemma {:induction false} Staying(w: Walk, c: nat)
    requires w.at + 1 < |w.reps| && w.reps[w.at] == c && w.hold > c
    ensures forall n :: 0 <= n <= c ==>
      AdvanceN(w, n).at == w.at && AdvanceN(w, n).hold == w.hold && AdvanceN(w, n).reps[w.at] == c - n
    ensures AdvanceN(w, c + 1).at == w.at + 1
    ensures AdvanceN(w, c + 1).reps[w.at] == w.hold
    ensures AdvanceN(w, c + 1).reps[w.at + 1] == w.reps[w.at + 1] - 1
    ensures AdvanceN(w, c + 1).hold == Max(0, w.reps[w.at + 1])
    ensures forall k :: 0 <= k < |w.reps| && k != w.at && k != w.at + 1 ==> AdvanceN(w, c + 1).reps[k] == w.reps[k]
    decreases c
  {
    if c > 0 {
      var w1 := Advance(w);
      AdvanceEffect(w);
      Staying(w1, c - 1);
      forall n | 1 <= n <= c + 1
        ensures AdvanceN(w, n) == AdvanceN(w1, n - 1)
      {
      }
    }
  }

  /** A phrase that is entered with budget `r >= 1` and has a successor is
      returned by `r` calls in a row, and the call after leaves it and
      writes `r` back into it, ready for a replay. */
  lemma ReplayEntered(w: Walk)
    requires w.at + 2 < |w.reps| && w.reps[w.at] < 1 && w.reps[w.at + 1] >= 1
    ensures forall n :: 1 <= n <= w.reps[w.at + 1] ==> AdvanceN(w, n).at == w.at + 1
    ensures AdvanceN(w, w.reps[w.at + 1] + 1).at == w.at + 2
    ensures AdvanceN(w, w.reps[w.at + 1] + 1).reps[w.at + 1] == w.reps[w.at + 1]
  {
    var r := w.reps[w.at + 1];
    var w1 := Advance(w);
    Staying(w1, r - 1);
    forall n | 1 <= n <= r + 1
      ensures AdvanceN(w, n) == AdvanceN(w1, n - 1)
    {
    }
  }

  /** The sum of the first `i` budgets. */
  function PrefixSum(reps: seq<int>, i: nat): int
    requires i <= |reps|
  {
    if i == 0 then 0 else PrefixSum(reps, i - 1) + reps[i - 1]
  }

  /** A chain whose phrases, all but the trailing one, have a budget of at
      least one: the shape the phrase builders produce. */
  ghost predicate Playable(reps: seq<int>)
  {
    |reps| >= 1 && forall k :: 0 <= k < |reps| - 1 ==> reps[k] >= 1
  }

  /** The state right after the call that first returns phrase `i`: that
      phrase has spent one repetition, every phrase before it has its
      original budget back, and the register holds phrase `i`'s budget.
      For the trailing phrase this is the state after a full pass. */
  lemma {:induction false} Checkpoint(reps: seq<int>, h: int, i: nat)
    requires Playable(reps) && |reps| >= 2 && h <= reps[0]
    requires i < |reps|
    ensures PrefixSum(reps, i) >= i
    ensures AdvanceN(Walk(reps, 0, h), PrefixSum(reps, i) + 1)
      == Walk(reps[i := reps[i] - 1], i, if i == 0 then reps[0] else Max(0, reps[i]))
    decreases i
  {
    var w0 := Walk(reps, 0, h);
    if i == 0 {
      assert AdvanceN(w0, 1) == Advance(w0);
    } else {
      var n := PrefixSum(reps, i - 1) + 1;
      Checkpoint(reps, h, i - 1);
      assert AdvanceN(w0, n) == Walk(reps[i - 1 := reps[i - 1] - 1], i - 1, reps[i - 1]);
      AdvanceNAdd(w0, n, reps[i - 1]);
      NextCheckpoint(reps, i);
      assert PrefixSum(reps, i) + 1 == n + reps[i - 1];
    }
  }

  /** From the checkpoint of phrase `i - 1`, that phrase's remaining
      calls lead to the checkpoint of phrase `i`. */
  lemma NextCheckpoint(reps: seq<int>, i: nat)
    requires Playable(reps) && 0 < i < |reps|
    ensures AdvanceN(Walk(reps[i - 1 := reps[i - 1] - 1], i - 1, reps[i - 1]), reps[i - 1])
      == Walk(reps[i := reps[i] - 1], i, Max(0, reps[i]))
  {
    var c := Walk(reps[i - 1 := reps[i - 1] - 1], i - 1, reps[i - 1]);
    Staying(c, reps[i - 1] - 1);
    var d := AdvanceN(c, reps[i - 1]);
    forall j | 0 <= j < |reps|
      ensures d.reps[j] == reps[i := reps[i] - 1][j]
    {
      if j != i - 1 && j != i {
        assert d.reps[j] == c.reps[j];
      }
    }
    assert d.reps == reps[i := reps[i] - 1];
  }

  /** Played from the start of a fresh chain, `next_phrase` returns the
      phrases in chain order, phrase `i` on exactly `reps[i]` consecutive
      calls, with the register holding that phrase's own budget throughout
      (so `reset_phrase` at any point restores it). */
  lemma Schedule(reps: seq<int>, h: int)
    requires Playable(reps) && |reps| >= 2 && h <= reps[0]
    ensures forall i, n: nat :: 0 <= i < |reps| - 1 && PrefixSum(reps, i) < n <= PrefixSum(reps, i + 1) ==>
      AdvanceN(Walk(reps, 0, h), n).at == i && AdvanceN(Walk(reps, 0, h), n).hold == reps[i]
  {
    forall i, n: nat | 0 <= i < |reps| - 1 && PrefixSum(reps, i) < n <= PrefixSum(reps, i + 1)
      ensures AdvanceN(Walk(reps, 0, h), n).at == i && AdvanceN(Walk(reps, 0, h), n).hold == reps[i]
    {
      WithinPhrase(reps, h, i, n);
    }
  }

  /** The `n`-th call, falling within phrase `i`'s share of calls. */
  lemma WithinPhrase(reps: seq<int>, h: int, i: nat, n: nat)
    requires Playable(reps) && |reps| >= 2 && h <= reps[0]
    requires i < |reps| - 1 && PrefixSum(reps, i) < n <= PrefixSum(reps, i + 1)
    ensures AdvanceN(Walk(reps, 0, h), n).at == i && AdvanceN(Walk(reps, 0, h), n).hold == reps[i]
  {
    var w0 := Walk(reps, 0, h);
    Checkpoint(reps, h, i);
    var c := AdvanceN(w0, PrefixSum(reps, i) + 1);
    Staying(c, reps[i] - 1);
    var m: nat := n - PrefixSum(reps, i) - 1;
    AdvanceNAdd(w0, PrefixSum(reps, i) + 1, m);
  }

  // ----- the heap-level operations -----

  /** `next_phrase`, for track `inst`, on the chain `chain` whose phrase
      `k` is current; the model's next-phrase index is returned beside it. */
  method NextPhrase(current: Phrase, inst: nat, hold: array<int>, ghost chain: seq<Phrase>, ghost k: nat)
    returns (p: Phrase, ghost k': nat)
    requires inst < hold.Length == TRACKS
    requires IsChain(chain) && k < |chain| && chain[k] == current
    modifies {current, current.next}`repetitions, hold
    ensures p == (if old(current.repetitions) < 1 && old(current.next) != null then old(current.next) else current)
    ensures k' < |chain| && p == chain[k']
    ensures Walk(Budgets(chain), k', hold[inst]) == Advance(Walk(old(Budgets(chain)), k, old(hold[inst])))
    ensures forall t :: 0 <= t < TRACKS && t != inst ==> hold[t] == old(hold[t])
  {
    ghost var w := Walk(Budgets(chain), k, hold[inst]);
    ghost var w' := Advance(w);
    p := current;
    k' := k;
    if current.repetitions < 1 {
      if current.next != null {
        current.repetitions := hold[inst];
        p := current.next;
        k' := k + 1;
        hold[inst] := 0;
      }
    }
    if p.repetitions > hold[inst] {
      hold[inst] := p.repetitions;
    }
    p.repetitions := p.repetitions - 1;
    assert k' == w'.at && hold[inst] == w'.hold;
    assert forall j :: 0 <= j < |chain| ==> chain[j].repetitions == w'.reps[j];
  }

  /** `reset_phrase`: write the track's register back into the phrase. */
  method ResetPhrase(current: Phrase, inst: nat, hold: array<int>, ghost chain: seq<Phrase>, ghost k: nat)
    returns (p: Phrase)
    requires inst < hold.Length == TRACKS
    requires IsChain(chain) && k < |chain| && chain[k] == current
    modifies current`repetitions
    ensures p == current && current.repetitions == hold[inst]
    ensures Budgets(chain) == old(Budgets(chain))[k := hold[inst]]
  {
    current.repetitions := hold[inst];
    p := current;
  }

  /** `next_section` on values: move on when the budget is spent and a
      next section exists; always spend one repetition. */
  function AdvanceSection(reps: seq<int>, at: nat): (r: (seq<int>, nat))
    requires at < |reps|
    ensures |r.0| == |reps| && r.1 < |reps|
  {
    var at' := if reps[at] < 1 && at + 1 < |reps| then at + 1 else at;
    (reps[at' := reps[at'] - 1], at')
  }

  function AdvanceSectionN(reps: seq<int>, at: nat, n: nat): (r: (seq<int>, nat))
    requires at < |reps|
    ensures |r.0| == |reps| && r.1 < |reps|
    decreases n
  {
    if n == 0 then (reps, at)
    else var s := AdvanceSection(reps, at); AdvanceSectionN(s.0, s.1, n - 1)
  }

  /** A section with no successor is never left and its budget drops by
      one per call without bound; one with a successor is left on the
      first call after its budget is spent. */
  lemma {:induction false} SectionWalk(reps: seq<int>, at: nat, n: nat)
    requires at < |reps|
    ensures at == |reps| - 1 ==>
      AdvanceSectionN(reps, at, n).1 == at && AdvanceSectionN(reps, at, n).0[at] == reps[at] - n
    ensures at + 1 < |reps| && reps[at] >= 0 && n <= reps[at] ==>
      AdvanceSectionN(reps, at, n).1 == at && AdvanceSectionN(reps, at, n).0[at] == reps[at] - n
    ensures at + 1 < |reps| && reps[at] >= 0 ==> AdvanceSectionN(reps, at, reps[at] + 1).1 == at + 1
    decreases n
  {
    if n > 0 {
      var s := AdvanceSection(reps, at);
      SectionWalk(s.0, s.1, n - 1);
    }
    if at + 1 < |reps| && reps[at] >= 0 {
      SectionLeaves(reps, at, reps[at]);
    }
  }

  lemma {:induction false} SectionLeaves(reps: seq<int>, at: nat, c: nat)
    requires at + 1 < |reps| && reps[at] == c
    ensures AdvanceSectionN(reps, at, c + 1).1 == at + 1
    decreases c
  {
    if c > 0 {
      var s := AdvanceSection(reps, at);
      SectionLeaves(s.0, s.1, c - 1);
    }
  }

  ghost predicate IsSectionChain(chain: seq<Section>)
    reads chain
  {
    && |chain| > 0
    && (forall k :: 0 <= k < |chain| - 1 ==> chain[k].next == chain[k + 1])
    && chain[|chain| - 1].next == null
    && (forall a, b :: 0 <= a < b < |chain| ==> chain[a] != chain[b])
  }

  ghost function SectionBudgets(chain: seq<Section>): (rs: seq<int>)
    reads chain
    ensures |rs| == |chain|
    ensures forall k :: 0 <= k < |chain| ==> rs[k] == chain[k].repetitions
  {
    seq(|chain|, k requires 0 <= k < |chain| reads chain => chain[k].repetitions)
  }

  /** `next_section`, on the chain `chain` whose section `k` is current. */
  method NextSection(current: Section, ghost chain: seq<Section>, ghost k: nat) returns (s: Section, ghost k': nat)
    requires IsSectionChain(chain) && k < |chain| && chain[k] == current
    modifies {current, current.next}`repetitions
    ensures s == (if old(current.repetitions) < 1 && old(current.next) != null then old(current.next) else current)
    ensures k' < |chain| && s == chain[k']
    ensures (SectionBudgets(chain), k') == AdvanceSection(old(SectionBudgets(chain)), k)
  {
    ghost var before := SectionBudgets(chain);
    ghost var after := AdvanceSection(before, k);
    s := current;
    k' := k;
    if current.repetitions < 1 {
      if current.next != null {
        s := current.next;
        k' := k + 1;
      }
    }
    s.repetitions := s.repetitions - 1;
    assert k' == after.1;
    assert forall j :: 0 <= j < |chain| ==> chain[j].repetitions == after.0[j];
    assert SectionBudgets(chain) == after.0;
  }
}
