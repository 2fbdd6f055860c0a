/** The playing side of musicbox.c: the note-name table `musicbox_new`
    fills, the per-track note ticks that walk a phrase's list, and the
    master tick `musicbox_task` that advances every track's phrase chain
    and counts the song's rounds down. The Max clocks and outlets are left
    out: a tick's effect is the note it emits, whether its clock is set
    again, and the new state of the object. */
module Player {
  import opened Extra
  import opened Hash
  import opened Loader
  import opened Repetition
  import opened Text

  /** The lowest MIDI number in the note-name table: name `i` is MIDI note `i + 21`. */
  const FIRST_MIDI: int := 21

  /** The rounds `musicbox_bang` asks for. */
  const SONG_RUNS: int := 4

  // ----- the note-name table -----

  /** The names `noteNames[..n]` entered in order, a later copy of a name
      overwriting an earlier one. */
  function NameMap(noteNames: seq<string>, n: nat): map<string, int>
    requires n <= |noteNames|
  {
    if n == 0 then map[] else NameMap(noteNames, n - 1)[noteNames[n - 1] := n - 1 + FIRST_MIDI]
  }

  /** The table `musicbox_new` builds: every note name, then "rest" as -1. */
  function NoteNames(noteNames: seq<string>): map<string, int>
  {
    NameMap(noteNames, |noteNames|)["rest" := -1]
  }

  /** The names in the table are those entered. */
  lemma {:induction false} NameMapKeys(noteNames: seq<string>, n: nat)
    requires n <= |noteNames|
    ensures forall k :: k in NameMap(noteNames, n) <==> k in noteNames[..n]
    decreases n
  {
    if n > 0 {
      NameMapKeys(noteNames, n - 1);
      assert noteNames[..n] == noteNames[..n - 1] + [noteNames[n - 1]];
    }
  }

  /** Name `noteNames[i]` ends up with the MIDI number of its last copy. */
  lemma {:induction false} NameMapLast(noteNames: seq<string>, n: nat)
    requires n <= |noteNames|
    ensures forall i :: 0 <= i < n && noteNames[i] !in noteNames[i + 1..n] ==>
      noteNames[i] in NameMap(noteNames, n) && NameMap(noteNames, n)[noteNames[i]] == i + FIRST_MIDI
    decreases n
  {
    if n > 0 {
      NameMapLast(noteNames, n - 1);
      forall i | 0 <= i < n - 1 && noteNames[i] !in noteNames[i + 1..n]
        ensures noteNames[i] !in noteNames[i + 1..n - 1] && noteNames[i] != noteNames[n - 1]
      {
        assert noteNames[i + 1..n] == noteNames[i + 1..n - 1] + [noteNames[n - 1]];
      }
    }
  }

  /** Every entered name has a MIDI number of at least 21. */
  lemma {:induction false} NameMapRange(noteNames: seq<string>, n: nat)
    requires n <= |noteNames|
    ensures forall k :: k in NameMap(noteNames, n) ==> NameMap(noteNames, n)[k] >= FIRST_MIDI
    decreases n
  {
    if n > 0 {
      NameMapRange(noteNames, n - 1);
    }
  }

  /** No entry of the table is 0, so the loader never takes a note name,
      or "rest", for a length; "rest" reads as -1, a rest. */
  lemma NoNameIsALength(noteNames: seq<string>)
    ensures forall k :: k in NoteNames(noteNames) ==> !IsLength(NoteNames(noteNames), k)
    ensures Lookup(NoteNames(noteNames), "rest") == -1
  {
    NameMapRange(noteNames, |noteNames|);
  }

  /** The table-filling loop of `musicbox_new`: every note name, in order,
      then "rest". */
  method BuildNameTable(noteNames: seq<string>) returns (table: HashTable)
    ensures fresh(table) && fresh(table.entries) && table.Valid()
    ensures table.M == NoteNames(noteNames)
  {
    table := new HashTable();
    for i := 0 to |noteNames|
      invariant fresh(table) && fresh(table.entries) && table.Valid()
      invariant table.M == NameMap(noteNames, i)
    {
      table.Set(noteNames[i], i + FIRST_MIDI);
    }
    table.Set("rest", -1);
  }

  // ----- note ticks, on values -----

  /** Where a note tick leaves a cursor at node `i`: on the next node when
      there is one and its value is not 0, else where it was. On the last
      node this is the evidently intended end of the round (see
      `TickAsWritten` for the code as written). */
  function Tick(notes: seq<Note>, i: nat): (j: nat)
    requires i < |notes|
    ensures j < |notes|
    ensures j == i || (j == i + 1 && notes[j].value != 0)
    ensures j == i + 1 <==> i + 1 < |notes| && notes[i + 1].value != 0
  {
    if i + 1 < |notes| && notes[i + 1].value != 0 then i + 1 else i
  }

  /** What a note tick does after emitting its note: set its clock again
      and move on, stop because the next node holds 0, or read the value
      of a next node that does not exist. */
  datatype TickOutcome = Rescheduled | Finished | NullNext

  /** The note tasks as written: they read `current->next->value` with no
      check that `current->next` is set. */
  function TickAsWritten(notes: seq<Note>, i: nat): (o: TickOutcome)
    requires i < |notes|
  {
    if i + 1 == |notes| then NullNext
    else if notes[i + 1].value != 0 then Rescheduled
    else Finished
  }

  /** The code as written and the corrected tick agree wherever a next
      node exists; only a cursor on the last node reads through NULL. */
  lemma TickAgrees(notes: seq<Note>, i: nat)
    requires i < |notes|
    ensures TickAsWritten(notes, i) == NullNext <==> i + 1 == |notes|
    ensures TickAsWritten(notes, i) == Rescheduled <==> Tick(notes, i) == i + 1
    ensures TickAsWritten(notes, i) == Finished <==> i + 1 < |notes| && Tick(notes, i) == i
  {
  }

  /** A pattern file of one line that ends in a newline. */
  const HAT_EXAMPLE: string := "C4 1.0\n"

  /** A file of one line that ends in a newline: `number_of_lines` counts
      two lines, and the draw 1 picks the second, which is not there. */
  lemma {:induction false} OneLineFileMissesDraw(line: string)
    requires '\n' !in line && EOF_BYTE !in line
    ensures Lines(line + "\n") == [line + "\n"]
    ensures RandomLine(line + "\n", 1) == 2
    ensures SelectedLine(line + "\n", 1) == []
  {
    var t := line + "\n";
    IndexOfIs(t, '\n', |line|);
    assert t[..|line| + 1] == t && t[|line| + 1..] == [];
    assert Lines(t) == [t];
    LinesCount(t);
    assert EOF_BYTE !in t;
    CountedNewlines(t);
  }

  lemma HatExampleLine()
    ensures HAT_EXAMPLE == "C4 1.0" + "\n"
    ensures '\n' !in "C4 1.0" && EOF_BYTE !in "C4 1.0"
  {
  }

  /** The draw 1 on `HAT_EXAMPLE` picks no line, so the loader reads no
      token and the head keeps its single node, whose `next` is NULL: the
      first tick of the round reads through it. */
  lemma PastEndDrawReadsNull(names: map<string, int>, parse: string -> int, cur: Note)
    ensures SelectedLine(HAT_EXAMPLE, 1) == []
    ensures Interpret(LineTokens(SelectedLine(HAT_EXAMPLE, 1), ' '), names, parse, cur) == [cur]
    ensures TickAsWritten([cur], 0) == NullNext
  {
    HatExampleLine();
    OneLineFileMissesDraw("C4 1.0");
    assert Tokens([], ' ') == [];
  }

  /** The tokens of a line of two space-separated words, `a` and `b`,
      ending in a newline. */
  lemma {:induction false} TwoWordLine(a: string, b: string)
    requires a != [] && b != [] && ' ' !in a && ' ' !in b && '\n' !in a && '\n' !in b
    ensures LineTokens(a + " " + b + "\n", ' ') == [a, b]
  {
    var line := a + " " + b + "\n";
    IndexOfIs(line, ' ', |a|);
    var rest := line[|a| + 1..];
    assert rest == b + "\n" && line[|a|..][1..] == rest;
    assert line[..|a|] == a;
    IndexOfIs(rest, ' ', |rest|);
    assert rest[..|rest|] == rest && rest[|rest|..] == [];
    assert Tokens(rest, ' ') == [rest];
    assert Tokens(line, ' ') == [a, rest];
    assert rest[..|rest| - 1] == b;
    assert a[|a| - 1] in a && StripNewline(a) == a;
  }

  lemma NamesOnlyExampleLine()
    ensures "C4 D4\n" == "C4" + " " + "D4" + "\n"
    ensures ' ' !in "C4" && ' ' !in "D4" && '\n' !in "C4" && '\n' !in "D4"
  {
  }

  /** A line of names only, "C4 D4\n", reads no length: the loader leaves
      one node, and the tick on it reads through NULL as well. */
  lemma NamesOnlyLineReadsNull(names: map<string, int>, parse: string -> int, cur: Note)
    requires Lookup(names, "C4") != 0 && Lookup(names, "D4") != 0
    ensures |Interpret(LineTokens("C4 D4\n", ' '), names, parse, cur)| == 1
    ensures TickAsWritten(Interpret(LineTokens("C4 D4\n", ' '), names, parse, cur), 0) == NullNext
  {
    NamesOnlyExampleLine();
    TwoWordLine("C4", "D4");
    var toks := ["C4", "D4"];
    assert toks[..1] == ["C4"] && toks[..1][..0] == [];
    assert !IsLength(names, toks[0]) && !IsLength(names, toks[1]);
    assert CountLengths(names, toks[..1]) == 0;
    assert CountLengths(names, toks) == 0;
    InterpretCount(toks, names, parse, cur);
  }

  /** A list a round can be played on: it ends in a node holding 0, as the
      loader's and the generators' lists do. */
  predicate Terminated(notes: seq<Note>)
  {
    |notes| >= 1 && notes[|notes| - 1].value == 0
  }

  /** A cursor short of the last node stays short of it: the tick that
      would reach the terminator does not move, so the next node of the
      cursor is never NULL. */
  lemma TickStaysBeforeLast(notes: seq<Note>, i: nat)
    requires Terminated(notes) && i + 1 < |notes|
    ensures Tick(notes, i) + 1 < |notes|
  {
  }

  /** The notes one round of a track emits from node `i` on: this node,
      then, while the next node's value is not 0, the round from there.
      The tick that finds a 0 next does not set its clock again. */
  function Round(notes: seq<Note>, i: nat): seq<Note>
    requires Terminated(notes) && i + 1 < |notes|
    decreases |notes| - i
  {
    [notes[i]] + (if notes[i + 1].value != 0 then Round(notes, i + 1) else [])
  }

  /** A round emits the consecutive nodes from `i` up to the first node
      after `i` whose next node holds 0: never the terminator, never past a
      zero-valued node. */
  lemma {:induction false} RoundIsRun(notes: seq<Note>, i: nat)
    requires Terminated(notes) && i + 1 < |notes|
    ensures 1 <= |Round(notes, i)| && i + |Round(notes, i)| < |notes|
    ensures Round(notes, i) == notes[i..i + |Round(notes, i)|]
    ensures forall k :: i < k < i + |Round(notes, i)| ==> notes[k].value != 0
    ensures notes[i + |Round(notes, i)|].value == 0
    decreases |notes| - i
  {
    if notes[i + 1].value != 0 {
      RoundIsRun(notes, i + 1);
      assert notes[i..i + |Round(notes, i)|] == [notes[i]] + notes[i + 1..i + |Round(notes, i)|];
    }
  }

  /** On a list whose notes all hold a value other than 0, the terminator
      aside, a round from the head plays the whole phrase. */
  lemma RoundPlaysPhrase(notes: seq<Note>)
    requires Terminated(notes) && |notes| >= 2
    requires forall k :: 0 < k < |notes| - 1 ==> notes[k].value != 0
    ensures Round(notes, 0) == notes[..|notes| - 1]
  {
    RoundIsRun(notes, 0);
  }

  // ----- the master tick, on values -----

  /** `runs` after `n` master ticks. */
  function RunsAfter(runs: int, n: nat): int
    decreases n
  {
    if n == 0 then runs else RunsAfter(if runs > 0 then runs - 1 else runs, n - 1)
  }

  /** How many of `n` master ticks start a round. */
  function Started(runs: int, n: nat): nat
    decreases n
  {
    if n == 0 then 0 else (if runs > 0 then 1 else 0) + Started(if runs > 0 then runs - 1 else runs, n - 1)
  }

  /** With `runs` at `r`, the first `r` master ticks start a round and set
      the master clock again, every later one does neither: `r` rounds in
      all, and the master clock ticks `r + 1` times. */
  lemma {:induction false} Session(r: int, n: nat)
    requires r >= 0
    ensures Started(r, n) == (if n <= r then n else r)
    ensures RunsAfter(r, n) == (if n <= r then r - n else 0)
    ensures n < r ==> RunsAfter(r, n) > 0
    ensures n >= r ==> RunsAfter(r, n) == 0
    decreases n
  {
    if n > 0 {
      Session(if r > 0 then r - 1 else r, n - 1);
    }
  }

  /** A song started by `musicbox_bang` (`runs` set to four) plays four
      rounds: the first four master ticks start one each, the fifth starts
      none and leaves `runs` at 0. */
  lemma BangRounds()
    ensures Started(SONG_RUNS, SONG_RUNS) == SONG_RUNS && RunsAfter(SONG_RUNS, SONG_RUNS) == 0
    ensures Started(SONG_RUNS, SONG_RUNS + 1) == SONG_RUNS && RunsAfter(SONG_RUNS, SONG_RUNS + 1) == 0
  {
    Session(SONG_RUNS, SONG_RUNS + 1);
    Session(SONG_RUNS, SONG_RUNS);
  }

  /** The hat's chain (two sections of two repetitions, then an empty
      phrase): in round `n` (from 1) the hat plays its phrase `(n - 1) / 2`;
      the fifth master tick moves it onto the empty phrase, which is not
      played, and leaves the hold register at 0, so a later song starts
      from a cleared register. */
  lemma HatSession()
    ensures forall n :: 1 <= n <= SONG_RUNS ==> AdvanceN(Walk([2, 2, 0], 0, 0), n).at == (n - 1) / 2
    ensures AdvanceN(Walk([2, 2, 0], 0, 0), SONG_RUNS + 1) == Walk([2, 2, -1], 2, 0)
  {
    var reps := [2, 2, 0];
    assert PrefixSum(reps, 1) == 2 && PrefixSum(reps, 2) == 4;
    SessionOf(reps, SONG_RUNS + 1);
    forall n | 1 <= n <= SONG_RUNS
      ensures AdvanceN(Walk(reps, 0, 0), n).at == (n - 1) / 2
    {
      if n <= 2 {
        WithinPhrase(reps, 0, 0, n);
      } else {
        WithinPhrase(reps, 0, 1, n);
      }
    }
  }

  /** The bass chain (four phrases played once, then an empty phrase): in
      round `n` the bass plays its phrase `n - 1`; the fifth master tick
      moves it onto the empty phrase with the register at 0. */
  lemma BassSession()
    ensures forall n :: 1 <= n <= SONG_RUNS ==> AdvanceN(Walk([1, 1, 1, 1, 0], 0, 0), n).at == n - 1
    ensures AdvanceN(Walk([1, 1, 1, 1, 0], 0, 0), SONG_RUNS + 1) == Walk([1, 1, 1, 1, -1], 4, 0)
  {
    var reps := [1, 1, 1, 1, 0];
    assert PrefixSum(reps, 4) == 4;
    SessionOf(reps, SONG_RUNS + 1);
    forall n | 1 <= n <= SONG_RUNS
      ensures AdvanceN(Walk(reps, 0, 0), n).at == n - 1
    {
      assert PrefixSum(reps, n - 1) == n - 1 && PrefixSum(reps, n) == n;
      WithinPhrase(reps, 0, n - 1, n);
    }
  }

  /** The melody, ghost, snare and kick chains (one phrase of four
      repetitions, then an empty phrase): every round plays that phrase;
      the fifth master tick moves onto the empty phrase with the register
      at 0. */
  lemma LoopSession()
    ensures forall n :: 1 <= n <= SONG_RUNS ==> AdvanceN(Walk([4, 0], 0, 0), n).at == 0
    ensures AdvanceN(Walk([4, 0], 0, 0), SONG_RUNS + 1) == Walk([4, -1], 1, 0)
  {
    var reps := [4, 0];
    assert PrefixSum(reps, 1) == 4;
    SessionOf(reps, SONG_RUNS + 1);
    forall n | 1 <= n <= SONG_RUNS
      ensures AdvanceN(Walk(reps, 0, 0), n).at == 0
    {
      WithinPhrase(reps, 0, 0, n);
    }
  }

  /** A chain ending in an empty phrase, played from a clear register:
      one call after the budgets are used up the walk is on that phrase,
      every budget restored, the trailing one spent once, and the register
      clear. */
  lemma SessionOf(reps: seq<int>, n: nat)
    requires Playable(reps) && |reps| >= 2 && reps[0] >= 0 && reps[|reps| - 1] == 0
    requires n == PrefixSum(reps, |reps| - 1) + 1
    ensures AdvanceN(Walk(reps, 0, 0), n) == Walk(reps[|reps| - 1 := -1], |reps| - 1, 0)
  {
    var i := |reps| - 1;
    Checkpoint(reps, 0, i);
    var c := AdvanceN(Walk(reps, 0, 0), n);
    assert c.at == i && c.reps == reps[i := -1] && c.hold == 0;
  }

  // ----- the object -----

  /** `place` gives every phrase of the chains `cs` its track and its
      index on that track's chain. */
  ghost predicate Indexed(cs: seq<seq<Phrase>>, place: map<Phrase, (int, int)>)
  {
    forall u, j :: 0 <= u < |cs| && 0 <= j < |cs[u]| ==> cs[u][j] in place && place[cs[u][j]] == (u, j)
  }

  /** Indexed chains share no phrase, and none holds a phrase twice. */
  lemma IndexedDisjoint(cs: seq<seq<Phrase>>, place: map<Phrase, (int, int)>)
    requires Indexed(cs, place)
    ensures forall t, u, p :: 0 <= t < |cs| && 0 <= u < |cs| && t != u && p in cs[t] ==> p !in cs[u]
    ensures forall u, a, b :: 0 <= u < |cs| && 0 <= a < b < |cs[u]| ==> cs[u][a] != cs[u][b]
  {
    forall t, u, p | 0 <= t < |cs| && 0 <= u < |cs| && t != u && p in cs[t]
      ensures p !in cs[u]
    {
      var i :| 0 <= i < |cs[t]| && cs[t][i] == p;
      forall j | 0 <= j < |cs[u]|
        ensures cs[u][j] != p
      {
        assert place[cs[t][i]] == (t, i) && place[cs[u][j]] == (u, j);
      }
    }
    forall u, a, b | 0 <= u < |cs| && 0 <= a < b < |cs[u]|
      ensures cs[u][a] != cs[u][b]
    {
      assert place[cs[u][a]] == (u, a) && place[cs[u][b]] == (u, b);
    }
  }

  /** Every phrase of every chain of `cs` links to the next phrase of its
      chain, the last one to NULL. */
  ghost predicate Linked(cs: seq<seq<Phrase>>)
    reads set u, j | 0 <= u < |cs| && 0 <= j < |cs[u]| :: cs[u][j]
  {
    forall u, j {:trigger cs[u][j].next} :: 0 <= u < |cs| && 0 <= j < |cs[u]| ==>
      cs[u][j].next == (if j + 1 < |cs[u]| then cs[u][j + 1] else null)
  }

  /** A non-empty chain of indexed, linked chains is a phrase chain. */
  lemma LinkedChain(cs: seq<seq<Phrase>>, place: map<Phrase, (int, int)>, u: int)
    requires Indexed(cs, place) && Linked(cs) && 0 <= u < |cs| && |cs[u]| > 0
    ensures IsChain(cs[u])
  {
    var c := cs[u];
    forall k | 0 <= k < |c| - 1
      ensures c[k].next == c[k + 1]
    {
      assert cs[u][k].next == cs[u][k + 1];
    }
    assert cs[u][|c| - 1].next == null;
    forall a, b | 0 <= a < b < |c|
      ensures c[a] != c[b]
    {
      assert place[cs[u][a]] == (u, a) && place[cs[u][b]] == (u, b);
    }
  }

  /** Phrase chains are linked. */
  lemma ChainsLinked(cs: seq<seq<Phrase>>)
    requires forall u :: 0 <= u < |cs| ==> IsChain(cs[u])
    ensures Linked(cs)
  {
    forall u, j | 0 <= u < |cs| && 0 <= j < |cs[u]|
      ensures cs[u][j].next == (if j + 1 < |cs[u]| then cs[u][j + 1] else null)
    {
      assert IsChain(cs[u]);
    }
  }

  /** `next_phrase` for track `t` of a box whose tracks hold the indexed
      chains `cs`, modelled by `walks`: track `t`'s walk advances, the
      links stay, and the advanced walks still model every track. */
  method StepTrack(current: Phrase, t: nat, hold: array<int>, ghost cs: seq<seq<Phrase>>,
                   ghost place: map<Phrase, (int, int)>, ghost walks: seq<Walk>)
    returns (p: Phrase)
    requires t < TRACKS && Tracked(walks, cs, hold)
    requires Indexed(cs, place) && Linked(cs)
    requires walks[t].at < |walks[t].reps| == |cs[t]| && cs[t][walks[t].at] == current
    modifies hold, (set j | 0 <= j < |cs[t]| :: cs[t][j])`repetitions
    ensures Linked(cs)
    ensures Tracked(walks[t := Advance(walks[t])], cs, hold)
    ensures Advance(walks[t]).at < |cs[t]| && p == cs[t][Advance(walks[t]).at]
  {
    var k := walks[t].at;
    LinkedChain(cs, place, t);
    Apart(cs, place, t, k);
    assert current.next == null || current.next == cs[t][k + 1];
    ghost var k';
    p, k' := NextPhrase(current, t, hold, cs[t], k);
    ghost var walks' := walks[t := Advance(walks[t])];
    forall u | 0 <= u < TRACKS
      ensures walks'[u].reps == Budgets(TrackChain(cs, u)) && walks'[u].hold == hold[u]
    {
      if u != t {
        ghost var c := TrackChain(cs, u);
        assert old(Budgets(c)) == Budgets(c);
      }
    }
  }

  /** Phrases `k` and `k + 1` of chain `t` are on no other chain. */
  lemma Apart(cs: seq<seq<Phrase>>, place: map<Phrase, (int, int)>, t: int, k: nat)
    requires Indexed(cs, place) && 0 <= t < |cs| && k < |cs[t]|
    ensures forall u, j :: 0 <= u < |cs| && u != t && 0 <= j < |cs[u]| ==>
      cs[u][j] != cs[t][k] && (k + 1 < |cs[t]| ==> cs[u][j] != cs[t][k + 1])
  {
    forall u, j | 0 <= u < |cs| && u != t && 0 <= j < |cs[u]|
      ensures cs[u][j] != cs[t][k] && (k + 1 < |cs[t]| ==> cs[u][j] != cs[t][k + 1])
    {
      assert place[cs[u][j]] == (u, j) && place[cs[t][k]] == (t, k);
      if k + 1 < |cs[t]| {
        assert place[cs[t][k + 1]] == (t, k + 1);
      }
    }
  }

  /** Track `u`'s chain among the chains `cs`. */
  ghost function TrackChain(cs: seq<seq<Phrase>>, u: int): (chain: seq<Phrase>)
    requires 0 <= u < |cs|
    ensures chain == cs[u]
  {
    cs[u]
  }

  /** Track `t`'s walk `walks[t]` holds the budgets of chain `cs[t]` and
      the register `hold[t]`, for all six tracks. */
  ghost predicate Tracked(walks: seq<Walk>, cs: seq<seq<Phrase>>, hold: array<int>)
    reads hold, set u, j | 0 <= u < |cs| && 0 <= j < |cs[u]| :: cs[u][j]
  {
    && |walks| == |cs| == hold.Length == TRACKS
    && forall t {:trigger TrackChain(cs, t)} :: 0 <= t < TRACKS ==>
         walks[t].reps == Budgets(TrackChain(cs, t)) && walks[t].hold == hold[t]
  }

  /** Track `t` of `phrases` is on the phrase its walk `walks[t]` is at on
      chain `chains[t]`, for all six tracks, and `place` indexes the chains. */
  ghost predicate PlacedOn(phrases: seq<Phrase>, cursors: seq<NoteNode>, chains: seq<seq<Phrase>>,
                           place: map<Phrase, (int, int)>, walks: seq<Walk>)
  {
    && |phrases| == TRACKS && |cursors| == TRACKS && |chains| == TRACKS && |walks| == TRACKS
    && (forall t :: 0 <= t < TRACKS ==>
          walks[t].at < |walks[t].reps| == |chains[t]| && chains[t][walks[t].at] == phrases[t])
    && Indexed(chains, place)
  }

  /** Moving track `t` to phrase `p`, the one its advanced walk is at,
      keeps every track placed on its chain. */
  lemma PlacedStep(phrases: seq<Phrase>, cursors: seq<NoteNode>, chains: seq<seq<Phrase>>,
                   place: map<Phrase, (int, int)>, walks: seq<Walk>, t: nat, p: Phrase, c: NoteNode, w': Walk)
    requires PlacedOn(phrases, cursors, chains, place, walks) && t < TRACKS
    requires |w'.reps| == |walks[t].reps| && w'.at < |w'.reps| && chains[t][w'.at] == p
    ensures PlacedOn(phrases[t := p], cursors[t := c], chains, place, walks[t := w'])
  {
  }

  /** The part of `t_musicbox` the ticks use. Track `t` (see `BASS` …
      `KICK`) is on phrase `phrases[t]` with its note cursor at
      `cursors[t]`; `hold` is the register array `phrase_rep_hold`. The
      ghost `chains[t]` is track `t`'s phrase chain and `walks[t]` its
      state as a value: the chain's budgets, the index of `phrases[t]` on
      the chain, and the track's register. */
  class MusicBox {
    var phrases: seq<Phrase>
    var cursors: seq<NoteNode>
    var runs: int
    const hold: array<int>
    ghost const chains: seq<seq<Phrase>>
    ghost const place: map<Phrase, (int, int)>
    ghost var walks: seq<Walk>

    /** The box as `musicbox_bang` leaves it once the builders have run:
        every track on the first phrase of its chain, four rounds to play.
        The master tick puts the cursors on the phrases' heads before any
        note tick reads them; here they start there. */
    constructor Start(heads: seq<Phrase>, ghost chains: seq<seq<Phrase>>, ghost place: map<Phrase, (int, int)>, hold: array<int>)
      requires |heads| == TRACKS == |chains| && hold.Length == TRACKS
      requires forall t :: 0 <= t < TRACKS ==> |chains[t]| > 0 && chains[t][0] == heads[t]
      requires Linked(chains) && Indexed(chains, place)
      ensures Valid() && this.chains == chains && this.place == place && this.hold == hold
      ensures phrases == heads && runs == SONG_RUNS
      ensures forall t :: 0 <= t < TRACKS ==> cursors[t] == heads[t].head
      ensures forall t :: 0 <= t < TRACKS ==> walks[t] == Walk(Budgets(chains[t]), 0, hold[t])
    {
      phrases := heads;
      cursors := [heads[0].head, heads[1].head, heads[2].head, heads[3].head, heads[4].head, heads[5].head];
      runs := SONG_RUNS;
      this.hold := hold;
      this.chains := chains;
      this.place := place;
      ghost var ws: seq<Walk> := [];
      for t := 0 to TRACKS
        invariant |ws| == t
        invariant forall u :: 0 <= u < t ==> ws[u] == Walk(Budgets(chains[u]), 0, hold[u])
      {
        ws := ws + [Walk(Budgets(chains[t]), 0, hold[t])];
      }
      walks := ws;
      new;
    }

    /** Every phrase of every track's chain. */
    ghost function AllPhrases(): set<Phrase>
    {
      set t, j | 0 <= t < |chains| && 0 <= j < |chains[t]| :: chains[t][j]
    }

    /** Six tracks, each on a phrase of its own chain; no phrase is shared
        between tracks. */
    ghost predicate Placed()
      reads this`phrases, this`cursors, this`walks
    {
      PlacedOn(phrases, cursors, chains, place, walks) && hold.Length == TRACKS
    }

    /** Every chain is a well-formed phrase chain whose budgets, with the
        track's register, are those of the track's walk. */
    ghost predicate Modelled()
      reads this`walks, hold, AllPhrases()
    {
      Linked(chains) && Tracked(walks, chains, hold)
    }

    ghost predicate Valid()
      reads this`phrases, this`cursors, this`walks, hold, AllPhrases()
    {
      Placed() && Modelled()
    }

    /** One `musicbox_*_task` note tick of track `t`, whose cursor is node
        `i` of the list `nodes`: emit that node's note; when the next
        node's value is not 0, set the clock again and move the cursor.
        On the last node the code as written reads through a NULL `next`,
        returned here as `NullNext` with the cursor left in place. */
    method NoteTick(t: nat, ghost nodes: seq<NoteNode>, ghost i: nat) returns (played: Note, outcome: TickOutcome)
      requires |cursors| == TRACKS && t < TRACKS
      requires i < |nodes| && IsList(nodes[0], nodes) && cursors[t] == nodes[i]
      modifies this`cursors
      ensures played == Notes(nodes)[i]
      ensures outcome == TickAsWritten(Notes(nodes), i)
      ensures cursors == old(cursors)[t := nodes[Tick(Notes(nodes), i)]]
    {
      var current := cursors[t];
      NextNode(nodes[0], nodes, i);
      played := Note(current.value, current.length);
      if current.next == null {
        outcome := NullNext;
      } else if current.next.value != 0 {
        outcome := Rescheduled;
        cursors := cursors[t := current.next];
      } else {
        outcome := Finished;
      }
    }

    /** The two statements of `musicbox_task` for track `t`: advance the
        track's phrase with `next_phrase` and put its cursor on the head. */
    method AdvanceTrack(t: nat)
      requires Valid() && t < TRACKS
      modifies this`phrases, this`walks, this`cursors, hold, (set j | 0 <= j < |chains[t]| :: chains[t][j])`repetitions
      ensures Valid()
      ensures walks == old(walks)[t := Advance(old(walks[t]))]
      ensures phrases == old(phrases)[t := phrases[t]]
      ensures cursors == old(cursors)[t := phrases[t].head]
    {
      var p := StepTrack(phrases[t], t, hold, chains, place, walks);
      PlacedStep(phrases, cursors, chains, place, walks, t, p, p.head, Advance(walks[t]));
      phrases, walks, cursors := phrases[t := p], walks[t := Advance(walks[t])], cursors[t := p.head];
    }

    /** `musicbox_task`: advance every track, then, while rounds are left,
        start a round (the track clocks and this clock are set again) and
        count it. */
    method Task() returns (started: bool)
      requires Valid()
      modifies this`phrases, this`walks, this`cursors, this`runs, hold, AllPhrases()`repetitions
      ensures Valid()
      ensures forall t :: 0 <= t < TRACKS ==> walks[t] == Advance(old(walks[t]))
      ensures forall t :: 0 <= t < TRACKS ==> cursors[t] == phrases[t].head
      ensures started == (old(runs) > 0)
      ensures runs == (if started then old(runs) - 1 else old(runs))
    {
      for t := 0 to TRACKS
        invariant Valid() && runs == old(runs)
        invariant forall u :: 0 <= u < t ==> walks[u] == Advance(old(walks[u])) && cursors[u] == phrases[u].head
        invariant forall u :: t <= u < TRACKS ==> walks[u] == old(walks[u])
      {
        AdvanceTrack(t);
      }
      started := runs > 0;
      if started {
        runs := runs - 1;
      }
    }
  }
}
