/** The backbeat generators of musicbox.c: starting at beat 0 and going
    on until 4.0 beats are filled, each step draws a length of 1 to 16
    quarter beats and a scale index, picks the pitch according to whether
    the position is one of the reference track's onsets, and shortens the
    note so that it does not run over the next reference onset (or over
    the end of the measure when none is left).

    `rand` stands for the successive values of `rand()`: the generator
    reads `rand(pos)`, `rand(pos + 1)`, ... and reports how far it got. */
module Generator {
  import opened Extra

  /** The melody's scale, A3 to G4 as MIDI numbers. */
  const MELODY_SCALE: seq<int> := [57, 59, 60, 62, 64, 65, 67]

  /** One row of the chord progression: four MIDI numbers, root first. */
  type Chord = s: seq<int> | |s| == 4 witness [0, 0, 0, 0]

  /** Which generator: the melody's fixed scale, or the bass over one
      chord of the progression. */
  datatype Voice = Melody | Bass(scale: Chord)

  predicate StrictlyIncreasing(ons: seq<int>)
  {
    forall a, b :: 0 <= a < b < |ons| ==> ons[a] < ons[b]
  }

  /** Reference onsets the generator can follow: strictly increasing, and
      none of them equal to the -1.0 end mark, at which the scans stop. */
  predicate Reference(ons: seq<int>)
  {
    StrictlyIncreasing(ons) && BEATS_END !in ons
  }

  /** A reference list with no negative length and no empty note before
      its last has onsets the generator can follow. */
  lemma ReferenceFromList(notes: seq<Note>)
    requires forall k :: 0 <= k < |notes| ==> notes[k].length >= 0
    requires forall k :: 0 <= k < |notes| - 1 ==> notes[k].length >= 1
    ensures Reference(Onsets(notes, 0))
  {
    OnsetsIncreasing(notes, 0);
    OnsetsOrdered(notes, 0);
  }

  /** Index of the first onset at or after position `p`, or `|ons|`. */
  function FirstAtOrAfter(ons: seq<int>, p: int): (i: nat)
    ensures i <= |ons|
  {
    if ons == [] then 0
    else if ons[0] >= p then 0
    else 1 + FirstAtOrAfter(ons[1..], p)
  }

  /** `FirstAtOrAfter` finds exactly the first onset not before `p`. */
  lemma {:induction false} FirstAtOrAfterSpec(ons: seq<int>, p: int)
    ensures forall k :: 0 <= k < FirstAtOrAfter(ons, p) ==> ons[k] < p
    ensures FirstAtOrAfter(ons, p) < |ons| ==> ons[FirstAtOrAfter(ons, p)] >= p
    decreases |ons|
  {
    if ons != [] && ons[0] < p {
      FirstAtOrAfterSpec(ons[1..], p);
    }
  }

  /** ... and any index with those properties is the one it finds. */
  lemma {:induction false} FirstAtOrAfterIs(ons: seq<int>, p: int, i: nat)
    requires i <= |ons|
    requires forall k :: 0 <= k < i ==> ons[k] < p
    requires i < |ons| ==> ons[i] >= p
    ensures FirstAtOrAfter(ons, p) == i
    decreases |ons|
  {
    if ons != [] && ons[0] < p {
      FirstAtOrAfterIs(ons[1..], p, i - 1);
    }
  }

  /** Whether position `p` is on the backbeat: the first onset not before
      it is `p` itself. */
  function OnBackbeat(ons: seq<int>, p: int): bool
  {
    var i := FirstAtOrAfter(ons, p);
    i < |ons| && ons[i] == p
  }

  /** Over increasing onsets, being on the backbeat is being a reference onset. */
  lemma OnBackbeatIff(ons: seq<int>, p: int)
    requires StrictlyIncreasing(ons)
    ensures OnBackbeat(ons, p) <==> p in ons
  {
    FirstAtOrAfterSpec(ons, p);
    if p in ons {
      var k :| 0 <= k < |ons| && ons[k] == p;
      var i := FirstAtOrAfter(ons, p);
      assert i <= k;
    }
  }

  /** The clamp over the onsets from index `j` on: the first of them that
      the note would run past cuts it short to end there. */
  function ClampFrom(ons: seq<int>, j: nat, p: int, len: int): int
    requires j <= |ons|
    decreases |ons| - j
  {
    if j == |ons| then len
    else if p + len > ons[j] then ons[j] - p
    else ClampFrom(ons, j + 1, p, len)
  }

  /** The clamp only shortens; the note ends by the first onset still
      ahead; it is cut to end exactly at an onset or keeps its length; and
      it keeps at least a tick when every onset ahead is after `p`. */
  lemma {:induction false} ClampFromSpec(ons: seq<int>, j: nat, p: int, len: int)
    requires j <= |ons|
    ensures ClampFrom(ons, j, p, len) <= len
    ensures j < |ons| ==> p + ClampFrom(ons, j, p, len) <= ons[j]
    ensures ClampFrom(ons, j, p, len) == len || exists k :: j <= k < |ons| && ClampFrom(ons, j, p, len) == ons[k] - p
    ensures len >= 1 && (forall k :: j <= k < |ons| ==> ons[k] > p) ==> ClampFrom(ons, j, p, len) >= 1
    decreases |ons| - j
  {
    if j < |ons| && p + len <= ons[j] {
      ClampFromSpec(ons, j + 1, p, len);
    }
  }

  /** The clamp of a drawn length `len` at position `p`, the onsets from
      index `j` on being the ones still ahead: with none ahead the note
      may not run past 4.0 beats. */
  function Clamp(ons: seq<int>, j: nat, p: int, len: int): int
    requires j <= |ons|
  {
    if j == |ons| then (if len + p > MEASURE then MEASURE - p else len)
    else ClampFrom(ons, j, p, len)
  }

  lemma ClampSpec(ons: seq<int>, j: nat, p: int, len: int)
    requires j <= |ons|
    ensures Clamp(ons, j, p, len) <= len
    ensures j < |ons| ==> p + Clamp(ons, j, p, len) <= ons[j]
    ensures j == |ons| ==> p + Clamp(ons, j, p, len) <= MEASURE
    ensures len >= 1 && p < MEASURE && (forall k :: j <= k < |ons| ==> ons[k] > p) ==> Clamp(ons, j, p, len) >= 1
  {
    ClampFromSpec(ons, j, p, len);
  }

  /** The pitch a step picks from the index draw `draw`. */
  function Pitch(voice: Voice, onBack: bool, draw: nat): int
  {
    match voice
    case Melody =>
      var k := GetRandom(draw, 0, 6);
      if onBack then MELODY_SCALE[k] + 12 else MELODY_SCALE[k]
    case Bass(scale) =>
      var k := GetRandom(draw, 1, 3);
      if onBack then scale[0] else scale[k]
  }

  /** The melody plays a scale note, one octave up on the backbeat; the
      bass plays the chord's root on the backbeat and one of its other
      three notes elsewhere. */
  lemma PitchRule(voice: Voice, onBack: bool, draw: nat)
    ensures voice == Melody && !onBack ==> Pitch(voice, onBack, draw) in MELODY_SCALE
    ensures voice == Melody && onBack ==> Pitch(voice, onBack, draw) - 12 in MELODY_SCALE
    ensures voice.Bass? && onBack ==> Pitch(voice, onBack, draw) == voice.scale[0]
    ensures voice.Bass? && !onBack ==> Pitch(voice, onBack, draw) in voice.scale[1..]
  {
    if voice.Bass? && !onBack {
      var k := GetRandom(draw, 1, 3);
      assert voice.scale[k] == voice.scale[1..][k - 1];
    }
  }

  /** One step of the generator at position `p`, reading the length draw
      `rand(pos)` and the index draw `rand(pos + 1)`. */
  function NoteAt(ons: seq<int>, p: int, rand: nat -> nat, pos: nat, voice: Voice): Note
  {
    var i := FirstAtOrAfter(ons, p);
    var onBack := i < |ons| && ons[i] == p;
    var j := if onBack then i + 1 else i;
    Note(Pitch(voice, onBack, rand(pos + 1)), Clamp(ons, j, p, GetRandom(rand(pos), 1, 16)))
  }

  /** What one step guarantees: its length is at least one tick and at
      most the drawn one, the note covers no reference onset after its
      start, it ends by 4.0 beats when no onset is ahead or none lies past
      4.0, and its pitch follows from whether it starts on an onset. */
  lemma NoteAtFacts(ons: seq<int>, p: int, rand: nat -> nat, pos: nat, voice: Voice)
    requires StrictlyIncreasing(ons) && p < MEASURE
    ensures 1 <= NoteAt(ons, p, rand, pos, voice).length <= GetRandom(rand(pos), 1, 16)
    ensures forall o :: o in ons ==> !(p < o < p + NoteAt(ons, p, rand, pos, voice).length)
    ensures (forall o :: o in ons ==> o <= p) ==> p + NoteAt(ons, p, rand, pos, voice).length <= MEASURE
    ensures (forall o :: o in ons ==> o <= MEASURE) ==> p + NoteAt(ons, p, rand, pos, voice).length <= MEASURE
    ensures NoteAt(ons, p, rand, pos, voice).value == Pitch(voice, p in ons, rand(pos + 1))
  {
    FirstAtOrAfterSpec(ons, p);
    var i := FirstAtOrAfter(ons, p);
    var onBack := i < |ons| && ons[i] == p;
    var j := if onBack then i + 1 else i;
    var len := GetRandom(rand(pos), 1, 16);
    ClampSpec(ons, j, p, len);
    var l := NoteAt(ons, p, rand, pos, voice).length;
    assert l == Clamp(ons, j, p, len);
    OnBackbeatIff(ons, p);
    assert forall k :: 0 <= k < j ==> ons[k] <= p;
    assert forall k :: j <= k < |ons| ==> ons[k] > p;
    if j < |ons| {
      assert ons[j] in ons && ons[j] > p;
      assert forall k :: j <= k < |ons| ==> ons[k] >= p + l;
    }
  }

  /** A generator step: the note written at a position, reading draws
      from a given index on. */
  type Step = (int, nat) -> Note

  /** Inside the measure every step lasts at least a tick. */
  ghost predicate Advances(step: Step)
  {
    forall q: int, ps: nat :: q < MEASURE ==> step(q, ps).length >= 1
  }

  /** The measure-filling loop of the generators: from position `p`,
      while short of 4.0 beats, write a note and move past it; every
      step uses two draws. */
  function Run(step: Step, p: int, pos: nat): seq<Note>
    requires Advances(step)
    decreases MEASURE - p
  {
    if p >= MEASURE then []
    else
      var n := step(p, pos);
      [n] + Run(step, p + n.length, pos + 2)
  }

  /** The start position of every note of a list that starts at `p`. */
  function Starts(notes: seq<Note>, p: int): (s: seq<int>)
    ensures |s| == |notes|
  {
    if notes == [] then [] else [p] + Starts(notes[1..], p + notes[0].length)
  }

  lemma StartsCons(n: Note, rest: seq<Note>, p: int)
    ensures Starts([n] + rest, p) == [p] + Starts(rest, p + n.length)
  {
    assert ([n] + rest)[1..] == rest;
  }

  /** Consecutive notes of a list: each starts where the one before ends. */
  lemma {:induction false} StartsStep(notes: seq<Note>, p: int, k: nat)
    requires k + 1 < |notes|
    ensures Starts(notes, p)[k + 1] == Starts(notes, p)[k] + notes[k].length
    decreases k
  {
    if k > 0 {
      StartsStep(notes[1..], p + notes[0].length, k - 1);
    }
  }

  /** The `k`-th note of a run is the step at that note's start, which
      lies in `[p, MEASURE)`, reading draws from `pos + 2 * k` on. */
  lemma {:induction false} RunAt(step: Step, p: int, pos: nat, k: nat)
    requires Advances(step)
    requires k < |Run(step, p, pos)|
    ensures p <= Starts(Run(step, p, pos), p)[k] < MEASURE
    ensures Run(step, p, pos)[k] == step(Starts(Run(step, p, pos), p)[k], pos + 2 * k)
    decreases k
  {
    var n := step(p, pos);
    var rest := Run(step, p + n.length, pos + 2);
    assert Run(step, p, pos) == [n] + rest;
    StartsCons(n, rest, p);
    if k > 0 {
      RunAt(step, p + n.length, pos + 2, k - 1);
      assert pos + 2 * k == (pos + 2) + 2 * (k - 1);
    }
  }

  /** A run has at most as many notes as ticks are left. */
  lemma {:induction false} RunCount(step: Step, p: int, pos: nat)
    requires Advances(step)
    requires p <= MEASURE
    ensures |Run(step, p, pos)| <= MEASURE - p
    decreases MEASURE - p
  {
    if p < MEASURE {
      var n := step(p, pos);
      if p + n.length <= MEASURE {
        RunCount(step, p + n.length, pos + 2);
      }
    }
  }

  /** When no step inside the measure runs past its end, a run fills the
      rest of the measure exactly. */
  lemma {:induction false} RunFills(step: Step, p: int, pos: nat)
    requires Advances(step)
    requires forall q: int, ps: nat :: q < MEASURE ==> q + step(q, ps).length <= MEASURE
    requires p <= MEASURE
    ensures TotalLength(Run(step, p, pos)) == MEASURE - p
    decreases MEASURE - p
  {
    if p < MEASURE {
      var n := step(p, pos);
      RunFills(step, p + n.length, pos + 2);
      assert Run(step, p, pos)[1..] == Run(step, p + n.length, pos + 2);
    }
  }

  /** The generator's step over reference onsets `ons`. */
  function StepOf(ons: seq<int>, rand: nat -> nat, voice: Voice): Step
  {
    (q: int, ps: nat) => NoteAt(ons, q, rand, ps, voice)
  }

  lemma StepAdvances(ons: seq<int>, rand: nat -> nat, voice: Voice)
    requires StrictlyIncreasing(ons)
    ensures Advances(StepOf(ons, rand, voice))
  {
    forall q: int, ps: nat | q < MEASURE
      ensures StepOf(ons, rand, voice)(q, ps).length >= 1
    {
      NoteAtFacts(ons, q, rand, ps, voice);
    }
  }

  /** At an onset the reference repeats, the step as written clamps the
      note to length 0: `j` starts at the repeated copy, which the drawn
      length runs past. The beat then stays where it is, so the loop of
      the generators never reaches 4.0 beats, and no step over such onsets
      advances. */
  lemma RepeatedOnsetStalls(ons: seq<int>, k: nat, rand: nat -> nat, pos: nat, voice: Voice)
    requires k + 1 < |ons| && ons[k] == ons[k + 1]
    requires forall a :: 0 <= a < k ==> ons[a] < ons[k]
    ensures NoteAt(ons, ons[k], rand, pos, voice).length == 0
    ensures ons[k] < MEASURE ==> !Advances(StepOf(ons, rand, voice))
  {
    FirstAtOrAfterIs(ons, ons[k], k);
    assert GetRandom(rand(pos), 1, 16) >= 1;
    assert StepOf(ons, rand, voice)(ons[k], pos) == NoteAt(ons, ons[k], rand, pos, voice);
  }

  /** The notes `musicbox_create_melody` or `musicbox_create_bass` writes
      from position `p` on. */
  function Generate(ons: seq<int>, p: int, rand: nat -> nat, pos: nat, voice: Voice): seq<Note>
    requires StrictlyIncreasing(ons)
  {
    StepAdvances(ons, rand, voice);
    Run(StepOf(ons, rand, voice), p, pos)
  }

  /** One generator step at the front of what is left to generate. */
  lemma GenerateUnfold(ons: seq<int>, p: int, rand: nat -> nat, pos: nat, voice: Voice)
    requires StrictlyIncreasing(ons) && p < MEASURE
    ensures Generate(ons, p, rand, pos, voice) ==
      [NoteAt(ons, p, rand, pos, voice)] + Generate(ons, p + NoteAt(ons, p, rand, pos, voice).length, rand, pos + 2, voice)
  {
    StepAdvances(ons, rand, voice);
  }

  /** Every generated note lasts between one tick and its drawn length,
      starts at or after `p`, before 4.0 beats and exactly where the one
      before ends, and follows the pitch rule for its start. */
  lemma GenerateSteps(ons: seq<int>, p: int, rand: nat -> nat, pos: nat, voice: Voice, k: nat)
    requires StrictlyIncreasing(ons)
    requires k < |Generate(ons, p, rand, pos, voice)|
    ensures 1 <= Generate(ons, p, rand, pos, voice)[k].length <= GetRandom(rand(pos + 2 * k), 1, 16)
    ensures p <= Starts(Generate(ons, p, rand, pos, voice), p)[k] < MEASURE
    ensures k + 1 < |Generate(ons, p, rand, pos, voice)| ==>
      Starts(Generate(ons, p, rand, pos, voice), p)[k + 1] ==
      Starts(Generate(ons, p, rand, pos, voice), p)[k] + Generate(ons, p, rand, pos, voice)[k].length
    ensures Generate(ons, p, rand, pos, voice)[k].value ==
      Pitch(voice, Starts(Generate(ons, p, rand, pos, voice), p)[k] in ons, rand(pos + 2 * k + 1))
  {
    var g := Generate(ons, p, rand, pos, voice);
    var q := GenerateAt(ons, p, rand, pos, voice, k);
    NoteAtFacts(ons, q, rand, pos + 2 * k, voice);
    if k + 1 < |g| {
      StartsStep(g, p, k);
    }
  }

  /** The `k`-th generated note is the generator's step at its start. */
  lemma GenerateAt(ons: seq<int>, p: int, rand: nat -> nat, pos: nat, voice: Voice, k: nat) returns (q: int)
    requires StrictlyIncreasing(ons)
    requires k < |Generate(ons, p, rand, pos, voice)|
    ensures q == Starts(Generate(ons, p, rand, pos, voice), p)[k]
    ensures p <= q < MEASURE
    ensures Generate(ons, p, rand, pos, voice)[k] == NoteAt(ons, q, rand, pos + 2 * k, voice)
  {
    StepAdvances(ons, rand, voice);
    RunAt(StepOf(ons, rand, voice), p, pos, k);
    q := Starts(Generate(ons, p, rand, pos, voice), p)[k];
  }

  /** There are at most as many generated notes as ticks left. */
  lemma GenerateCount(ons: seq<int>, p: int, rand: nat -> nat, pos: nat, voice: Voice)
    requires StrictlyIncreasing(ons) && p <= MEASURE
    ensures |Generate(ons, p, rand, pos, voice)| <= MEASURE - p
  {
    StepAdvances(ons, rand, voice);
    RunCount(StepOf(ons, rand, voice), p, pos);
  }

  /** No generated note covers a reference onset after its start; a note
      with no onset ahead, and every note when no onset lies past 4.0
      beats, ends by 4.0 beats. */
  lemma GenerateNoStraddle(ons: seq<int>, p: int, rand: nat -> nat, pos: nat, voice: Voice, k: nat)
    requires StrictlyIncreasing(ons)
    requires k < |Generate(ons, p, rand, pos, voice)|
    ensures forall o :: o in ons ==>
      !(Starts(Generate(ons, p, rand, pos, voice), p)[k] < o <
        Starts(Generate(ons, p, rand, pos, voice), p)[k] + Generate(ons, p, rand, pos, voice)[k].length)
    ensures (forall o :: o in ons ==> o <= Starts(Generate(ons, p, rand, pos, voice), p)[k]) ==>
      Starts(Generate(ons, p, rand, pos, voice), p)[k] + Generate(ons, p, rand, pos, voice)[k].length <= MEASURE
    ensures (forall o :: o in ons ==> o <= MEASURE) ==>
      Starts(Generate(ons, p, rand, pos, voice), p)[k] + Generate(ons, p, rand, pos, voice)[k].length <= MEASURE
  {
    var q := GenerateAt(ons, p, rand, pos, voice, k);
    NoteAtFacts(ons, q, rand, pos + 2 * k, voice);
  }

  /** When no reference onset lies past 4.0 beats, the generated notes
      fill the rest of the measure exactly. */
  lemma GenerateFills(ons: seq<int>, p: int, rand: nat -> nat, pos: nat, voice: Voice)
    requires StrictlyIncreasing(ons)
    requires forall o :: o in ons ==> o <= MEASURE
    requires p <= MEASURE
    ensures TotalLength(Generate(ons, p, rand, pos, voice)) == MEASURE - p
  {
    var step := StepOf(ons, rand, voice);
    StepAdvances(ons, rand, voice);
    forall q: int, ps: nat | q < MEASURE
      ensures q + step(q, ps).length <= MEASURE
    {
      NoteAtFacts(ons, q, rand, ps, voice);
    }
    RunFills(step, p, pos);
  }

  // ----- the generator loops -----

  /** The scan for the first reference onset not before `beat`, and
      whether it is `beat` itself. */
  method FindOnset(bb: seq<int>, beat: int, ghost ons: seq<int>) returns (i: nat, onBack: bool)
    requires bb == ons + [BEATS_END] && BEATS_END !in ons
    ensures i == FirstAtOrAfter(ons, beat)
    ensures onBack == OnBackbeat(ons, beat)
  {
    i := 0;
    onBack := false;
    while bb[i] != BEATS_END
      invariant 0 <= i <= |ons|
      invariant forall k :: 0 <= k < i ==> ons[k] < beat
      decreases |ons| - i
    {
      if beat == bb[i] {
        onBack := true;
        break;
      } else if beat < bb[i] {
        break;
      }
      i := i + 1;
    }
    FirstAtOrAfterIs(ons, beat, i);
  }

  /** The clamp of the drawn length against the onsets from index `j` on. */
  method ClampLength(bb: seq<int>, j: nat, beat: int, len: int, ghost ons: seq<int>) returns (l: int)
    requires bb == ons + [BEATS_END] && BEATS_END !in ons
    requires j <= |ons|
    ensures l == Clamp(ons, j, beat, len)
  {
    l := len;
    if bb[j] == BEATS_END {
      if l + beat > MEASURE {
        l := MEASURE - beat;
      }
    } else {
      var k := j;
      while bb[k] != BEATS_END
        invariant j <= k <= |ons|
        invariant ClampFrom(ons, k, beat, len) == ClampFrom(ons, j, beat, len)
        invariant l == len
        decreases |ons| - k
      {
        if l + beat > bb[k] {
          l := bb[k] - beat;
          break;
        }
        k := k + 1;
      }
    }
  }

  /** One pass of the generator loop's body: the scan for the onset, the
      two draws and the clamp give the note `NoteAt` describes. */
  method DrawNote(bb: seq<int>, beat: int, ghost ons: seq<int>, rand: nat -> nat, pos: nat, voice: Voice)
    returns (value: int, len: int)
    requires bb == ons + [BEATS_END] && BEATS_END !in ons
    ensures Note(value, len) == NoteAt(ons, beat, rand, pos, voice)
    ensures Note(value, len) == StepOf(ons, rand, voice)(beat, pos)
  {
    var i, onBack := FindOnset(bb, beat, ons);
    len := GetRandom(rand(pos), 1, 16);
    value := Pitch(voice, onBack, rand(pos + 1));
    var j := if onBack then i + 1 else i;
    len := ClampLength(bb, j, beat, len, ons);
  }

  /** The loop shared by `musicbox_create_melody` and `musicbox_create_bass`:
      overwrite the list at `head` with the notes generated over the
      onsets of the list at `follow`, each followed by a fresh terminator
      node. */
  method Compose(head: NoteNode, follow: NoteNode?, ghost followNodes: seq<NoteNode>, voice: Voice, rand: nat -> nat, pos: nat)
    returns (pos': nat, ghost nodes: seq<NoteNode>)
    requires IsList(follow, followNodes)
    requires |Onsets(Notes(followNodes), 0)| < BEAT_CAPACITY
    requires Reference(Onsets(Notes(followNodes), 0))
    modifies head
    ensures IsList(head, nodes) && Distinct(nodes) && fresh(nodes[1..])
    ensures Notes(nodes) == Generate(Onsets(old(Notes(followNodes)), 0), 0, rand, pos, voice) + [TERMINATOR]
    ensures pos' == pos + 2 * (|nodes| - 1)
  {
    var bb := GetBeats(follow, followNodes);
    pos', nodes := Fill(head, bb, Onsets(Notes(followNodes), 0), voice, rand, pos);
  }

  /** The generator loop over the onset vector `bb` of `get_beats`. */
  method Fill(head: NoteNode, bb: seq<int>, ghost ons: seq<int>, voice: Voice, rand: nat -> nat, pos: nat)
    returns (pos': nat, ghost nodes: seq<NoteNode>)
    requires bb == ons + [BEATS_END] && Reference(ons)
    modifies head
    ensures IsList(head, nodes) && Distinct(nodes) && fresh(nodes[1..])
    ensures Notes(nodes) == Generate(ons, 0, rand, pos, voice) + [TERMINATOR]
    ensures pos' == pos + 2 * (|nodes| - 1)
  {
    assert BEATS_END !in ons;
    ghost var step := StepOf(ons, rand, voice);
    StepAdvances(ons, rand, voice);
    ghost var gen := Run(step, 0, pos);
    var current := head;
    var beat := 0;
    pos' := pos;
    nodes := [head];
    ghost var done: seq<Note> := [];
    while beat < MEASURE
      invariant Building(nodes, done) && nodes[0] == head && current == nodes[|done|]
      invariant current == head || fresh(current)
      invariant forall k :: 1 <= k < |nodes| ==> fresh(nodes[k])
      invariant Passes(step, pos, gen, done, beat)
      invariant pos' == pos + 2 * |done|
      decreases |gen| - |done|
    {
      var t, len, n := Pass(current, bb, beat, ons, rand, pos', voice, nodes, done, pos, gen);
      beat := beat + len;
      done := done + [n];
      current := t;
      nodes := nodes + [t];
      pos' := pos' + 2;
    }
    LastPass(step, pos, gen, done, beat);
    Built(head, nodes, done);
  }

  /** One pass of the loop: the next note of the run goes into the current
      node, and a fresh terminator node follows it. */
  method Pass(current: NoteNode, bb: seq<int>, beat: int, ghost ons: seq<int>, rand: nat -> nat, pos': nat, voice: Voice,
              ghost nodes: seq<NoteNode>, ghost done: seq<Note>, ghost pos: nat, ghost gen: seq<Note>)
    returns (t: NoteNode, len: int, ghost n: Note)
    requires bb == ons + [BEATS_END] && BEATS_END !in ons
    requires Advances(StepOf(ons, rand, voice))
    requires gen == Run(StepOf(ons, rand, voice), 0, pos) && pos' == pos + 2 * |done|
    requires Passes(StepOf(ons, rand, voice), pos, gen, done, beat) && beat < MEASURE
    requires Building(nodes, done) && current == nodes[|done|]
    modifies current
    ensures fresh(t) && n.length == len
    ensures Building(nodes + [t], done + [n])
    ensures Passes(StepOf(ons, rand, voice), pos, gen, done + [n], beat + len)
    ensures |done| < |gen|
  {
    var value;
    value, len := DrawNote(bb, beat, ons, rand, pos', voice);
    n := Note(value, len);
    NextPass(StepOf(ons, rand, voice), pos, gen, done, beat, pos', n);
    t := Extend(current, value, len, nodes, done);
  }

  /** After the passes that wrote `done`, with the run `gen` from 0: `done`
      is a prefix of `gen`, `beat` is where it ends, and the loop goes on
      exactly while notes of `gen` are left. */
  ghost predicate Passes(step: Step, pos: nat, gen: seq<Note>, done: seq<Note>, beat: int)
  {
    && |done| <= |gen| && done == gen[..|done|]
    && beat == TotalLength(done)
    && (beat < MEASURE <==> |done| < |gen|)
  }

  /** One more pass writes the next note of the run. */
  lemma NextPass(step: Step, pos: nat, gen: seq<Note>, done: seq<Note>, beat: int, at: nat, n: Note)
    requires Advances(step) && gen == Run(step, 0, pos)
    requires Passes(step, pos, gen, done, beat) && beat < MEASURE
    requires at == pos + 2 * |done| && n == step(beat, at)
    ensures Passes(step, pos, gen, done + [n], beat + n.length)
    ensures |done + [n]| > |done|
  {
    var k := |done|;
    RunPrefix(step, 0, pos, k);
    RunPrefix(step, 0, pos, k + 1);
    assert gen[..k + 1] == gen[..k] + [gen[k]];
    TotalLengthAppend(done, [n]);
    assert TotalLength([n]) == n.length by {
      assert [n][1..] == [];
    }
  }

  /** When the loop stops, every note of the run is written. */
  lemma LastPass(step: Step, pos: nat, gen: seq<Note>, done: seq<Note>, beat: int)
    requires Passes(step, pos, gen, done, beat) && beat >= MEASURE
    ensures done == gen
  {
    assert gen[..|gen|] == gen;
  }

  /** The notes of a run before its `k`-th end where its `k`-th note starts:
      there is a `k`-th note exactly when that position is short of 4.0
      beats, and it is the step taken there with draws from `pos + 2 * k`. */
  lemma {:induction false} RunPrefix(step: Step, p: int, pos: nat, k: nat)
    requires Advances(step)
    requires k <= |Run(step, p, pos)|
    ensures k < |Run(step, p, pos)| <==> p + TotalLength(Run(step, p, pos)[..k]) < MEASURE
    ensures k < |Run(step, p, pos)| ==>
      Run(step, p, pos)[k] == step(p + TotalLength(Run(step, p, pos)[..k]), pos + 2 * k)
    decreases k
  {
    var run := Run(step, p, pos);
    if k == 0 {
      assert run[..0] == [];
    } else {
      var n := step(p, pos);
      var rest := Run(step, p + n.length, pos + 2);
      assert run == [n] + rest;
      RunPrefix(step, p + n.length, pos + 2, k - 1);
      assert run[..k] == [n] + rest[..k - 1];
      TotalLengthAppend([n], rest[..k - 1]);
      assert TotalLength([n]) == n.length by {
        assert [n][1..] == [];
      }
      assert pos + 2 * k == (pos + 2) + 2 * (k - 1);
    }
  }

  /** The list under construction: `nodes` holds the finished notes `done`
      and then the node the next note goes into, which is a terminator
      once there is a finished note. */
  ghost predicate Building(nodes: seq<NoteNode>, done: seq<Note>)
    reads nodes
  {
    && |nodes| == |done| + 1
    && Chained(nodes) && Distinct(nodes)
    && (forall k :: 0 <= k < |done| ==> Note(nodes[k].value, nodes[k].length) == done[k])
    && (|done| > 0 ==> nodes[|done|].value == 0 && nodes[|done|].length == 0 && nodes[|done|].next == null)
  }

  /** One pass of the loop on the heap: fill the current node, link a fresh
      terminator node after it. */
  method Extend(current: NoteNode, value: int, len: int, ghost nodes: seq<NoteNode>, ghost done: seq<Note>)
    returns (t: NoteNode)
    requires Building(nodes, done) && current == nodes[|done|]
    modifies current
    ensures fresh(t)
    ensures Building(nodes + [t], done + [Note(value, len)])
  {
    current.length := len;
    current.value := value;
    t := new NoteNode(0, 0);
    current.next := t;
    ListGrows(nodes, done, t, Note(value, len));
  }

  /** A finished list ends in its terminator. */
  lemma Built(head: NoteNode, nodes: seq<NoteNode>, done: seq<Note>)
    requires Building(nodes, done) && nodes[0] == head && |done| > 0
    ensures IsList(head, nodes) && Distinct(nodes)
    ensures Notes(nodes) == done + [TERMINATOR]
  {
  }

  /** Appending a fresh node `t` after the finished notes. */
  lemma ListGrows(nodes: seq<NoteNode>, done: seq<Note>, t: NoteNode, n: Note)
    requires |nodes| == |done| + 1 && t !in nodes
    requires Chained(nodes) && Distinct(nodes)
    requires forall k :: 0 <= k < |done| ==> Note(nodes[k].value, nodes[k].length) == done[k]
    requires nodes[|done|].next == t && Note(nodes[|done|].value, nodes[|done|].length) == n
    requires t.value == 0 && t.length == 0 && t.next == null
    ensures Building(nodes + [t], done + [n])
  {
  }

  /** `musicbox_create_melody`: the melody over `follow`'s onsets, one
      octave up on every backbeat. */
  method CreateMelody(head: NoteNode, follow: NoteNode?, ghost followNodes: seq<NoteNode>, rand: nat -> nat, pos: nat)
    returns (pos': nat, ghost nodes: seq<NoteNode>)
    requires IsList(follow, followNodes)
    requires |Onsets(Notes(followNodes), 0)| < BEAT_CAPACITY
    requires Reference(Onsets(Notes(followNodes), 0))
    modifies head
    ensures IsList(head, nodes) && Distinct(nodes) && fresh(nodes[1..])
    ensures Notes(nodes) == Generate(Onsets(old(Notes(followNodes)), 0), 0, rand, pos, Melody) + [TERMINATOR]
    ensures pos' == pos + 2 * (|nodes| - 1)
  {
    pos', nodes := Compose(head, follow, followNodes, Melody, rand, pos);
  }

  /** `musicbox_create_bass`: the bass over `follow`'s onsets, the chord's
      root on every backbeat and one of its other notes elsewhere. */
  method CreateBass(head: NoteNode, follow: NoteNode?, ghost followNodes: seq<NoteNode>, scale: seq<int>, rand: nat -> nat, pos: nat)
    returns (pos': nat, ghost nodes: seq<NoteNode>)
    requires |scale| == 4
    requires IsList(follow, followNodes)
    requires |Onsets(Notes(followNodes), 0)| < BEAT_CAPACITY
    requires Reference(Onsets(Notes(followNodes), 0))
    modifies head
    ensures IsList(head, nodes) && Distinct(nodes) && fresh(nodes[1..])
    ensures Notes(nodes) == Generate(Onsets(old(Notes(followNodes)), 0), 0, rand, pos, Bass(scale)) + [TERMINATOR]
    ensures pos' == pos + 2 * (|nodes| - 1)
  {
    pos', nodes := Compose(head, follow, followNodes, Bass(scale), rand, pos);
  }
}
