/** The records of extra.h (note, phrase and section nodes), the onset
    vector of a note list, the random-range helper, the line counter and
    the chord-table loader.

    Lengths and positions are counted in quarter beats: one beat is 4
    ticks, a 4-beat measure 16. A note list is a chain of `NoteNode`s; a
    ghost sequence of its nodes describes the chain's shape. */
module Extra {
  import opened Text

  /** 4.0 beats, in quarter-beat ticks. */
  const MEASURE: int := 16

  /** The -1.0 that ends the onset vector of `get_beats`, in ticks. */
  const BEATS_END: int := -4

  /** Capacity of the static onset buffer filled by `get_beats`. */
  const BEAT_CAPACITY: nat := 20

  class NoteNode {
    var value: int
    var length: int
    var next: NoteNode?

    constructor (value: int, length: int)
      ensures this.value == value && this.length == length && next == null
    {
      this.value := value;
      this.length := length;
      next := null;
    }
  }

  class Phrase {
    const head: NoteNode
    var repetitions: int
    var next: Phrase?

    constructor (head: NoteNode, repetitions: int)
      ensures this.head == head && this.repetitions == repetitions && next == null
    {
      this.head := head;
      this.repetitions := repetitions;
      next := null;
    }
  }

  class Section {
    const head: Phrase
    var repetitions: int
    var next: Section?

    constructor (head: Phrase, repetitions: int)
      ensures this.head == head && this.repetitions == repetitions && next == null
    {
      this.head := head;
      this.repetitions := repetitions;
      next := null;
    }
  }

  /** The contents of one note node. */
  datatype Note = Note(value: int, length: int)

  /** The node a generator or the loader appends after a finished note. */
  const TERMINATOR: Note := Note(0, 0)

  /** `nodes` are consecutive nodes of one chain. */
  ghost predicate Chained(nodes: seq<NoteNode>)
    reads nodes
  {
    forall k :: 0 <= k < |nodes| - 1 ==> nodes[k].next == nodes[k + 1]
  }

  /** `nodes` is the whole list starting at `n`, ending in a NULL link. */
  ghost predicate IsList(n: NoteNode?, nodes: seq<NoteNode>)
    reads nodes
  {
    && (n == null <==> nodes == [])
    && (nodes != [] ==> nodes[0] == n && nodes[|nodes| - 1].next == null)
    && Chained(nodes)
  }

  ghost predicate Distinct(nodes: seq<NoteNode>)
  {
    forall a, b :: 0 <= a < b < |nodes| ==> nodes[a] != nodes[b]
  }

  /** `chain` is the whole phrase chain: consecutive links, a NULL link
      at the end, no phrase twice. */
  ghost predicate IsChain(chain: seq<Phrase>)
    reads chain
  {
    && |chain| > 0
    && (forall k :: 0 <= k < |chain| - 1 ==> chain[k].next == chain[k + 1])
    && chain[|chain| - 1].next == null
    && (forall a, b :: 0 <= a < b < |chain| ==> chain[a] != chain[b])
  }

  /** The budgets along a chain. */
  ghost function Budgets(chain: seq<Phrase>): (rs: seq<int>)
    reads chain
    ensures |rs| == |chain|
    ensures forall k :: 0 <= k < |chain| ==> rs[k] == chain[k].repetitions
  {
    seq(|chain|, k requires 0 <= k < |chain| reads chain => chain[k].repetitions)
  }

  /** The notes the nodes hold, in list order. */
  ghost function Notes(nodes: seq<NoteNode>): (ns: seq<Note>)
    reads nodes
    ensures |ns| == |nodes|
    ensures forall k :: 0 <= k < |nodes| ==> ns[k] == Note(nodes[k].value, nodes[k].length)
  {
    seq(|nodes|, k requires 0 <= k < |nodes| reads nodes => Note(nodes[k].value, nodes[k].length))
  }

  function TotalLength(notes: seq<Note>): int
  {
    if notes == [] then 0 else notes[0].length + TotalLength(notes[1..])
  }

  /** A node with value -1 or below is a rest: it takes time but starts no onset. */
  predicate Sounds(n: Note)
  {
    n.value > -1
  }

  function CountSounding(notes: seq<Note>): nat
  {
    if notes == [] then 0 else (if Sounds(notes[0]) then 1 else 0) + CountSounding(notes[1..])
  }

  /** The onset positions of the sounding notes of `notes`, for a list
      that starts at position `start`. */
  function Onsets(notes: seq<Note>, start: int): seq<int>
  {
    if notes == [] then []
    else (if Sounds(notes[0]) then [start] else []) + Onsets(notes[1..], start + notes[0].length)
  }

  lemma {:induction false} TotalLengthAppend(a: seq<Note>, b: seq<Note>)
    ensures TotalLength(a + b) == TotalLength(a) + TotalLength(b)
  {
    if a == [] {
      assert a + b == b;
    } else {
      assert (a + b)[1..] == a[1..] + b;
      TotalLengthAppend(a[1..], b);
    }
  }

  lemma {:induction false} CountSoundingAppend(a: seq<Note>, b: seq<Note>)
    ensures CountSounding(a + b) == CountSounding(a) + CountSounding(b)
  {
    if a == [] {
      assert a + b == b;
    } else {
      assert (a + b)[1..] == a[1..] + b;
      CountSoundingAppend(a[1..], b);
    }
  }

  /** One onset per sounding note, in list order: the onset of the k-th
      note, when it sounds, is the total length of the notes before it. */
  lemma {:induction false} OnsetsAreSums(notes: seq<Note>, start: int, k: nat)
    requires k < |notes|
    ensures |Onsets(notes, start)| == CountSounding(notes)
    ensures Sounds(notes[k]) ==>
      CountSounding(notes[..k]) < |Onsets(notes, start)| &&
      Onsets(notes, start)[CountSounding(notes[..k])] == start + TotalLength(notes[..k])
    decreases |notes|
  {
    if k == 0 {
      assert notes[..0] == [];
      OnsetsCount(notes, start);
    } else {
      OnsetsAreSums(notes[1..], start + notes[0].length, k - 1);
      assert notes[..k] == [notes[0]] + notes[1..][..k - 1];
      assert notes[..k][1..] == notes[1..][..k - 1];
    }
  }

  lemma {:induction false} OnsetsCount(notes: seq<Note>, start: int)
    ensures |Onsets(notes, start)| == CountSounding(notes)
    decreases |notes|
  {
    if notes != [] {
      OnsetsCount(notes[1..], start + notes[0].length);
    }
  }

  /** Onsets never decrease when no length is negative, and every onset
      lies between the start and the end of the list. */
  lemma {:induction false} OnsetsOrdered(notes: seq<Note>, start: int)
    requires forall k :: 0 <= k < |notes| ==> notes[k].length >= 0
    ensures forall a, b :: 0 <= a < b < |Onsets(notes, start)| ==> Onsets(notes, start)[a] <= Onsets(notes, start)[b]
    ensures forall a :: 0 <= a < |Onsets(notes, start)| ==> start <= Onsets(notes, start)[a] <= start + TotalLength(notes)
    ensures TotalLength(notes) >= 0
    decreases |notes|
  {
    if notes != [] {
      OnsetsOrdered(notes[1..], start + notes[0].length);
    }
  }

  /** When every note but the last lasts at least one tick, the onsets
      strictly increase. */
  lemma {:induction false} OnsetsIncreasing(notes: seq<Note>, start: int)
    requires forall k :: 0 <= k < |notes| ==> notes[k].length >= 0
    requires forall k :: 0 <= k < |notes| - 1 ==> notes[k].length >= 1
    ensures forall a, b :: 0 <= a < b < |Onsets(notes, start)| ==> Onsets(notes, start)[a] < Onsets(notes, start)[b]
    decreases |notes|
  {
    if notes != [] {
      var rest := notes[1..];
      OnsetsIncreasing(rest, start + notes[0].length);
      OnsetsOrdered(rest, start + notes[0].length);
      if rest != [] && Sounds(notes[0]) {
        assert notes[0].length >= 1;
      }
    }
  }

  /** The list terminator has value 0, so it sounds: the last onset of a
      terminated list is the list's total length. */
  lemma {:induction false} LastOnsetIsTotal(notes: seq<Note>, start: int)
    requires notes != [] && notes[|notes| - 1] == TERMINATOR
    ensures Onsets(notes, start) != []
    ensures Onsets(notes, start)[|Onsets(notes, start)| - 1] == start + TotalLength(notes)
    decreases |notes|
  {
    if |notes| > 1 {
      LastOnsetIsTotal(notes[1..], start + notes[0].length);
    }
  }

  /** The scan of `get_beats` has written the onsets `acc` and has the
      onsets of `notes[k..]`, counted from `sum`, still to write. */
  ghost predicate Scanned(notes: seq<Note>, k: nat, sum: int, acc: seq<int>, total: seq<int>)
  {
    k <= |notes| && acc + Onsets(notes[k..], sum) == total
  }

  /** One node further down the list: its onset, if it sounds, moves from
      the onsets still to come to the ones already written. */
  lemma OnsetsStep(notes: seq<Note>, k: nat, sum: int, acc: seq<int>, total: seq<int>, value: int, length: int)
    returns (acc': seq<int>)
    requires k < |notes| && Scanned(notes, k, sum, acc, total)
    requires notes[k] == Note(value, length)
    ensures Scanned(notes, k + 1, sum + length, acc', total)
    ensures value > -1 ==> acc' == acc + [sum] && |acc| < |total|
    ensures value <= -1 ==> acc' == acc
  {
    assert notes[k..][1..] == notes[k + 1..];
    if Sounds(notes[k]) {
      acc' := acc + [sum];
      assert acc + Onsets(notes[k..], sum) == acc' + Onsets(notes[k + 1..], sum + length);
    } else {
      acc' := acc;
      assert Onsets(notes[k..], sum) == Onsets(notes[k + 1..], sum + length);
    }
  }

  /** `get_beats`: the onset of every sounding node, in list order,
      followed by the -1.0 end mark. The list must leave room in the
      20-slot buffer. */
  method GetBeats(n: NoteNode?, ghost nodes: seq<NoteNode>) returns (r: seq<int>)
    requires IsList(n, nodes)
    requires |Onsets(Notes(nodes), 0)| < BEAT_CAPACITY
    ensures r == Onsets(Notes(nodes), 0) + [BEATS_END]
  {
    var buf, i := ScanBeats(n, nodes);
    Record(buf, i, BEATS_END, buf[..i]);
    r := buf[..i + 1];
  }

  /** The loop of `get_beats`: slots `0..i` of the fresh buffer receive
      the onsets of the sounding nodes, in list order. */
  method ScanBeats(n: NoteNode?, ghost nodes: seq<NoteNode>) returns (buf: array<int>, i: nat)
    requires IsList(n, nodes)
    requires |Onsets(Notes(nodes), 0)| < BEAT_CAPACITY
    ensures fresh(buf) && i < buf.Length && buf[..i] == Onsets(Notes(nodes), 0)
  {
    ghost var notes := Notes(nodes);
    ghost var total := Onsets(notes, 0);
    buf := new int[BEAT_CAPACITY];
    i := 0;
    var sum := 0;
    var cur := n;
    ghost var k := 0;
    ghost var acc: seq<int> := [];
    assert notes[0..] == notes;
    while cur != null
      invariant 0 <= k <= |nodes|
      invariant cur == (if k < |nodes| then nodes[k] else null)
      invariant Scanning(buf, i, notes, k, sum, acc, total)
      decreases |nodes| - k
    {
      var value, length := cur.value, cur.length;
      NextNode(n, nodes, k);
      i, sum, acc, k := Visit(buf, i, value, length, sum, notes, k, acc, total);
      cur := cur.next;
    }
    ScannedAll(notes, sum, acc, total);
  }

  /** The beat buffer once the nodes before node `k` are scanned: its
      first `i` slots hold the onsets written so far, `acc`, which the
      onsets of the rest of the list complete to `total`. */
  ghost predicate Scanning(buf: array<int>, i: nat, notes: seq<Note>, k: nat, sum: int, acc: seq<int>, total: seq<int>)
    reads buf
  {
    && i == |acc| && i <= |total| && |total| < buf.Length && buf[..i] == acc
    && Scanned(notes, k, sum, acc, total)
  }

  /** The loop body of `get_beats` on node `k`, holding `value` and
      `length`: a sounding node's onset goes into the next slot. */
  method Visit(buf: array<int>, i: nat, value: int, length: int, sum: int,
               ghost notes: seq<Note>, ghost k: nat, ghost acc: seq<int>, ghost total: seq<int>)
    returns (i': nat, sum': int, ghost acc': seq<int>, ghost k': nat)
    requires k < |notes| && notes[k] == Note(value, length)
    requires Scanning(buf, i, notes, k, sum, acc, total)
    modifies buf
    ensures k' == k + 1 && sum' == sum + length
    ensures Scanning(buf, i', notes, k', sum', acc', total)
  {
    acc' := OnsetsStep(notes, k, sum, acc, total, value, length);
    sum', k' := sum + length, k + 1;
    i' := i;
    if value > -1 {
      Record(buf, i, sum, acc);
      i' := i + 1;
    }
  }

  /** In the list `nodes` from `n`, node `k` links to node `k + 1`, or to
      NULL if it is the last. */
  lemma NextNode(n: NoteNode?, nodes: seq<NoteNode>, k: nat)
    requires IsList(n, nodes) && k < |nodes|
    ensures nodes[k].next == (if k + 1 < |nodes| then nodes[k + 1] else null)
  {
  }

  /** A scan that has passed the last node has written every onset. */
  lemma ScannedAll(notes: seq<Note>, sum: int, acc: seq<int>, total: seq<int>)
    requires Scanned(notes, |notes|, sum, acc, total)
    ensures acc == total
  {
    assert notes[|notes|..] == [];
  }

  /** Writing slot `i` of the beat buffer extends what slots `0..i` hold. */
  method Record(buf: array<int>, i: nat, x: int, ghost acc: seq<int>)
    requires i < buf.Length && buf[..i] == acc
    modifies buf
    ensures buf[..i + 1] == acc + [x]
  {
    buf[i] := x;
    assert buf[..i + 1] == buf[..i] + [x];
  }

  /** `get_random`: the raw draw `draw` of `rand()` brought into `[lower, upper]`. */
  function GetRandom(draw: nat, lower: int, upper: int): (r: int)
    requires lower <= upper
    ensures lower <= r <= upper
  {
    draw % (upper - lower + 1) + lower
  }

  /** Every value of the range is produced by some draw. */
  lemma GetRandomCovers(lower: int, upper: int, v: int)
    requires lower <= v <= upper
    ensures GetRandom(v - lower, lower, upper) == v
  {
  }

  /** The byte 0xFF. `number_of_lines` keeps what `getc` returns in a
      `char`, which is signed on the build target, so this byte reads as
      `EOF` (-1) and ends the count. */
  const EOF_BYTE: char := '\U{FF}'

  /** The part of a file `number_of_lines` reads: everything before the
      first 0xFF byte. */
  function Counted(text: string): (r: string)
    ensures r <= text && EOF_BYTE !in r
    ensures |r| < |text| ==> text[|r|] == EOF_BYTE
  {
    text[..IndexOf(text, EOF_BYTE)]
  }

  /** `number_of_lines`: one more than the number of newline characters
      before the first byte that reads as `EOF`. */
  method NumberOfLines(text: string) returns (count: int)
    ensures count == 1 + multiset(Counted(text))['\n']
  {
    count := 1;
    var i := 0;
    while i < |text| && text[i] != EOF_BYTE
      invariant 0 <= i <= |text|
      invariant forall k :: 0 <= k < i ==> text[k] != EOF_BYTE
      invariant count == 1 + multiset(text[..i])['\n']
    {
      assert text[..i + 1] == text[..i] + [text[i]];
      if text[i] == '\n' {
        count := count + 1;
      }
      i := i + 1;
    }
    IndexOfIs(text, EOF_BYTE, i);
  }

  /** The counted part has no more newlines than the file, and all of
      them when the file holds no 0xFF byte. */
  lemma CountedNewlines(text: string)
    ensures multiset(Counted(text))['\n'] <= multiset(text)['\n']
    ensures EOF_BYTE !in text ==> Counted(text) == text
  {
    var r := Counted(text);
    assert text == r + text[|r|..];
    assert multiset(text) == multiset(r) + multiset(text[|r|..]);
    if EOF_BYTE !in text {
      assert |r| == |text|;
    }
  }

  /** The line number, from 1, a loader picks with draw `draw`:
      `get_random(1, number_of_lines(file))`. */
  function RandomLine(text: string, draw: nat): (line: int)
    ensures 1 <= line <= 1 + multiset(Counted(text))['\n']
  {
    GetRandom(draw, 1, 1 + multiset(Counted(text))['\n'])
  }

  /** The line a loader reads, if the picked number names a line at all:
      a file that ends in a newline counts one line more than it has. */
  function SelectedLine(text: string, draw: nat): (line: seq<char>)
  {
    var l := RandomLine(text, draw);
    if l <= |Lines(text)| then Lines(text)[l - 1] else []
  }

  /** A picked line number above the file's real lines selects nothing;
      that happens only for a file ending in a newline, or an empty one,
      and then the number is one past the last line. */
  lemma {:induction false} MissingLineOnlyAfterFinalNewline(text: string, draw: nat)
    requires RandomLine(text, draw) > |Lines(text)|
    ensures text == [] || text[|text| - 1] == '\n'
    ensures RandomLine(text, draw) == |Lines(text)| + 1
  {
    LinesCount(text);
    CountedNewlines(text);
  }

  /** Lines after a 0xFF byte are never picked: the pick stays within one
      line past the newlines before that byte. */
  lemma {:induction false} PickNotPastEof(text: string, draw: nat, k: nat)
    requires k < |text| && text[k] == EOF_BYTE
    ensures RandomLine(text, draw) <= 1 + multiset(text[..k])['\n']
  {
    var r := Counted(text);
    assert |r| <= k;
    assert text[..k] == r + text[|r|..k];
    assert multiset(text[..k]) == multiset(r) + multiset(text[|r|..k]);
  }

  /** The comma-separated chords of a chord line, newline dropped. */
  function ChordFields(line: string): seq<string>
  {
    LineTokens(line, ',')
  }

  /** A chord line the 4x4 table can hold. */
  predicate ChordLineFits(line: string)
  {
    |ChordFields(line)| <= 4 &&
    forall i :: 0 <= i < |ChordFields(line)| ==> |Tokens(ChordFields(line)[i], ' ')| <= 4
  }

  /** The chord table entry `(i, j)` after loading `line` into `table`. */
  function ChordEntry(line: string, parse: string -> int, i: nat, j: nat, old_value: int): int
  {
    var fields := ChordFields(line);
    if i < |fields| && j < |Tokens(fields[i], ' ')| then parse(Tokens(fields[i], ' ')[j]) else old_value
  }

  /** `load_chords`: on the randomly picked line, the i-th comma-separated
      chord's j-th space-separated number goes into `table[i, j]`; entries
      the line does not reach keep their earlier values (the table is static). */
  method LoadChords(table: array2<int>, text: string, draw: nat, parse: string -> int)
    requires table.Length0 == 4 && table.Length1 == 4
    requires ChordLineFits(SelectedLine(text, draw))
    modifies table
    ensures forall i, j :: 0 <= i < 4 && 0 <= j < 4 ==>
      table[i, j] == ChordEntry(SelectedLine(text, draw), parse, i, j, old(table[i, j]))
  {
    var n := NumberOfLines(text);
    var randLine := GetRandom(draw, 1, n);
    var lines := Lines(text);
    var line := 1;
    while line <= |lines|
      invariant 1 <= line <= |lines| + 1
      invariant forall i, j :: 0 <= i < 4 && 0 <= j < 4 ==>
        table[i, j] == (if line > randLine then ChordEntry(SelectedLine(text, draw), parse, i, j, old(table[i, j])) else old(table[i, j]))
    {
      if line == randLine {
        FillChords(table, lines[line - 1], parse);
      }
      line := line + 1;
    }
  }

  /** The two nested tokenizing loops of `load_chords` over the picked line. */
  method FillChords(table: array2<int>, line: string, parse: string -> int)
    requires table.Length0 == 4 && table.Length1 == 4
    requires ChordLineFits(line)
    modifies table
    ensures forall i, j :: 0 <= i < 4 && 0 <= j < 4 ==> table[i, j] == ChordEntry(line, parse, i, j, old(table[i, j]))
  {
    var fields := ChordFields(line);
    var i := 0;
    while i < |fields|
      invariant 0 <= i <= |fields|
      invariant forall a, b :: 0 <= a < 4 && 0 <= b < 4 ==>
        table[a, b] == (if a < i then ChordEntry(line, parse, a, b, old(table[a, b])) else old(table[a, b]))
    {
      var numbers := Tokens(fields[i], ' ');
      var j := 0;
      while j < |numbers|
        invariant 0 <= j <= |numbers|
        invariant forall a, b :: 0 <= a < 4 && 0 <= b < 4 ==>
          table[a, b] == (if a < i || (a == i && b < j) then ChordEntry(line, parse, a, b, old(table[a, b])) else old(table[a, b]))
      {
        table[i, j] := parse(numbers[j]);
        j := j + 1;
      }
      i := i + 1;
    }
  }
}
