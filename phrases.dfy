/** The phrase builders of musicbox.c: `create_phrase` loads one pattern
    file per section into a chain of phrases, `create_melody_phrase` and
    `create_bass_phrase` fill phrases with generated notes. Each filled
    phrase is followed by a fresh empty phrase: a one-node list, zero
    repetitions, a NULL link. */
module Phrases {
  import opened Text
  import opened Extra
  import opened Hash
  import opened Loader
  import opened Generator

  /** The tokens of the line of a pattern file the draw `draw` selects. */
  ghost function SectionTokens(file: string, draw: nat): seq<string>
  {
    LineTokens(SelectedLine(file, draw), ' ')
  }

  /** The tokens section `j` of `create_phrase` reads: file `files[j]`,
      with the draw `rand(pos + j)`. */
  ghost function SectionTokensAt(files: seq<string>, rand: nat -> nat, pos: nat, j: nat): seq<string>
    requires j < |files|
  {
    SectionTokens(files[j], rand(pos + j))
  }

  /** What section `j`'s list holds once the tokens `tokens` are read into
      it: the first section's head held `cur` and led the rest `tail`, any
      later one's head is a fresh zero node. */
  ghost function TokenNotes(tokens: seq<string>, names: map<string, int>, parse: string -> int,
                            j: nat, cur: Note, tail: seq<Note>): seq<Note>
  {
    if j == 0 then
      Interpret(tokens, names, parse, cur) + (if CountLengths(names, tokens) == 0 then tail else [])
    else Interpret(tokens, names, parse, TERMINATOR)
  }

  /** What section `j`'s list holds after `create_phrase` read it from
      `file` with the draw `draw`. */
  ghost function SectionNotes(file: string, draw: nat, names: map<string, int>, parse: string -> int,
                              j: nat, cur: Note, tail: seq<Note>): seq<Note>
  {
    TokenNotes(SectionTokens(file, draw), names, parse, j, cur, tail)
  }

  lemma TokenNotesIs(tokens: seq<string>, names: map<string, int>, parse: string -> int,
                     j: nat, cur: Note, tail: seq<Note>, start: Note, rest: seq<Note>)
    requires start == (if j == 0 then cur else TERMINATOR)
    requires rest == (if j == 0 then tail else [])
    ensures TokenNotes(tokens, names, parse, j, cur, tail) ==
      Interpret(tokens, names, parse, start) + (if CountLengths(names, tokens) == 0 then rest else [])
  {
    if j != 0 {
      var l := Interpret(tokens, names, parse, start);
      assert l + [] == l;
    }
  }

  /** `toks` are the tokens of the first `|toks|` sections. The instances
      are only drawn where a section's tokens are named. */
  ghost predicate TokensPlanned(toks: seq<seq<string>>, files: seq<string>, rand: nat -> nat, pos: nat)
  {
    && |toks| <= |files|
    && forall j {:trigger SectionTokensAt(files, rand, pos, j)} :: 0 <= j < |toks| ==>
         toks[j] == SectionTokensAt(files, rand, pos, j)
  }

  /** `p` is a phrase just linked in after a filled one: its head is a
      single node holding zero, and it has no repetitions and no
      successor. Uninitialised `malloc` memory is taken to hold zero. */
  ghost predicate Empty(p: Phrase)
    reads p, p.head
  {
    p.repetitions == 0 && p.next == null && p.head.value == 0 && p.head.length == 0 && p.head.next == null
  }

  /** Link a fresh empty phrase after `p`. */
  method Trailer(p: Phrase) returns (q: Phrase)
    modifies p
    ensures fresh(q) && fresh(q.head) && Empty(q)
    ensures p.next == q && p.repetitions == old(p.repetitions)
  {
    var h := new NoteNode(0, 0);
    q := new Phrase(h, 0);
    p.next := q;
  }

  /** One pass of the `create_phrase` loop, on section `i`: load file
      `files[i]` with the draw `rand(pos + i)` into the phrase's list, set
      its repetitions, link an empty phrase after it. */
  method LoadSection(p: Phrase, files: seq<string>, i: nat, repeats: int, rand: nat -> nat, pos: nat,
                     table: HashTable, parse: string -> int, ghost tail: seq<NoteNode>,
                     ghost cur0: Note, ghost tail0: seq<Note>, ghost toks: seq<seq<string>>)
    returns (q: Phrase, ghost list: seq<NoteNode>)
    requires table.Valid() && TokensPlanned(toks, files, rand, pos) && i < |toks|
    requires IsList(p.head, [p.head] + tail) && Distinct([p.head] + tail)
    requires Note(p.head.value, p.head.length) == (if i == 0 then cur0 else TERMINATOR)
    requires Notes(tail) == (if i == 0 then tail0 else [])
    modifies p, p.head
    ensures p.repetitions == repeats && p.next == q
    ensures fresh(q) && fresh(q.head) && Empty(q)
    ensures IsList(p.head, list) && Distinct(list) && q.head !in list
    ensures Notes(list) == TokenNotes(toks[i], table.M, parse, i, cur0, tail0)
  {
    ghost var start := Note(p.head.value, p.head.length);
    ghost var restNotes := Notes(tail);
    assert toks[i] == SectionTokensAt(files, rand, pos, i);
    var nodes := LoadFile(p.head, files[i], rand(pos + i), table, parse, tail);
    list := Whole(nodes, tail);
    q := Close(p, repeats, list);
    TokenNotesIs(toks[i], table.M, parse, i, cur0, tail0, start, restNotes);
  }

  /** Set a filled phrase's repetitions and link an empty phrase after it;
      the phrase's notes stay as they are. */
  method Close(p: Phrase, repeats: int, ghost list: seq<NoteNode>) returns (q: Phrase)
    requires IsList(p.head, list)
    modifies p
    ensures p.repetitions == repeats && p.next == q
    ensures fresh(q) && fresh(q.head) && Empty(q)
    ensures IsList(p.head, list) && Notes(list) == old(Notes(list)) && q.head !in list
  {
    p.repetitions := repeats;
    q := Trailer(p);
  }

  /** Linking a new phrase `q` after the last one of `chain`, whose links
      are otherwise as they were, extends the chain. */
  lemma ChainGrows(chain: seq<Phrase>, q: Phrase)
    requires |chain| > 0 && q !in chain && q.next == null && chain[|chain| - 1].next == q
    requires forall k :: 0 <= k < |chain| - 1 ==> chain[k].next == chain[k + 1]
    requires forall a, b :: 0 <= a < b < |chain| ==> chain[a] != chain[b]
    ensures IsChain(chain + [q])
  {
    var c := chain + [q];
    forall k | 0 <= k < |c| - 1
      ensures c[k].next == c[k + 1]
    {
      if k < |chain| - 1 {
        assert c[k] == chain[k] && c[k + 1] == chain[k + 1];
      }
    }
  }

  /** The notes section `j` holds once read from the tokens `toks[j]`. */
  ghost function TokenNotesAt(toks: seq<seq<string>>, names: map<string, int>, parse: string -> int,
                              j: nat, cur0: Note, tail0: seq<Note>): seq<Note>
    requires j < |toks|
  {
    TokenNotes(toks[j], names, parse, j, cur0, tail0)
  }

  /** `secs` holds the notes of the first `|secs|` sections, read from
      the tokens `toks`. The instances are only drawn where a section's
      notes are named. */
  ghost predicate NotesPlanned(secs: seq<seq<Note>>, toks: seq<seq<string>>, names: map<string, int>,
                               parse: string -> int, cur0: Note, tail0: seq<Note>)
  {
    && |secs| <= |toks|
    && forall j {:trigger TokenNotesAt(toks, names, parse, j, cur0, tail0)} :: 0 <= j < |secs| ==>
         secs[j] == TokenNotesAt(toks, names, parse, j, cur0, tail0)
  }

  lemma NotesPlannedGrows(secs: seq<seq<Note>>, toks: seq<seq<string>>, names: map<string, int>,
                          parse: string -> int, cur0: Note, tail0: seq<Note>, g: seq<Note>)
    requires NotesPlanned(secs, toks, names, parse, cur0, tail0) && |secs| < |toks|
    requires g == TokenNotes(toks[|secs|], names, parse, |secs|, cur0, tail0)
    ensures NotesPlanned(secs + [g], toks, names, parse, cur0, tail0)
  {
    var s := secs + [g];
    forall j | 0 <= j < |s|
      ensures s[j] == TokenNotesAt(toks, names, parse, j, cur0, tail0)
    {
      if j < |secs| {
        assert s[j] == secs[j];
      }
    }
  }

  /** `LoadSection` on section `i`, its notes stated as the next entry of
      the plan `secs`. */
  method FillSection(p: Phrase, files: seq<string>, i: nat, repeats: int, rand: nat -> nat, pos: nat,
                     table: HashTable, parse: string -> int, ghost tail: seq<NoteNode>,
                     ghost cur0: Note, ghost tail0: seq<Note>, ghost toks: seq<seq<string>>, ghost secs: seq<seq<Note>>)
    returns (q: Phrase, ghost list: seq<NoteNode>, ghost secs': seq<seq<Note>>)
    requires table.Valid() && TokensPlanned(toks, files, rand, pos) && i < |toks|
    requires NotesPlanned(secs, toks, table.M, parse, cur0, tail0) && |secs| == i
    requires IsList(p.head, [p.head] + tail) && Distinct([p.head] + tail)
    requires Note(p.head.value, p.head.length) == (if i == 0 then cur0 else TERMINATOR)
    requires Notes(tail) == (if i == 0 then tail0 else [])
    modifies p, p.head
    ensures p.repetitions == repeats && p.next == q
    ensures fresh(q) && fresh(q.head) && Empty(q)
    ensures IsList(p.head, list) && Distinct(list) && q.head !in list
    ensures secs' == secs + [Notes(list)] && NotesPlanned(secs', toks, table.M, parse, cur0, tail0)
  {
    q, list := LoadSection(p, files, i, repeats, rand, pos, table, parse, tail, cur0, tail0, toks);
    secs' := secs + [Notes(list)];
    NotesPlannedGrows(secs, toks, table.M, parse, cur0, tail0, Notes(list));
  }

  /** The first `i` phrases of `chain` are filled, with lists `lists`
      holding the notes `secs` and with the given repetitions, and phrase
      `i`, the one to fill next, holds its list `lists[i]`, made of its head
      and `rest`, which lies outside the filled lists; any phrase after the
      first is empty when its turn comes. */
  ghost predicate Building(chain: seq<Phrase>, lists: seq<seq<NoteNode>>, rest: seq<NoteNode>, repeats: seq<int>,
                           secs: seq<seq<Note>>, i: nat)
    reads chain, set j, k | 0 <= j < |lists| && 0 <= k < |lists[j]| :: lists[j][k]
  {
    && |chain| == i + 1 && |lists| == i + 1 && i <= |repeats| && |secs| == i
    && (i > 0 ==> IsChain(chain))
    && (forall j :: 0 <= j < i ==> Holds(chain[j], lists[j], secs[j], repeats[j]))
    && (forall j :: 0 <= j < i ==> chain[i].head !in lists[j])
    && lists[i] == [chain[i].head] + rest
    && IsList(chain[i].head, lists[i]) && Distinct(lists[i])
    && (i > 0 ==> Empty(chain[i]) && rest == [])
  }

  /** One pass of the `create_phrase` loop on phrase `i` of the chain. */
  method AddSection(current: Phrase, files: seq<string>, repeats: seq<int>, i: nat, table: HashTable,
                    parse: string -> int, rand: nat -> nat, pos: nat, ghost rest: seq<NoteNode>,
                    ghost chain: seq<Phrase>, ghost lists: seq<seq<NoteNode>>, ghost secs: seq<seq<Note>>,
                    ghost cur0: Note, ghost tail0: seq<Note>, ghost toks: seq<seq<string>>)
    returns (q: Phrase, ghost chain': seq<Phrase>, ghost lists': seq<seq<NoteNode>>, ghost secs': seq<seq<Note>>)
    requires i < |toks| && i < |repeats| && table.Valid() && TokensPlanned(toks, files, rand, pos)
    requires NotesPlanned(secs, toks, table.M, parse, cur0, tail0)
    requires Building(chain, lists, rest, repeats, secs, i) && current == chain[i]
    requires i == 0 ==> Note(current.head.value, current.head.length) == cur0 && Notes(rest) == tail0
    modifies current, current.head
    ensures Building(chain', lists', [], repeats, secs', i + 1)
    ensures chain'[0] == chain[0] && chain'[i + 1] == q && fresh(q) && fresh(q.head)
    ensures NotesPlanned(secs', toks, table.M, parse, cur0, tail0)
  {
    ghost var list;
    label Before:
    q, list, secs' := FillSection(current, files, i, repeats[i], rand, pos, table, parse, rest, cur0, tail0, toks, secs);
    assert q !in chain;
    if i > 0 {
      assert old@Before(IsChain(chain));
      forall k | 0 <= k < i
        ensures chain[k].next == chain[k + 1]
      {
        assert old@Before(chain[k].next == chain[k + 1]);
        assert chain[k] != current;
      }
      ChainGrows(chain, q);
    }
    chain' := chain + [q];
    lists' := lists[i := list] + [[q.head]];
    forall j | 0 <= j < i
      ensures Holds(chain[j], lists[j], secs[j], repeats[j]) && q.head !in lists[j]
    {
      assert old@Before(Holds(chain[j], lists[j], secs[j], repeats[j]));
      assert chain[j] != current && current.head !in lists[j];
    }
    BuildingGrows(chain, lists, repeats, secs, i, q, list);
  }

  /** Filling phrase `i` with the list `list` and linking the empty phrase
      `q` after it makes `q` the next phrase to fill. */
  lemma BuildingGrows(chain: seq<Phrase>, lists: seq<seq<NoteNode>>, repeats: seq<int>, secs: seq<seq<Note>>,
                      i: nat, q: Phrase, list: seq<NoteNode>)
    requires |chain| == i + 1 && |lists| == i + 1 && i < |repeats| && |secs| == i
    requires IsChain(chain + [q]) && Empty(q)
    requires forall j :: 0 <= j < i ==> Holds(chain[j], lists[j], secs[j], repeats[j]) && q.head !in lists[j]
    requires Holds(chain[i], list, Notes(list), repeats[i]) && Distinct(list) && q.head !in list
    ensures Building(chain + [q], lists[i := list] + [[q.head]], [], repeats, secs + [Notes(list)], i + 1)
  {
    var chain', lists', secs' := chain + [q], lists[i := list] + [[q.head]], secs + [Notes(list)];
    forall j | 0 <= j < i + 1
      ensures Holds(chain'[j], lists'[j], secs'[j], repeats[j])
      ensures q.head !in lists'[j]
    {
      if j < i {
        assert chain'[j] == chain[j] && lists'[j] == lists[j] && secs'[j] == secs[j];
      } else {
        assert chain'[j] == chain[i] && lists'[j] == list && secs'[j] == Notes(list);
      }
    }
  }

  /** The loop of `create_phrase`: section `i` read from the tokens
      `toks[i]`, for each of the first `sections` sections. */
  method SectionLoop(first: Phrase, repeats: seq<int>, files: seq<string>, sections: nat, table: HashTable,
                     parse: string -> int, rand: nat -> nat, pos: nat, ghost tail: seq<NoteNode>,
                     ghost toks: seq<seq<string>>)
    returns (pos': nat, ghost chain: seq<Phrase>, ghost lists: seq<seq<NoteNode>>, ghost secs: seq<seq<Note>>)
    requires sections <= |repeats| && sections == |toks|
    requires table.Valid() && TokensPlanned(toks, files, rand, pos)
    requires IsList(first.head, [first.head] + tail) && Distinct([first.head] + tail)
    modifies first, first.head
    ensures pos' == pos + sections
    ensures sections == 0 ==> unchanged(first)
    ensures Building(chain, lists, if sections == 0 then tail else [], repeats, secs, sections) && chain[0] == first
    ensures NotesPlanned(secs, toks, table.M, parse, old(Note(first.head.value, first.head.length)), old(Notes(tail)))
  {
    ghost var cur0, tail0 := Note(first.head.value, first.head.length), Notes(tail);
    secs := [];
    pos' := pos;
    chain := [first];
    lists := [[first.head] + tail];
    var current := first;
    ghost var rest := tail;
    var i := 0;
    while i < sections
      invariant 0 <= i <= sections && pos' == pos + i
      invariant Building(chain, lists, rest, repeats, secs, i)
      invariant chain[0] == first && current == chain[i]
      invariant i == 0 ==> unchanged(first) && unchanged(first.head) && rest == tail && Notes(rest) == tail0
      invariant i > 0 ==> fresh(current) && fresh(current.head) && rest == []
      invariant NotesPlanned(secs, toks, table.M, parse, cur0, tail0)
    {
      var q;
      q, chain, lists, secs := AddSection(current, files, repeats, i, table, parse, rand, pos, rest, chain, lists,
                                          secs, cur0, tail0, toks);
      current := q;
      rest := [];
      i := i + 1;
      pos' := pos' + 1;
    }
  }

  /** `create_phrase` over the first `sections` files and repetition
      counts, starting at phrase `first`, whose list is `first.head`
      followed by `tail`. The file of section `i` is read with the draw
      `rand(pos + i)`. The result is the chain of the filled phrases and
      the empty one after them, with each phrase's list. */
  method CreatePhrase(first: Phrase, repeats: seq<int>, files: seq<string>, sections: nat,
                      table: HashTable, parse: string -> int, rand: nat -> nat, pos: nat, ghost tail: seq<NoteNode>)
    returns (pos': nat, ghost chain: seq<Phrase>, ghost lists: seq<seq<NoteNode>>)
    requires sections <= |repeats| && sections <= |files|
    requires table.Valid()
    requires IsList(first.head, [first.head] + tail) && Distinct([first.head] + tail)
    modifies first, first.head
    ensures pos' == pos + sections
    ensures sections == 0 ==> chain == [first] && unchanged(first)
    ensures sections > 0 ==> IsChain(chain) && |chain| == sections + 1 && chain[0] == first
    ensures sections > 0 ==> Empty(chain[sections])
    ensures |lists| == |chain| && forall i :: 0 <= i < |chain| ==> IsList(chain[i].head, lists[i])
    ensures forall i :: 0 <= i < sections ==>
      && chain[i].repetitions == repeats[i]
      && Notes(lists[i]) == SectionNotes(files[i], rand(pos + i), table.M, parse, i,
                                         old(Note(first.head.value, first.head.length)), old(Notes(tail)))
  {
    ghost var cur0, tail0 := Note(first.head.value, first.head.length), Notes(tail);
    ghost var toks := seq(sections, j requires 0 <= j < sections => SectionTokensAt(files, rand, pos, j));
    assert TokensPlanned(toks, files, rand, pos);
    ghost var secs;
    pos', chain, lists, secs := SectionLoop(first, repeats, files, sections, table, parse, rand, pos, tail, toks);
    forall k | 0 <= k < sections
      ensures Notes(lists[k]) == SectionNotes(files[k], rand(pos + k), table.M, parse, k, cur0, tail0)
    {
      assert Holds(chain[k], lists[k], secs[k], repeats[k]);
      assert secs[k] == TokenNotesAt(toks, table.M, parse, k, cur0, tail0);
      assert toks[k] == SectionTokensAt(files, rand, pos, k);
    }
  }

  /** `musicbox_create_melody_phrase`: a melody over the notes of phrase
      `follow`, played 4 times, with an empty phrase linked after it. The
      source's loop runs exactly once and is written out here. */
  method CreateMelodyPhrase(p: Phrase, follow: Phrase, ghost followNodes: seq<NoteNode>, rand: nat -> nat, pos: nat)
    returns (pos': nat, q: Phrase, ghost list: seq<NoteNode>)
    requires IsList(follow.head, followNodes)
    requires |Onsets(Notes(followNodes), 0)| < BEAT_CAPACITY
    requires Reference(Onsets(Notes(followNodes), 0))
    modifies p, p.head
    ensures p.repetitions == 4 && IsChain([p, q])
    ensures fresh(q) && fresh(q.head) && Empty(q)
    ensures IsList(p.head, list) && Distinct(list) && q.head !in list
    ensures Notes(list) == Generate(Onsets(old(Notes(followNodes)), 0), 0, rand, pos, Melody) + [TERMINATOR]
    ensures pos' == pos + 2 * (|list| - 1)
  {
    pos', list := CreateMelody(p.head, follow.head, followNodes, rand, pos);
    q := Close(p, 4, list);
  }

  /** The tokens of a line of a name `a` and a length `b` followed by a
      blank before the newline: the blank leaves a last token "\n", which
      the strip turns into the empty string. */
  lemma TrailingBlankLine(a: string, b: string)
    requires a != [] && b != [] && ' ' !in a && ' ' !in b && '\n' !in a && '\n' !in b
    ensures LineTokens(a + " " + b + " \n", ' ') == [a, b, ""]
  {
    IndexOfIs("\n", ' ', 1);
    assert "\n"[..1] == "\n" && "\n"[1..] == [];
    assert Tokens("\n", ' ') == ["\n"];
    WordThenDelimiter(b, "\n", ' ');
    assert b + " \n" == b + [' '] + "\n";
    WordThenDelimiter(a, b + " \n", ' ');
    assert a + " " + b + " \n" == a + [' '] + (b + " \n");
    assert Tokens(a + " " + b + " \n", ' ') == [a, b, "\n"];
    assert a[|a| - 1] in a && b[|b| - 1] in b;
    assert StripNewline(a) == a && StripNewline(b) == b && StripNewline("\n") == "";
  }

  lemma SnareExampleLine()
    ensures "C4 1.0 \n" == "C4" + " " + "1.0" + " \n"
    ensures ' ' !in "C4" && ' ' !in "1.0" && '\n' !in "C4" && '\n' !in "1.0"
  {
  }

  /** The notes the three tokens of that line leave: "C4" names the
      current note, "1.0" finishes it as a quarter-beat count 4, and the
      empty token, no name either, finishes an empty note. */
  lemma TrailingBlankNotes(names: map<string, int>, parse: string -> int, cur: Note)
    requires Lookup(names, "C4") > 0 && Lookup(names, "1.0") == 0 && Lookup(names, "") == 0
    requires parse("1.0") == 4 && parse("") == 0
    ensures Interpret(["C4", "1.0", ""], names, parse, cur) == [Note(Lookup(names, "C4"), 4), TERMINATOR, TERMINATOR]
  {
    var toks := ["C4", "1.0", ""];
    assert toks[..2] == ["C4", "1.0"] && toks[..2][..1] == ["C4"] && toks[..2][..1][..0] == [];
    var v := Lookup(names, "C4");
    assert Interpret(toks[..1], names, parse, cur) == [Note(v, cur.length)];
    assert Interpret(toks[..2], names, parse, cur) == [Note(v, 4), TERMINATOR];
  }

  /** The onsets of a note of 1.0 beat followed by two empty nodes: the
      empty note sounds at 1.0 beat, and so does the terminator after it. */
  lemma TrailingBlankOnsets(v: int)
    requires v > 0
    ensures Onsets([Note(v, 4), TERMINATOR, TERMINATOR], 0) == [0, 4, 4]
  {
    var notes := [Note(v, 4), TERMINATOR, TERMINATOR];
    assert notes[1..][1..][1..] == [];
    assert Onsets(notes[1..][1..], 4) == [4];
    assert Onsets(notes[1..], 4) == [4, 4];
  }

  /** A snare line "C4 1.0 \n": the empty last token is no name, so it is
      read as a length, `strtof("")` = 0, and finishes an empty note. The
      list then repeats the onset at 1.0 beat, where the melody over it
      stalls with a note of length 0. */
  lemma TrailingBlankStallsMelody(names: map<string, int>, parse: string -> int, cur: Note, rand: nat -> nat, pos: nat)
    requires Lookup(names, "C4") > 0 && Lookup(names, "1.0") == 0 && Lookup(names, "") == 0
    requires parse("1.0") == 4 && parse("") == 0
    ensures Interpret(LineTokens("C4 1.0 \n", ' '), names, parse, cur) == [Note(Lookup(names, "C4"), 4), TERMINATOR, TERMINATOR]
    ensures Onsets(Interpret(LineTokens("C4 1.0 \n", ' '), names, parse, cur), 0) == [0, 4, 4]
    ensures NoteAt([0, 4, 4], 4, rand, pos, Melody).length == 0
    ensures !Advances(StepOf([0, 4, 4], rand, Melody))
  {
    SnareExampleLine();
    TrailingBlankLine("C4", "1.0");
    TrailingBlankNotes(names, parse, cur);
    TrailingBlankOnsets(Lookup(names, "C4"));
    RepeatedOnsetStalls([0, 4, 4], 1, rand, pos, Melody);
  }

  /** Row `i` of the chord table: one chord, root first. */
  function Row(progression: array2<int>, i: nat): (c: Chord)
    requires i < progression.Length0 && 4 <= progression.Length1
    reads progression
    ensures forall k :: 0 <= k < 4 ==> c[k] == progression[i, k]
  {
    [progression[i, 0], progression[i, 1], progression[i, 2], progression[i, 3]]
  }

  /** One pass of the `musicbox_create_bass_phrase` loop: a bass over the
      notes `follow` stands for, on the given chord, played once, with an
      empty phrase linked after it. */
  method BassRound(p: Phrase, follow: NoteNode, ghost followNodes: seq<NoteNode>, chord: Chord, rand: nat -> nat, pos: nat)
    returns (pos': nat, q: Phrase, ghost list: seq<NoteNode>)
    requires IsList(follow, followNodes) && p.head !in followNodes
    requires |Onsets(Notes(followNodes), 0)| < BEAT_CAPACITY
    requires Reference(Onsets(Notes(followNodes), 0))
    modifies p, p.head
    ensures p.repetitions == 1 && p.next == q
    ensures fresh(q) && fresh(q.head) && Empty(q)
    ensures IsList(p.head, list) && Distinct(list) && q.head !in list && fresh(list[1..])
    ensures Notes(list) == Generate(Onsets(Notes(followNodes), 0), 0, rand, pos, Bass(chord)) + [TERMINATOR]
    ensures pos' == pos + 2 * (|list| - 1)
    ensures IsList(follow, followNodes) && Notes(followNodes) == old(Notes(followNodes))
  {
    pos', list := CreateBass(p.head, follow, followNodes, chord, rand, pos);
    q := Close(p, 1, list);
  }

  /** `BassRound` on the chord `rows[i]`, its notes stated as the next
      entry of the plan `gens`. */
  method BassNotes(p: Phrase, follow: NoteNode, ghost followNodes: seq<NoteNode>, ghost notes: seq<Note>,
                   rows: seq<Chord>, i: nat, rand: nat -> nat, pos: nat, ghost gens: seq<seq<Note>>, ghost starts: seq<nat>)
    returns (pos': nat, q: Phrase, ghost list: seq<NoteNode>, ghost gens': seq<seq<Note>>, ghost starts': seq<nat>)
    requires IsList(follow, followNodes) && p.head !in followNodes && Notes(followNodes) == notes
    requires |Onsets(notes, 0)| < BEAT_CAPACITY
    requires BassPlan(gens, notes, rows, rand, starts) && |gens| == i < |rows| && |starts| == i + 1 && starts[i] == pos
    modifies p, p.head
    ensures p.repetitions == 1 && p.next == q
    ensures fresh(q) && fresh(q.head) && Empty(q)
    ensures IsList(p.head, list) && Distinct(list) && q.head !in list && fresh(list[1..])
    ensures pos' == pos + 2 * (|list| - 1) && starts' == starts + [pos']
    ensures gens' == gens + [Notes(list)] && BassPlan(gens', notes, rows, rand, starts')
    ensures IsList(follow, followNodes) && Notes(followNodes) == notes
  {
    pos', q, list := BassRound(p, follow, followNodes, rows[i], rand, pos);
    gens' := gens + [Notes(list)];
    starts' := starts + [pos'];
    BassPlanGrows(gens, notes, rows, rand, starts, pos', Notes(list));
  }

  /** Phrase `p` holds the list `list`, with notes `notes`, and `r` repetitions. */
  ghost predicate Holds(p: Phrase, list: seq<NoteNode>, notes: seq<Note>, r: int)
    reads p, list
  {
    p.repetitions == r && IsList(p.head, list) && Notes(list) == notes
  }

  /** The first `i` bass phrases of `chain` are filled, phrase `j` with
      the notes `gens[j]`, drawn from `rand(starts[j])` on, and phrase `i`
      is the one to fill next; the followed list `followNodes` still holds
      `follow`. */
  ghost predicate Scored(chain: seq<Phrase>, lists: seq<seq<NoteNode>>, starts: seq<nat>, gens: seq<seq<Note>>,
                         followNodes: seq<NoteNode>, follow: seq<Note>, i: nat)
    reads chain, followNodes, (set j | 0 <= j < |chain| :: chain[j].head)
    reads set j, k | 0 <= j < |lists| && 0 <= k < |lists[j]| :: lists[j][k]
  {
    && |chain| == i + 1 && |lists| == i && |starts| == i + 1 && |gens| == i
    && (i > 0 ==> IsChain(chain) && Empty(chain[i]))
    && (forall j :: 0 <= j < i ==>
          && Holds(chain[j], lists[j], gens[j], 1) && starts[j + 1] == starts[j] + 2 * (|lists[j]| - 1))
    && (forall j :: 0 <= j < i ==> chain[i].head !in lists[j])
    && Notes(followNodes) == follow && chain[i].head !in followNodes
  }

  /** The bass line over `follow` on chord `rows[j]`, drawn from
      `rand(starts[j])` on. */
  ghost function BassAt(follow: seq<Note>, rows: seq<Chord>, rand: nat -> nat, starts: seq<nat>, j: nat): seq<Note>
    requires Reference(Onsets(follow, 0)) && j < |rows| && j < |starts|
  {
    Generate(Onsets(follow, 0), 0, rand, starts[j], Bass(rows[j])) + [TERMINATOR]
  }

  /** `gens` are the bass lines over `follow` on the first chords of
      `rows`, line `j` drawn from `rand(starts[j])` on. The instances are
      only drawn where a line is named. */
  ghost predicate BassPlan(gens: seq<seq<Note>>, follow: seq<Note>, rows: seq<Chord>, rand: nat -> nat, starts: seq<nat>)
  {
    && |gens| <= |rows| && |gens| < |starts| && Reference(Onsets(follow, 0))
    && forall j {:trigger BassAt(follow, rows, rand, starts, j)} :: 0 <= j < |gens| ==>
         gens[j] == BassAt(follow, rows, rand, starts, j)
  }

  /** The plan grows by the next bass line. */
  lemma BassPlanGrows(gens: seq<seq<Note>>, follow: seq<Note>, rows: seq<Chord>, rand: nat -> nat, starts: seq<nat>,
                      p: nat, g: seq<Note>)
    requires BassPlan(gens, follow, rows, rand, starts) && |gens| < |rows| && |starts| == |gens| + 1
    requires g == Generate(Onsets(follow, 0), 0, rand, starts[|gens|], Bass(rows[|gens|])) + [TERMINATOR]
    ensures BassPlan(gens + [g], follow, rows, rand, starts + [p])
  {
    var gs := gens + [g];
    var s := starts + [p];
    forall j | 0 <= j < |gs|
      ensures gs[j] == BassAt(follow, rows, rand, s, j)
    {
      if j < |gens| {
        assert gs[j] == gens[j] && s[j] == starts[j];
        assert gens[j] == BassAt(follow, rows, rand, starts, j);
      }
    }
  }

  /** One pass of the `musicbox_create_bass_phrase` loop on phrase `i`. */
  method AddBass(current: Phrase, follow: NoteNode, ghost followNodes: seq<NoteNode>, rows: seq<Chord>, rand: nat -> nat,
                 pos: nat, i: nat, ghost chain: seq<Phrase>, ghost lists: seq<seq<NoteNode>>, ghost starts: seq<nat>,
                 ghost gens: seq<seq<Note>>, ghost notes: seq<Note>)
    returns (pos': nat, q: Phrase, ghost chain': seq<Phrase>, ghost lists': seq<seq<NoteNode>>, ghost starts': seq<nat>,
             ghost gens': seq<seq<Note>>)
    requires Scored(chain, lists, starts, gens, followNodes, notes, i)
    requires current == chain[i] && pos == starts[i] && IsList(follow, followNodes)
    requires |Onsets(notes, 0)| < BEAT_CAPACITY && BassPlan(gens, notes, rows, rand, starts) && i < |rows|
    modifies current, current.head
    ensures Scored(chain', lists', starts', gens', followNodes, notes, i + 1) && IsList(follow, followNodes)
    ensures chain'[0] == chain[0] && chain'[i + 1] == q && fresh(q) && fresh(q.head) && pos' == starts'[i + 1]
    ensures starts' == starts + [pos'] && BassPlan(gens', notes, rows, rand, starts')
  {
    ghost var list;
    label Before:
    pos', q, list, gens', starts' := BassNotes(current, follow, followNodes, notes, rows, i, rand, pos, gens, starts);
    assert q !in chain;
    if i > 0 {
      assert old@Before(IsChain(chain));
      forall k | 0 <= k < i
        ensures chain[k].next == chain[k + 1]
      {
        assert old@Before(chain[k].next == chain[k + 1]);
        assert chain[k] != current;
      }
      ChainGrows(chain, q);
    }
    chain' := chain + [q];
    lists' := lists + [list];
    forall j | 0 <= j < i
      ensures Holds(chain[j], lists[j], gens[j], 1) && q.head !in lists[j]
    {
      assert old@Before(Holds(chain[j], lists[j], gens[j], 1));
      assert chain[j] != current && current.head !in lists[j];
    }
    ScoredGrows(chain, lists, starts, gens, followNodes, notes, i, q, list, pos');
  }

  /** Filling bass phrase `i` with the list `list`, drawn from
      `rand(starts[i])` up to `pos'`, and linking the empty phrase `q`
      after it makes `q` the next phrase to fill. */
  lemma ScoredGrows(chain: seq<Phrase>, lists: seq<seq<NoteNode>>, starts: seq<nat>, gens: seq<seq<Note>>,
                    followNodes: seq<NoteNode>, follow: seq<Note>, i: nat, q: Phrase, list: seq<NoteNode>, pos': nat)
    requires |chain| == i + 1 && |lists| == i && |starts| == i + 1 && |gens| == i
    requires IsChain(chain + [q]) && Empty(q)
    requires forall j :: 0 <= j < i ==> Holds(chain[j], lists[j], gens[j], 1) && q.head !in lists[j]
    requires forall j :: 0 <= j < i ==> starts[j + 1] == starts[j] + 2 * (|lists[j]| - 1)
    requires Holds(chain[i], list, Notes(list), 1) && q.head !in list
    requires pos' == starts[i] + 2 * (|list| - 1)
    requires Notes(followNodes) == follow && q.head !in followNodes
    ensures Scored(chain + [q], lists + [list], starts + [pos'], gens + [Notes(list)], followNodes, follow, i + 1)
  {
    var chain', lists', starts', gens' := chain + [q], lists + [list], starts + [pos'], gens + [Notes(list)];
    forall j | 0 <= j < i + 1
      ensures Holds(chain'[j], lists'[j], gens'[j], 1)
      ensures starts'[j + 1] == starts'[j] + 2 * (|lists'[j]| - 1)
      ensures q.head !in lists'[j]
    {
      if j < i {
        assert chain'[j] == chain[j] && lists'[j] == lists[j] && gens'[j] == gens[j];
        assert starts'[j] == starts[j] && starts'[j + 1] == starts[j + 1];
      } else {
        assert chain'[j] == chain[i] && lists'[j] == list && gens'[j] == Notes(list) && starts'[j] == starts[i];
      }
    }
  }

  /** The loop of `musicbox_create_bass_phrase`: bass phrase `i` over the
      notes of the list `followNodes`, on chord `rows[i]`, for each of the
      four rows. */
  method BassLoop(first: Phrase, follow: NoteNode, ghost followNodes: seq<NoteNode>, rows: seq<Chord>,
                  rand: nat -> nat, pos: nat)
    returns (pos': nat, ghost chain: seq<Phrase>, ghost lists: seq<seq<NoteNode>>, ghost starts: seq<nat>,
             ghost gens: seq<seq<Note>>)
    requires |rows| == 4
    requires IsList(follow, followNodes) && first.head !in followNodes
    requires |Onsets(Notes(followNodes), 0)| < BEAT_CAPACITY
    requires Reference(Onsets(Notes(followNodes), 0))
    modifies first, first.head
    ensures Scored(chain, lists, starts, gens, followNodes, old(Notes(followNodes)), 4) && IsList(follow, followNodes)
    ensures chain[0] == first && |starts| == 5 && starts[0] == pos && pos' == starts[4]
    ensures BassPlan(gens, old(Notes(followNodes)), rows, rand, starts) && |gens| == 4
  {
    ghost var notes := Notes(followNodes);
    gens := [];
    pos' := pos;
    chain := [first];
    lists := [];
    starts := [pos];
    var current := first;
    var i := 0;
    while i < 4
      invariant 0 <= i <= 4
      invariant Scored(chain, lists, starts, gens, followNodes, notes, i) && IsList(follow, followNodes)
      invariant chain[0] == first && current == chain[i] && starts[0] == pos && pos' == starts[i]
      invariant i > 0 ==> fresh(current) && fresh(current.head)
      invariant BassPlan(gens, notes, rows, rand, starts)
    {
      var q;
      pos', q, chain, lists, starts, gens := AddBass(current, follow, followNodes, rows, rand, pos', i,
                                                     chain, lists, starts, gens, notes);
      current := q;
      i := i + 1;
    }
  }

  /** `musicbox_create_bass_phrase`: four bass phrases, one per row of the
      chord table `progression`, each over the notes of phrase `follow`
      (the same phrase every time) and played once, then an empty phrase.
      Bass phrase `i` draws from `rand(starts[i])` on. */
  method CreateBassPhrase(first: Phrase, follow: Phrase, ghost followNodes: seq<NoteNode>, progression: array2<int>,
                          rand: nat -> nat, pos: nat)
    returns (pos': nat, ghost chain: seq<Phrase>, ghost lists: seq<seq<NoteNode>>, ghost starts: seq<nat>)
    requires progression.Length0 == 4 && progression.Length1 == 4
    requires IsList(follow.head, followNodes) && first.head !in followNodes
    requires |Onsets(Notes(followNodes), 0)| < BEAT_CAPACITY
    requires Reference(Onsets(Notes(followNodes), 0))
    modifies first, first.head
    ensures IsChain(chain) && |chain| == 5 && chain[0] == first && Empty(chain[4])
    ensures |lists| == 4 && |starts| == 5 && starts[0] == pos && pos' == starts[4]
    ensures forall i :: 0 <= i < 4 ==>
      && chain[i].repetitions == 1 && IsList(chain[i].head, lists[i])
      && Notes(lists[i]) == Generate(Onsets(old(Notes(followNodes)), 0), 0, rand, starts[i], Bass(Row(progression, i))) + [TERMINATOR]
      && starts[i + 1] == starts[i] + 2 * (|lists[i]| - 1)
    ensures IsList(follow.head, followNodes) && Notes(followNodes) == old(Notes(followNodes))
  {
    var rows := [Row(progression, 0), Row(progression, 1), Row(progression, 2), Row(progression, 3)];
    ghost var gens;
    pos', chain, lists, starts, gens := BassLoop(first, follow.head, followNodes, rows, rand, pos);
    forall k | 0 <= k < 4
      ensures Notes(lists[k]) == Generate(Onsets(old(Notes(followNodes)), 0), 0, rand, starts[k], Bass(Row(progression, k))) + [TERMINATOR]
    {
      assert Holds(chain[k], lists[k], gens[k], 1);
      assert gens[k] == BassAt(Notes(followNodes), rows, rand, starts, k);
      assert Row(progression, k) == rows[k];
    }
  }
}
