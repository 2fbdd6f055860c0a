/** `musicbox_loadfile`: the pattern loader. One line of a pattern file,
    picked at random, is cut into space-separated tokens; a token the
    note-name table knows sets the pitch of the note being written, any
    other token is read as that note's length, which finishes the note and
    appends a fresh terminator node to write the next one into. */
module Loader {
  import opened Text
  import opened Extra
  import opened Hash

  /** What `ht_get` answers for `key` on a table holding `names`: the
      stored value, or 0 (`NULL`) on a miss. */
  function Lookup(names: map<string, int>, key: string): int
  {
    if key in names then names[key] else 0
  }

  /** A token the loader takes for a length: one the table answers 0 for.
      A name stored with value 0 is taken for a length as well. */
  predicate IsLength(names: map<string, int>, t: string)
  {
    Lookup(names, t) == 0
  }

  /** The number of length tokens among `tokens`. */
  function CountLengths(names: map<string, int>, tokens: seq<string>): nat
  {
    if tokens == [] then 0
    else CountLengths(names, tokens[..|tokens| - 1]) + (if IsLength(names, tokens[|tokens| - 1]) then 1 else 0)
  }

  /** The effect of one token on the notes from the current node on, the
      last of which is the current node. */
  function Consume(r: seq<Note>, t: string, names: map<string, int>, parse: string -> int): (r': seq<Note>)
    requires |r| >= 1
    ensures |r'| >= 1
  {
    var last := r[|r| - 1];
    var v := Lookup(names, t);
    if v == 0 then r[..|r| - 1] + [Note(last.value, parse(t)), TERMINATOR]
    else r[..|r| - 1] + [Note(v, last.length)]
  }

  /** The notes the tokens `tokens` leave in the list from a current node
      holding `cur` on: finished notes, then the node left current.
      `parse` reads a length token as a number of quarter beats. */
  function Interpret(tokens: seq<string>, names: map<string, int>, parse: string -> int, cur: Note): (r: seq<Note>)
    ensures |r| >= 1
  {
    if tokens == [] then [cur]
    else Consume(Interpret(tokens[..|tokens| - 1], names, parse, cur), tokens[|tokens| - 1], names, parse)
  }

  /** Every length token finishes one note and opens one more node. */
  lemma {:induction false} InterpretCount(tokens: seq<string>, names: map<string, int>, parse: string -> int, cur: Note)
    ensures |Interpret(tokens, names, parse, cur)| == 1 + CountLengths(names, tokens)
    decreases |tokens|
  {
    if tokens != [] {
      InterpretCount(tokens[..|tokens| - 1], names, parse, cur);
    }
  }

  /** A note, once a length token has finished it, is never changed by the
      tokens after it: the finished notes after a prefix of the tokens
      stay the first notes after all of them. */
  lemma {:induction false} FinishedStay(tokens: seq<string>, j: nat, names: map<string, int>, parse: string -> int, cur: Note)
    requires j <= |tokens|
    ensures |Interpret(tokens[..j], names, parse, cur)| <= |Interpret(tokens, names, parse, cur)|
    ensures Interpret(tokens[..j], names, parse, cur)[..|Interpret(tokens[..j], names, parse, cur)| - 1] ==
      Interpret(tokens, names, parse, cur)[..|Interpret(tokens[..j], names, parse, cur)| - 1]
    decreases |tokens| - j
  {
    if j < |tokens| {
      var a := Interpret(tokens[..j], names, parse, cur);
      var b := Interpret(tokens[..j + 1], names, parse, cur);
      assert tokens[..j + 1][..j] == tokens[..j];
      assert b == Consume(a, tokens[j], names, parse);
      assert b[..|a| - 1] == a[..|a| - 1];
      FinishedStay(tokens, j + 1, names, parse, cur);
    } else {
      assert tokens[..j] == tokens;
    }
  }

  /** Of two names before the next length, only the second counts: it
      overwrites the pitch the first one set. */
  lemma {:induction false} LaterNameWins(pre: seq<string>, a: string, b: string, post: seq<string>,
                                       names: map<string, int>, parse: string -> int, cur: Note)
    requires !IsLength(names, a) && !IsLength(names, b)
    ensures Interpret(pre + [a, b] + post, names, parse, cur) == Interpret(pre + [b] + post, names, parse, cur)
    decreases |post|
  {
    if post == [] {
      var r := Interpret(pre, names, parse, cur);
      assert (pre + [a, b])[..|pre + [a, b]| - 1] == pre + [a];
      assert (pre + [a])[..|pre + [a]| - 1] == pre;
      assert (pre + [b])[..|pre + [b]| - 1] == pre;
      assert pre + [a, b] + post == pre + [a, b];
      assert pre + [b] + post == pre + [b];
    } else {
      var post' := post[..|post| - 1];
      LaterNameWins(pre, a, b, post', names, parse, cur);
      assert (pre + [a, b] + post)[..|pre + [a, b] + post| - 1] == pre + [a, b] + post';
      assert (pre + [b] + post)[..|pre + [b] + post| - 1] == pre + [b] + post';
    }
  }

  /** A length token gives the current note its length, keeps its pitch,
      and leaves a terminator node current. */
  lemma LengthFinishes(tokens: seq<string>, t: string, names: map<string, int>, parse: string -> int, cur: Note)
    requires IsLength(names, t)
    ensures var r := Interpret(tokens, names, parse, cur);
      Interpret(tokens + [t], names, parse, cur) ==
      r[..|r| - 1] + [Note(r[|r| - 1].value, parse(t)), TERMINATOR]
  {
    assert (tokens + [t])[..|tokens + [t]| - 1] == tokens;
  }

  /** The pattern list while a line is loaded: `nodes` runs from the head
      to the current node; until a length has been read the head still
      leads the old list's rest `tail`, afterwards the current node ends
      the list. */
  ghost predicate Loading(nodes: seq<NoteNode>, tail: seq<NoteNode>)
    reads nodes, tail
  {
    && |nodes| >= 1 && Chained(nodes) && Distinct(nodes)
    && (|nodes| == 1 ==> IsList(nodes[0], nodes + tail) && Distinct(nodes + tail))
    && (|nodes| > 1 ==> nodes[|nodes| - 1].next == null)
  }

  /** The whole list `Loading` describes. */
  ghost function Whole(nodes: seq<NoteNode>, tail: seq<NoteNode>): seq<NoteNode>
  {
    if |nodes| == 1 then nodes + tail else nodes
  }

  /** A finished load is a well-formed list: the loaded nodes, followed by
      the untouched old notes when nothing was appended. */
  lemma Settled(nodes: seq<NoteNode>, tail: seq<NoteNode>, tailNotes: seq<Note>)
    requires Loading(nodes, tail) && Notes(tail) == tailNotes
    ensures IsList(nodes[0], Whole(nodes, tail)) && Distinct(Whole(nodes, tail))
    ensures Notes(Whole(nodes, tail)) == Notes(nodes) + (if |nodes| == 1 then tailNotes else [])
  {
    LoadingIsList(nodes, tail);
    WholeNotes(nodes, tail);
  }

  lemma LoadingIsList(nodes: seq<NoteNode>, tail: seq<NoteNode>)
    requires Loading(nodes, tail)
    ensures IsList(nodes[0], Whole(nodes, tail)) && Distinct(Whole(nodes, tail))
  {
  }

  lemma WholeNotes(nodes: seq<NoteNode>, tail: seq<NoteNode>)
    requires Loading(nodes, tail)
    ensures Notes(Whole(nodes, tail)) == Notes(nodes) + (if |nodes| == 1 then Notes(tail) else [])
  {
    if |nodes| == 1 {
      assert Notes(nodes + tail) == Notes(nodes) + Notes(tail);
    }
  }

  /** A length token on the picked line: the current node takes the length,
      and a fresh terminator node linked after it becomes current. */
  method Finish(current: NoteNode, len: int, ghost nodes: seq<NoteNode>, ghost tail: seq<NoteNode>)
    returns (n: NoteNode)
    requires Loading(nodes, tail) && current == nodes[|nodes| - 1]
    modifies current`length, current`next
    ensures fresh(n) && Loading(nodes + [n], tail)
    ensures Notes(nodes + [n]) == old(Notes(nodes))[..|nodes| - 1] + [Note(old(current.value), len), TERMINATOR]
  {
    ghost var before := Notes(nodes);
    LastApart(nodes);
    current.length := len;
    n := new NoteNode(0, 0);
    current.next := n;
    assert Chained(nodes);
    Appended(nodes, tail, n);
    ghost var want := before[..|nodes| - 1] + [Note(current.value, len), TERMINATOR];
    forall k | 0 <= k < |nodes| + 1
      ensures Notes(nodes + [n])[k] == want[k]
    {
      if k < |nodes| - 1 {
        assert (nodes + [n])[k] == nodes[k];
      }
    }
  }

  /** The last of a distinct run of nodes is none of the others. */
  lemma LastApart(nodes: seq<NoteNode>)
    requires |nodes| >= 1 && Distinct(nodes)
    ensures forall k :: 0 <= k < |nodes| - 1 ==> nodes[k] != nodes[|nodes| - 1]
  {
  }

  /** Linking a new last node `n` after a run of nodes. */
  lemma Appended(nodes: seq<NoteNode>, tail: seq<NoteNode>, n: NoteNode)
    requires |nodes| >= 1 && Chained(nodes) && Distinct(nodes) && n !in nodes
    requires nodes[|nodes| - 1].next == n && n.next == null
    ensures Loading(nodes + [n], tail)
  {
    var ext := nodes + [n];
    forall k | 0 <= k < |ext| - 1
      ensures ext[k].next == ext[k + 1]
    {
      if k < |nodes| - 1 {
        assert ext[k] == nodes[k] && ext[k + 1] == nodes[k + 1];
      }
    }
  }

  /** A name on the picked line: the current node takes its pitch. */
  method SetPitch(current: NoteNode, v: int, ghost nodes: seq<NoteNode>, ghost tail: seq<NoteNode>)
    requires Loading(nodes, tail) && current == nodes[|nodes| - 1]
    modifies current`value
    ensures Loading(nodes, tail)
    ensures Notes(nodes) == old(Notes(nodes))[..|nodes| - 1] + [Note(v, old(current.length))]
  {
    current.value := v;
    assert Notes(nodes) == old(Notes(nodes))[..|nodes| - 1] + [Note(v, old(current.length))];
  }

  /** Reading one more token: the notes after `j + 1` tokens are those
      after `j` tokens with the token consumed. */
  lemma InterpretStep(tokens: seq<string>, j: nat, names: map<string, int>, parse: string -> int, cur: Note)
    requires j < |tokens|
    ensures Interpret(tokens[..j + 1], names, parse, cur) ==
      Consume(Interpret(tokens[..j], names, parse, cur), tokens[j], names, parse)
  {
    assert tokens[..j + 1][..j] == tokens[..j];
  }

  /** One token of the picked line: a length finishes the current note, a
      name sets its pitch. */
  method Take(current: NoteNode, t: string, v: int, ghost names: map<string, int>, parse: string -> int,
              ghost nodes: seq<NoteNode>, ghost tail: seq<NoteNode>)
    returns (current': NoteNode, ghost nodes': seq<NoteNode>, ghost grew: bool)
    requires v == Lookup(names, t)
    requires Loading(nodes, tail) && current == nodes[|nodes| - 1]
    modifies current
    ensures Loading(nodes', tail) && current' == nodes'[|nodes'| - 1]
    ensures grew ==> fresh(current') && nodes' == nodes + [current']
    ensures !grew ==> current' == current && nodes' == nodes
    ensures Notes(nodes') == Consume(old(Notes(nodes)), t, names, parse)
  {
    grew := v == 0;
    if v == 0 {
      current' := Finish(current, parse(t), nodes, tail);
      nodes' := nodes + [current'];
    } else {
      SetPitch(current, v, nodes, tail);
      current', nodes' := current, nodes;
    }
  }

  /** The list after the first `j` tokens of the picked line `all`: it is
      loading from the head `nodes[0]` to the current node, and holds the
      notes those tokens leave. */
  ghost predicate LoadedUpTo(nodes: seq<NoteNode>, tail: seq<NoteNode>, current: NoteNode, all: seq<string>, j: nat,
                             names: map<string, int>, parse: string -> int, cur0: Note)
    reads nodes, tail
  {
    && j <= |all| && Loading(nodes, tail) && current == nodes[|nodes| - 1]
    && Notes(nodes) == Interpret(all[..j], names, parse, cur0)
  }

  /** Token `j` of the picked line, `t`, taking effect: the notes are
      those after the first `j + 1` tokens. */
  method LoadToken(current: NoteNode, t: string, table: HashTable, parse: string -> int, ghost all: seq<string>,
                   j: nat, ghost cur0: Note, ghost nodes: seq<NoteNode>, ghost tail: seq<NoteNode>)
    returns (current': NoteNode, j': nat, ghost nodes': seq<NoteNode>, ghost grew: bool)
    requires table.Valid() && j < |all| && all[j] == t
    requires LoadedUpTo(nodes, tail, current, all, j, table.M, parse, cur0)
    modifies current
    ensures j' == j + 1 && LoadedUpTo(nodes', tail, current', all, j', table.M, parse, cur0)
    ensures grew ==> fresh(current') && nodes' == nodes + [current']
    ensures !grew ==> current' == current && nodes' == nodes
  {
    j' := j + 1;
    InterpretStep(all, j, table.M, parse, cur0);
    var v := table.Get(t);
    current', nodes', grew := Take(current, t, v, table.M, parse, nodes, tail);
  }

  /** The token loop over the picked line: every token takes effect on the
      list from the head on. */
  method LoadLine(head: NoteNode, line: string, table: HashTable, parse: string -> int, ghost tail: seq<NoteNode>)
    returns (ghost nodes: seq<NoteNode>)
    requires table.Valid()
    requires IsList(head, [head] + tail) && Distinct([head] + tail)
    modifies head
    ensures Loading(nodes, tail) && nodes[0] == head && fresh(nodes[1..])
    ensures Notes(nodes) == Interpret(LineTokens(line, ' '), table.M, parse, old(Note(head.value, head.length)))
  {
    var toks := Tokens(line, ' ');
    ghost var all := LineTokens(line, ' ');
    ghost var names := table.M;
    ghost var cur0 := Note(head.value, head.length);
    var current := head;
    nodes := [head];
    assert Notes(nodes) == [cur0];
    var j := 0;
    while j < |toks|
      invariant 0 <= j <= |toks| && |all| == |toks|
      invariant LoadedUpTo(nodes, tail, current, all, j, names, parse, cur0) && nodes[0] == head
      invariant forall k :: 1 <= k < |nodes| ==> fresh(nodes[k])
    {
      var t := StripNewline(toks[j]);
      assert t == all[j];
      ghost var grew;
      current, j, nodes, grew := LoadToken(current, t, table, parse, all, j, cur0, nodes, tail);
    }
    assert all[..j] == all;
  }

  /** The token loop over a line that was not picked: every token is
      looked up and nothing changes. */
  method SkipLine(line: string, table: HashTable)
    requires table.Valid()
  {
    var toks := Tokens(line, ' ');
    var j := 0;
    while j < |toks|
    {
      var t := StripNewline(toks[j]);
      var v := table.Get(t);
      j := j + 1;
    }
  }

  /** `musicbox_loadfile` on a file whose contents are `text`: the line
      number is drawn from `1 .. number_of_lines` with the draw `draw`,
      then every line is scanned and only the picked one takes effect. A
      list whose picked line has no length token keeps the old rest after
      the head. */
  method LoadFile(head: NoteNode, text: string, draw: nat, table: HashTable, parse: string -> int, ghost tail: seq<NoteNode>)
    returns (ghost nodes: seq<NoteNode>)
    requires table.Valid()
    requires IsList(head, [head] + tail) && Distinct([head] + tail)
    modifies head
    ensures Loading(nodes, tail) && nodes[0] == head && fresh(nodes[1..])
    ensures IsList(head, Whole(nodes, tail)) && Distinct(Whole(nodes, tail))
    ensures Notes(nodes) ==
      Interpret(LineTokens(SelectedLine(text, draw), ' '), table.M, parse, old(Note(head.value, head.length)))
    ensures |nodes| == 1 + CountLengths(table.M, LineTokens(SelectedLine(text, draw), ' '))
    ensures Notes(Whole(nodes, tail)) == Notes(nodes) + (if |nodes| == 1 then old(Notes(tail)) else [])
  {
    ghost var tailNotes := Notes(tail);
    ghost var cur0 := Note(head.value, head.length);
    ghost var names := table.M;
    var lines, randLine := PickLine(text, draw);
    ghost var picked := SelectedLine(text, draw);
    assert head !in tail by {
      assert forall k :: 0 <= k < |tail| ==> ([head] + tail)[k + 1] == tail[k];
    }
    nodes := ScanLines(head, lines, randLine, table, parse, tail, picked);
    InterpretCount(LineTokens(picked, ' '), names, parse, cur0);
    Settled(nodes, tail, tailNotes);
  }

  /** The start of `musicbox_loadfile`: count the file's lines and draw
      the line number to load, from 1 up to that count; a draw past the
      last line picks an empty line. */
  method PickLine(text: string, draw: nat) returns (lines: seq<string>, randLine: int)
    ensures lines == Lines(text) && 1 <= randLine
    ensures randLine <= |lines| ==> SelectedLine(text, draw) == lines[randLine - 1]
    ensures randLine > |lines| ==> SelectedLine(text, draw) == []
  {
    var count := NumberOfLines(text);
    randLine := GetRandom(draw, 1, count);
    lines := Lines(text);
  }

  /** The line loop of `musicbox_loadfile`: every line is scanned, and
      only line number `randLine` (counted from 1), the `picked` one,
      takes effect; when there is no such line the list is left alone. */
  method ScanLines(head: NoteNode, lines: seq<string>, randLine: int, table: HashTable, parse: string -> int,
                   ghost tail: seq<NoteNode>, ghost picked: string)
    returns (ghost nodes: seq<NoteNode>)
    requires table.Valid() && 1 <= randLine
    requires randLine <= |lines| ==> picked == lines[randLine - 1]
    requires randLine > |lines| ==> picked == []
    requires IsList(head, [head] + tail) && Distinct([head] + tail)
    modifies head
    ensures Loading(nodes, tail) && nodes[0] == head && fresh(nodes[1..])
    ensures Notes(nodes) == Interpret(LineTokens(picked, ' '), table.M, parse, old(Note(head.value, head.length)))
  {
    ghost var cur0 := Note(head.value, head.length);
    var line := 1;
    var i := 0;
    nodes := [head];
    while i < |lines|
      invariant 0 <= i <= |lines| && line == i + 1
      invariant randLine > i ==> nodes == [head] && unchanged(head)
      invariant randLine <= i ==> Loading(nodes, tail) && nodes[0] == head && fresh(nodes[1..])
      invariant randLine <= i ==> Notes(nodes) == Interpret(LineTokens(picked, ' '), table.M, parse, cur0)
    {
      if line == randLine {
        nodes := LoadLine(head, lines[i], table, parse, tail);
      } else {
        SkipLine(lines[i], table);
      }
      line := line + 1;
      i := i + 1;
    }
    if randLine > |lines| {
      assert Tokens(picked, ' ') == [];
      assert Notes(nodes) == [cur0];
    }
  }
}
