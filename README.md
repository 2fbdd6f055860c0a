# musicbox, modelled in Dafny

musicbox is a Max external written in C that plays generated music on six
tracks: bass, melody, hi-hat, ghost notes, snare and kick. A track plays a
chain of phrases. Each phrase is a linked list of notes and carries a
repetition budget. The percussion phrases are loaded from pattern files:
one line of each file is picked at random, and its tokens are note names
or note lengths. The melody and the bass are generated over the onsets
of another track (the snare and the kick), so that their notes never run
across one of those onsets. A chained hash table maps note names to MIDI
numbers. Clock ticks walk the note lists. A master tick moves every track
along its phrase chain, counting repetitions with a per-track hold
register, and counts the song's rounds down.

This project models that core and proves what it computes:

- `text.dfy` (`Text`): `strtok` with a one-character delimiter, the way
  `fgets` cuts a file into lines, and the trailing-newline strip.
- `hash.dfy` (`Hash`): the hash function with 32-bit wrap-around, and the
  100-bucket table as a class over an array of chains, with a ghost map
  of its contents.
- `extra.dfy` (`Extra`):
  - the note/phrase/section records as heap classes;
  - `get_beats` on a linked list;
  - `get_random`, `number_of_lines` and `load_chords`.
- `repetition.dfy` (`Repetition`): `next_phrase`, `reset_phrase` and
  `next_section` on the heap, each tied to a value-level walk. The walk
  holds the chain's budgets, the current index and the hold register. It
  comes with the replay schedule `next_phrase` produces.
- `loader.dfy` (`Loader`): `musicbox_loadfile`. It is tied to `Interpret`,
  a function giving the notes the tokens of the picked line leave in the
  list.
- `generator.dfy` (`Generator`): the melody and bass generators. Imperative
  loops over the `get_beats` vector are tied to `Generate`, a recursive
  specification of the measure-filling run.
- `phrases.dfy` (`Phrases`): `musicbox_create_phrase`,
  `musicbox_create_melody_phrase` and `musicbox_create_bass_phrase`,
  building phrase chains that end in an empty trailer phrase.
- `player.dfy` (`Player`):
  - the note-name table of `musicbox_new`;
  - the note ticks;
  - the master tick, as methods of a `MusicBox` class whose ghost state
    ties every track to its walk.

## Modelling choices

- **Lengths and positions.** They are integer quarter-beat ticks: one beat
  is 4 ticks and the 4.0-beat measure is 16. The `-1.0` end mark of
  `get_beats` is -4. A length token is read by a `parse` parameter that
  gives its number of ticks.
- **Randomness.** `rand()` is an oracle `rand: nat -> nat`. A loader takes a
  single `draw`. A generator reads `rand(pos)` and `rand(pos + 1)` at each
  step and returns how far it got. Section `i` of `create_phrase` reads
  `rand(pos + i)`.
- **Files.** A file is its text, a `string`.
- **`next_phrase`'s track index.** `next_phrase` is declared with a track
  index (extra.h:144), but `musicbox_task` calls it without one
  (musicbox/musicbox.c:354-369). The model passes the index explicitly:
  0 is the bass and 5 the kick, in `musicbox_task`'s call order. The index
  selects the register in `phrase_rep_hold`.
- **End of file.** `number_of_lines` keeps `getc`'s result in a `char`,
  which is signed on the build target, so a 0xFF byte compares equal to
  `EOF` and ends the count. The model counts the newlines before the
  first 0xFF character (`Extra.Counted`). `fgets` is not affected, so the
  loaders still see every line.
- **C integer semantics.** `unsigned long` in `hash` has 32 bits, as on
  the Windows build target. A key's characters are signed `char`s.
- **Uninitialised memory.** `malloc`ed nodes and phrases that the code
  never initialises, such as the trailer phrase's head, are taken to hold
  zero.
- **`musicbox_task`'s statement pairs.** The six per-track statement pairs
  are written as one loop over the track indices, in the same order.

## Model

| member | source | states |
|---|---|---|
| Text.IndexOf | musicbox/musicbox.c:478 | the position of the first delimiter, with no delimiter before it, or the end of the string |
| Text.IndexOfIs | musicbox/musicbox.c:478 | any index with no delimiter before it, holding the delimiter or at the end, is the one found |
| Text.WordThenDelimiter | musicbox/musicbox.c:478-503 | a word followed by the delimiter is the first token, and the tokens of the rest follow it |
| Text.Tokens | musicbox/musicbox.c:477-503 | the strings `strtok` hands out are non-empty and contain no delimiter |
| Text.TokensKeepText | musicbox/musicbox.c:477-503 | put back together, the tokens are the input with exactly its delimiters removed |
| Text.Lines | musicbox/musicbox.c:476 | every line `fgets` returns is non-empty |
| Text.LinesKeepText | musicbox/musicbox.c:476-507 | the lines, put back together, are the whole file |
| Text.LinesCount | extra.h:66-88 | the number of lines is the number of newlines, plus one for an unterminated last line |
| Text.NewlinesAfterFirst | extra.h:76-85 | cutting after the first newline removes one newline and one line |
| Text.StripNewline | musicbox/musicbox.c:480-482 | the token is unchanged, or loses exactly one trailing newline, and it shrinks exactly when it ended in one |
| Text.StripAll | extra.h:113-115 | every token is stripped, and the order and count are kept |
| Hash.Accumulate | hash.h:145-152 | the accumulated value stays below 2^32 |
| Hash.Slot | hash.h:155-157 | every key's bucket index is below 100 |
| Hash.HashKey | hash.h:144-158 | the imperative hash loop returns the key's slot, which is below `TABLE_SIZE` |
| Hash.Find | hash.h:106-114 | the first index holding the key: no earlier entry has the key, and the end means a miss |
| Hash.FindIsFirst | hash.h:106-114 | any index that is first to hold the key, or the end when no entry has it, is the one the search finds |
| Hash.ChainSetSelf | hash.h:75-91 | after insertion the key reads back its new value; the chain grows by one exactly when the key was absent; other entries stay in place; unique keys stay unique |
| Hash.ChainSetOther | hash.h:75-91 | insertion changes neither the value looked up nor the presence of any other key |
| Hash.SetKeepsPlaced | hash.h:61-68 | entries stay in their own key's bucket after an insertion |
| Hash.SetKeepsAgreement | hash.h:60-92 | after an insertion into the key's bucket, the buckets agree with the updated map |
| Hash.SetKeepsConsistent | hash.h:60-92 | an insertion keeps the buckets placed, keys unique in each chain, and in agreement with the updated map |
| Hash.HashTable.constructor | hash.h:28-42 | a fresh table of 100 empty buckets, holding the empty map |
| Hash.HashTable.Get | hash.h:94-118 | the stored value, or 0 (`NULL`) when the key is absent, whether its bucket is empty or has no matching entry |
| Hash.HashTable.Set | hash.h:60-92 | the map gains `key := value`; only the key's bucket changes, by an in-place overwrite or an append; the table stays consistent |
| Extra.OnsetsCount | extra.h:45-49 | there is one onset per sounding node (value > -1) |
| Extra.OnsetsAreSums | extra.h:44-52 | the onset of the k-th node, when it sounds, is the sum of the lengths of all earlier nodes, rests included, at its place in list order |
| Extra.OnsetsOrdered | extra.h:44-52 | with no negative length, onsets never decrease and lie between the start and the list's total length |
| Extra.OnsetsIncreasing | extra.h:44-52 | when every node but the last lasts at least a tick, onsets strictly increase |
| Extra.LastOnsetIsTotal | extra.h:44-53 | the 0-valued terminator sounds, so the last onset of a terminated list is its total length |
| Extra.OnsetsStep | extra.h:45-51 | visiting one node moves its onset, if it sounds, from the onsets still to come to those written |
| Extra.ScanBeats | extra.h:41-52 | the scan loop fills the first slots of the 20-slot buffer with the list's onsets, in order |
| Extra.Visit | extra.h:45-51 | one loop pass writes the node's onset when its value is above -1, and adds its length to the running sum |
| Extra.GetBeats | extra.h:40-55 | the result is the list's onsets followed by the -1.0 end mark |
| Extra.GetRandom | extra.h:138-142 | the result lies in `[lower, upper]` for every draw |
| Extra.GetRandomCovers | extra.h:138-142 | every value of the range is produced by some draw |
| Extra.Counted | extra.h:70-85 | the part of the file `number_of_lines` reads: a prefix holding no 0xFF byte, stopped only by one |
| Extra.NumberOfLines | extra.h:66-88 | the counting loop returns one more than the number of newline characters before the first 0xFF byte, which the signed `char` takes for `EOF` |
| Extra.CountedNewlines | extra.h:70-85 | the count sees no more newlines than the file holds, and all of them when it holds no 0xFF byte |
| Extra.RandomLine | extra.h:100 | the picked line number is `get_random(1, number_of_lines(file))`, so it lies between 1 and that count |
| Extra.PickNotPastEof | extra.h:70-85 | a 0xFF byte caps the pick at one more than the newlines before it |
| Extra.MissingLineOnlyAfterFinalNewline | extra.h:69-85 | a picked number past the file's lines happens only for an empty file or one ending in a newline, and then it is one past the last line |
| Extra.FillChords | extra.h:108-129 | entry (i, j) of the table receives the j-th number of the i-th comma-separated chord; entries the line does not reach keep their values |
| Extra.LoadChords | extra.h:90-136 | only the randomly picked line is parsed into the static 4x4 table, with the per-entry effect of `FillChords` |
| Repetition.Advance | extra.h:144-161 | one call keeps the chain length and stays on a phrase of the chain |
| Repetition.AdvanceEffect | extra.h:144-161 | a call moves on exactly when the budget is below 1 and a next phrase exists; the phrase left gets the register's value; the returned phrase loses one repetition; the register becomes the maximum of its value (0 after a move) and the returned phrase's budget before the call, so it is at least that phrase's new budget plus one; no other budget changes |
| Repetition.LastPhraseKeepsDecreasing | extra.h:145-158 | a phrase without a successor is never left, and its budget drops by one per call |
| Repetition.Staying | extra.h:145-158 | with budget c and the register above it, the next c calls stay and spend it; the call after moves on and writes the register back |
| Repetition.ReplayEntered | extra.h:145-158 | a phrase entered with budget r >= 1 is returned r times in a row; when it is left its budget is r again, ready to replay |
| Repetition.Checkpoint | extra.h:144-161 | on a fresh chain, after the call that first returns phrase i, every earlier phrase has its budget back, and the register holds phrase i's budget |
| Repetition.NextCheckpoint | extra.h:145-158 | the remaining calls on phrase i - 1 lead to phrase i's checkpoint |
| Repetition.Schedule | extra.h:144-161 | from a fresh chain the phrases come in chain order; phrase i is returned on exactly `reps[i]` consecutive calls, with the register equal to its budget |
| Repetition.WithinPhrase | extra.h:144-161 | the n-th call, within phrase i's share of calls, returns phrase i with the register at its budget |
| Repetition.NextPhrase | extra.h:144-161 | the returned phrase is `next` exactly when the budget is below 1 and `next` is not NULL; the new budgets and register are those of `Advance`; no other track's register changes |
| Repetition.ResetPhrase | extra.h:163-167 | the same phrase comes back with its budget set to the track's register; the register and every other budget are unchanged |
| Repetition.AdvanceSection | extra.h:169-179 | a call keeps the chain length and stays on a section of the chain |
| Repetition.SectionWalk | extra.h:169-179 | a section without a successor is never left, and its budget keeps dropping; one with a successor stays while budget remains and is left on the call after |
| Repetition.SectionLeaves | extra.h:170-176 | a section with budget c and a successor is left on call c + 1 |
| Repetition.NextSection | extra.h:169-179 | the returned section is `next` exactly when the budget is below 1 and `next` is not NULL; its budget always drops by one, as `AdvanceSection` says |
| Loader.Consume | musicbox/musicbox.c:483-501 | one token changes only the current note, and a length also appends a terminator; a current node always remains |
| Loader.Interpret | musicbox/musicbox.c:478-504 | the tokens leave at least the current node |
| Loader.InterpretCount | musicbox/musicbox.c:484-494 | the list grows by exactly one node per token the table does not know |
| Loader.FinishedStay | musicbox/musicbox.c:484-501 | a note, once finished by a length, is never changed by later tokens |
| Loader.LaterNameWins | musicbox/musicbox.c:496-501 | of two names before the next length, only the later one sets the pitch |
| Loader.LengthFinishes | musicbox/musicbox.c:484-494 | a length token gives the current note that length, keeps its pitch, and makes a 0/0 terminator current |
| Loader.Finish | musicbox/musicbox.c:487-494 | on the heap: the current node takes the length, and a fresh terminator is linked after it and becomes the last node |
| Loader.SetPitch | musicbox/musicbox.c:499-501 | on the heap: the current node takes the pitch, and nothing else changes |
| Loader.Take | musicbox/musicbox.c:483-502 | the list's notes change as `Consume` says, by a table lookup of the token |
| Loader.LoadToken | musicbox/musicbox.c:479-503 | token j takes effect: the list holds the notes of the first j + 1 tokens |
| Loader.LoadLine | musicbox/musicbox.c:477-504 | after the token loop the list holds the notes `Interpret` gives for the line's tokens, starting from the head's old note, and only fresh nodes are added |
| Loader.Settled | musicbox/musicbox.c:461-512 | a finished load is a well-formed list: the loaded notes, followed by the untouched old rest when no length was read |
| Loader.PickLine | musicbox/musicbox.c:469 | the drawn number names the selected line, or no line when the draw is past the last one |
| Loader.ScanLines | musicbox/musicbox.c:476-507 | every line is scanned and only the picked one takes effect; with no such line the list is untouched |
| Loader.LoadFile | musicbox/musicbox.c:461-512 | the list holds `Interpret` of the picked line's tokens, then the old rest if nothing was appended; it has exactly one node more per length token |
| Generator.ReferenceFromList | musicbox/musicbox.c:515 | `get_beats` of a list with no negative length and no empty note before its last gives strictly increasing, non-negative onsets |
| Generator.FirstAtOrAfterSpec | musicbox/musicbox.c:527-538 | the scan stops at the first onset not before the position |
| Generator.FirstAtOrAfterIs | musicbox/musicbox.c:527-538 | that index is unique |
| Generator.OnBackbeatIff | musicbox/musicbox.c:527-538 | over increasing onsets, a position is on the backbeat if and only if it is a reference onset |
| Generator.ClampFromSpec | musicbox/musicbox.c:559-567 | the clamp only shortens; the note ends by the next onset; the length is the drawn one or ends exactly at an onset; it stays positive while every onset ahead is later |
| Generator.ClampSpec | musicbox/musicbox.c:554-567 | the clamped length is at most the drawn one and ends by the next onset, or by 4.0 when none is left; it keeps at least a tick inside the measure |
| Generator.PitchRule | musicbox/musicbox.c:540-552 | the melody plays a scale note, an octave up on the backbeat; the bass (lines 621-633) plays the chord root on the backbeat, otherwise one of the other three chord notes |
| Generator.NoteAtFacts | musicbox/musicbox.c:527-567 | one step's length lies between one tick and the drawn length; the note covers no later reference onset; it ends by 4.0 when no onset is ahead or none lies past 4.0; its pitch depends on whether it starts on an onset |
| Generator.RepeatedOnsetStalls | musicbox/musicbox.c:554-567 | at a reference onset that is repeated, the clamp gives a note of length 0, so the generator loop does not advance |
| Generator.StepAdvances | musicbox/musicbox.c:554-567 | every step inside the measure lasts at least a tick, so the loop terminates |
| Generator.RunAt | musicbox/musicbox.c:525-579 | the k-th note of a run is the step taken at its start, which lies in [p, 4.0), with draws from `pos + 2k` |
| Generator.RunCount | musicbox/musicbox.c:525-579 | a run has at most as many notes as ticks are left |
| Generator.RunFills | musicbox/musicbox.c:525-579 | when no step runs past the measure, the lengths fill the rest of the measure exactly |
| Generator.RunPrefix | musicbox/musicbox.c:525-572 | there is a k-th note exactly when the first k notes end short of 4.0, and it is the step taken at that position |
| Generator.GenerateUnfold | musicbox/musicbox.c:525-579 | short of 4.0, the generator writes one step's note and goes on from its end |
| Generator.GenerateAt | musicbox/musicbox.c:525-579 | every generated note is the step at its start position, with that note's draws |
| Generator.GenerateSteps | musicbox/musicbox.c:525-579 | each note lasts between a tick and its drawn length, starts in [p, 4.0) where the previous one ends, and has the pitch its start calls for |
| Generator.GenerateCount | musicbox/musicbox.c:525-579 | there are at most as many notes as ticks left |
| Generator.GenerateNoStraddle | musicbox/musicbox.c:554-567 | no generated note covers a reference onset after its start; with no onset ahead, or none past 4.0, it ends by 4.0 |
| Generator.GenerateFills | musicbox/musicbox.c:525-579 | with every reference onset at most 4.0, the lengths sum to exactly 4.0 beats |
| Generator.FindOnset | musicbox/musicbox.c:527-538 | the scan loop returns the first onset index not before the beat, and whether the beat is on an onset |
| Generator.ClampLength | musicbox/musicbox.c:554-567 | the clamp code computes `Clamp` |
| Generator.DrawNote | musicbox/musicbox.c:527-570 | one loop body produces exactly the note of the specification's step |
| Generator.NextPass | musicbox/musicbox.c:525-572 | one more pass writes the next note of the run and moves the beat past it |
| Generator.Pass | musicbox/musicbox.c:526-578 | one pass writes the run's next note into the current node and links a fresh terminator |
| Generator.Extend | musicbox/musicbox.c:569-578 | the current node takes the note, and a fresh 0/0 terminator is linked after it |
| Generator.Fill | musicbox/musicbox.c:525-579 | the loop leaves the list as the generated run followed by a terminator, and uses two draws per note |
| Generator.Compose | musicbox/musicbox.c:514-580 | the list is the run generated over `get_beats` of the followed list, then a terminator |
| Generator.CreateMelody | musicbox/musicbox.c:514-580 | the melody list is `Generate` over the followed list's onsets, in melody voice, then a terminator |
| Generator.CreateBass | musicbox/musicbox.c:595-661 | the bass list is `Generate` over the followed list's onsets, on the given chord, then a terminator |
| Phrases.Trailer | musicbox/musicbox.c:453-456 | a fresh empty phrase (single 0 node, no repetitions, NULL next) is linked after the phrase |
| Phrases.Close | musicbox/musicbox.c:451-457 | the phrase gets its repetitions and a fresh empty successor; its notes are kept |
| Phrases.ChainGrows | musicbox/musicbox.c:453-457 | linking a new last phrase extends a well-formed chain |
| Phrases.LoadSection | musicbox/musicbox.c:449-457 | section i is loaded from its file and draw, gets `repeats[i]`, and is followed by an empty phrase |
| Phrases.FillSection | musicbox/musicbox.c:449-457 | the loaded notes are the next entry of the section plan |
| Phrases.BuildingGrows | musicbox/musicbox.c:449-457 | filling phrase i and linking the trailer makes the trailer the next phrase to fill |
| Phrases.AddSection | musicbox/musicbox.c:449-457 | one loop pass fills phrase i and extends the chain by a fresh empty phrase |
| Phrases.SectionLoop | musicbox/musicbox.c:448-459 | after n passes, n phrases are filled according to plan and an empty one follows |
| Phrases.CreatePhrase | musicbox/musicbox.c:448-459 | n sections give a chain of n + 1 phrases; phrase i has `repeats[i]` repetitions and the notes of file i under its draw; the last phrase is the empty trailer |
| Phrases.CreateMelodyPhrase | musicbox/musicbox.c:582-593 | one melody phrase, played 4 times, over the followed phrase's onsets, then an empty phrase |
| Phrases.TrailingBlankLine | musicbox/musicbox.c:477-503 | a name, a length and a blank before the newline give the tokens name, length and the empty string |
| Phrases.TrailingBlankNotes | musicbox/musicbox.c:483-501 | the empty token, no name, is read as a length of 0 and finishes an empty note after the named one |
| Phrases.TrailingBlankOnsets | extra.h:44-52 | that empty note and the terminator after it both sound at 1.0 beat |
| Phrases.TrailingBlankStallsMelody | musicbox/musicbox.c:461-512 | the snare line "C4 1.0 \n" loads onsets 0, 1.0 and 1.0, and the melody over them stalls at 1.0 with a note of length 0 |
| Phrases.Row | musicbox/musicbox.c:665 | chord i is row i of the progression table |
| Phrases.BassRound | musicbox/musicbox.c:664-672 | one bass phrase, on the given chord, played once, then an empty phrase; the followed list is untouched |
| Phrases.BassNotes | musicbox/musicbox.c:664-672 | the bass notes are the next entry of the bass plan |
| Phrases.ScoredGrows | musicbox/musicbox.c:664-672 | filling bass phrase i and linking the trailer makes the trailer the next to fill |
| Phrases.AddBass | musicbox/musicbox.c:664-672 | one loop pass fills bass phrase i and extends the chain |
| Phrases.BassLoop | musicbox/musicbox.c:664-673 | after four passes, four bass phrases are filled according to plan |
| Phrases.CreateBassPhrase | musicbox/musicbox.c:663-674 | a chain of five phrases; phrase i, played once, holds the bass over the followed phrase on chord `progression[i]`, drawn from where phrase i - 1 stopped; the last phrase is empty; the followed list is untouched |
| Player.NameMapKeys | musicbox/musicbox.c:204-206 | the table's names are exactly the entered ones |
| Player.NameMapLast | musicbox/musicbox.c:204-206 | the i-th name, when no later copy follows, maps to MIDI number i + 21 |
| Player.NameMapRange | musicbox/musicbox.c:204-206 | every entered name maps to at least 21 |
| Player.NoNameIsALength | musicbox/musicbox.c:202-207 | no name in the table reads as 0, so the loader never takes a name for a length; "rest" reads as -1, a rest |
| Player.BuildNameTable | musicbox/musicbox.c:202-207 | the table holds every note name, in order, then "rest" as -1 |
| Player.Tick | musicbox/musicbox.c:386-444 | on any node, the last included, the cursor stays on the list; it moves to the next node exactly when there is one and its value is not 0 |
| Player.TickAsWritten | musicbox/musicbox.c:390 | the tick as written reads `current->next` unchecked: on the last node it reads through NULL, otherwise it reschedules exactly when the next value is not 0 |
| Player.TickAgrees | musicbox/musicbox.c:390-393 | away from the last node the tick as written and `Tick` agree |
| Player.OneLineFileMissesDraw | extra.h:66-100 | a one-line file ending in a newline counts two lines, and a draw of line 2 selects nothing |
| Player.PastEndDrawReadsNull | musicbox/musicbox.c:461-512 | the hat file "C4 1.0\n" with the draw picking line 2 leaves a one-node list, and the tick on it reads through NULL |
| Player.TwoWordLine | musicbox/musicbox.c:477-503 | a line of two blank-separated words gives exactly those two tokens |
| Player.NamesOnlyLineReadsNull | musicbox/musicbox.c:461-512 | a line of names only, "C4 D4\n", leaves one node, and the tick on it reads through NULL |
| Player.TickStaysBeforeLast | musicbox/musicbox.c:390-393 | on a terminated list the cursor never reaches the terminator |
| Player.RoundIsRun | musicbox/musicbox.c:386-394 | a round plays consecutive nodes up to the first node followed by a 0 node, never the terminator |
| Player.RoundPlaysPhrase | musicbox/musicbox.c:386-394 | on a list whose nodes hold no 0 before the terminator, a round from the head plays the whole phrase |
| Player.Session | musicbox/musicbox.c:372-383 | with `runs` at r, exactly the first r master ticks start a round, and `runs` then stays 0 |
| Player.BangRounds | musicbox/musicbox.c:331 | `runs = 4` gives exactly four rounds; the fifth tick starts none |
| Player.SessionOf | musicbox/musicbox.c:354-370 | a chain ending in an empty phrase, played from a clear register, ends on that phrase with every budget restored and the register clear |
| Player.HatSession | musicbox/musicbox.c:302-306 | the hat's two sections of two plays each give phrase (n - 1) / 2 in round n; the fifth tick moves onto the trailer and clears the register |
| Player.BassSession | musicbox/musicbox.c:663-674 | the four bass phrases play one per round; the fifth tick moves onto the trailer and clears the register |
| Player.LoopSession | musicbox/musicbox.c:308-321 | a one-section track of four repetitions replays its phrase each round; the fifth tick moves onto the trailer |
| Player.StepTrack | musicbox/musicbox.c:354-370 | `next_phrase` on track t advances track t's walk; the other tracks' walks and every link are kept |
| Player.MusicBox.Start | musicbox/musicbox.c:331 | every track on the first phrase of its chain with its cursor on that phrase's head, four rounds to play, walks matching the chains |
| Player.MusicBox.NoteTick | musicbox/musicbox.c:386-444 | any of the six note tasks, on any node of the list, emits the cursor's note and reports the outcome `TickAsWritten` gives: reading through NULL on the last node, otherwise rescheduling exactly when the next node's value is not 0; it moves only that track's cursor, as `Tick` says |
| Player.MusicBox.AdvanceTrack | musicbox/musicbox.c:354-355 | track t's walk advances, its cursor goes to the new phrase's head, and the other tracks are unchanged |
| Player.MusicBox.Task | musicbox/musicbox.c:348-384 | every track's walk advances once and its cursor goes to its phrase's head; a round starts exactly when `runs > 0`, and then `runs` drops by one |

## Left out

- The Max host: `ext_main`, object creation beyond the name table, `musicbox_assist`, `musicbox_free`, clocks, outlets, inlets and `post`. A tick's effect is the note it returns and its rescheduling flag.
- `tempo_to_mil` and the `length * beat` millisecond values: floating point, outside the logic.
- `printList` and `ht_dump`: they only print.
- File opening: a missing file makes `number_of_lines` read from a NULL stream, so the missing-file branches of `musicbox_loadfile` and `load_chords` are not modelled, and a file is given as its text.
- `MAXCHAR`: `fgets` returns a line longer than the buffer in pieces; here every line is taken whole.
- `srand` and `rand`: replaced by draw oracles.
- `strtof` and `strtol`: they are the `parse` parameters. A length that is not a multiple of a quarter beat has no tick value.
- Memory defects: `ht_pair`'s undersized allocation and the `malloc`/`free` into an `int` field, and `strcpy` into a string literal in `load_chords`. The model does what those lines evidently intend.
- The static buffer of `get_beats`: each call returns a fresh sequence.
- The scene-level arrangement under `musicbox_bang`: its file paths, its sequence of builder calls, and any bang after the first. `Start` stands for the state the builders leave. `phrase_rep_hold` is never reset between songs; `Start` takes the registers as they are.
- The `section` tier: nothing in the shown code drives `next_section` or `reset_phrase`, so they are modelled on their own.
- The table of note names (midi_notes.h) is not part of this model. It is a parameter: name i maps to MIDI number i + 21.
- Loader.IsLength: a name stored with value 0 is read as a length, as in the source; `Player.NoNameIsALength` shows that the table built by `musicbox_new` holds no 0.
- Aliasing between tracks is ruled out by the ghost `place` map, which gives every phrase a single track and index. Shared phrases are not modelled.
- Extra.GetBeats: requires fewer than 20 onsets; the source writes past its static buffer otherwise.
- Extra.LoadChords: requires the picked line to fit the 4x4 table; the source writes past it otherwise.
- Generator.CreateMelody: requires fewer than 20 reference onsets, as `get_beats` does, and requires them to be strictly increasing with none equal to -1.0. Only an onset of exactly -1.0 is read as the end mark and cuts the scans short; other negative onsets lie before every beat and are passed over. Two equal onsets make the source loop forever; ordinary input gives them, as the second row under Findings shows.
- Generator.CreateBass: the same requirement on the reference onsets as `CreateMelody`.
- Phrases.CreateBassPhrase: requires the bass list to share no node with the list it follows, as in `musicbox_bang`.
- Player.MusicBox.NoteTick: reading through NULL on the last node is reported as the outcome `NullNext`, and the cursor stays; what the source then does is undefined.
- Player.MusicBox.Task: the six per-track statement pairs are a loop over the track indices; the clocks it sets are not modelled.

## Findings

| source | as written | input that shows it | evidently intended | confidence | as-written member | corrected member |
|---|---|---|---|---|---|---|
| musicbox/musicbox.c:390 | every note task (lines 390, 400, 410, 420, 430 and 440) reads `current->next->value` without checking `current->next`, so a tick on the last node of a list reads through NULL | hat file "C4 1.0\n" with the draw picking line 2 (`number_of_lines` counts 2), which leaves the one-node list of the old head; or a line of names only, "C4 D4\n" | a tick on the last node ends the round without rescheduling | not executed | Player.TickAsWritten (with Player.PastEndDrawReadsNull and Player.NamesOnlyLineReadsNull) | Player.Tick |
| musicbox/musicbox.c:554-567 | in the loop of line 525, at a beat equal to two reference onsets the clamp sets the length to `back_beat[j] - current_beat` = 0, so `current_beat` never reaches 4.0 | snare file line "C4 1.0 \n": the blank before the newline gives an empty last token, read as a length of 0, so the onsets are 0, 1.0, 1.0 | the melody fills the 4.0-beat measure and ends, which it does over strictly increasing onsets | not executed | Generator.RepeatedOnsetStalls (with Phrases.TrailingBlankStallsMelody) | Generator.Generate (see Generator.GenerateFills) |
