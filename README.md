# Theory results of music21's theory analysis, in Dafny

music21's theory analysis passes find patterns in a score: an interval, a
voice-leading quartet, a single note, a verticality, a three-note linear
segment, or an n-tuplet of verticalities. Each pattern is wrapped in a *theory
result* (`music21/alpha/theoryAnalysis/theoryResult.py`). A result stores a
description `text`, a classification `value` and the `currentColor` of its last
coloring. Its methods map positional selectors (1–2, 1–3 or 1–4) onto the notes
of the finding and change those notes in place: their `color`, their `lyric`, or
an entry of their `editorial.misc` dictionary. The interval and quartet results
can also compute the offset of the finding and ask whether any of its notes
carries an editorial flag.

The project has four modules:

- `Selection` (`selection.dfy`) holds the pure helpers. `Picked` gives the
  elements of a list at the 1-based positions a selector names. `MaxOf` and
  `MinOf` are Python's `max` and `min`. `PyIndex` is Python's list indexing,
  where negative indices count from the end. The helper method `Pick` chooses
  the next key of a dictionary walk.
- `Music` (`music.dfy`) holds the parts of music21's object model that the
  results touch. `Note` is a class with mutable `color`, `lyric` and `misc`, and
  a constant `offset`. The findings (`Interval`, `VoiceLeadingQuartet`,
  `Verticality`, `ThreeNoteLinearSegment`, `VerticalityNTuplet`) hold
  references to notes.
- `TheoryResults` (`theory_result.dfy`) holds one class per result kind. Each
  class has the fields `text`, `value` and `currentColor` and the methods of
  `theoryResult.py`.
- `Scenarios` (`scenarios.dfy`) holds client methods. They build small findings,
  annotate them, and assert what a caller can conclude from the contracts
  alone. Examples: a quartet with offsets 0, 0, 1, 1 has offset 1, or 0 when
  left-aligned; the default lyric call labels only the end note.

Each method that takes positional selectors (the quartet, interval and segment
methods) first computes the set of notes that the `if k in noteList` tests of
`theoryResult.py` select. Then it writes one value to one field of every note
in that set. The verticality coloring and the n-tuplet marking instead walk
their part list or plan in loops, proved by loop invariants to write exactly
the notes that `ColorTargets` or `MarkTargets` names. The n-tuplet coloring
calls the segment's own coloring. Every contract says two things: the notes
written hold the new value, and every other note of the finding is unchanged.
One call writes the same value everywhere, so a note that sits at two
positions ends up exactly as `theoryResult.py` leaves it. The `SelectedIsPositional` lemmas show that
each cell-by-cell selection equals the positional selection `Picked`.
`Selection.PickedAt` adds that, when the notes are distinct, position k is
selected exactly when k is in the list.

Where the code differs from its own documentation, the model follows the code:

- `VerticalityNTupletTheoryResult.color` accepts `noteList` and never uses it.
- `VerticalityNTupletTheoryResult.markNoteEditorial` ignores the part numbers
  in its plan. It always marks the part-0 note of each listed verticality, once
  per listed part number.
- Only the base, quartet, interval and note results set `currentColor`. The
  verticality, segment and n-tuplet `color` methods leave it unchanged.

## Model

| member | source | states |
|---|---|---|
| `TheoryResults.TheoryResult.constructor` | music21/alpha/theoryAnalysis/theoryResult.py:29-32 | a new result has `text`, `value` and `currentColor` all empty |
| `TheoryResults.TheoryResult.Color` | music21/alpha/theoryAnalysis/theoryResult.py:34-39 | `currentColor` becomes the argument; `text` and `value` are unchanged |
| `TheoryResults.VLQTheoryResult.constructor` | music21/alpha/theoryAnalysis/theoryResult.py:46-48 | wraps the quartet; `text`, `value` and `currentColor` start empty |
| `TheoryResults.VLQTheoryResult.SelectedIsPositional` | music21/alpha/theoryAnalysis/theoryResult.py:63-70 | the four `if k in noteList` tests select exactly the cells at positions 1 (v1n1), 2 (v1n2), 3 (v2n1) and 4 (v2n2) named in the list; other selectors are ignored |
| `TheoryResults.VLQTheoryResult.Color` | music21/alpha/theoryAnalysis/theoryResult.py:50-70 | `currentColor` becomes the color whatever the selection; the selected cells take the color; every other cell keeps its color; no lyric or editorial entry changes; the default selects all four cells |
| `TheoryResults.VLQTheoryResult.Offset` | music21/alpha/theoryAnalysis/theoryResult.py:72-84 | the result is the offset of one of the four notes, and it is at least every note's offset (at most, when `leftAlign`) |
| `TheoryResults.VLQTheoryResult.LeftAlignNotAfter` | music21/alpha/theoryAnalysis/theoryResult.py:79-84 | the quartet's left-aligned offset (its `min`) is never later than its right-aligned offset (its `max`) |
| `TheoryResults.VLQTheoryResult.HasEditorial` | music21/alpha/theoryAnalysis/theoryResult.py:86-98 | true exactly when some cell has the key in `misc` with a value equal to the given one (`Bool(true)` by default); an absent key never matches |
| `TheoryResults.VLQTheoryResult.MarkNoteEditorial` | music21/alpha/theoryAnalysis/theoryResult.py:100-126 | the selected cells get `misc[key] := value` with all their other keys kept; unselected cells, colors and lyrics are unchanged; afterwards `HasEditorial(key, value)` holds if any cell was selected; marking cells that already carry the value changes nothing (idempotence) |
| `TheoryResults.IntervalTheoryResult.constructor` | music21/alpha/theoryAnalysis/theoryResult.py:133-135 | wraps the interval; the three strings start empty |
| `TheoryResults.IntervalTheoryResult.SelectedIsPositional` | music21/alpha/theoryAnalysis/theoryResult.py:144-147 | the tests select exactly noteStart for 1 and noteEnd for 2; other selectors are ignored |
| `TheoryResults.IntervalTheoryResult.Color` | music21/alpha/theoryAnalysis/theoryResult.py:137-147 | `currentColor` becomes the color; the selected notes (both by default) take it and the other keeps its color; lyrics and editorial entries are unchanged |
| `TheoryResults.IntervalTheoryResult.Offset` | music21/alpha/theoryAnalysis/theoryResult.py:149-159 | the result is one of the two offsets and is the larger one (the smaller, when `leftAlign`) |
| `TheoryResults.IntervalTheoryResult.LeftAlignNotAfter` | music21/alpha/theoryAnalysis/theoryResult.py:154-159 | the interval's left-aligned offset is never later than its right-aligned offset |
| `TheoryResults.IntervalTheoryResult.Lyric` | music21/alpha/theoryAnalysis/theoryResult.py:161-169 | the selected notes get the lyric (by default only noteEnd) and the other keeps its lyric; colors and editorial entries are unchanged |
| `TheoryResults.IntervalTheoryResult.HasEditorial` | music21/alpha/theoryAnalysis/theoryResult.py:171-180 | true exactly when noteStart or noteEnd has the key with an equal value; an absent key never matches |
| `TheoryResults.NoteTheoryResult.constructor` | music21/alpha/theoryAnalysis/theoryResult.py:189-191 | wraps the note; the three strings start empty |
| `TheoryResults.NoteTheoryResult.Color` | music21/alpha/theoryAnalysis/theoryResult.py:193-198 | both `currentColor` and the note's color become the argument; nothing else changes |
| `TheoryResults.VerticalityTheoryResult.constructor` | music21/alpha/theoryAnalysis/theoryResult.py:205-207 | wraps the verticality; the three strings start empty |
| `TheoryResults.VerticalityTheoryResult.ColorTargets` | music21/alpha/theoryAnalysis/theoryResult.py:213-218 | with a non-empty part list, the targets are exactly the notes of the listed parts; with an empty list, every note of the verticality |
| `TheoryResults.VerticalityTheoryResult.Color` | music21/alpha/theoryAnalysis/theoryResult.py:209-218 | the notes of the listed parts (or, when the list is empty, all notes) take the color and every other note keeps its own; `currentColor` is not touched |
| `TheoryResults.ThreeNoteLinearSegmentTheoryResult.constructor` | music21/alpha/theoryAnalysis/theoryResult.py:226-228 | wraps the segment; the three strings start empty |
| `Music.ThreeNoteLinearSegment.SelectedIsPositional` | music21/alpha/theoryAnalysis/theoryResult.py:234-239 | the tests select exactly n1, n2, n3 for selectors 1, 2, 3; other selectors are ignored |
| `TheoryResults.ThreeNoteLinearSegmentTheoryResult.Color` | music21/alpha/theoryAnalysis/theoryResult.py:230-239 | the selected notes (only n2 by default) take the color and the others keep theirs; `currentColor` is not touched |
| `Music.ThreeNoteLinearSegment.Color` | music21/alpha/theoryAnalysis/theoryResult.py:262-266 | the segment's own coloring, which the n-tuplet result calls: the selected notes (only n2 by default) take the color and the others keep theirs |
| `TheoryResults.VerticalityNTupletTheoryResult.constructor` | music21/alpha/theoryAnalysis/theoryResult.py:248-251 | wraps the n-tuplet and stores `partNumIdentified` (None by default); the three strings start empty |
| `TheoryResults.VerticalityNTupletTheoryResult.ColorTargets` | music21/alpha/theoryAnalysis/theoryResult.py:253-266 | at most one note is colored, and it is the middle note of some part's segment; a note is colored exactly when the n-tuplet has arity 3 and `partNum` or `partNumIdentified` is given |
| `TheoryResults.VerticalityNTupletTheoryResult.Color` | music21/alpha/theoryAnalysis/theoryResult.py:253-266 | for arity 3, the middle note of the `partNum` segment, or else of the `partNumIdentified` segment, takes the color; otherwise nothing changes; `noteList` and `currentColor` are not used |
| `TheoryResults.VerticalityNTupletTheoryResult.MarkNoteEditorial` | music21/alpha/theoryAnalysis/theoryResult.py:268-281 | the part-0 note of every verticality with a non-empty list in the plan gets `misc[key] := value`, with its other keys, color and lyric kept; all other notes are unchanged |
| `TheoryResults.VerticalityNTupletTheoryResult.DefaultPlanMarksVerticalityTwo` | music21/alpha/theoryAnalysis/theoryResult.py:276-277 | the default plan `{2: [1]}` marks exactly the part-0 note of verticality 2 |
| `TheoryResults.VerticalityNTupletTheoryResult.MarkTargetsIgnorePartNumbers` | music21/alpha/theoryAnalysis/theoryResult.py:278-281 | two plans that give non-empty lists to the same verticalities mark the same notes: the part numbers are never read |
| `Selection.PickedIgnoresOutOfRange` | music21/alpha/theoryAnalysis/theoryResult.py:63-70 | selectors outside 1..n select nothing |
| `Selection.PickedAll` | music21/alpha/theoryAnalysis/theoryResult.py:50-70 | a selector list naming every position (the default) selects every note |
| `Selection.PickedAt` | music21/alpha/theoryAnalysis/theoryResult.py:119-126 | with distinct notes, the note at position k is selected exactly when k is in the list |
| `Selection.MaxOf` | music21/alpha/theoryAnalysis/theoryResult.py:83-84 | Python's `max` over a non-empty list: the result is an element and no element exceeds it |
| `Selection.MinOf` | music21/alpha/theoryAnalysis/theoryResult.py:80-81 | Python's `min` over a non-empty list: the result is an element and no element is below it |
| `Selection.PyIndex` | music21/alpha/theoryAnalysis/theoryResult.py:280 | `verticalities[vsNum]` reads the one position in 0..n-1 that is congruent to `vsNum` modulo n, so negative indices count from the end |
| `Music.MarkAgain` | music21/alpha/theoryAnalysis/theoryResult.py:119-126 | writing a key that already holds the value leaves the dictionary unchanged (why marking twice is idempotent) |
| `Music.MarkTwice` | music21/alpha/theoryAnalysis/theoryResult.py:279-281 | writing one key twice with one value equals writing it once (why the inner loop's repetitions do not matter) |

## Left out

- The debug `print` in `VerticalityNTupletTheoryResult.color` (lines 260-261) is console output with no effect on state.
- The `_DOC_ATTR` documentation dictionaries, the empty `Test` and `TestExternal` classes and the `music21.mainTest` entry point have no behaviour to model.
- music21's `Note`, `Interval`, `VoiceLeadingQuartet`, `Verticality`, `ThreeNoteLinearSegment` and `VerticalityNTuplet` (in `note.py`, `interval.py` and `voiceLeading.py`) are not part of this model. They appear only as handles holding what the results read and write.
- Music.ThreeNoteLinearSegment.Color: the segment's own `color` in `voiceLeading.py` is not part of this model. Its default selection is taken to be the middle note only, the same default the segment theory result uses.
- A verticality is modelled as one note per part (`parts[p]`). `noteFromPart(p)` is `parts[p]`, `getObjectsByPart(0, classFilterList=['Note'])` is `parts[0]`, and `noteList` is `parts`. Rests, chords, several objects per part and the class-name filtering are not modelled.
- Failed lookups are preconditions, not modelled exceptions: an unknown part number, a missing `tnlsDict` key, an out-of-range verticality index, and a verticality with no part 0.
- Python passes selectors as tuples or lists. They are modelled as sets, since the code only tests membership with `in`. `partList` stays a sequence because the code loops over it. `None` and `[]` behave alike in `VerticalityTheoryResult.color` and are both modelled as `[]`.
- The dictionary walk in `markNoteEditorial` visits keys in an unspecified order instead of insertion order. Every write stores the same value, so the order cannot change the outcome.
- Editorial values are a small datatype (`Bool`, `Text`, `Number`) with structural equality. Python's cross-type equality (`True == 1`) is not modelled.
- Offsets are reals and are only compared. Float and `Fraction` arithmetic is not modelled. No annotation ever writes an offset.
- An unset `color` or `lyric` (Python's `None`) is modelled as the empty string.
- Nothing is concurrent, and there is no I/O.
