/**
 * The parts of the music object model that theory results annotate: notes
 * and the findings that hold them. Only what the results read or write is
 * modelled; the rest of each object is out of scope.
 */
module Music {
  import opened Selection

  datatype Option<T> = None | Some(value: T)

  /** A value stored in a note's editorial `misc` dictionary. */
  datatype Value = Bool(b: bool) | Text(s: string) | Number(n: int)

  /**
   * A note handle. `color` and `lyric` are "" when unset; `misc` is the
   * note's `editorial.misc` dictionary; `offset` is its position in time,
   * which no annotation ever changes.
   */
  class Note {
    var color: string
    var lyric: string
    var misc: map<string, Value>
    const offset: real

    constructor (offset: real)
      ensures this.offset == offset
      ensures color == "" && lyric == "" && misc == map[]
    {
      this.offset := offset;
      color, lyric, misc := "", "", map[];
    }
  }

  /** `n.editorial.misc[key]` is present and equal to `v`; an absent key is no match. */
  predicate Flagged(n: Note, key: string, v: Value)
    reads n
  {
    key in n.misc && n.misc[key] == v
  }

  /** Writing a key that already holds the value leaves the dictionary as it was. */
  lemma MarkAgain(m: map<string, Value>, key: string, v: Value)
    requires key in m && m[key] == v
    ensures m[key := v] == m
  {
  }

  /** Writing the same key twice with the same value is writing it once. */
  lemma MarkTwice(m: map<string, Value>, key: string, v: Value)
    ensures m[key := v][key := v] == m[key := v]
  {
  }

  /** An interval between two notes. */
  class Interval {
    const noteStart: Note
    const noteEnd: Note

    constructor (noteStart: Note, noteEnd: Note)
      ensures this.noteStart == noteStart && this.noteEnd == noteEnd
    {
      this.noteStart, this.noteEnd := noteStart, noteEnd;
    }

    /** The two notes in positional order: noteStart is 1, noteEnd is 2. */
    function Cells(): seq<Note>
    {
      [noteStart, noteEnd]
    }
  }

  /**
   * A voice-leading quartet: two dyads in succession, laid out as the map
   *   [ 1 2
   *     3 4 ]
   * with v1 the first voice and v2 the second.
   */
  class VoiceLeadingQuartet {
    const v1n1: Note
    const v1n2: Note
    const v2n1: Note
    const v2n2: Note

    constructor (v1n1: Note, v1n2: Note, v2n1: Note, v2n2: Note)
      ensures this.v1n1 == v1n1 && this.v1n2 == v1n2
      ensures this.v2n1 == v2n1 && this.v2n2 == v2n2
    {
      this.v1n1, this.v1n2, this.v2n1, this.v2n2 := v1n1, v1n2, v2n1, v2n2;
    }

    /** The notes in the order of the positional map: cell k is Cells()[k - 1]. */
    function Cells(): seq<Note>
    {
      [v1n1, v1n2, v2n1, v2n2]
    }
  }

  /**
   * A verticality: the notes sounding at one moment, one per part;
   * `parts[p]` is the note of part p, and the list of all notes is `parts`.
   */
  class Verticality {
    const parts: seq<Note>

    constructor (parts: seq<Note>)
      ensures this.parts == parts
    {
      this.parts := parts;
    }
  }

  /** A three-note linear segment n1, n2, n3 in one part. */
  class ThreeNoteLinearSegment {
    const n1: Note
    const n2: Note
    const n3: Note

    constructor (n1: Note, n2: Note, n3: Note)
      ensures this.n1 == n1 && this.n2 == n2 && this.n3 == n3
    {
      this.n1, this.n2, this.n3 := n1, n2, n3;
    }

    /** The notes in positional order: note k is Cells()[k - 1]. */
    function Cells(): seq<Note>
    {
      [n1, n2, n3]
    }

    /** The notes named by `noteList`: 1 is n1, 2 is n2, 3 is n3. */
    function Selected(noteList: set<int>): set<Note>
    {
      (if 1 in noteList then {n1} else {}) +
      (if 2 in noteList then {n2} else {}) +
      (if 3 in noteList then {n3} else {})
    }

    /**
     * Naming the three positions one by one selects exactly the notes at
     * the positions `noteList` names; every other selector is ignored.
     */
    lemma SelectedIsPositional(noteList: set<int>)
      ensures Selected(noteList) == Picked(Cells(), noteList)
    {
      var cells := Cells();
      forall n | n in Picked(cells, noteList)
        ensures n in Selected(noteList)
      {
        var i :| 0 <= i < |cells| && i + 1 in noteList && cells[i] == n;
      }
      forall n | n in Selected(noteList)
        ensures n in Picked(cells, noteList)
      {
        if 1 in noteList && n == n1 {
          assert cells[0] == n;
        } else if 2 in noteList && n == n2 {
          assert cells[1] == n;
        } else {
          assert cells[2] == n;
        }
      }
    }

    /**
     * The segment's own coloring: colors the notes named in `noteList`;
     * by default only the middle note.
     */
    method Color(color: string := "red", noteList: set<int> := {2})
      modifies Selected(noteList)
      ensures forall n :: n in Cells() ==>
        n.color == (if n in Selected(noteList) then color else old(n.color))
      ensures forall n :: n in Cells() ==> n.lyric == old(n.lyric) && n.misc == old(n.misc)
    {
      forall n | n in Selected(noteList) {
        n.color := color;
      }
    }
  }

  /**
   * A run of `nTupletNum` verticalities, with the three-note segment of each
   * part keyed by part number in `tnlsDict`.
   */
  class VerticalityNTuplet {
    const nTupletNum: int
    const tnlsDict: map<int, ThreeNoteLinearSegment>
    const verticalities: seq<Verticality>

    constructor (nTupletNum: int, tnlsDict: map<int, ThreeNoteLinearSegment>,
                 verticalities: seq<Verticality>)
      ensures this.nTupletNum == nTupletNum && this.tnlsDict == tnlsDict
      ensures this.verticalities == verticalities
    {
      this.nTupletNum, this.tnlsDict, this.verticalities := nTupletNum, tnlsDict, verticalities;
    }
  }
}
