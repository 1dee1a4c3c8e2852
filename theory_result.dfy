/**
 * Theory results: annotations attached to the findings of a theory analysis
 * pass. Each result keeps a description `text`, a classification `value` and
 * the `currentColor` of its last coloring, and knows how to map positional
 * selectors onto the notes of its finding to color them, label them or mark
 * them with editorial flags.
 *
 * Each method that takes positional selectors first names the set of notes
 * that the tests of music21's theoryResult.py (`if k in noteList`, one per
 * position) select, then writes one value to one field of every note in that
 * set. The verticality coloring and the n-tuplet marking instead walk their
 * part list or plan in loops, and the n-tuplet coloring delegates to the
 * segment. Every contract says the notes written hold the new value and every
 * other note of the finding is unchanged; a note that sits at two positions
 * ends up as theoryResult.py leaves it, since every write of one call stores
 * the same value.
 */
module TheoryResults {
  import opened Selection
  import opened Music

  /** The base result: a description, a value and the current color. */
  class TheoryResult {
    var text: string
    var value: string
    var currentColor: string

    constructor ()
      ensures text == "" && value == "" && currentColor == ""
    {
      text, value, currentColor := "", "", "";
    }

    /** Records the color of the whole result; there are no notes to color. */
    method Color(color: string)
      modifies this
      ensures currentColor == color
      ensures text == old(text) && value == old(value)
    {
      currentColor := color;
    }
  }

  /** A result about a voice-leading quartet, cells numbered [1 2 / 3 4]. */
  class VLQTheoryResult {
    var text: string
    var value: string
    var currentColor: string
    const vlq: VoiceLeadingQuartet

    constructor (vlq: VoiceLeadingQuartet)
      ensures this.vlq == vlq
      ensures text == "" && value == "" && currentColor == ""
    {
      this.vlq := vlq;
      text, value, currentColor := "", "", "";
    }

    /** The notes of the cells whose numbers are in `noteList`, tested cell by cell. */
    function Selected(noteList: set<int>): set<Note>
    {
      (if 1 in noteList then {vlq.v1n1} else {}) +
      (if 2 in noteList then {vlq.v1n2} else {}) +
      (if 3 in noteList then {vlq.v2n1} else {}) +
      (if 4 in noteList then {vlq.v2n2} else {})
    }

    /**
     * Testing the four cells one by one selects exactly the notes at the
     * positions `noteList` names on the map [1 2 / 3 4]; every other
     * selector is ignored.
     */
    lemma SelectedIsPositional(noteList: set<int>)
      ensures Selected(noteList) == Picked(vlq.Cells(), noteList)
    {
      var cells := vlq.Cells();
      forall n | n in Picked(cells, noteList)
        ensures n in Selected(noteList)
      {
        var i :| 0 <= i < |cells| && i + 1 in noteList && cells[i] == n;
      }
      forall n | n in Selected(noteList)
        ensures n in Picked(cells, noteList)
      {
        if 1 in noteList && n == vlq.v1n1 {
          assert cells[0] == n;
        } else if 2 in noteList && n == vlq.v1n2 {
          assert cells[1] == n;
        } else if 3 in noteList && n == vlq.v2n1 {
          assert cells[2] == n;
        } else {
          assert cells[3] == n;
        }
      }
    }

    /**
     * Colors the cells named in `noteList` (all four by default) and records
     * the color on the result whatever the selection.
     */
    method Color(color: string := "red", noteList: set<int> := {1, 2, 3, 4})
      modifies this, Selected(noteList)
      ensures currentColor == color
      ensures text == old(text) && value == old(value)
      ensures forall n :: n in vlq.Cells() ==>
        n.color == (if n in Selected(noteList) then color else old(n.color))
      ensures forall n :: n in vlq.Cells() ==> n.lyric == old(n.lyric) && n.misc == old(n.misc)
    {
      currentColor := color;
      forall n | n in Selected(noteList) {
        n.color := color;
      }
    }

    /**
     * The offset of the quartet: the latest offset of its four notes, or the
     * earliest when `leftAlign` holds.
     */
    function Offset(leftAlign: bool := false): (r: real)
      ensures exists n :: n in vlq.Cells() && r == n.offset
      ensures forall n :: n in vlq.Cells() ==> if leftAlign then r <= n.offset else n.offset <= r
    {
      var offsets := [vlq.v1n1.offset, vlq.v2n1.offset, vlq.v1n2.offset, vlq.v2n2.offset];
      assert forall n :: n in vlq.Cells() ==> n.offset in offsets;
      if leftAlign then MinOf(offsets) else MaxOf(offsets)
    }

    /** The left-aligned offset of the quartet never lies after its right-aligned one. */
    lemma LeftAlignNotAfter()
      ensures Offset(leftAlign := true) <= Offset(leftAlign := false)
    {
      assert vlq.v1n1 in vlq.Cells();
    }

    /**
     * Whether some note of the quartet has `miscKey` in its editorial
     * dictionary with value `editorialValue`; an absent key is no match.
     */
    function HasEditorial(miscKey: string, editorialValue: Value := Bool(true)): (r: bool)
      reads vlq.v1n1, vlq.v1n2, vlq.v2n1, vlq.v2n2
      ensures r <==> exists n :: n in vlq.Cells() && Flagged(n, miscKey, editorialValue)
    {
      var cells := vlq.Cells();
      assert cells[0] == vlq.v1n1 && cells[1] == vlq.v1n2;
      assert cells[2] == vlq.v2n1 && cells[3] == vlq.v2n2;
      Flagged(vlq.v1n1, miscKey, editorialValue) ||
      Flagged(vlq.v1n2, miscKey, editorialValue) ||
      Flagged(vlq.v2n1, miscKey, editorialValue) ||
      Flagged(vlq.v2n2, miscKey, editorialValue)
    }

    /**
     * Sets `editorialDictKey` to `editorialValue` in the editorial dictionary
     * of the cells named in `editorialMarkList` (all four by default). Marking
     * again with the same arguments changes nothing.
     */
    method MarkNoteEditorial(editorialDictKey: string, editorialValue: Value,
                             editorialMarkList: set<int> := {1, 2, 3, 4})
      modifies Selected(editorialMarkList)
      ensures forall n :: n in vlq.Cells() ==>
        n.misc == (if n in Selected(editorialMarkList)
                   then old(n.misc)[editorialDictKey := editorialValue]
                   else old(n.misc))
      ensures forall n :: n in vlq.Cells() ==> n.color == old(n.color) && n.lyric == old(n.lyric)
      ensures Selected(editorialMarkList) != {} ==> HasEditorial(editorialDictKey, editorialValue)
      ensures (forall n :: n in Selected(editorialMarkList) ==>
                 old(Flagged(n, editorialDictKey, editorialValue)))
        ==> forall n :: n in vlq.Cells() ==> n.misc == old(n.misc)
    {
      var marked := Selected(editorialMarkList);
      forall n | n in marked {
        n.misc := n.misc[editorialDictKey := editorialValue];
      }
      forall n | n in marked && old(Flagged(n, editorialDictKey, editorialValue))
        ensures n.misc == old(n.misc)
      {
        MarkAgain(old(n.misc), editorialDictKey, editorialValue);
      }
      if marked != {} {
        var n :| n in marked;
        assert n in vlq.Cells() && Flagged(n, editorialDictKey, editorialValue);
      }
    }
  }

  /** A result about an interval: note 1 is its start, note 2 its end. */
  class IntervalTheoryResult {
    var text: string
    var value: string
    var currentColor: string
    const intv: Interval

    constructor (intv: Interval)
      ensures this.intv == intv
      ensures text == "" && value == "" && currentColor == ""
    {
      this.intv := intv;
      text, value, currentColor := "", "", "";
    }

    /** The notes named by `noteList`: 1 is noteStart, 2 is noteEnd. */
    function Selected(noteList: set<int>): set<Note>
    {
      (if 1 in noteList then {intv.noteStart} else {}) +
      (if 2 in noteList then {intv.noteEnd} else {})
    }

    /**
     * Testing the two notes one by one selects exactly the notes at the
     * positions `noteList` names; every other selector is ignored.
     */
    lemma SelectedIsPositional(noteList: set<int>)
      ensures Selected(noteList) == Picked(intv.Cells(), noteList)
    {
      var cells := intv.Cells();
      forall n | n in Picked(cells, noteList)
        ensures n in Selected(noteList)
      {
        var i :| 0 <= i < |cells| && i + 1 in noteList && cells[i] == n;
      }
      forall n | n in Selected(noteList)
        ensures n in Picked(cells, noteList)
      {
        if 1 in noteList && n == intv.noteStart {
          assert cells[0] == n;
        } else {
          assert cells[1] == n;
        }
      }
    }

    /**
     * Colors the notes named in `noteList` (both by default) and records the
     * color on the result whatever the selection.
     */
    method Color(color: string := "red", noteList: set<int> := {1, 2})
      modifies this, Selected(noteList)
      ensures currentColor == color
      ensures text == old(text) && value == old(value)
      ensures forall n :: n in intv.Cells() ==>
        n.color == (if n in Selected(noteList) then color else old(n.color))
      ensures forall n :: n in intv.Cells() ==> n.lyric == old(n.lyric) && n.misc == old(n.misc)
    {
      currentColor := color;
      forall n | n in Selected(noteList) {
        n.color := color;
      }
    }

    /**
     * The offset of the interval: the later offset of its two notes, or the
     * earlier when `leftAlign` holds.
     */
    function Offset(leftAlign: bool := false): (r: real)
      ensures r == intv.noteStart.offset || r == intv.noteEnd.offset
      ensures if leftAlign then r <= intv.noteStart.offset && r <= intv.noteEnd.offset
              else intv.noteStart.offset <= r && intv.noteEnd.offset <= r
    {
      var offsets := [intv.noteStart.offset, intv.noteEnd.offset];
      if leftAlign then MinOf(offsets) else MaxOf(offsets)
    }

    /** The left-aligned offset of the interval never lies after its right-aligned one. */
    lemma LeftAlignNotAfter()
      ensures Offset(leftAlign := true) <= Offset(leftAlign := false)
    {
    }

    /**
     * Sets the lyric of the notes named in `noteList`; by default only the
     * end note is labelled. The result itself is not changed.
     */
    method Lyric(lyric: string, noteList: set<int> := {2})
      modifies Selected(noteList)
      ensures forall n :: n in intv.Cells() ==>
        n.lyric == (if n in Selected(noteList) then lyric else old(n.lyric))
      ensures forall n :: n in intv.Cells() ==> n.color == old(n.color) && n.misc == old(n.misc)
    {
      forall n | n in Selected(noteList) {
        n.lyric := lyric;
      }
    }

    /**
     * Whether the start or the end note has `miscKey` in its editorial
     * dictionary with value `editorialValue`; an absent key is no match.
     */
    function HasEditorial(miscKey: string, editorialValue: Value := Bool(true)): (r: bool)
      reads intv.noteStart, intv.noteEnd
      ensures r <==> exists n :: n in intv.Cells() && Flagged(n, miscKey, editorialValue)
    {
      var cells := intv.Cells();
      assert cells[0] == intv.noteStart && cells[1] == intv.noteEnd;
      Flagged(intv.noteStart, miscKey, editorialValue) ||
      Flagged(intv.noteEnd, miscKey, editorialValue)
    }
  }

  /** A result about a single note. */
  class NoteTheoryResult {
    var text: string
    var value: string
    var currentColor: string
    const n: Note

    constructor (n: Note)
      ensures this.n == n
      ensures text == "" && value == "" && currentColor == ""
    {
      this.n := n;
      text, value, currentColor := "", "", "";
    }

    /** Colors the note and records the color on the result. */
    method Color(color: string := "red")
      modifies this, n
      ensures currentColor == color && n.color == color
      ensures text == old(text) && value == old(value)
      ensures n.lyric == old(n.lyric) && n.misc == old(n.misc)
    {
      currentColor := color;
      n.color := color;
    }
  }

  /** A result about a verticality, whose notes are indexed by part. */
  class VerticalityTheoryResult {
    var text: string
    var value: string
    var currentColor: string
    const vs: Verticality

    constructor (vs: Verticality)
      ensures this.vs == vs
      ensures text == "" && value == "" && currentColor == ""
    {
      this.vs := vs;
      text, value, currentColor := "", "", "";
    }

    /** Every part number in `partList` names a part of the verticality. */
    predicate PartsExist(partList: seq<int>)
    {
      forall i :: 0 <= i < |partList| ==> 0 <= partList[i] < |vs.parts|
    }

    /** The notes of the parts numbered in `partList`. */
    function NotesOfParts(partList: seq<int>): set<Note>
    {
      set i | 0 <= i < |partList| && 0 <= partList[i] < |vs.parts| :: vs.parts[partList[i]]
    }

    /**
     * The notes `Color(color, partList)` colors: those of the listed parts,
     * or every note of the verticality when the list is empty.
     */
    function ColorTargets(partList: seq<int>): (r: set<Note>)
      requires PartsExist(partList)
      ensures forall n :: n in r ==> n in vs.parts
      ensures partList == [] ==> forall n :: n in vs.parts ==> n in r
      ensures partList != [] ==> forall n :: n in r ==>
        exists i :: 0 <= i < |partList| && n == vs.parts[partList[i]]
      ensures forall i :: 0 <= i < |partList| ==> vs.parts[partList[i]] in r
    {
      if |partList| > 0 then NotesOfParts(partList) else set n | n in vs.parts
    }

    /**
     * Colors the notes of the parts in `partList`, or every note when the
     * list is empty (`None` and `[]` alike, as `if partList:` treats them). `currentColor` is
     * left as it was.
     */
    method Color(color: string := "red", partList: seq<int> := [])
      requires PartsExist(partList)
      modifies ColorTargets(partList)
      ensures forall n :: n in vs.parts ==>
        n.color == (if n in ColorTargets(partList) then color else old(n.color))
      ensures forall n :: n in vs.parts ==> n.lyric == old(n.lyric) && n.misc == old(n.misc)
    {
      ghost var done: set<Note> := {};
      if |partList| > 0 {
        for i := 0 to |partList|
          invariant done <= ColorTargets(partList)
          invariant forall k :: 0 <= k < i ==> vs.parts[partList[k]] in done
          invariant forall n :: n in vs.parts ==>
            n.color == (if n in done then color else old(n.color)) &&
            n.lyric == old(n.lyric) && n.misc == old(n.misc)
        {
          var note := vs.parts[partList[i]];
          note.color := color;
          done := done + {note};
        }
      } else {
        for i := 0 to |vs.parts|
          invariant done <= ColorTargets(partList)
          invariant forall k :: 0 <= k < i ==> vs.parts[k] in done
          invariant forall n :: n in vs.parts ==>
            n.color == (if n in done then color else old(n.color)) &&
            n.lyric == old(n.lyric) && n.misc == old(n.misc)
        {
          var note := vs.parts[i];
          note.color := color;
          done := done + {note};
        }
      }
      assert done == ColorTargets(partList);
    }
  }

  /** A result about a three-note linear segment n1, n2, n3. */
  class ThreeNoteLinearSegmentTheoryResult {
    var text: string
    var value: string
    var currentColor: string
    const tnls: ThreeNoteLinearSegment

    constructor (tnls: ThreeNoteLinearSegment)
      ensures this.tnls == tnls
      ensures text == "" && value == "" && currentColor == ""
    {
      this.tnls := tnls;
      text, value, currentColor := "", "", "";
    }

    /**
     * Colors the notes named in `noteList` (1, 2, 3); by default only the
     * middle note. `currentColor` is left as it was.
     */
    method Color(color: string := "red", noteList: set<int> := {2})
      modifies tnls.Selected(noteList)
      ensures forall n :: n in tnls.Cells() ==>
        n.color == (if n in tnls.Selected(noteList) then color else old(n.color))
      ensures forall n :: n in tnls.Cells() ==> n.lyric == old(n.lyric) && n.misc == old(n.misc)
    {
      forall n | n in tnls.Selected(noteList) {
        n.color := color;
      }
    }
  }

  /**
   * A result about an n-tuplet of verticalities, with the part of interest
   * that an analysis identified, if any.
   */
  class VerticalityNTupletTheoryResult {
    var text: string
    var value: string
    var currentColor: string
    const vsnt: VerticalityNTuplet
    var partNumIdentified: Option<int>

    constructor (vsnt: VerticalityNTuplet, partNumIdentified: Option<int> := None)
      ensures this.vsnt == vsnt && this.partNumIdentified == partNumIdentified
      ensures text == "" && value == "" && currentColor == ""
    {
      this.vsnt := vsnt;
      this.partNumIdentified := partNumIdentified;
      text, value, currentColor := "", "", "";
    }

    /** The segment lookups `Color(partNum)` performs find their key. */
    predicate ColorLookupsExist(partNum: Option<int>)
      reads this
    {
      vsnt.nTupletNum == 3 ==>
        (partNum.Some? ==> partNum.value in vsnt.tnlsDict) &&
        (partNum.None? && partNumIdentified.Some? ==> partNumIdentified.value in vsnt.tnlsDict)
    }

    /** The middle notes of the segments of all parts. */
    function MiddleNotes(): set<Note>
    {
      set seg | seg in vsnt.tnlsDict.Values :: seg.n2
    }

    /**
     * The notes `Color(color, partNum)` colors: the middle note of the
     * segment of `partNum`, or else of the identified part, and only for a
     * triplet; nothing otherwise.
     */
    function ColorTargets(partNum: Option<int>): (r: set<Note>)
      reads this
      requires ColorLookupsExist(partNum)
      ensures r != {} <==> vsnt.nTupletNum == 3 && (partNum.Some? || partNumIdentified.Some?)
      ensures r <= MiddleNotes()
      ensures forall n, m :: n in r && m in r ==> n == m
    {
      if vsnt.nTupletNum != 3 then {}
      else if partNum.Some? then
        assert vsnt.tnlsDict[partNum.value] in vsnt.tnlsDict.Values;
        {vsnt.tnlsDict[partNum.value].n2}
      else if partNumIdentified.Some? then
        assert vsnt.tnlsDict[partNumIdentified.value] in vsnt.tnlsDict.Values;
        {vsnt.tnlsDict[partNumIdentified.value].n2}
      else {}
    }

    /**
     * For a triplet, colors the segment of part `partNum` with that
     * segment's default selection, or, when no part is given, the middle
     * note of the identified part's segment. `noteList` is accepted and not
     * used; `currentColor` is left as it was.
     */
    method Color(color: string := "red", partNum: Option<int> := None, noteList: set<int> := {})
      requires ColorLookupsExist(partNum)
      modifies ColorTargets(partNum)
      ensures forall n :: n in ColorTargets(partNum) ==>
        n.color == color && n.lyric == old(n.lyric) && n.misc == old(n.misc)
    {
      if partNum.Some? {
        if vsnt.nTupletNum == 3 {
          vsnt.tnlsDict[partNum.value].Color(color);
        }
      } else if partNumIdentified.Some? {
        if vsnt.nTupletNum == 3 {
          vsnt.tnlsDict[partNumIdentified.value].Color(color, {2});
        }
      }
    }

    /** The lookups a mark plan makes succeed: index and part 0 exist. */
    predicate PlanLookupsExist(editorialMarkDict: map<int, seq<int>>)
    {
      forall vsNum :: vsNum in editorialMarkDict && |editorialMarkDict[vsNum]| > 0 ==>
        HasPartZero(vsNum)
    }

    /** `verticalities[vsNum]` (a Python index) exists and has a part 0. */
    predicate HasPartZero(vsNum: int)
    {
      IsPyIndex(|vsnt.verticalities|, vsNum) &&
      |vsnt.verticalities[PyIndex(|vsnt.verticalities|, vsNum)].parts| > 0
    }

    /** The part-0 note of `verticalities[vsNum]`. */
    function PartZeroNote(vsNum: int): Note
      requires HasPartZero(vsNum)
    {
      vsnt.verticalities[PyIndex(|vsnt.verticalities|, vsNum)].parts[0]
    }

    /**
     * The notes a mark plan marks: the part-0 note of every verticality
     * whose list in the plan is non-empty.
     */
    function MarkTargets(editorialMarkDict: map<int, seq<int>>): set<Note>
      requires PlanLookupsExist(editorialMarkDict)
    {
      set vsNum | vsNum in editorialMarkDict && |editorialMarkDict[vsNum]| > 0 :: PartZeroNote(vsNum)
    }

    /**
     * For every verticality with a non-empty list in the plan (by default
     * verticality 2), sets `editorialDictKey` to `editorialValue` in the
     * editorial dictionary of its part-0 note, once per listed part number.
     */
    method MarkNoteEditorial(editorialDictKey: string, editorialValue: Value,
                             editorialMarkDict: map<int, seq<int>> := map[2 := [1]])
      requires PlanLookupsExist(editorialMarkDict)
      modifies MarkTargets(editorialMarkDict)
      ensures forall n :: n in MarkTargets(editorialMarkDict) ==>
        n.misc == old(n.misc)[editorialDictKey := editorialValue] &&
        n.color == old(n.color) && n.lyric == old(n.lyric)
    {
      ghost var targets := MarkTargets(editorialMarkDict);
      ghost var done: set<Note> := {};
      var pending := editorialMarkDict.Keys;
      while pending != {}
        invariant pending <= editorialMarkDict.Keys
        invariant done <= targets
        invariant forall k :: k in editorialMarkDict && k !in pending && |editorialMarkDict[k]| > 0 ==>
          PartZeroNote(k) in done
        invariant forall n :: n in targets ==>
          n.misc == (if n in done then old(n.misc)[editorialDictKey := editorialValue] else old(n.misc)) &&
          n.color == old(n.color) && n.lyric == old(n.lyric)
        decreases pending
      {
        var vsNum := Pick(pending);
        var partNumList := editorialMarkDict[vsNum];
        ghost var marking := if |partNumList| > 0 then {PartZeroNote(vsNum)} else {};
        label BeforeParts:
        for j := 0 to |partNumList|
          modifies marking
          invariant forall n :: n in marking ==>
            n.misc == (if j > 0 then old@BeforeParts(n.misc)[editorialDictKey := editorialValue]
                       else old@BeforeParts(n.misc)) &&
            n.color == old@BeforeParts(n.color) && n.lyric == old@BeforeParts(n.lyric)
        {
          var note := vsnt.verticalities[PyIndex(|vsnt.verticalities|, vsNum)].parts[0];
          MarkTwice(old@BeforeParts(note.misc), editorialDictKey, editorialValue);
          note.misc := note.misc[editorialDictKey := editorialValue];
        }
        forall n | n in marking
          ensures n.misc == old(n.misc)[editorialDictKey := editorialValue]
        {
          MarkTwice(old(n.misc), editorialDictKey, editorialValue);
        }
        if |partNumList| > 0 {
          done := done + {PartZeroNote(vsNum)};
        }
        pending := pending - {vsNum};
      }
    }

    /** The default plan marks the part-0 note of verticality 2 and nothing else. */
    lemma DefaultPlanMarksVerticalityTwo()
      requires HasPartZero(2)
      ensures PlanLookupsExist(map[2 := [1]])
      ensures MarkTargets(map[2 := [1]]) == {vsnt.verticalities[2].parts[0]}
    {
      var plan := map[2 := [1]];
      assert PartZeroNote(2) in MarkTargets(plan);
    }

    /**
     * Only which verticalities have a non-empty list matters: the part
     * numbers in the lists are never looked at.
     */
    lemma MarkTargetsIgnorePartNumbers(plan: map<int, seq<int>>, plan': map<int, seq<int>>)
      requires PlanLookupsExist(plan)
      requires forall k :: (k in plan && |plan[k]| > 0) <==> (k in plan' && |plan'[k]| > 0)
      ensures PlanLookupsExist(plan')
      ensures MarkTargets(plan) == MarkTargets(plan')
    {
    }
  }
}
