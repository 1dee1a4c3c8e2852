/**
 * Clients of the theory results: small concrete findings, annotated through
 * the results' contracts alone, with what a caller can conclude afterwards.
 */
module Scenarios {
  import opened Music
  import opened TheoryResults

  /** A quartet whose first dyad sits at offset 0 and second at offset 1. */
  method QuartetOffsets()
  {
    var a := new Note(0.0);
    var b := new Note(0.0);
    var c := new Note(1.0);
    var d := new Note(1.0);
    var vlq := new VoiceLeadingQuartet(a, b, c, d);
    var r := new VLQTheoryResult(vlq);
    assert vlq.Cells() == [a, b, c, d];
    var latest := r.Offset();
    var earliest := r.Offset(leftAlign := true);
    assert latest == 1.0;
    assert earliest == 0.0;
  }

  /** Coloring two cells of a quartet leaves the other two as they were. */
  method QuartetPartialColor()
  {
    var a := new Note(0.0);
    var b := new Note(1.0);
    var c := new Note(0.0);
    var d := new Note(1.0);
    var vlq := new VoiceLeadingQuartet(a, b, c, d);
    var r := new VLQTheoryResult(vlq);
    assert vlq.Cells() == [a, b, c, d];
    r.Color("blue", {1, 4, 7});
    assert r.currentColor == "blue";
    assert a.color == "blue" && d.color == "blue";
    assert b.color == "" && c.color == "";
  }

  /** Marking the default cells, then asking for the flag. */
  method QuartetMarkAndQuery()
  {
    var a := new Note(0.0);
    var b := new Note(1.0);
    var c := new Note(0.0);
    var d := new Note(1.0);
    var vlq := new VoiceLeadingQuartet(a, b, c, d);
    var r := new VLQTheoryResult(vlq);
    assert vlq.Cells() == [a, b, c, d];
    assert !r.HasEditorial("parallelFifth");
    r.MarkNoteEditorial("parallelFifth", Bool(true));
    assert r.HasEditorial("parallelFifth");
    assert !r.HasEditorial("parallelFifth", Bool(false));
  }

  /** The default lyric selection labels the end note only. */
  method IntervalDefaultLyric()
  {
    var start := new Note(0.0);
    var end := new Note(0.0);
    var intv := new Interval(start, end);
    var r := new IntervalTheoryResult(intv);
    assert intv.Cells() == [start, end];
    r.Lyric("6");
    assert end.lyric == "6";
    assert start.lyric == "";
  }

  /** The default selection of a three-note segment colors its middle note only. */
  method SegmentDefaultColor()
  {
    var n1 := new Note(0.0);
    var n2 := new Note(1.0);
    var n3 := new Note(2.0);
    var tnls := new ThreeNoteLinearSegment(n1, n2, n3);
    var r := new ThreeNoteLinearSegmentTheoryResult(tnls);
    assert tnls.Cells() == [n1, n2, n3];
    r.Color("blue");
    assert n2.color == "blue";
    assert n1.color == "" && n3.color == "";
    assert r.currentColor == "";
  }

  /** A verticality colored with no part list colors every note. */
  method VerticalityColorAll()
  {
    var bass := new Note(0.0);
    var tenor := new Note(0.0);
    var vs := new Verticality([bass, tenor]);
    var r := new VerticalityTheoryResult(vs);
    r.Color("green");
    assert bass.color == "green" && tenor.color == "green";
    assert vs.parts[1] == tenor && [1][0] == 1;
    assert tenor in r.ColorTargets([1]);
    r.Color("red", [1]);
    assert bass.color == "green" && tenor.color == "red";
  }

  /**
   * Three verticalities, the last of two parts; marking with the default plan flags
   * the part-0 note of verticality 2 and nothing else.
   */
  method TripletDefaultMark()
  {
    var s0 := new Note(0.0);
    var s1 := new Note(1.0);
    var s2 := new Note(2.0);
    var b2 := new Note(2.0);
    var v0 := new Verticality([s0]);
    var v1 := new Verticality([s1]);
    var v2 := new Verticality([s2, b2]);
    var vsnt := new VerticalityNTuplet(3, map[], [v0, v1, v2]);
    var r := new VerticalityNTupletTheoryResult(vsnt);
    assert vsnt.verticalities[2].parts[0] == s2;
    assert r.HasPartZero(2);
    r.DefaultPlanMarksVerticalityTwo();
    assert r.MarkTargets(map[2 := [1]]) == {s2};
    r.MarkNoteEditorial("doubledLeadingTone", Bool(true));
    assert Flagged(s2, "doubledLeadingTone", Bool(true));
    assert s0.misc == map[] && s1.misc == map[] && b2.misc == map[];
  }

  /** A pair of verticalities (arity 2) is never colored. */
  method DupletColorIsNoOp()
  {
    var s0 := new Note(0.0);
    var s1 := new Note(1.0);
    var s2 := new Note(2.0);
    var v0 := new Verticality([s0]);
    var v1 := new Verticality([s1]);
    var tnls := new ThreeNoteLinearSegment(s0, s1, s2);
    var vsnt := new VerticalityNTuplet(2, map[0 := tnls], [v0, v1]);
    var r := new VerticalityNTupletTheoryResult(vsnt, Some(0));
    r.Color("red", Some(0));
    r.Color("red");
    assert s0.color == "" && s1.color == "" && s2.color == "";
  }

  /** For a triplet, the identified part's middle note is colored. */
  method TripletIdentifiedPartColor()
  {
    var s0 := new Note(0.0);
    var s1 := new Note(1.0);
    var s2 := new Note(2.0);
    var v0 := new Verticality([s0]);
    var v1 := new Verticality([s1]);
    var v2 := new Verticality([s2]);
    var tnls := new ThreeNoteLinearSegment(s0, s1, s2);
    var vsnt := new VerticalityNTuplet(3, map[0 := tnls], [v0, v1, v2]);
    var r := new VerticalityNTupletTheoryResult(vsnt, Some(0));
    r.Color("red");
    assert s1.color == "red";
    assert s0.color == "" && s2.color == "";
  }
}
