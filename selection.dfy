/**
 * Pure helpers shared by the theory results: positional selectors, the
 * maximum and minimum of a list of offsets, and Python's list indexing.
 */
module Selection {

  /** No element of `s` occurs twice. */
  predicate Distinct<T(==)>(s: seq<T>)
  {
    forall i, j :: 0 <= i < j < |s| ==> s[i] != s[j]
  }

  /**
   * The elements of `cells` whose 1-based position is named in `sel`:
   * what a test `if k in noteList` per position ends up touching.
   * Selectors outside 1..|cells| name nothing.
   */
  function Picked<T(==)>(cells: seq<T>, sel: set<int>): set<T>
  {
    set i | 0 <= i < |cells| && i + 1 in sel :: cells[i]
  }

  /** Selectors outside 1..|cells| have no effect on what is picked. */
  lemma PickedIgnoresOutOfRange<T>(cells: seq<T>, sel: set<int>)
    ensures Picked(cells, sel) == Picked(cells, set k | k in sel && 1 <= k <= |cells|)
  {
  }

  /** A selector naming every position picks every element. */
  lemma PickedAll<T>(cells: seq<T>, sel: set<int>)
    requires forall k :: 1 <= k <= |cells| ==> k in sel
    ensures Picked(cells, sel) == set x | x in cells
  {
    forall x | x in cells
      ensures x in Picked(cells, sel)
    {
      var i :| 0 <= i < |cells| && cells[i] == x;
      assert i + 1 in sel;
    }
  }

  /**
   * When the elements are distinct, the element at position i + 1 is
   * picked exactly when i + 1 is selected.
   */
  lemma PickedAt<T>(cells: seq<T>, sel: set<int>, i: int)
    requires Distinct(cells)
    requires 0 <= i < |cells|
    ensures cells[i] in Picked(cells, sel) <==> i + 1 in sel
  {
    if cells[i] in Picked(cells, sel) {
      var j :| 0 <= j < |cells| && j + 1 in sel && cells[j] == cells[i];
      assert j == i;
    }
  }

  /**
   * Some element of a non-empty set: the next key of a dictionary walk,
   * whose order does not matter to any caller here.
   */
  method Pick<T>(s: set<T>) returns (x: T)
    requires s != {}
    ensures x in s
  {
    x :| x in s;
  }

  /** The largest element of a non-empty list, as Python's `max`. */
  function MaxOf(s: seq<real>): (r: real)
    requires |s| > 0
    ensures r in s
    ensures forall x :: x in s ==> x <= r
  {
    if |s| == 1 then s[0]
    else
      var m := MaxOf(s[1..]);
      assert forall x :: x in s ==> x == s[0] || x in s[1..];
      if s[0] < m then m else s[0]
  }

  /** The smallest element of a non-empty list, as Python's `min`. */
  function MinOf(s: seq<real>): (r: real)
    requires |s| > 0
    ensures r in s
    ensures forall x :: x in s ==> r <= x
  {
    if |s| == 1 then s[0]
    else
      var m := MinOf(s[1..]);
      assert forall x :: x in s ==> x == s[0] || x in s[1..];
      if m < s[0] then m else s[0]
  }

  /** Whether `i` is a valid Python index into a list of length n. */
  predicate IsPyIndex(n: nat, i: int)
  {
    -(n as int) <= i < n
  }

  /**
   * The element position Python's `xs[i]` reads for a list of length n:
   * the one position in 0..n-1 that is congruent to i modulo n.
   */
  function PyIndex(n: nat, i: int): (k: nat)
    requires IsPyIndex(n, i)
    ensures k < n
    ensures (k - i) % n == 0
  {
    if i < 0 then n + i else i
  }
}
