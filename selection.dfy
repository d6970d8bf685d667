/** Boolean-mask row selection, `df[mask]`, as every target list of the two
    analyses is built: the rows whose mask entry is true, in table order. */
module Selection {

  /** The positions of the rows `keep` accepts, in increasing order. */
  function Kept<T>(rows: seq<T>, keep: T -> bool): (idx: seq<int>)
    ensures forall k :: 0 <= k < |idx| ==> 0 <= idx[k] < |rows| && keep(rows[idx[k]])
    ensures forall k, l :: 0 <= k < l < |idx| ==> idx[k] < idx[l]
    ensures forall i :: 0 <= i < |rows| && keep(rows[i]) ==> i in idx
    ensures |idx| <= |rows|
    decreases |rows|
  {
    if |rows| == 0 then []
    else
      var prefix := Kept(rows[..|rows| - 1], keep);
      assert forall k :: 0 <= k < |prefix| ==> rows[..|rows| - 1][prefix[k]] == rows[prefix[k]];
      prefix + (if keep(rows[|rows| - 1]) then [|rows| - 1] else [])
  }

  /** `rows[mask]`: the accepted rows, in the order the table holds them. */
  function Where<T>(rows: seq<T>, keep: T -> bool): (r: seq<T>)
    ensures |r| == |Kept(rows, keep)|
    ensures forall k :: 0 <= k < |r| ==> r[k] == rows[Kept(rows, keep)[k]]
    decreases |rows|
  {
    if |rows| == 0 then []
    else
      var prefix := Where(rows[..|rows| - 1], keep);
      prefix + (if keep(rows[|rows| - 1]) then [rows[|rows| - 1]] else [])
  }

  /** Every selected row passed the mask, and every row that passed is selected. */
  lemma {:induction false} WhereMembers<T>(rows: seq<T>, keep: T -> bool)
    ensures forall x :: x in Where(rows, keep) ==> x in rows && keep(x)
    ensures forall x :: x in rows && keep(x) ==> x in Where(rows, keep)
  {
    var r, idx := Where(rows, keep), Kept(rows, keep);
    forall x | x in rows && keep(x)
      ensures x in r
    {
      var i :| 0 <= i < |rows| && rows[i] == x;
      var k :| 0 <= k < |idx| && idx[k] == i;
      assert r[k] == x;
    }
  }

  /** A column of a selection, `rows[name]`: one value per row, in row order. */
  function Project<T, U>(rows: seq<T>, field: T -> U): seq<U> {
    seq(|rows|, i requires 0 <= i < |rows| => field(rows[i]))
  }
}
