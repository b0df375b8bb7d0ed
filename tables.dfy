/** Tables as sequences of rows: the lookups, filters and deletes the services ask of the store. */
module Tables {
  import opened Common

  /** `findFirst`/`findUnique`: the index of the first row satisfying `p`, if any. */
  function FirstIndex<T>(rows: seq<T>, p: T -> bool): (r: Option<nat>)
    ensures r.Some? ==> r.value < |rows| && p(rows[r.value])
    ensures r.Some? ==> forall j :: 0 <= j < r.value ==> !p(rows[j])
    ensures r.None? ==> forall j :: 0 <= j < |rows| ==> !p(rows[j])
  {
    if rows == [] then None
    else if p(rows[0]) then Some(0)
    else match FirstIndex(rows[1..], p)
      case None => None
      case Some(k) => Some(k + 1)
  }

  /** `findMany` with a where-clause: the rows satisfying `p`, in table order. */
  function Select<T>(rows: seq<T>, p: T -> bool): (r: seq<T>)
    ensures |r| <= |rows|
    ensures forall x :: x in r ==> x in rows && p(x)
    ensures forall x :: x in rows && p(x) ==> x in r
  {
    if rows == [] then []
    else if p(rows[0]) then [rows[0]] + Select(rows[1..], p)
    else Select(rows[1..], p)
  }

  /** `count` with a where-clause. */
  function Count<T>(rows: seq<T>, p: T -> bool): nat
  {
    if rows == [] then 0 else (if p(rows[0]) then 1 else 0) + Count(rows[1..], p)
  }

  lemma {:induction false} SelectCount<T>(rows: seq<T>, p: T -> bool)
    ensures |Select(rows, p)| == Count(rows, p)
  {
    if rows != [] {
      SelectCount(rows[1..], p);
    }
  }

  /** `delete`: the table without row `i`. */
  function RemoveAt<T>(rows: seq<T>, i: nat): (r: seq<T>)
    requires i < |rows|
    ensures |r| == |rows| - 1
    ensures forall j :: 0 <= j < i ==> r[j] == rows[j]
    ensures forall j :: i <= j < |r| ==> r[j] == rows[j + 1]
  {
    rows[..i] + rows[i + 1..]
  }

  lemma {:induction false} CountAppend<T>(rows: seq<T>, x: T, p: T -> bool)
    ensures Count(rows + [x], p) == Count(rows, p) + (if p(x) then 1 else 0)
  {
    if rows != [] {
      assert (rows + [x])[1..] == rows[1..] + [x];
      CountAppend(rows[1..], x, p);
    }
  }

  lemma {:induction false} CountUpdate<T>(rows: seq<T>, i: nat, x: T, p: T -> bool)
    requires i < |rows|
    requires p(rows[i]) == p(x)
    ensures Count(rows[i := x], p) == Count(rows, p)
  {
    if i > 0 {
      assert rows[i := x][1..] == rows[1..][i - 1 := x];
      CountUpdate(rows[1..], i - 1, x, p);
    }
  }

  lemma {:induction false} CountRemove<T>(rows: seq<T>, i: nat, p: T -> bool)
    requires i < |rows|
    ensures Count(RemoveAt(rows, i), p) == Count(rows, p) - (if p(rows[i]) then 1 else 0)
  {
    if i > 0 {
      assert RemoveAt(rows, i)[1..] == RemoveAt(rows[1..], i - 1);
      CountRemove(rows[1..], i - 1, p);
    } else {
      assert RemoveAt(rows, 0) == rows[1..];
    }
  }

  lemma {:induction false} CountZero<T>(rows: seq<T>, p: T -> bool)
    ensures Count(rows, p) == 0 <==> forall j :: 0 <= j < |rows| ==> !p(rows[j])
  {
    if rows != [] {
      CountZero(rows[1..], p);
      assert forall j :: 1 <= j < |rows| ==> rows[1..][j - 1] == rows[j];
    }
  }

  /** Two filters that agree on every row select the same rows. */
  lemma {:induction false} SelectSame<T>(rows: seq<T>, p: T -> bool, q: T -> bool)
    requires forall x :: x in rows ==> p(x) == q(x)
    ensures Select(rows, p) == Select(rows, q)
  {
    if rows != [] {
      SelectSame(rows[1..], p, q);
    }
  }

  /** A row that satisfies `p` with none before it is the one `FirstIndex` finds. */
  lemma {:induction false} FirstIndexIs<T>(rows: seq<T>, p: T -> bool, i: nat)
    requires i < |rows| && p(rows[i])
    requires forall j :: 0 <= j < i ==> !p(rows[j])
    ensures FirstIndex(rows, p) == Some(i)
  {
    if i > 0 {
      FirstIndexIs(rows[1..], p, i - 1);
    }
  }
}
