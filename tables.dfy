/** A database table as the sequence of its rows in primary-key order, and the
    handful of Django queryset operations the views use on it: `filter().count()`,
    `.first()`, `get()` / `get_object_or_404()`, `delete()` and `update_or_create()`. */
module Tables {
  import opened Python

  /** `rows.filter(p).count()`. */
  function Count<T>(rows: seq<T>, p: T -> bool): (n: nat)
    ensures n <= |rows|
    decreases |rows|
  {
    if rows == [] then 0
    else Count(rows[..|rows| - 1], p) + (if p(rows[|rows| - 1]) then 1 else 0)
  }

  /** The rows that satisfy `p`, in table order (`rows.filter(p)`). */
  function Filter<T(!new)>(rows: seq<T>, p: T -> bool): (r: seq<T>)
    ensures |r| == Count(rows, p)
    ensures forall x :: x in r <==> x in rows && p(x)
    decreases |rows|
  {
    if rows == [] then []
    else
      var init := Filter(rows[..|rows| - 1], p);
      assert rows == rows[..|rows| - 1] + [rows[|rows| - 1]];
      if p(rows[|rows| - 1]) then init + [rows[|rows| - 1]] else init
  }

  lemma {:induction false} CountAppend<T>(a: seq<T>, b: seq<T>, p: T -> bool)
    ensures Count(a + b, p) == Count(a, p) + Count(b, p)
    decreases |b|
  {
    if b == [] {
      assert a + b == a;
    } else {
      var b' := b[..|b| - 1];
      assert (a + b)[..|a + b| - 1] == a + b';
      CountAppend(a, b', p);
    }
  }

  lemma CountSingle<T>(x: T, p: T -> bool)
    ensures Count([x], p) == if p(x) then 1 else 0
  {
    assert [x][..0] == [];
  }

  /** Appending one row adds one to the count exactly when the row matches. */
  lemma CountSnoc<T>(rows: seq<T>, x: T, p: T -> bool)
    ensures Count(rows + [x], p) == Count(rows, p) + (if p(x) then 1 else 0)
  {
    assert (rows + [x])[..|rows|] == rows;
  }

  lemma {:induction false} CountZero<T>(rows: seq<T>, p: T -> bool)
    ensures Count(rows, p) == 0 <==> forall i :: 0 <= i < |rows| ==> !p(rows[i])
    decreases |rows|
  {
    if rows != [] {
      var init := rows[..|rows| - 1];
      CountZero(init, p);
      assert forall i :: 0 <= i < |init| ==> init[i] == rows[i];
    }
  }

  lemma {:induction false} CountAll<T>(rows: seq<T>, p: T -> bool)
    ensures Count(rows, p) == |rows| <==> forall i :: 0 <= i < |rows| ==> p(rows[i])
    decreases |rows|
  {
    if rows != [] {
      var init := rows[..|rows| - 1];
      CountAll(init, p);
      assert forall i :: 0 <= i < |init| ==> init[i] == rows[i];
    }
  }

  /** Replacing row `i` changes the count by what the old and the new row contribute. */
  lemma CountUpdate<T>(rows: seq<T>, i: nat, x: T, p: T -> bool)
    requires i < |rows|
    ensures Count(rows[i := x], p) + (if p(rows[i]) then 1 else 0)
         == Count(rows, p) + (if p(x) then 1 else 0)
  {
    var tail := rows[i + 1..];
    assert rows == rows[..i] + [rows[i]] + tail;
    assert rows[i := x] == rows[..i] + [x] + tail;
    CountAppend(rows[..i] + [rows[i]], tail, p);
    CountAppend(rows[..i] + [x], tail, p);
    CountSnoc(rows[..i], rows[i], p);
    CountSnoc(rows[..i], x, p);
  }

  /** `rows` without row `i` (`instance.delete()`). */
  function RemoveAt<T>(rows: seq<T>, i: nat): (r: seq<T>)
    requires i < |rows|
    ensures |r| == |rows| - 1
    ensures forall j :: 0 <= j < i ==> r[j] == rows[j]
    ensures forall j :: i <= j < |r| ==> r[j] == rows[j + 1]
  {
    rows[..i] + rows[i + 1..]
  }

  lemma {:induction false} CountRemoveAt<T>(rows: seq<T>, i: nat, p: T -> bool)
    requires i < |rows|
    ensures Count(RemoveAt(rows, i), p) + (if p(rows[i]) then 1 else 0) == Count(rows, p)
  {
    var head, tail := rows[..i], rows[i + 1..];
    var withRow := head + [rows[i]];
    assert rows == withRow + tail;
    assert RemoveAt(rows, i) == head + tail;
    CountAppend(withRow, tail, p);
    CountAppend(head, tail, p);
    CountSnoc(head, rows[i], p);
  }

  /** The index of `rows.filter(p).first()`: the earliest matching row. */
  function FirstIndex<T>(rows: seq<T>, p: T -> bool): (r: Option<nat>)
    ensures r.None? ==> forall j :: 0 <= j < |rows| ==> !p(rows[j])
    ensures r.Some? ==> r.value < |rows| && p(rows[r.value])
    ensures r.Some? ==> forall j :: 0 <= j < r.value ==> !p(rows[j])
    decreases |rows|
  {
    if rows == [] then None
    else if p(rows[0]) then Some(0)
    else match FirstIndex(rows[1..], p)
      case None => None
      case Some(k) => Some(k + 1)
  }

  /** What `rows.get(p)` finds: no row (DoesNotExist, or Http404 from
      `get_object_or_404`), exactly one, or several (MultipleObjectsReturned). */
  datatype Lookup = Missing | Found(index: nat) | Ambiguous

  function Get<T>(rows: seq<T>, p: T -> bool): (r: Lookup)
    ensures r.Missing? <==> Count(rows, p) == 0
    ensures r.Found? <==> Count(rows, p) == 1
    ensures r.Ambiguous? <==> Count(rows, p) >= 2
    ensures r.Found? ==> r.index < |rows| && p(rows[r.index])
  {
    var n := Count(rows, p);
    if n == 0 then Missing
    else if n == 1 then
      CountZero(rows, p);
      Found(FirstIndex(rows, p).value)
    else Ambiguous
  }

  /** `update_or_create` on the rows matching `p`: with no match the row
      `created` is inserted, with one match that row becomes `update(row)`,
      and with several Django raises MultipleObjectsReturned. */
  function Upsert<T>(rows: seq<T>, p: T -> bool, update: T -> T, created: T): (r: Result<seq<T>>)
    ensures r.Ok? <==> Count(rows, p) <= 1
  {
    match Get(rows, p)
    case Missing => Ok(rows + [created])
    case Found(i) => Ok(rows[i := update(rows[i])])
    case Ambiguous => Err("MultipleObjectsReturned")
  }

  /** An upsert that succeeds leaves exactly one matching row, which is the
      created row or the update of the row that matched before; rows that do
      not match keep their place and their value. */
  lemma UpsertLeavesOne<T(!new)>(rows: seq<T>, p: T -> bool, update: T -> T, created: T)
    requires Count(rows, p) <= 1
    requires p(created)
    requires forall t :: p(t) ==> p(update(t))
    ensures Upsert(rows, p, update, created).Ok?
    ensures var r := Upsert(rows, p, update, created).value;
      && Count(r, p) == 1
      && (|r| == |rows| || |r| == |rows| + 1)
      && (forall i :: 0 <= i < |rows| && !p(rows[i]) ==> r[i] == rows[i])
      && (forall i :: 0 <= i < |r| && p(r[i]) ==>
            if Count(rows, p) == 0 then r[i] == created
            else exists j :: 0 <= j < |rows| && p(rows[j]) && r[i] == update(rows[j]))
  {
    var r := Upsert(rows, p, update, created).value;
    match Get(rows, p)
    case Missing =>
      CountSnoc(rows, created, p);
      CountZero(rows, p);
    case Found(k) =>
      CountUpdate(rows, k, update(rows[k]), p);
      forall i | 0 <= i < |r| && p(r[i])
        ensures exists j :: 0 <= j < |rows| && p(rows[j]) && r[i] == update(rows[j])
      {
        if i != k {
          assert r[i] == rows[i];
          OnlyMatch(rows, p, k, i);
        }
      }
  }

  /** When exactly one row matches and row `k` matches, no other row does. */
  lemma OnlyMatch<T>(rows: seq<T>, p: T -> bool, k: nat, i: nat)
    requires Count(rows, p) == 1
    requires k < |rows| && p(rows[k])
    requires i < |rows| && i != k
    ensures !p(rows[i])
  {
    CountRemoveAt(rows, k, p);
    CountZero(RemoveAt(rows, k), p);
    var j := if i < k then i else i - 1;
    assert RemoveAt(rows, k)[j] == rows[i];
  }

  /** An upsert on one key does not change how many rows another key has. */
  lemma UpsertOtherKey<T(!new)>(rows: seq<T>, p: T -> bool, update: T -> T, created: T, q: T -> bool)
    requires Count(rows, p) <= 1
    requires p(created)
    requires forall t :: p(t) ==> p(update(t))
    requires forall t :: q(t) ==> !p(t)
    ensures Upsert(rows, p, update, created).Ok?
    ensures Count(Upsert(rows, p, update, created).value, q) == Count(rows, q)
    ensures forall x :: x in Upsert(rows, p, update, created).value && q(x) ==> x in rows
  {
    match Get(rows, p)
    case Missing =>
      CountSnoc(rows, created, q);
    case Found(k) =>
      CountUpdate(rows, k, update(rows[k]), q);
      var r := rows[k := update(rows[k])];
      forall x | x in r && q(x) ensures x in rows {
        var i :| 0 <= i < |r| && r[i] == x;
        assert p(r[k]);
        assert i != k;
        assert r[i] == rows[i];
      }
  }

  /** The distinct values of `key` over the matching rows
      (`rows.filter(p).values_list(key, flat=True)` as a set). */
  function KeysOf<T, K(==)>(rows: seq<T>, p: T -> bool, key: T -> K): set<K>
    decreases |rows|
  {
    if rows == [] then {}
    else KeysOf(rows[..|rows| - 1], p, key) + (if p(rows[|rows| - 1]) then {key(rows[|rows| - 1])} else {})
  }

  lemma {:induction false} KeysOfMembers<T, K>(rows: seq<T>, p: T -> bool, key: T -> K, k: K)
    ensures k in KeysOf(rows, p, key) <==> exists i :: 0 <= i < |rows| && p(rows[i]) && key(rows[i]) == k
    decreases |rows|
  {
    if rows != [] {
      var init := rows[..|rows| - 1];
      KeysOfMembers(init, p, key, k);
      assert forall i :: 0 <= i < |init| ==> init[i] == rows[i];
      if k in KeysOf(init, p, key) {
        var i :| 0 <= i < |init| && p(init[i]) && key(init[i]) == k;
        assert p(rows[i]) && key(rows[i]) == k;
      }
    }
  }

  /** No two matching rows share a key. */
  predicate DistinctKeys<T, K(==)>(rows: seq<T>, p: T -> bool, key: T -> K)
  {
    forall i, j :: 0 <= i < j < |rows| && p(rows[i]) && p(rows[j]) ==> key(rows[i]) != key(rows[j])
  }

  /** With distinct keys there are as many keys as matching rows. */
  lemma {:induction false} KeysOfDistinct<T, K>(rows: seq<T>, p: T -> bool, key: T -> K)
    requires DistinctKeys(rows, p, key)
    ensures |KeysOf(rows, p, key)| == Count(rows, p)
    decreases |rows|
  {
    if rows != [] {
      var init := rows[..|rows| - 1];
      var last := rows[|rows| - 1];
      assert forall i :: 0 <= i < |init| ==> init[i] == rows[i];
      KeysOfDistinct(init, p, key);
      if p(last) {
        KeysOfMembers(init, p, key, key(last));
        assert forall i :: 0 <= i < |init| && p(init[i]) ==> key(rows[i]) != key(rows[|rows| - 1]);
        assert key(last) !in KeysOf(init, p, key);
      }
    }
  }

  /** There are never more keys than matching rows. */
  lemma {:induction false} KeysOfAtMost<T, K>(rows: seq<T>, p: T -> bool, key: T -> K)
    ensures |KeysOf(rows, p, key)| <= Count(rows, p)
    decreases |rows|
  {
    if rows != [] {
      KeysOfAtMost(rows[..|rows| - 1], p, key);
    }
  }

  /** When at most one row matches and row `i` does, no other row does. */
  lemma AtMostOneMatch<T>(rows: seq<T>, p: T -> bool, i: nat, j: nat)
    requires Count(rows, p) <= 1
    requires i < |rows| && p(rows[i])
    requires j < |rows| && j != i
    ensures !p(rows[j])
  {
    CountZero(rows, p);
    OnlyMatch(rows, p, i, j);
  }
}
