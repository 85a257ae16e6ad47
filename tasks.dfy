/**
 * Task records and the pure list transforms the component applies to its
 * task cache: the pointwise toggle, the delete filter, the pending count and
 * the overdue test.
 */
module Tasks {
  import opened Wrappers

  /**
   * A row of the remote "todos" collection as the client holds it. The
   * store's `type` column is `category` here (`type` is a Dafny keyword);
   * `dueAt` is a timestamp, None when the row has no due date or one that does
   * not parse.
   */
  datatype Todo = Todo(
    id: int,
    task: string,
    done: bool,
    dueAt: Option<int>,
    category: string,
    importance: string)

  /** The row the client submits on insert: the store assigns the id. */
  datatype Draft = Draft(task: string, done: bool, dueAt: string, category: string, importance: string)

  /** No two records of the list share an id. */
  predicate UniqueIds(ts: seq<Todo>)
  {
    forall i, j :: 0 <= i < |ts| && 0 <= j < |ts| && i != j ==> ts[i].id != ts[j].id
  }

  predicate HasId(ts: seq<Todo>, id: int)
  {
    exists i :: 0 <= i < |ts| && ts[i].id == id
  }

  /** The record at position k is the only one carrying its id. */
  predicate OnlyAt(ts: seq<Todo>, k: nat)
    requires k < |ts|
  {
    forall j :: 0 <= j < |ts| && j != k ==> ts[j].id != ts[k].id
  }

  lemma OnlyAtSlices(ts: seq<Todo>, k: nat)
    requires k < |ts| && OnlyAt(ts, k)
    ensures !HasId(ts[..k], ts[k].id) && !HasId(ts[k + 1..], ts[k].id)
  {
  }

  // ---------------------------------------------------------------- toggle

  /** One element of the toggle map: the record with the id gets `done := !done`. */
  function SetDone(t: Todo, id: int, done: bool): Todo
  {
    if t.id == id then t.(done := !done) else t
  }

  /**
   * The cache after a successful toggle of `id`: every record carrying the id
   * gets the negation of the `done` value the caller passed (not of its own
   * flag); everything else, and the order, stays.
   */
  function Toggled(ts: seq<Todo>, id: int, done: bool): (r: seq<Todo>)
    ensures |r| == |ts|
    ensures forall i :: 0 <= i < |ts| ==> r[i].id == ts[i].id
    ensures forall i :: 0 <= i < |ts| && ts[i].id != id ==> r[i] == ts[i]
    ensures forall i :: 0 <= i < |ts| && ts[i].id == id ==> r[i] == ts[i].(done := !done)
  {
    if ts == [] then [] else [SetDone(ts[0], id, done)] + Toggled(ts[1..], id, done)
  }

  /**
   * Toggling twice, each time passing the value the records then carry,
   * gives back the original list.
   */
  lemma ToggleTwice(ts: seq<Todo>, id: int, done: bool)
    requires forall i :: 0 <= i < |ts| && ts[i].id == id ==> ts[i].done == done
    ensures Toggled(Toggled(ts, id, done), id, !done) == ts
  {
  }

  /** The toggle map distributes over concatenation. */
  lemma ToggledAppend(a: seq<Todo>, b: seq<Todo>, id: int, done: bool)
    ensures Toggled(a + b, id, done) == Toggled(a, id, done) + Toggled(b, id, done)
  {
  }

  /** A toggle of an id that the list does not carry changes nothing. */
  lemma ToggleAbsent(ts: seq<Todo>, id: int, done: bool)
    requires !HasId(ts, id)
    ensures Toggled(ts, id, done) == ts
  {
  }

  /** Toggling keeps ids unique. */
  lemma ToggleKeepsUniqueIds(ts: seq<Todo>, id: int, done: bool)
    requires UniqueIds(ts)
    ensures UniqueIds(Toggled(ts, id, done))
  {
  }

  // ---------------------------------------------------------------- delete

  /** The cache after a successful delete of `id`: the records without that id, in order. */
  function WithoutId(ts: seq<Todo>, id: int): (r: seq<Todo>)
    ensures |r| <= |ts|
    ensures forall t :: t in r <==> t in ts && t.id != id
  {
    if ts == [] then []
    else (if ts[0].id == id then [] else [ts[0]]) + WithoutId(ts[1..], id)
  }

  /** The filter distributes over concatenation: survivors keep their relative order. */
  lemma {:induction false} WithoutIdAppend(a: seq<Todo>, b: seq<Todo>, id: int)
    ensures WithoutId(a + b, id) == WithoutId(a, id) + WithoutId(b, id)
  {
    if a == [] {
      assert a + b == b;
    } else {
      assert (a + b)[0] == a[0];
      assert (a + b)[1..] == a[1..] + b;
      WithoutIdAppend(a[1..], b, id);
    }
  }

  /** Deleting an id that the list does not carry changes nothing. */
  lemma {:induction false} WithoutIdAbsent(ts: seq<Todo>, id: int)
    requires !HasId(ts, id)
    ensures WithoutId(ts, id) == ts
  {
    if ts != [] {
      assert ts[0].id != id;
      assert !HasId(ts[1..], id);
      WithoutIdAbsent(ts[1..], id);
      assert ts == [ts[0]] + ts[1..];
    }
  }

  /**
   * With the record at position k the only one carrying its id, deleting that
   * id removes exactly that record and leaves the rest, in order.
   */
  lemma WithoutIdAt(ts: seq<Todo>, k: nat)
    requires k < |ts| && OnlyAt(ts, k)
    ensures WithoutId(ts, ts[k].id) == ts[..k] + ts[k + 1..]
  {
    var id := ts[k].id;
    var pre, tail, post := ts[..k], ts[k..], ts[k + 1..];
    OnlyAtSlices(ts, k);
    assert ts == pre + tail;
    WithoutIdAppend(pre, tail, id);
    WithoutIdAbsent(pre, id);
    assert tail[0].id == id && tail[1..] == post;
    WithoutIdDropsHead(tail, id);
    WithoutIdAbsent(post, id);
  }

  /** A leading record carrying the id is dropped by the filter. */
  lemma WithoutIdDropsHead(ts: seq<Todo>, id: int)
    requires ts != [] && ts[0].id == id
    ensures WithoutId(ts, id) == WithoutId(ts[1..], id)
  {
    assert WithoutId(ts, id) == [] + WithoutId(ts[1..], id);
  }

  /** Deleting keeps ids unique. */
  lemma {:induction false} WithoutIdKeepsUniqueIds(ts: seq<Todo>, id: int)
    requires UniqueIds(ts)
    ensures UniqueIds(WithoutId(ts, id))
  {
    if ts != [] {
      var tail := ts[1..];
      UniqueIdsTail(ts);
      WithoutIdKeepsUniqueIds(tail, id);
      if ts[0].id != id {
        var rest := WithoutId(tail, id);
        assert WithoutId(ts, id) == [ts[0]] + rest;
        forall t | t in rest ensures t.id != ts[0].id {
          var m :| 0 <= m < |tail| && tail[m] == t;
          assert ts[m + 1] == t;
        }
        UniqueIdsCons(ts[0], rest);
      }
    }
  }

  lemma UniqueIdsTail(ts: seq<Todo>)
    requires ts != [] && UniqueIds(ts)
    ensures UniqueIds(ts[1..])
  {
    var tail := ts[1..];
    forall i, j | 0 <= i < |tail| && 0 <= j < |tail| && i != j
      ensures tail[i].id != tail[j].id
    {
      assert tail[i] == ts[i + 1] && tail[j] == ts[j + 1];
    }
  }

  lemma UniqueIdsCons(x: Todo, rest: seq<Todo>)
    requires UniqueIds(rest) && forall t | t in rest :: t.id != x.id
    ensures UniqueIds([x] + rest)
  {
    var r := [x] + rest;
    forall i, j | 0 <= i < |r| && 0 <= j < |r| && i != j
      ensures r[i].id != r[j].id
    {
      if i > 0 {
        assert r[i] == rest[i - 1] && r[i] in rest;
      }
      if j > 0 {
        assert r[j] == rest[j - 1] && r[j] in rest;
      }
    }
  }

  /** Deleting the id of a just-prepended record with a fresh id restores the list. */
  lemma DeleteUndoesPrepend(ts: seq<Todo>, r: Todo)
    requires !HasId(ts, r.id)
    ensures WithoutId([r] + ts, r.id) == ts
  {
    assert ([r] + ts)[1..] == ts;
    WithoutIdAbsent(ts, r.id);
  }

  // ---------------------------------------------------------------- pending count

  /** The records still to do, in order (the filter whose length is the pending count). */
  function Undone(ts: seq<Todo>): (r: seq<Todo>)
    ensures |r| <= |ts|
    ensures forall t :: t in r <==> t in ts && !t.done
  {
    if ts == [] then []
    else (if ts[0].done then [] else [ts[0]]) + Undone(ts[1..])
  }

  /** The number of records that are not done. */
  function Pending(ts: seq<Todo>): (n: nat)
    ensures n <= |ts|
    ensures n == 0 <==> forall i :: 0 <= i < |ts| ==> ts[i].done
  {
    var u := Undone(ts);
    assert u == [] <==> forall i :: 0 <= i < |ts| ==> ts[i].done by {
      if u != [] {
        assert u[0] in ts;
      }
      if exists i :: 0 <= i < |ts| && !ts[i].done {
        var i :| 0 <= i < |ts| && !ts[i].done;
        assert ts[i] in u;
      }
    }
    |u|
  }

  /** The pending count of a concatenation is the sum of the counts. */
  lemma {:induction false} PendingAppend(a: seq<Todo>, b: seq<Todo>)
    ensures Pending(a + b) == Pending(a) + Pending(b)
  {
    UndoneAppend(a, b);
  }

  lemma {:induction false} UndoneAppend(a: seq<Todo>, b: seq<Todo>)
    ensures Undone(a + b) == Undone(a) + Undone(b)
  {
    if a == [] {
      assert a + b == b;
    } else {
      assert (a + b)[0] == a[0];
      assert (a + b)[1..] == a[1..] + b;
      UndoneAppend(a[1..], b);
    }
  }

  /**
   * Toggling a not-done record whose id no other record carries, passing its
   * current value false, lowers the pending count by exactly one.
   */
  lemma PendingToggleDone(ts: seq<Todo>, k: nat)
    requires k < |ts| && !ts[k].done && OnlyAt(ts, k)
    ensures Pending(Toggled(ts, ts[k].id, false)) == Pending(ts) - 1
  {
    var id := ts[k].id;
    var pre, mid, post := ts[..k], [ts[k]], ts[k + 1..];
    assert ts == pre + mid + post;
    OnlyAtSlices(ts, k);
    ToggledAppend(pre + mid, post, id, false);
    ToggledAppend(pre, mid, id, false);
    ToggleAbsent(pre, id, false);
    ToggleAbsent(post, id, false);
    var mid' := Toggled(mid, id, false);
    assert mid' == [ts[k].(done := true)];
    PendingAppend(pre + mid', post);
    PendingAppend(pre, mid');
    PendingAppend(pre + mid, post);
    PendingAppend(pre, mid);
    assert Undone(mid) == mid && Undone(mid') == [] by {
      assert mid[1..] == [] && mid'[1..] == [];
    }
  }

  // ---------------------------------------------------------------- overdue

  /**
   * A record is overdue at time `now` when it is not done, has a due time, and
   * that due time is strictly before `now`.
   */
  function IsOverdue(t: Todo, now: int): (r: bool)
    ensures r ==> !t.done && t.dueAt.Some?
    ensures t.dueAt.Some? && now <= t.dueAt.value ==> !r
  {
    !t.done && t.dueAt.Some? && t.dueAt.value < now
  }

  /** A done record is never overdue, whatever its due time. */
  lemma DoneNeverOverdue(t: Todo, now: int)
    requires t.done
    ensures !IsOverdue(t, now)
  {
  }

  /** Once overdue, a record stays overdue as time goes on. */
  lemma OverdueStays(t: Todo, now: int, later: int)
    requires IsOverdue(t, now) && now <= later
    ensures IsOverdue(t, later)
  {
  }

  /** After toggling an id with the value false, no record carrying that id is overdue. */
  lemma ToggledDoneNotOverdue(ts: seq<Todo>, id: int, now: int)
    ensures forall i :: 0 <= i < |ts| && ts[i].id == id ==> !IsOverdue(Toggled(ts, id, false)[i], now)
  {
  }
}
