/**
 * The client-held bookmark list of app/dashboard/page.tsx and the pure reducers that the
 * realtime change handlers apply to it: INSERT prepends (array spread), UPDATE replaces by
 * id (`prev.map`), DELETE drops by id (`prev.filter`). The reducers are written as the
 * structural recursions that `map` and `filter` perform; their contracts state the element-wise
 * meaning.
 */
module BookmarkList {

  type Id = string

  /** A row of the `bookmarks` table as the client receives it. `userId` and `createdAt`
      are carried along but never inspected on the client. */
  datatype Bookmark = Bookmark(id: Id, title: string, url: string, userId: Id, createdAt: int)

  /** Some element of `s` has the given id. */
  predicate HasId(s: seq<Bookmark>, id: Id) {
    exists i :: 0 <= i < |s| && s[i].id == id
  }

  /** The number of elements of `s` whose id is `id`. */
  function CountId(s: seq<Bookmark>, id: Id): (n: nat)
    ensures n <= |s|
    ensures n == 0 <==> !HasId(s, id)
  {
    if s == [] then 0
    else
      assert forall i :: 0 < i < |s| ==> s[i] == s[1..][i - 1];
      (if s[0].id == id then 1 else 0) + CountId(s[1..], id)
  }

  /** `s` appears in `t` in the same relative order, possibly with elements of `t` skipped. */
  predicate IsSubsequence(s: seq<Bookmark>, t: seq<Bookmark>)
    decreases |t|
  {
    if s == [] then true
    else if t == [] then false
    else if s[0] == t[0] then IsSubsequence(s[1..], t[1..])
    else IsSubsequence(s, t[1..])
  }

  // ---------------------------------------------------------------------------------
  // INSERT: setBookmarks(prev => [payload.new, ...prev])

  function Prepend(prev: seq<Bookmark>, row: Bookmark): (r: seq<Bookmark>)
    ensures |r| == |prev| + 1 && r[0] == row && r[1..] == prev
  {
    [row] + prev
  }

  /** INSERT does not deduplicate: the new row's id occurs once more than before, and
      every other id occurs as often as before. */
  lemma PrependCounts(prev: seq<Bookmark>, row: Bookmark)
    ensures CountId(Prepend(prev, row), row.id) == CountId(prev, row.id) + 1
    ensures forall id :: id != row.id ==> CountId(Prepend(prev, row), id) == CountId(prev, id)
  {
    var r := Prepend(prev, row);
    assert r[1..] == prev;
  }

  // ---------------------------------------------------------------------------------
  // UPDATE: setBookmarks(prev => prev.map(b => b.id === payload.new.id ? payload.new : b))

  function ReplaceById(prev: seq<Bookmark>, row: Bookmark): (r: seq<Bookmark>)
    ensures |r| == |prev|
    ensures forall i :: 0 <= i < |prev| && prev[i].id == row.id ==> r[i] == row
    ensures forall i :: 0 <= i < |prev| && prev[i].id != row.id ==> r[i] == prev[i]
  {
    if prev == [] then []
    else [if prev[0].id == row.id then row else prev[0]] + ReplaceById(prev[1..], row)
  }

  /** UPDATE keeps every id at its index, so it changes no id's count. */
  lemma {:induction false} ReplaceKeepsIds(prev: seq<Bookmark>, row: Bookmark, id: Id)
    ensures forall i :: 0 <= i < |prev| ==> ReplaceById(prev, row)[i].id == prev[i].id
    ensures CountId(ReplaceById(prev, row), id) == CountId(prev, id)
  {
    if prev != [] {
      ReplaceKeepsIds(prev[1..], row, id);
      assert ReplaceById(prev, row)[1..] == ReplaceById(prev[1..], row);
    }
  }

  /** UPDATE for an id that is not in the list leaves the list unchanged. */
  lemma ReplaceAbsent(prev: seq<Bookmark>, row: Bookmark)
    requires !HasId(prev, row.id)
    ensures ReplaceById(prev, row) == prev
  {
  }

  /** Applying the same UPDATE twice is applying it once. */
  lemma ReplaceIdempotent(prev: seq<Bookmark>, row: Bookmark)
    ensures ReplaceById(ReplaceById(prev, row), row) == ReplaceById(prev, row)
  {
  }

  /** UPDATE of a row that was just inserted with the same id: the head becomes the new row
      and the tail is updated too (no dedup, so older copies change as well). */
  lemma ReplaceAfterPrepend(prev: seq<Bookmark>, row: Bookmark, upd: Bookmark)
    requires upd.id == row.id
    ensures ReplaceById(Prepend(prev, row), upd) == Prepend(ReplaceById(prev, upd), upd)
  {
    assert Prepend(prev, row)[1..] == prev;
  }

  // ---------------------------------------------------------------------------------
  // DELETE: setBookmarks(prev => prev.filter(b => b.id !== payload.old.id))

  function RemoveById(prev: seq<Bookmark>, id: Id): (r: seq<Bookmark>)
    ensures |r| == |prev| - CountId(prev, id)
    ensures forall b :: b in r <==> b in prev && b.id != id
    ensures !HasId(r, id)
  {
    if prev == [] then []
    else if prev[0].id == id then RemoveById(prev[1..], id)
    else [prev[0]] + RemoveById(prev[1..], id)
  }

  /** DELETE keeps the surviving elements in their original relative order. */
  lemma {:induction false} RemoveIsSubsequence(prev: seq<Bookmark>, id: Id)
    ensures IsSubsequence(RemoveById(prev, id), prev)
  {
    if prev != [] {
      RemoveIsSubsequence(prev[1..], id);
      var r := RemoveById(prev, id);
      if prev[0].id == id {
        // r has no element with this id, so its head is not prev[0].
        assert r != [] ==> r[0] in r && r[0] != prev[0];
      } else {
        assert r[0] == prev[0] && r[1..] == RemoveById(prev[1..], id);
      }
    }
  }

  /** DELETE distributes over concatenation, another statement of order preservation. */
  lemma {:induction false} RemoveConcat(a: seq<Bookmark>, b: seq<Bookmark>, id: Id)
    ensures RemoveById(a + b, id) == RemoveById(a, id) + RemoveById(b, id)
  {
    if a != [] {
      assert (a + b)[1..] == a[1..] + b;
      RemoveConcat(a[1..], b, id);
    } else {
      assert a + b == b;
    }
  }

  /** Deleting an id that is not in the list is a no-op. */
  lemma {:induction false} RemoveAbsent(prev: seq<Bookmark>, id: Id)
    requires !HasId(prev, id)
    ensures RemoveById(prev, id) == prev
  {
    if prev != [] {
      assert prev[0].id != id;
      assert forall i :: 0 <= i < |prev[1..]| ==> prev[1..][i] == prev[i + 1];
      RemoveAbsent(prev[1..], id);
    }
  }

  /** DELETE is idempotent. */
  lemma RemoveIdempotent(prev: seq<Bookmark>, id: Id)
    ensures RemoveById(RemoveById(prev, id), id) == RemoveById(prev, id)
  {
    RemoveAbsent(RemoveById(prev, id), id);
  }

  /** DELETE of a just-inserted row's id removes it and every older copy; when the id was
      new, the list returns to what it was before the INSERT. */
  lemma RemoveAfterPrepend(prev: seq<Bookmark>, row: Bookmark)
    ensures RemoveById(Prepend(prev, row), row.id) == RemoveById(prev, row.id)
    ensures !HasId(prev, row.id) ==> RemoveById(Prepend(prev, row), row.id) == prev
  {
    assert Prepend(prev, row)[1..] == prev;
    if !HasId(prev, row.id) {
      RemoveAbsent(prev, row.id);
    }
  }

  /** DELETE after UPDATE of the same id is the DELETE alone. */
  lemma {:induction false} RemoveAfterReplace(prev: seq<Bookmark>, row: Bookmark)
    ensures RemoveById(ReplaceById(prev, row), row.id) == RemoveById(prev, row.id)
  {
    if prev != [] {
      assert ReplaceById(prev, row)[1..] == ReplaceById(prev[1..], row);
      RemoveAfterReplace(prev[1..], row);
    }
  }
}
