/**
 The scene-list transforms of the story store: each store mutation replaces
 the document with one of these functions applied to the current scene list.
 Adding picks the next id from the largest one present, updating merges the
 given fields into the matching scenes, deleting filters them out, and
 reordering moves one scene from one position to another.
 */
module SceneOps {
  import opened StoryTypes

  // ---------------------------------------------------------------------------
  // Adding a scene
  // ---------------------------------------------------------------------------

  /** The largest id in a non-empty list. */
  function MaxId(s: seq<Scene>): (m: int)
    requires |s| > 0
    ensures forall i :: 0 <= i < |s| ==> s[i].id <= m
    ensures HasId(s, m)
  {
    if |s| == 1 then s[0].id
    else
      var rest := MaxId(s[1..]);
      if s[0].id >= rest then s[0].id else rest
  }

  /** The id a new scene receives: one more than the largest id, or 1 for an empty list. */
  function NextId(s: seq<Scene>): (n: int)
    ensures forall i :: 0 <= i < |s| ==> s[i].id < n
    ensures !HasId(s, n)
    ensures |s| == 0 ==> n == 1
    ensures |s| > 0 ==> HasId(s, n - 1)
  {
    if |s| > 0 then MaxId(s) + 1 else 1
  }

  /** The list after adding a scene with the given image and text. */
  function AppendScene(s: seq<Scene>, imageUrl: string, text: string): (r: seq<Scene>)
    ensures |r| == |s| + 1
    ensures r[..|s|] == s
    ensures r[|s|].imageUrl == imageUrl && r[|s|].text == text
    ensures forall i :: 0 <= i < |s| ==> s[i].id < r[|s|].id
    ensures UniqueIds(s) ==> UniqueIds(r)
  {
    s + [Scene(NextId(s), imageUrl, text)]
  }

  // ---------------------------------------------------------------------------
  // Updating a scene
  // ---------------------------------------------------------------------------

  /** A scene with the fields present in `u` replaced. */
  function Merge(sc: Scene, u: SceneUpdate): Scene {
    Scene(sc.id, u.imageUrl.GetOr(sc.imageUrl), u.text.GetOr(sc.text))
  }

  /** The list after merging `u` into every scene whose id is `id`. */
  function UpdateScenes(s: seq<Scene>, id: int, u: SceneUpdate): (r: seq<Scene>)
    ensures |r| == |s|
    ensures forall i :: 0 <= i < |s| ==> r[i].id == s[i].id
    ensures forall i :: 0 <= i < |s| && s[i].id != id ==> r[i] == s[i]
    ensures forall i :: 0 <= i < |s| && s[i].id == id ==>
              r[i].imageUrl == (if u.imageUrl.Some? then u.imageUrl.value else s[i].imageUrl) &&
              r[i].text == (if u.text.Some? then u.text.value else s[i].text)
  {
    seq(|s|, i requires 0 <= i < |s| => if s[i].id == id then Merge(s[i], u) else s[i])
  }

  /** Updating an id no scene carries changes nothing. */
  lemma UpdateAbsentIsNoOp(s: seq<Scene>, id: int, u: SceneUpdate)
    requires !HasId(s, id)
    ensures UpdateScenes(s, id, u) == s
  {
    var r := UpdateScenes(s, id, u);
    forall i | 0 <= i < |s| ensures r[i] == s[i] {
      assert s[i].id != id;
    }
  }

  /** Updating keeps the ids, and so keeps them unique; doing it twice is doing it once. */
  lemma UpdateKeepsIds(s: seq<Scene>, id: int, u: SceneUpdate)
    ensures UniqueIds(s) ==> UniqueIds(UpdateScenes(s, id, u))
    ensures forall x :: HasId(UpdateScenes(s, id, u), x) <==> HasId(s, x)
    ensures UpdateScenes(UpdateScenes(s, id, u), id, u) == UpdateScenes(s, id, u)
  {
    var r := UpdateScenes(s, id, u);
    forall x ensures HasId(r, x) <==> HasId(s, x) {
      if HasId(s, x) {
        var i :| 0 <= i < |s| && s[i].id == x;
        assert r[i].id == x;
      }
      if HasId(r, x) {
        var i :| 0 <= i < |r| && r[i].id == x;
        assert s[i].id == x;
      }
    }
  }

  // ---------------------------------------------------------------------------
  // Deleting a scene
  // ---------------------------------------------------------------------------

  /** The list without the scenes whose id is `id`, the others in their order. */
  function DeleteScenes(s: seq<Scene>, id: int): (r: seq<Scene>)
    ensures forall x :: x in r <==> x in s && x.id != id
    ensures |r| <= |s|
    ensures !HasId(r, id)
  {
    if s == [] then []
    else if s[0].id == id then DeleteScenes(s[1..], id)
    else [s[0]] + DeleteScenes(s[1..], id)
  }

  /** Deleting from a concatenation deletes from each part: the order is kept. */
  lemma {:induction false} DeleteDistributes(a: seq<Scene>, b: seq<Scene>, id: int)
    ensures DeleteScenes(a + b, id) == DeleteScenes(a, id) + DeleteScenes(b, id)
  {
    if a == [] {
      assert a + b == b;
    } else {
      assert (a + b)[1..] == a[1..] + b;
      DeleteDistributes(a[1..], b, id);
    }
  }

  /** Deleting an id no scene carries changes nothing. */
  lemma {:induction false} DeleteAbsentIsNoOp(s: seq<Scene>, id: int)
    requires !HasId(s, id)
    ensures DeleteScenes(s, id) == s
  {
    if s != [] {
      assert s[0].id != id;
      forall i | 0 <= i < |s[1..]| ensures s[1..][i].id != id {
        assert s[1..][i] == s[i + 1];
      }
      DeleteAbsentIsNoOp(s[1..], id);
      assert s == [s[0]] + s[1..];
    }
  }

  /** Dropping the first scene keeps ids unique. */
  lemma UniqueIdsTail(s: seq<Scene>)
    requires UniqueIds(s) && s != []
    ensures UniqueIds(s[1..])
  {
    var tail := s[1..];
    forall i, j | 0 <= i < |tail| && 0 <= j < |tail| && i != j
      ensures tail[i].id != tail[j].id
    {
      assert s[i + 1].id != s[j + 1].id;
    }
  }

  /** With unique ids, deleting the id at position `k` removes exactly that position. */
  lemma {:induction false} DeleteUniqueRemovesOne(s: seq<Scene>, k: nat, id: int)
    requires UniqueIds(s) && k < |s| && s[k].id == id
    ensures DeleteScenes(s, id) == s[..k] + s[k + 1..]
  {
    var tail := s[1..];
    UniqueIdsTail(s);
    if k == 0 {
      forall i | 0 <= i < |tail| ensures tail[i].id != id {
        assert s[i + 1].id != s[0].id;
      }
      DeleteAbsentIsNoOp(tail, id);
    } else {
      assert s[0].id != s[k].id;
      assert tail[k - 1] == s[k];
      DeleteUniqueRemovesOne(tail, k - 1, id);
      assert s[..k] == [s[0]] + tail[..k - 1];
      assert s[k + 1..] == tail[k..];
    }
  }

  /** Deleting keeps ids unique. */
  lemma {:induction false} DeleteKeepsUniqueIds(s: seq<Scene>, id: int)
    requires UniqueIds(s)
    ensures UniqueIds(DeleteScenes(s, id))
  {
    if s != [] {
      var tail := s[1..];
      UniqueIdsTail(s);
      DeleteKeepsUniqueIds(tail, id);
      if s[0].id != id {
        var d := DeleteScenes(tail, id);
        var r := [s[0]] + d;
        forall i, j | 0 <= i < |r| && 0 <= j < |r| && i != j
          ensures r[i].id != r[j].id
        {
          if i == 0 || j == 0 {
            var m := if i == 0 then j else i;
            assert r[m] in d;
            assert r[m] in tail;
            var p :| 0 <= p < |tail| && tail[p] == r[m];
            assert s[p + 1].id != s[0].id;
          } else {
            assert r[i] == d[i - 1] && r[j] == d[j - 1];
          }
        }
      }
    }
  }

  /** Deleting the scene just added gives back the list before the add. */
  lemma AddThenDelete(s: seq<Scene>, imageUrl: string, text: string)
    ensures DeleteScenes(AppendScene(s, imageUrl, text), NextId(s)) == s
  {
    var n := NextId(s);
    DeleteDistributes(s, [Scene(n, imageUrl, text)], n);
    DeleteAbsentIsNoOp(s, n);
    assert [Scene(n, imageUrl, text)][1..] == [];
  }

  // ---------------------------------------------------------------------------
  // Reordering scenes
  // ---------------------------------------------------------------------------

  /**
   The list after taking out the scene at `from` and inserting it so that it
   ends up at `to` (splice out, then splice in at `to` of the shortened list).
   */
  function Reorder(s: seq<Scene>, from: nat, to: nat): (r: seq<Scene>)
    requires from < |s| && to < |s|
    ensures |r| == |s|
    ensures r[to] == s[from]
  {
    var rest := s[..from] + s[from + 1..];
    rest[..to] + [s[from]] + rest[to..]
  }

  /**
   Reference definition of a move: the position in the old list that the
   scene at position `k` of the new list came from.
   */
  function MovedFrom(from: nat, to: nat, k: nat): nat {
    if k == to then from
    else if from < to && from <= k < to then k + 1
    else if to < from && to < k <= from then k - 1
    else k
  }

  /** Moving back undoes moving: `MovedFrom(to, from, _)` inverts `MovedFrom(from, to, _)`. */
  lemma MovedFromInverse(from: nat, to: nat, k: nat)
    ensures MovedFrom(from, to, MovedFrom(to, from, k)) == k
  {
  }

  /** Every position of a reordered list holds the scene `MovedFrom` names. */
  lemma ReorderAt(s: seq<Scene>, from: nat, to: nat, k: nat)
    requires from < |s| && to < |s| && k < |s|
    ensures MovedFrom(from, to, k) < |s|
    ensures Reorder(s, from, to)[k] == s[MovedFrom(from, to, k)]
  {
    var rest := s[..from] + s[from + 1..];
    assert forall j :: 0 <= j < |rest| ==> rest[j] == if j < from then s[j] else s[j + 1];
    var r := Reorder(s, from, to);
    assert r == rest[..to] + [s[from]] + rest[to..];
    if k < to {
      assert r[k] == rest[k];
    } else if k > to {
      assert r[k] == rest[k - 1];
    }
  }

  /** A reordered list is a permutation of the original. */
  lemma ReorderIsPermutation(s: seq<Scene>, from: nat, to: nat)
    requires from < |s| && to < |s|
    ensures multiset(Reorder(s, from, to)) == multiset(s)
  {
    var rest := s[..from] + s[from + 1..];
    assert s == s[..from] + [s[from]] + s[from + 1..];
    assert multiset(s) == multiset(rest) + multiset{s[from]};
    assert rest == rest[..to] + rest[to..];
    assert multiset(rest) == multiset(rest[..to]) + multiset(rest[to..]);
  }

  /** Moving a scene to where it already is changes nothing. */
  lemma ReorderSameIndex(s: seq<Scene>, i: nat)
    requires i < |s|
    ensures Reorder(s, i, i) == s
  {
    var r := Reorder(s, i, i);
    forall k | 0 <= k < |s| ensures r[k] == s[k] {
      ReorderAt(s, i, i, k);
    }
  }

  /** Moving a scene back to where it came from restores the list. */
  lemma ReorderRoundTrip(s: seq<Scene>, from: nat, to: nat)
    requires from < |s| && to < |s|
    ensures Reorder(Reorder(s, from, to), to, from) == s
  {
    var r := Reorder(s, from, to);
    var r2 := Reorder(r, to, from);
    forall k | 0 <= k < |s| ensures r2[k] == s[k] {
      ReorderAt(r, to, from, k);
      ReorderAt(s, from, to, MovedFrom(to, from, k));
      MovedFromInverse(from, to, k);
    }
  }

  /** Moving to a neighbouring position swaps the two neighbours and nothing else. */
  lemma ReorderAdjacentSwaps(s: seq<Scene>, from: nat, to: nat)
    requires from < |s| && to < |s| && (to == from + 1 || from == to + 1)
    ensures Reorder(s, from, to)[from] == s[to]
    ensures Reorder(s, from, to)[to] == s[from]
    ensures forall k :: 0 <= k < |s| && k != from && k != to ==> Reorder(s, from, to)[k] == s[k]
  {
    ReorderAt(s, from, to, from);
    forall k | 0 <= k < |s| && k != from && k != to ensures Reorder(s, from, to)[k] == s[k] {
      ReorderAt(s, from, to, k);
    }
  }

  /** Reordering keeps ids unique. */
  lemma ReorderKeepsUniqueIds(s: seq<Scene>, from: nat, to: nat)
    requires from < |s| && to < |s| && UniqueIds(s)
    ensures UniqueIds(Reorder(s, from, to))
  {
    var r := Reorder(s, from, to);
    forall i, j | 0 <= i < |r| && 0 <= j < |r| && i != j ensures r[i].id != r[j].id {
      ReorderAt(s, from, to, i);
      ReorderAt(s, from, to, j);
      MovedFromInverse(to, from, i);
      MovedFromInverse(to, from, j);
    }
  }

  // ---------------------------------------------------------------------------
  // Worked scenarios
  // ---------------------------------------------------------------------------

  /** Moving the third of three scenes to the front gives C, A, B. */
  lemma ReorderScenario(a: Scene, b: Scene, c: Scene)
    ensures Reorder([a, b, c], 2, 0) == [c, a, b]
  {
    var s := [a, b, c];
    assert s[..2] + s[3..] == [a, b];
  }

  /**
   Ids come from the current maximum, not a counter: after adding two scenes
   and deleting the first, the next one gets 3; after deleting the last one
   instead, its number 2 is handed out again.
   */
  lemma IdsFollowCurrentMax(s1: Scene, s2: Scene, s3: Scene)
    ensures var l1 := AppendScene([], s1.imageUrl, s1.text);
            var l2 := AppendScene(l1, s2.imageUrl, s2.text);
            l1[0].id == 1 && l2[1].id == 2 &&
            NextId(DeleteScenes(l2, 1)) == 3 &&
            NextId(DeleteScenes(l2, 2)) == 2
  {
    var l1 := AppendScene([], s1.imageUrl, s1.text);
    var l2 := AppendScene(l1, s2.imageUrl, s2.text);
    assert l2 == [Scene(1, s1.imageUrl, s1.text), Scene(2, s2.imageUrl, s2.text)];
    DeleteUniqueRemovesOne(l2, 0, 1);
    DeleteUniqueRemovesOne(l2, 1, 2);
    assert DeleteScenes(l2, 1) == [l2[1]];
    assert DeleteScenes(l2, 2) == [l2[0]];
  }
}
