/**
 * The id-selection toggle used by `toggleStaff` (app/schedule/create.tsx) and
 * by `toggleUser` in group mode (app/chat-create.tsx): an id that is selected
 * is filtered out, any other id is appended.
 */
module Selection {

  /** `ids.filter(x => x !== id)`. */
  function Without(ids: seq<string>, id: string): (r: seq<string>)
    ensures |r| <= |ids|
    ensures id !in r
    ensures forall x :: x != id ==> (x in r <==> x in ids)
    ensures id !in ids ==> r == ids
  {
    if ids == [] then []
    else (if ids[0] == id then [] else [ids[0]]) + Without(ids[1..], id)
  }

  /** `ids.includes(id) ? ids.filter(x => x !== id) : [...ids, id]`. */
  function Toggle(ids: seq<string>, id: string): (r: seq<string>)
    ensures id in ids ==> r == Without(ids, id)
    ensures id !in ids ==> r == ids + [id]
  {
    if id in ids then Without(ids, id) else ids + [id]
  }

  predicate NoDuplicates(ids: seq<string>) {
    forall i, j :: 0 <= i < j < |ids| ==> ids[i] != ids[j]
  }

  /** A toggle flips the membership of its id and of no other. */
  lemma ToggleFlips(ids: seq<string>, id: string, x: string)
    ensures x in Toggle(ids, id) <==> (if x == id then id !in ids else x in ids)
  {
  }

  /** Toggling the same id twice restores which ids are selected. */
  lemma ToggleTwiceMembership(ids: seq<string>, id: string, x: string)
    ensures x in Toggle(Toggle(ids, id), id) <==> x in ids
  {
    ToggleFlips(ids, id, x);
    ToggleFlips(Toggle(ids, id), id, x);
  }

  /** Filtering out an id that was appended last gives back the list before the append. */
  lemma {:induction false} WithoutAppended(ids: seq<string>, id: string)
    requires id !in ids
    ensures Without(ids + [id], id) == ids
  {
    if ids == [] {
      assert Without([id], id) == [] + Without([], id);
    } else {
      assert (ids + [id])[1..] == ids[1..] + [id];
      WithoutAppended(ids[1..], id);
      assert [ids[0]] + ids[1..] == ids;
    }
  }

  /** Selecting an unselected id and then toggling it again restores the exact list. */
  lemma ToggleTwiceFromUnselected(ids: seq<string>, id: string)
    requires id !in ids
    ensures Toggle(Toggle(ids, id), id) == ids
  {
    WithoutAppended(ids, id);
  }

  /** Filtering keeps the list free of duplicates. */
  lemma {:induction false} WithoutNoDuplicates(ids: seq<string>, id: string)
    requires NoDuplicates(ids)
    ensures NoDuplicates(Without(ids, id))
  {
    if ids != [] {
      WithoutNoDuplicates(ids[1..], id);
      var rest := Without(ids[1..], id);
      if ids[0] != id {
        assert ids[0] !in ids[1..];
        assert ids[0] !in rest;
        var r := [ids[0]] + rest;
        forall i, j | 0 <= i < j < |r|
          ensures r[i] != r[j]
        {
          if i == 0 {
            assert r[j] == rest[j - 1];
          } else {
            assert r[i] == rest[i - 1] && r[j] == rest[j - 1];
          }
        }
      }
    }
  }

  /** Toggling keeps a selection free of duplicates, so every selected id appears once. */
  lemma ToggleNoDuplicates(ids: seq<string>, id: string)
    requires NoDuplicates(ids)
    ensures NoDuplicates(Toggle(ids, id))
  {
    if id in ids {
      WithoutNoDuplicates(ids, id);
    } else {
      var r := ids + [id];
      forall i, j | 0 <= i < j < |r|
        ensures r[i] != r[j]
      {
        if j == |ids| {
          assert r[i] == ids[i];
        }
      }
    }
  }
}
