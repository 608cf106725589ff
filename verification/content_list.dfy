/**
 * The list projection of contents: a brand's contents behind a sentinel entry that stands for
 * "no selection", optionally with a selected content moved to the front. The repository's
 * answers (the brand's contents, the content looked up by the selected id) are parameters.
 */
module ContentList {
  import opened Wrappers
  import opened Entities

  /** An element of a `List<Content>`: a content or a null reference. */
  type Entry = Option<Content>

  /** `new Content { Id = Guid.Empty }`: the sentinel, every other field at its default. */
  const Sentinel: Content :=
    Content(
      id := EmptyGuid, title := "", contentType := 0, socialMediaType := 0, comment := "",
      releaseDate := 0, endDate := None, status := Active, brandId := EmptyGuid, personId := None,
      billId := None, bill := None, createdAt := 0, updatedAt := None)

  predicate HasId(e: Entry, id: Guid) {
    e.Some? && e.value.id == id
  }

  /**
   * The equality `List.Remove` uses, taken as id equality: null matches null, and a content
   * matches every entry with the same id. The sentinel matches a content with the empty id,
   * which reference equality would not do; `SentinelKept` excludes that case.
   */
  predicate SameEntity(e: Entry, target: Entry) {
    if target.None? then e.None? else HasId(e, target.value.id)
  }

  /** The contents as non-null list entries, in the same order. */
  ghost function Entries(fetched: seq<Content>): (r: seq<Entry>)
    ensures |r| == |fetched|
    ensures forall i :: 0 <= i < |fetched| ==> r[i] == Some(fetched[i])
  {
    if fetched == [] then [] else [Some(fetched[0])] + Entries(fetched[1..])
  }

  /** The sentinel followed by the repository's contents, in the repository's order. */
  ghost function Listed(fetched: seq<Content>): seq<Entry> {
    [Some(Sentinel)] + Entries(fetched)
  }

  /** The list without its first entry that matches `target`. */
  ghost function RemoveFirst(list: seq<Entry>, target: Entry): (r: seq<Entry>)
    ensures (exists i :: 0 <= i < |list| && SameEntity(list[i], target)) ==> |r| == |list| - 1
    ensures (forall i :: 0 <= i < |list| ==> !SameEntity(list[i], target)) ==> r == list
    ensures multiset(r) <= multiset(list)
  {
    if list == [] then []
    else
      assert list == [list[0]] + list[1..];
      if SameEntity(list[0], target) then list[1..]
      else [list[0]] + RemoveFirst(list[1..], target)
  }

  /** Removing the first match at `k` leaves the entries before and after it, in order. */
  lemma {:induction false} RemoveFirstAt(list: seq<Entry>, target: Entry, k: nat)
    requires k < |list| && SameEntity(list[k], target)
    requires forall j :: 0 <= j < k ==> !SameEntity(list[j], target)
    ensures RemoveFirst(list, target) == list[..k] + list[k + 1..]
  {
    if k > 0 {
      RemoveFirstAt(list[1..], target, k - 1);
      assert list[1..][..k - 1] == list[1..k];
      assert list[1..][k..] == list[k + 1..];
      assert [list[0]] + list[1..k] == list[..k];
    }
  }

  /** Every entry left by `RemoveFirst` comes from the list: `j` is where it was. */
  lemma {:induction false} RemoveFirstSource(list: seq<Entry>, target: Entry, i: nat) returns (j: nat)
    requires i < |RemoveFirst(list, target)|
    ensures j < |list| && list[j] == RemoveFirst(list, target)[i]
  {
    if SameEntity(list[0], target) {
      j := i + 1;
    } else if i == 0 {
      j := 0;
    } else {
      j := RemoveFirstSource(list[1..], target, i - 1);
      j := j + 1;
    }
  }

  /** `GetContentsForListByBrandId`: the sentinel, then `AddRange` of the brand's contents. */
  method ContentsForListByBrandId(fetched: seq<Content>) returns (list: seq<Entry>)
    ensures list == Listed(fetched)
    ensures |list| == 1 + |fetched|
    ensures list[0] == Some(Sentinel) && HasId(list[0], EmptyGuid)
    ensures forall i :: 0 <= i < |fetched| ==> list[i + 1] == Some(fetched[i])
  {
    list := [Some(Sentinel)];
    for i := 0 to |fetched|
      invariant |list| == 1 + i
      invariant list[0] == Some(Sentinel)
      invariant forall j :: 0 <= j < i ==> list[j + 1] == Some(fetched[j])
    {
      list := list + [Some(fetched[i])];
    }
  }

  /** `List.IndexOf`: the position of the first entry matching `target`, or `|list|` if none does. */
  method IndexOf(list: seq<Entry>, target: Entry) returns (k: nat)
    ensures k <= |list|
    ensures k < |list| ==> SameEntity(list[k], target)
    ensures forall j :: 0 <= j < k ==> !SameEntity(list[j], target)
  {
    k := 0;
    while k < |list| && !SameEntity(list[k], target)
      invariant k <= |list|
      invariant forall j :: 0 <= j < k ==> !SameEntity(list[j], target)
    {
      k := k + 1;
    }
  }

  /** `List.Remove`: drops the first entry matching `target` and tells whether there was one. */
  method Remove(list: seq<Entry>, target: Entry) returns (r: seq<Entry>, removed: bool)
    ensures removed <==> exists i :: 0 <= i < |list| && SameEntity(list[i], target)
    ensures r == RemoveFirst(list, target)
    ensures removed ==> |r| == |list| - 1
    ensures !removed ==> r == list
  {
    var k := IndexOf(list, target);
    if k < |list| {
      RemoveFirstAt(list, target, k);
      r, removed := list[..k] + list[k + 1..], true;
    } else {
      r, removed := list, false;
    }
  }

  /**
   * `GetContentsForListByBrandIdWithSelectedValue`. `found` is the repository's answer for the
   * selected id: the content with that id, or null when there is none. The result is the answer
   * followed by the base list without its first entry for the same entity.
   */
  method ContentsForListWithSelectedValue(fetched: seq<Content>, selected: Option<Guid>, found: Entry)
    returns (list: seq<Entry>)
    requires found.Some? ==> selected.Some? && found.value.id == selected.value
    ensures selected.None? ==> list == Listed(fetched)
    ensures selected.Some? ==> list == [found] + RemoveFirst(Listed(fetched), found)
  {
    var initialContents := ContentsForListByBrandId(fetched);
    if selected.None? {
      return initialContents;
    }
    var rest, removed := Remove(initialContents, found);
    list := [found] + rest;
  }

  /** A content found among the brand's contents is moved to the front, not duplicated. */
  lemma SelectedMoved(fetched: seq<Content>, found: Content, i: nat)
    requires i < |fetched| && fetched[i].id == found.id
    ensures var list := [Some(found)] + RemoveFirst(Listed(fetched), Some(found));
            |list| == 1 + |fetched| && list[0] == Some(found)
  {
    assert Listed(fetched)[i + 1] == Some(fetched[i]);
    assert SameEntity(Listed(fetched)[i + 1], Some(found));
  }

  /**
   * An answer that matches no listed entry (null, or a content of another brand) is put in front
   * of the untouched base list.
   */
  lemma UnmatchedPrepended(fetched: seq<Content>, found: Entry)
    requires found.Some? ==> forall i :: 0 <= i < |fetched| ==> fetched[i].id != found.value.id
    requires found.Some? ==> found.value.id != EmptyGuid
    ensures [found] + RemoveFirst(Listed(fetched), found) == [found] + Listed(fetched)
  {
    var base := Listed(fetched);
    forall i | 0 <= i < |base| ensures !SameEntity(base[i], found) {
      if i > 0 {
        assert base[i] == Some(fetched[i - 1]);
      }
    }
  }

  /**
   * When no content of the brand has the empty id and the selected one does not either, the
   * sentinel stays the only entry with the empty id, right behind the selected content.
   */
  lemma SentinelKept(fetched: seq<Content>, found: Entry)
    requires forall i :: 0 <= i < |fetched| ==> fetched[i].id != EmptyGuid
    requires !HasId(found, EmptyGuid)
    ensures var list := [found] + RemoveFirst(Listed(fetched), found);
            && |list| > 1 && list[1] == Some(Sentinel)
            && forall i :: 0 <= i < |list| && i != 1 ==> !HasId(list[i], EmptyGuid)
  {
    var base := Listed(fetched);
    var tail := RemoveFirst(base[1..], found);
    assert !SameEntity(base[0], found);
    assert RemoveFirst(base, found) == [base[0]] + tail;
    forall i | 0 <= i < |tail| ensures !HasId(tail[i], EmptyGuid) {
      var j := RemoveFirstSource(base[1..], found, i);
      assert base[1..][j] == base[j + 1] == Some(fetched[j]);
    }
  }
}
