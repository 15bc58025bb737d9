/** The ordered list of link records held by the store, and the three ways the store's
    mutations edit it: patch the first record with a given id, drop every record with a
    given id, append a record. */
module LinkList {

  /** The server-assigned identifier of a link (compared with `===`). */
  type LinkId = int

  /** A link record as the server returns it. */
  datatype Link = Link(id: LinkId, title: string, url: string, archived: bool)

  /** The one field a mutation assigns on a matched record. */
  datatype Patch = SetArchived(archived: bool) | SetUrl(url: string)

  function Apply(l: Link, p: Patch): Link {
    match p
    case SetArchived(b) => l.(archived := b)
    case SetUrl(u) => l.(url := u)
  }

  /** Two patches that assign the same field. */
  predicate SameField(p: Patch, q: Patch) {
    p.SetArchived? == q.SetArchived?
  }

  /** No record of `links` has id `id`. */
  predicate Absent(links: seq<Link>, id: LinkId) {
    forall k :: 0 <= k < |links| ==> links[k].id != id
  }

  /** `k` is the position of the first record of `links` whose id is `id`. */
  ghost predicate IsFirst(links: seq<Link>, id: LinkId, k: int) {
    0 <= k < |links| && links[k].id == id && forall j :: 0 <= j < k ==> links[j].id != id
  }

  /** The list after the first record whose id is `id` has been patched with `p`; the
      list itself when there is no such record. */
  function PatchFirst(links: seq<Link>, id: LinkId, p: Patch): (r: seq<Link>)
    ensures |r| == |links|
    ensures forall k :: 0 <= k < |r| ==> r[k].id == links[k].id
    ensures Absent(links, id) ==> r == links
    ensures forall k :: IsFirst(links, id, k) ==> r == links[k := Apply(links[k], p)]
  {
    if links == [] then []
    else if links[0].id == id then [Apply(links[0], p)] + links[1..]
    else
      assert forall k :: IsFirst(links, id, k) ==> IsFirst(links[1..], id, k - 1);
      [links[0]] + PatchFirst(links[1..], id, p)
  }

  /** The records whose id differs from `id`, in their original relative order. */
  function Without(links: seq<Link>, id: LinkId): (r: seq<Link>)
    ensures |r| <= |links|
    ensures Absent(r, id)
    ensures forall l :: l in r <==> l in links && l.id != id
    ensures Absent(links, id) ==> r == links
  {
    if links == [] then []
    else if links[0].id == id then Without(links[1..], id)
      else [links[0]] + Without(links[1..], id)
  }

  /** Removal keeps every record whose id differs from `id` as many times as it occurred,
      duplicates included, and drops every copy of every record with that id. */
  lemma {:induction false} WithoutCounts(links: seq<Link>, id: LinkId, l: Link)
    ensures multiset(Without(links, id))[l] == if l.id == id then 0 else multiset(links)[l]
  {
    if links != [] {
      var rest := links[1..];
      WithoutCounts(rest, id, l);
      assert multiset(links) == multiset{links[0]} + multiset(rest) by {
        assert links == [links[0]] + rest;
      }
      if links[0].id != id {
        assert multiset(Without(links, id)) == multiset{links[0]} + multiset(Without(rest, id));
      }
    }
  }

  /** Removal works element by element: filtering a concatenation filters each part and
      keeps the parts in order. */
  lemma {:induction false} WithoutAppend(a: seq<Link>, b: seq<Link>, id: LinkId)
    ensures Without(a + b, id) == Without(a, id) + Without(b, id)
  {
    if a == [] {
      assert a + b == b;
    } else {
      assert (a + b)[1..] == a[1..] + b;
      WithoutAppend(a[1..], b, id);
    }
  }

  /** Removing the id of a freshly appended record whose id was not yet in the list gives
      back the list as it was before the append. */
  lemma RemoveAppended(links: seq<Link>, l: Link)
    requires Absent(links, l.id)
    ensures Without(links + [l], l.id) == links
  {
    WithoutAppend(links, [l], l.id);
    assert Without([l], l.id) == Without([], l.id);
  }

  /** Patching the first match before removing that id changes nothing about the removal. */
  lemma {:induction false} RemovePatched(links: seq<Link>, id: LinkId, p: Patch)
    ensures Without(PatchFirst(links, id, p), id) == Without(links, id)
  {
    if links != [] && links[0].id != id {
      RemovePatched(links[1..], id, p);
    }
  }

  /** Two patches of the same field on the same id: the later one wins, whatever the first
      one wrote. With `p == q` this is idempotence. */
  lemma {:induction false} PatchFirstLastWins(links: seq<Link>, id: LinkId, p: Patch, q: Patch)
    requires SameField(p, q)
    ensures PatchFirst(PatchFirst(links, id, p), id, q) == PatchFirst(links, id, q)
  {
    if links != [] && links[0].id != id {
      PatchFirstLastWins(links[1..], id, p, q);
    }
  }

  /** Archiving and then unarchiving the same id gives back the original list exactly when
      the first record with that id was not archived (or there is none). */
  lemma {:induction false} ArchiveThenUnarchive(links: seq<Link>, id: LinkId)
    ensures PatchFirst(PatchFirst(links, id, SetArchived(true)), id, SetArchived(false)) == links
        <==> forall k :: IsFirst(links, id, k) ==> !links[k].archived
  {
    if links != [] && links[0].id != id {
      ArchiveThenUnarchive(links[1..], id);
      assert forall k :: IsFirst(links, id, k) <==> 0 < k && IsFirst(links[1..], id, k - 1);
    }
  }
}
