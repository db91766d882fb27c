/** Resolution of an OCPP tag's group: the tag itself together with the tags
    whose parent it is (one level only), each paired with its note. The
    remote stop operation authorizes against the tags of this group. */
module TagGroups {
  import opened OcppTypes

  /** A snapshot of the tag repository.
      - idTags: every tag id, in the order the repository lists them;
      - parents: the parent tag of a tag; a tag without a key has no parent;
      - records: the tags that have an overview record, each with the note of
        that record (None when the note is null). */
  datatype TagRepository = TagRepository(
    idTags: seq<TagId>,
    parents: map<TagId, TagId>,
    records: map<TagId, Option<string>>)

  /** One entry of a resolved group: the pair [tag, note]. */
  datatype Token = Token(idTag: TagId, note: string)

  /** `t` is a direct child of `q`: its parent is exactly `q`. */
  predicate IsChildOf(parents: map<TagId, TagId>, t: TagId, q: TagId)
  {
    t in parents && parents[t] == q
  }

  /** The tags of `ids` whose parent is `q`, in the order of `ids`. */
  function ChildrenOf(ids: seq<TagId>, parents: map<TagId, TagId>, q: TagId): seq<TagId>
  {
    if ids == [] then []
    else (if IsChildOf(parents, ids[0], q) then [ids[0]] else []) + ChildrenOf(ids[1..], parents, q)
  }

  /** The tags of the group of `q`: its direct children, preceded by `q`
      unless `q` is already one of them. */
  function GroupTags(tags: TagRepository, q: TagId): seq<TagId>
  {
    var children := ChildrenOf(tags.idTags, tags.parents, q);
    if q in children then children else [q] + children
  }

  /** Every tag of `ts` has an overview record. */
  predicate AllRecorded(tags: TagRepository, ts: seq<TagId>)
  {
    forall t :: t in ts ==> t in tags.records
  }

  /** `s` holds no element twice. */
  predicate NoDuplicates(s: seq<TagId>)
  {
    forall t :: t in s ==> multiset(s)[t] <= 1
  }

  /** `a` is a subsequence of `b`: `a` is `b` with some elements left out and
      the rest kept in their order. */
  predicate IsSubsequence(a: seq<TagId>, b: seq<TagId>)
    decreases |b|
  {
    a == [] ||
    (b != [] &&
     ((a[0] == b[0] && IsSubsequence(a[1..], b[1..])) || IsSubsequence(a, b[1..])))
  }

  /** Resolves the group of `q` into its [tag, note] pairs. The group's tags
      are visited in order; a tag without an overview record fails the whole
      call, and a null note becomes the empty string. */
  method GetTokenList(tags: TagRepository, q: TagId) returns (r: Result<seq<Token>>)
    ensures r.Err? <==> !AllRecorded(tags, GroupTags(tags, q))
    ensures r.Err? ==> r.error == MissingRecord
    ensures r.Ok? ==> |r.value| == |GroupTags(tags, q)|
    ensures r.Ok? ==> forall k :: 0 <= k < |r.value| ==>
      var t := GroupTags(tags, q)[k];
      r.value[k].idTag == t && t in tags.records &&
      (tags.records[t] == Some(r.value[k].note) || (tags.records[t] == None && r.value[k].note == ""))
  {
    var ocppTagList := ChildrenOf(tags.idTags, tags.parents, q);
    if q !in ocppTagList {
      ocppTagList := [q] + ocppTagList;
    }
    assert ocppTagList == GroupTags(tags, q);
    var responseList: seq<Token> := [];
    var i := 0;
    while i < |ocppTagList|
      invariant 0 <= i <= |ocppTagList|
      invariant |responseList| == i
      invariant forall k :: 0 <= k < i ==> ocppTagList[k] in tags.records
      invariant forall k :: 0 <= k < i ==>
        responseList[k].idTag == ocppTagList[k] &&
        (tags.records[ocppTagList[k]] == Some(responseList[k].note) ||
         (tags.records[ocppTagList[k]] == None && responseList[k].note == ""))
    {
      var tag := ocppTagList[i];
      if tag in tags.records {
        var note := match tags.records[tag] case Some(n) => n case None => "";
        responseList := responseList + [Token(tag, note)];
      } else {
        return Err(MissingRecord);
      }
      i := i + 1;
    }
    return Ok(responseList);
  }

  /** Each tag of `ids` occurs in the children of `q` as often as in `ids`
      when its parent is `q`, and not at all otherwise. */
  lemma {:induction false} ChildrenOfCount(ids: seq<TagId>, parents: map<TagId, TagId>, q: TagId, t: TagId)
    ensures multiset(ChildrenOf(ids, parents, q))[t] ==
            if IsChildOf(parents, t, q) then multiset(ids)[t] else 0
  {
    if ids != [] {
      ChildrenOfCount(ids[1..], parents, q, t);
      assert ids == [ids[0]] + ids[1..];
    }
  }

  /** A tag is a child of `q` exactly when it is listed and its parent is `q`. */
  lemma {:induction false} ChildrenOfMembership(ids: seq<TagId>, parents: map<TagId, TagId>, q: TagId, t: TagId)
    ensures t in ChildrenOf(ids, parents, q) <==> t in ids && IsChildOf(parents, t, q)
  {
    ChildrenOfCount(ids, parents, q, t);
  }

  /** The filter keeps the children in the order of the tag list. */
  lemma {:induction false} ChildrenOfIsSubsequence(ids: seq<TagId>, parents: map<TagId, TagId>, q: TagId)
    ensures IsSubsequence(ChildrenOf(ids, parents, q), ids)
  {
    if ids != [] {
      var rest := ChildrenOf(ids[1..], parents, q);
      ChildrenOfIsSubsequence(ids[1..], parents, q);
      if IsChildOf(parents, ids[0], q) {
        assert ChildrenOf(ids, parents, q)[1..] == rest;
      } else {
        assert ChildrenOf(ids, parents, q) == rest;
      }
    }
  }

  /** Unless the queried tag is listed as its own child, it heads the group. */
  lemma GroupHeadIsQueried(tags: TagRepository, q: TagId)
    requires !(q in tags.idTags && IsChildOf(tags.parents, q, q))
    ensures GroupTags(tags, q)[0] == q
  {
    ChildrenOfMembership(tags.idTags, tags.parents, q, q);
  }

  /** Every member of the group is the queried tag or a listed direct child
      of it, and every listed direct child is a member. */
  lemma GroupIsSelfAndDirectChildren(tags: TagRepository, q: TagId, t: TagId)
    ensures t in GroupTags(tags, q) <==> t == q || (t in tags.idTags && IsChildOf(tags.parents, t, q))
  {
    ChildrenOfMembership(tags.idTags, tags.parents, q, t);
  }

  /** The resolution is one level deep: a child of a child of `q` is not in
      the group of `q` (unless it is `q` itself). */
  lemma GrandchildNotInGroup(tags: TagRepository, q: TagId, c: TagId, g: TagId)
    requires IsChildOf(tags.parents, c, q) && IsChildOf(tags.parents, g, c)
    requires c != q && g != q
    ensures g !in GroupTags(tags, q)
  {
    GroupIsSelfAndDirectChildren(tags, q, g);
  }

  /** Over a duplicate-free tag list, the group is duplicate-free and holds
      the queried tag exactly once. */
  lemma GroupIsDuplicateFree(tags: TagRepository, q: TagId)
    requires NoDuplicates(tags.idTags)
    ensures NoDuplicates(GroupTags(tags, q))
    ensures multiset(GroupTags(tags, q))[q] == 1
  {
    var children := ChildrenOf(tags.idTags, tags.parents, q);
    forall t ensures multiset(children)[t] <= 1 {
      ChildrenOfCount(tags.idTags, tags.parents, q, t);
    }
    if q in children {
      ChildrenOfCount(tags.idTags, tags.parents, q, q);
    } else {
      assert multiset([q] + children) == multiset{q} + multiset(children);
    }
  }

  /** The group is the queried tag followed by tags of the list, in the
      list's order: nothing is re-sorted. */
  lemma GroupPreservesListOrder(tags: TagRepository, q: TagId)
    ensures IsSubsequence(GroupTags(tags, q), [q] + tags.idTags)
  {
    var children := ChildrenOf(tags.idTags, tags.parents, q);
    ChildrenOfIsSubsequence(tags.idTags, tags.parents, q);
    assert ([q] + tags.idTags)[1..] == tags.idTags;
    if q !in children {
      assert ([q] + children)[1..] == children;
    }
  }
}
