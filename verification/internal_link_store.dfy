/**
 * internal/store/link_store.go: the gorm-backed table of shortened links.
 * models.Link is not part of this model; its columns are the ones the store
 * and the link service use.  Deleting is modelled as removing the row.
 * A database failure is the `fault` argument.
 */
module InternalLinkStore {
  import opened Wrappers
  import opened Errors
  import opened Tables

  datatype Link = Link(
    id: nat,
    originalUrl: string,
    shortCode: string,
    userId: nat,
    expiresAt: Option<int>,
    visitCount: int)

  function WithCode(code: string): Link -> bool
  {
    (l: Link) => l.shortCode == code
  }

  function OwnedBy(id: nat, userId: nat): Link -> bool
  {
    (l: Link) => l.id == id && l.userId == userId
  }

  function OfUser(userId: nat): Link -> bool
  {
    (l: Link) => l.userId == userId
  }

  /** visit_count = visit_count + 1. */
  function Visit(l: Link): Link
  {
    l.(visitCount := l.visitCount + 1)
  }

  /** A visit adds one to the visit count of the links with that code and changes nothing else. */
  lemma VisitTouchesOnlyVisitCount(links: seq<Link>, code: string, i: nat)
    requires i < |links|
    ensures var before, after := links[i], UpdateWhere(links, WithCode(code), Visit)[i];
            (before.shortCode == code ==> after.visitCount == before.visitCount + 1)
            && after.(visitCount := 0) == before.(visitCount := 0)
  {
  }

  /** Ids come from a sequence: increasing in table order, below the next one. */
  ghost predicate ValidLinks(links: seq<Link>, nextId: nat)
  {
    nextId > 0 && IdsIncrease(links) && IdsBelow(links, nextId)
  }

  ghost predicate IdsIncrease(links: seq<Link>)
  {
    forall i, j :: 0 <= i < j < |links| ==> links[i].id < links[j].id
  }

  ghost predicate IdsBelow(links: seq<Link>, nextId: nat)
  {
    forall i :: 0 <= i < |links| ==> 0 < links[i].id < nextId
  }

  /** A delete that found its link removes exactly that link: a second delete reports not found. */
  lemma {:induction false} DeleteRemovesOnlyTheLink(links: seq<Link>, nextId: nat, id: nat, userId: nat)
    requires ValidLinks(links, nextId)
    ensures var after := DeleteWhere(links, OwnedBy(id, userId));
            Count(after, OwnedBy(id, userId)) == 0
            && |links| - |after| <= 1
            && forall i :: 0 <= i < |links| && links[i].id != id ==> links[i] in after
  {
    var after := DeleteWhere(links, OwnedBy(id, userId));
    AtMostOneWithId(links, nextId, id, userId);
  }

  lemma {:induction false} AtMostOneWithId(links: seq<Link>, nextId: nat, id: nat, userId: nat)
    requires ValidLinks(links, nextId)
    ensures Count(links, OwnedBy(id, userId)) <= 1
    decreases |links|
  {
    if links != [] {
      var tail := links[1..];
      assert ValidLinks(tail, nextId);
      AtMostOneWithId(tail, nextId, id, userId);
      if OwnedBy(id, userId)(links[0]) {
        assert forall i :: 0 <= i < |tail| ==> tail[i].id > links[0].id;
        assert Count(tail, OwnedBy(id, userId)) == 0;
      }
    }
  }

  class LinkStore {
    var links: seq<Link>
    var nextId: nat

    ghost predicate Valid()
      reads this
    {
      ValidLinks(links, nextId)
    }

    constructor()
      ensures Valid() && links == [] && nextId == 1
    {
      links := [];
      nextId := 1;
    }

    /** Create: the insert assigns the next id. */
    method Create(link: Link, fault: Option<Error>) returns (r: Result<Link, Error>)
      requires Valid()
      modifies this
      ensures Valid()
      ensures fault.Some? ==> r == Err(fault.value) && links == old(links) && nextId == old(nextId)
      ensures fault.None? ==>
                r == Ok(link.(id := old(nextId))) && links == old(links) + [r.value] && nextId == old(nextId) + 1
    {
      if fault.Some? {
        return Err(fault.value);
      }
      var row := link.(id := nextId);
      links := links + [row];
      nextId := nextId + 1;
      return Ok(row);
    }

    /** FindByShortCode: a missing link is gorm.ErrRecordNotFound. */
    function FindByShortCode(code: string, fault: Option<Error>): (r: Result<Link, Error>)
      reads this
      ensures fault.Some? ==> r == Err(fault.value)
      ensures fault.None? && r.Ok? ==> r.value in links && r.value.shortCode == code
      ensures fault.None? ==> (r == Err(Sentinel(GormRecordNotFound)) <==> Count(links, WithCode(code)) == 0)
    {
      if fault.Some? then Err(fault.value)
      else match FirstWhere(links, WithCode(code))
        case None => Err(Sentinel(GormRecordNotFound))
        case Some(l) => Ok(l)
    }

    /** IncrementVisitCount: no row updated is gorm.ErrRecordNotFound. */
    method IncrementVisitCount(code: string, fault: Option<Error>) returns (err: Option<Error>)
      requires Valid()
      modifies this
      ensures Valid() && nextId == old(nextId)
      ensures fault.Some? ==> err == fault && links == old(links)
      ensures fault.None? && Count(old(links), WithCode(code)) == 0 ==>
                err == Some(Sentinel(GormRecordNotFound)) && links == old(links)
      ensures fault.None? && Count(old(links), WithCode(code)) > 0 ==>
                err.None? && links == UpdateWhere(old(links), WithCode(code), Visit)
    {
      if fault.Some? {
        return fault;
      }
      if Count(links, WithCode(code)) == 0 {
        return Some(Sentinel(GormRecordNotFound));
      }
      var after := UpdateWhere(links, WithCode(code), Visit);
      assert forall i :: 0 <= i < |links| ==> after[i].id == links[i].id;
      links := after;
      return None;
    }

    /** FindByUserID: the user's links, in table order. */
    function FindByUserID(userId: nat, fault: Option<Error>): (r: Result<seq<Link>, Error>)
      reads this
      ensures fault.Some? ==> r == Err(fault.value)
      ensures fault.None? ==> r.Ok? && forall i :: 0 <= i < |r.value| ==> r.value[i] in links && r.value[i].userId == userId
      ensures fault.None? ==> forall i :: 0 <= i < |links| && links[i].userId == userId ==> links[i] in r.value
    {
      if fault.Some? then Err(fault.value) else Ok(Filter(links, OfUser(userId)))
    }

    /** Delete: only the owner's link goes; no row deleted is gorm.ErrRecordNotFound. */
    method Delete(id: nat, userId: nat, fault: Option<Error>) returns (err: Option<Error>)
      requires Valid()
      modifies this
      ensures Valid() && nextId == old(nextId)
      ensures fault.Some? ==> err == fault && links == old(links)
      ensures fault.None? && Count(old(links), OwnedBy(id, userId)) == 0 ==>
                err == Some(Sentinel(GormRecordNotFound)) && links == old(links)
      ensures fault.None? && Count(old(links), OwnedBy(id, userId)) > 0 ==>
                err.None? && links == DeleteWhere(old(links), OwnedBy(id, userId))
    {
      if fault.Some? {
        return fault;
      }
      if Count(links, OwnedBy(id, userId)) == 0 {
        return Some(Sentinel(GormRecordNotFound));
      }
      DeleteKeepsValidity(links, nextId, OwnedBy(id, userId));
      links := DeleteWhere(links, OwnedBy(id, userId));
      return None;
    }
  }

  lemma DeleteKeepsValidity(links: seq<Link>, nextId: nat, p: Link -> bool)
    requires ValidLinks(links, nextId)
    ensures ValidLinks(DeleteWhere(links, p), nextId)
  {
    DeleteKeepsIncrease(links, p);
    var r := DeleteWhere(links, p);
    forall i | 0 <= i < |r| ensures 0 < r[i].id < nextId {
      var m :| 0 <= m < |links| && links[m] == r[i];
    }
  }

  lemma {:induction false} DeleteKeepsIncrease(links: seq<Link>, p: Link -> bool)
    requires IdsIncrease(links)
    ensures IdsIncrease(DeleteWhere(links, p))
    decreases |links|
  {
    if links != [] {
      var tail := links[1..];
      TailIncreases(links);
      DeleteKeepsIncrease(tail, p);
      if !p(links[0]) {
        var rest := DeleteWhere(tail, p);
        KeptAboveHead(links, p);
        ConsIncreases(links[0], rest);
        assert DeleteWhere(links, p) == [links[0]] + rest;
      } else {
        assert DeleteWhere(links, p) == DeleteWhere(tail, p);
      }
    }
  }

  lemma TailIncreases(links: seq<Link>)
    requires links != [] && IdsIncrease(links)
    ensures IdsIncrease(links[1..])
  {
    var tail := links[1..];
    forall i, j | 0 <= i < j < |tail| ensures tail[i].id < tail[j].id {
      assert tail[i] == links[i + 1] && tail[j] == links[j + 1];
    }
  }

  lemma KeptAboveHead(links: seq<Link>, p: Link -> bool)
    requires links != [] && IdsIncrease(links)
    ensures forall x :: x in DeleteWhere(links[1..], p) ==> x.id > links[0].id
  {
    var tail := links[1..];
    forall x | x in DeleteWhere(tail, p) ensures x.id > links[0].id {
      var m :| 0 <= m < |tail| && tail[m] == x;
      assert tail[m] == links[m + 1];
    }
  }

  lemma ConsIncreases(x: Link, rest: seq<Link>)
    requires IdsIncrease(rest) && forall y :: y in rest ==> y.id > x.id
    ensures IdsIncrease([x] + rest)
  {
    var r := [x] + rest;
    forall i, j | 0 <= i < j < |r| ensures r[i].id < r[j].id {
      assert r[j] == rest[j - 1] && r[j] in rest;
      if i > 0 {
        assert r[i] == rest[i - 1];
      }
    }
  }
}
