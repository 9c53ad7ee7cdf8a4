/**
 * internal/core/services/link_service.go: creating short links with a
 * bounded retry for a free code, resolving a code to its URL with the
 * expiry check, and the owner's delete.  The code generator (the package
 * internal/core/shortener, which is not part of this model) is an input:
 * `codes[i]` is what it returned on attempt i.  `faults[i]` is the database
 * failure of the lookup on attempt i, and `now` is the clock.
 */
module LinkService {
  import opened Wrappers
  import opened Errors
  import opened Tables
  import opened InternalLinkStore
  import RequestUri

  /** maxShortCodeGenerationRetries. */
  const MaxRetries: nat := 5

  const InvalidUrl: Error := Message("invalid URL provided")
  const Exhausted: Error := Message("failed to generate a unique short code after multiple attempts")

  /** What the retry loop settles on before any write: a free code, or an error. */
  datatype Plan = Insert(code: string) | Fail(error: Error)

  /** The lookup of attempt i: the store's FindByShortCode over `links`. */
  function Lookup(links: seq<Link>, code: string, fault: Option<Error>): (r: Result<Link, Error>)
    ensures fault.Some? ==> r == Err(fault.value)
    ensures fault.None? ==> (r == Err(Sentinel(GormRecordNotFound)) <==> Count(links, WithCode(code)) == 0)
  {
    if fault.Some? then Err(fault.value)
    else match FirstWhere(links, WithCode(code))
      case None => Err(Sentinel(GormRecordNotFound))
      case Some(l) => Ok(l)
  }

  /** Attempts i, i+1, ... of the loop, as a function of what each attempt observes. */
  function PlanFrom(links: seq<Link>, codes: seq<Result<string, Error>>, faults: seq<Option<Error>>, i: nat): Plan
    requires i <= MaxRetries <= |codes| && MaxRetries <= |faults|
    decreases MaxRetries - i
  {
    if i == MaxRetries then Fail(Exhausted)
    else if codes[i].Err? then Fail(Wrapped("failed to generate short code", codes[i].error))
    else match Lookup(links, codes[i].value, faults[i])
      case Ok(_) => PlanFrom(links, codes, faults, i + 1)
      case Err(e) =>
        if Is(e, GormRecordNotFound) then Insert(codes[i].value)
        else Fail(Wrapped("error checking short code uniqueness", e))
  }

  /** Attempts i up to (not including) k each drew a code a link already has. */
  predicate Collided(links: seq<Link>, codes: seq<Result<string, Error>>, faults: seq<Option<Error>>, i: nat, k: nat)
    requires k <= |codes| && k <= |faults|
  {
    forall j :: i <= j < k ==> codes[j].Ok? && faults[j].None? && Count(links, WithCode(codes[j].value)) > 0
  }

  /** Attempt k drew a code and its lookup reported not found. */
  predicate FreeAt(links: seq<Link>, codes: seq<Result<string, Error>>, faults: seq<Option<Error>>, k: nat)
    requires k < |codes| && k < |faults|
  {
    codes[k].Ok?
    && var look := Lookup(links, codes[k].value, faults[k]);
    look.Err? && Is(look.error, GormRecordNotFound)
  }

  /**
   * A lookup reports not found when no link has the code, or when the
   * database error itself is gorm.ErrRecordNotFound.
   */
  lemma FreeAtMeans(links: seq<Link>, codes: seq<Result<string, Error>>, faults: seq<Option<Error>>, k: nat)
    requires k < |codes| && k < |faults| && codes[k].Ok?
    ensures FreeAt(links, codes, faults, k) <==>
              (faults[k].None? && Count(links, WithCode(codes[k].value)) == 0)
              || (faults[k].Some? && Is(faults[k].value, GormRecordNotFound))
  {
  }

  /** The loop inserts the first drawn code whose lookup reported not found, after every earlier attempt collided. */
  lemma {:induction false} PlanInsertsFirstFree(links: seq<Link>, codes: seq<Result<string, Error>>,
                                                faults: seq<Option<Error>>, i: nat)
    requires i <= MaxRetries <= |codes| && MaxRetries <= |faults|
    ensures var p := PlanFrom(links, codes, faults, i);
            p.Insert? ==>
              exists k :: i <= k < MaxRetries && codes[k] == Ok(p.code) && FreeAt(links, codes, faults, k)
                          && Collided(links, codes, faults, i, k)
    decreases MaxRetries - i
  {
    var p := PlanFrom(links, codes, faults, i);
    if i < MaxRetries && codes[i].Ok? && p.Insert? {
      if Lookup(links, codes[i].value, faults[i]).Ok? {
        assert p == PlanFrom(links, codes, faults, i + 1);
        PlanInsertsFirstFree(links, codes, faults, i + 1);
        var k :| i + 1 <= k < MaxRetries && codes[k] == Ok(p.code) && FreeAt(links, codes, faults, k)
                 && Collided(links, codes, faults, i + 1, k);
        CollidedExtends(links, codes, faults, i, k);
      } else {
        assert FreeAt(links, codes, faults, i);
        assert Collided(links, codes, faults, i, i);
      }
    }
  }

  /** The loop gives up only after all five attempts collided. */
  lemma {:induction false} PlanExhaustedMeansAllCollided(links: seq<Link>, codes: seq<Result<string, Error>>,
                                                         faults: seq<Option<Error>>, i: nat)
    requires i <= MaxRetries <= |codes| && MaxRetries <= |faults|
    requires PlanFrom(links, codes, faults, i) == Fail(Exhausted)
    ensures Collided(links, codes, faults, i, MaxRetries)
    decreases MaxRetries - i
  {
    if i < MaxRetries {
      assert codes[i].Ok?;
      var look := Lookup(links, codes[i].value, faults[i]);
      assert look.Ok?;
      PlanExhaustedMeansAllCollided(links, codes, faults, i + 1);
      CollidedExtends(links, codes, faults, i, MaxRetries);
    }
  }

  /** An attempt whose lookup found a link extends a run of collisions by one. */
  lemma CollidedExtends(links: seq<Link>, codes: seq<Result<string, Error>>, faults: seq<Option<Error>>, i: nat, k: nat)
    requires i < k <= |codes| && k <= |faults|
    requires codes[i].Ok? && Lookup(links, codes[i].value, faults[i]).Ok?
    requires Collided(links, codes, faults, i + 1, k)
    ensures Collided(links, codes, faults, i, k)
  {
    assert faults[i].None? && Count(links, WithCode(codes[i].value)) > 0;
  }

  /** A generator error or a lookup error other than not-found stops the loop at once. */
  lemma PlanStopsOnError(links: seq<Link>, codes: seq<Result<string, Error>>, faults: seq<Option<Error>>, i: nat)
    requires i < MaxRetries <= |codes| && MaxRetries <= |faults|
    requires Collided(links, codes, faults, 0, i)
    ensures codes[i].Err? ==>
              PlanFrom(links, codes, faults, 0) == Fail(Wrapped("failed to generate short code", codes[i].error))
    ensures codes[i].Ok? && faults[i].Some? && !Is(faults[i].value, GormRecordNotFound) ==>
              PlanFrom(links, codes, faults, 0) == Fail(Wrapped("error checking short code uniqueness", faults[i].value))
  {
    CollidedSkips(links, codes, faults, 0, i);
  }

  lemma {:induction false} CollidedSkips(links: seq<Link>, codes: seq<Result<string, Error>>,
                                         faults: seq<Option<Error>>, j: nat, i: nat)
    requires j <= i < MaxRetries <= |codes| && MaxRetries <= |faults|
    requires Collided(links, codes, faults, j, i)
    ensures PlanFrom(links, codes, faults, j) == PlanFrom(links, codes, faults, i)
    decreases i - j
  {
    if j < i {
      assert Lookup(links, codes[j].value, faults[j]).Ok?;
      CollidedSkips(links, codes, faults, j + 1, i);
    }
  }

  /** An expiry in the past ends the link; a link without one never expires. */
  predicate Expired(l: Link, now: int)
  {
    l.expiresAt.Some? && now > l.expiresAt.value
  }

  class Service {
    const store: LinkStore

    constructor(store: LinkStore)
      ensures this.store == store
    {
      this.store := store;
    }

    /**
     * CreateShortLink.  A target that is not an http or https URI is refused
     * before any code is drawn; a failed insert is not retried.
     */
    method CreateShortLink(originalUrl: string, userId: nat, expiresAt: Option<int>,
                           codes: seq<Result<string, Error>>, faults: seq<Option<Error>>,
                           createFault: Option<Error>) returns (r: Result<Link, Error>)
      requires store.Valid()
      requires |codes| >= MaxRetries && |faults| >= MaxRetries
      modifies store
      ensures store.Valid()
      ensures !RequestUri.IsHttpTarget(originalUrl) ==> r == Err(InvalidUrl) && store.links == old(store.links)
      ensures RequestUri.IsHttpTarget(originalUrl) ==>
                match PlanFrom(old(store.links), codes, faults, 0)
                case Fail(e) => r == Err(e) && store.links == old(store.links)
                case Insert(code) =>
                  var link := Link(old(store.nextId), originalUrl, code, userId, expiresAt, 0);
                  if createFault.Some? then
                    r == Err(Wrapped("failed to save link", createFault.value)) && store.links == old(store.links)
                  else
                    r == Ok(link) && store.links == old(store.links) + [link]
    {
      if !RequestUri.IsHttpTarget(originalUrl) {
        return Err(InvalidUrl);
      }
      var i := 0;
      while i < MaxRetries
        invariant 0 <= i <= MaxRetries
        invariant store.links == old(store.links) && store.nextId == old(store.nextId)
        invariant PlanFrom(store.links, codes, faults, 0) == PlanFrom(store.links, codes, faults, i)
      {
        var code := codes[i];
        if code.Err? {
          return Err(Wrapped("failed to generate short code", code.error));
        }
        var found := store.FindByShortCode(code.value, faults[i]);
        if found.Err? && Is(found.error, GormRecordNotFound) {
          var created := store.Create(Link(0, originalUrl, code.value, userId, expiresAt, 0), createFault);
          if created.Ok? {
            return Ok(created.value);
          } else {
            return Err(Wrapped("failed to save link", created.error));
          }
        } else if found.Err? {
          return Err(Wrapped("error checking short code uniqueness", found.error));
        }
        i := i + 1;
      }
      return Err(Exhausted);
    }

    /**
     * GetOriginalURL: the target of an unexpired link; the visit count goes
     * up by one when the update succeeds, and its failure is ignored.
     */
    method GetOriginalUrl(code: string, now: int, fault: Option<Error>, visitFault: Option<Error>)
      returns (r: Result<string, Error>)
      requires store.Valid()
      modifies store
      ensures store.Valid()
      ensures var found := old(store.FindByShortCode(code, fault));
              (found.Err? && Is(found.error, GormRecordNotFound) ==> r == Err(Message("short link not found")))
              && (found.Err? && !Is(found.error, GormRecordNotFound) ==> r == Err(Wrapped("error retrieving link", found.error)))
              && (found.Ok? && Expired(found.value, now) ==> r == Err(Message("link has expired")))
              && (found.Ok? && !Expired(found.value, now) ==> r == Ok(found.value.originalUrl))
      ensures r.Err? ==> store.links == old(store.links)
      ensures r.Ok? ==>
                store.links == (if visitFault.Some? then old(store.links) else UpdateWhere(old(store.links), WithCode(code), Visit))
    {
      var found := store.FindByShortCode(code, fault);
      if found.Err? {
        if Is(found.error, GormRecordNotFound) {
          return Err(Message("short link not found"));
        }
        return Err(Wrapped("error retrieving link", found.error));
      }
      var link := found.value;
      if link.expiresAt.Some? && now > link.expiresAt.value {
        return Err(Message("link has expired"));
      }
      var _ := store.IncrementVisitCount(code, visitFault);
      return Ok(link.originalUrl);
    }

    /** GetUserLinks. */
    function GetUserLinks(userId: nat, fault: Option<Error>): (r: Result<seq<Link>, Error>)
      reads store
      ensures fault.Some? ==> r == Err(fault.value)
      ensures r.Ok? ==> forall i :: 0 <= i < |r.value| ==> r.value[i] in store.links && r.value[i].userId == userId
    {
      store.FindByUserID(userId, fault)
    }

    /** DeleteLink: not-found becomes the owner-facing message; other errors are wrapped. */
    method DeleteLink(linkId: nat, userId: nat, fault: Option<Error>) returns (err: Option<Error>)
      requires store.Valid()
      modifies store
      ensures store.Valid()
      ensures fault.None? && Count(old(store.links), OwnedBy(linkId, userId)) > 0 ==>
                err.None? && store.links == DeleteWhere(old(store.links), OwnedBy(linkId, userId))
      ensures fault.None? && Count(old(store.links), OwnedBy(linkId, userId)) == 0 ==>
                err == Some(Message("link not found or you do not have permission to delete it"))
                && store.links == old(store.links)
      ensures fault.Some? ==>
                store.links == old(store.links)
                && err == Some(if Is(fault.value, GormRecordNotFound)
                               then Message("link not found or you do not have permission to delete it")
                               else Wrapped("error deleting link", fault.value))
    {
      var e := store.Delete(linkId, userId, fault);
      if e.Some? {
        if Is(e.value, GormRecordNotFound) {
          return Some(Message("link not found or you do not have permission to delete it"));
        }
        return Some(Wrapped("error deleting link", e.value));
      }
      return None;
    }
  }
}
