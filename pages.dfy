/**
 * The page collection and the handlers that write to it, `createPages` and
 * `updatePage`. Pages belong to a brand, and the slug helper keeps slugs unique per
 * brand only; the page schema has no unique index on `slug`, so nothing below the handlers
 * backs that uniqueness up.
 */
module Pages {
  import opened Js
  import opened Http
  import Slugs

  /**
   * A stored page: its `_id`, the brand it belongs to, its slug (`None` for a null
   * slug) and every other field the body supplied.
   */
  datatype Page = Page(id: Id, brand: string, slug: Option<string>, fields: map<string, Value>)

  predicate IdsUnique(pages: seq<Page>)
  {
    forall i, j :: 0 <= i < j < |pages| ==> pages[i].id != pages[j].id
  }

  /** No two pages of one brand hold the same slug. */
  predicate ScopedUnique(pages: seq<Page>)
  {
    forall i, j :: 0 <= i < j < |pages| && pages[i].brand == pages[j].brand && pages[i].slug.Some? ==>
      pages[i].slug != pages[j].slug
  }

  /** `findOne({ slug, brand, ...(pageId ? { _id: { $ne: pageId } } : {}) })` finds a page. */
  predicate HeldInScope(pages: seq<Page>, slug: string, brand: string, pageId: Option<Id>)
  {
    exists i :: 0 <= i < |pages| && pages[i].brand == brand && pages[i].slug == Some(slug)
      && (pageId.None? || pages[i].id != pageId.value)
  }

  lemma HeldInScopeStep(pages: seq<Page>, brand: string, pageId: Option<Id>)
    requires pages != []
    ensures forall s :: HeldInScope(pages, s, brand, pageId) <==>
      (pages[0].brand == brand && pages[0].slug == Some(s) && (pageId.None? || pages[0].id != pageId.value))
      || HeldInScope(pages[1..], s, brand, pageId)
  {
    forall s
      ensures HeldInScope(pages, s, brand, pageId) <==>
        (pages[0].brand == brand && pages[0].slug == Some(s) && (pageId.None? || pages[0].id != pageId.value))
        || HeldInScope(pages[1..], s, brand, pageId)
    {
      if HeldInScope(pages[1..], s, brand, pageId) {
        var i :| 0 <= i < |pages[1..]| && pages[1..][i].brand == brand && pages[1..][i].slug == Some(s)
          && (pageId.None? || pages[1..][i].id != pageId.value);
        assert pages[i + 1] == pages[1..][i];
      }
      if HeldInScope(pages, s, brand, pageId) {
        var i :| 0 <= i < |pages| && pages[i].brand == brand && pages[i].slug == Some(s)
          && (pageId.None? || pages[i].id != pageId.value);
        if i > 0 {
          assert pages[1..][i - 1] == pages[i];
        }
      }
    }
  }

  /**
   * The slugs of the pages of `brand`, other than `pageId` when one is given: the set
   * the probe loop of the page `generateUniqueSlug` runs against.
   */
  function Competing(pages: seq<Page>, brand: string, pageId: Option<Id>): (held: set<string>)
    ensures |held| <= |pages|
    ensures forall s :: s in held <==> HeldInScope(pages, s, brand, pageId)
  {
    if pages == [] then {}
    else
      var rest := Competing(pages[1..], brand, pageId);
      HeldInScopeStep(pages, brand, pageId);
      var p := pages[0];
      if p.brand == brand && p.slug.Some? && (pageId.None? || p.id != pageId.value)
      then {p.slug.value} + rest
      else rest
  }

  /** The id of a page, the key `findById` looks up. */
  function PageId(x: Page): Id
  {
    x.id
  }

  /** `req.body || []`. */
  function PayloadOf(body: Value): Value
  {
    if Truthy(body) then body else Arr([])
  }

  const TitleRequired := "Title is required"
  const KeyRequired := "Key is required"
  const SectionsNotArray := "Sections must be array"
  const FaqsNotArray := "Faqs must be array"

  /** Every entry `createPages` pushes, in the order it pushes them. */
  function PageErrors(p: Value): seq<FieldError>
  {
    var content := Get(p, "content");
    (if !Truthy(Get(p, "title")) || !Get(p, "title").Str? then [FieldError(Prop("title"), TitleRequired)] else [])
    + (if !Truthy(Get(p, "key")) || !Get(p, "key").Str? then [FieldError(Prop("key"), KeyRequired)] else [])
    + (if Truthy(Get(content, "sections")) && !Get(content, "sections").Arr?
       then [FieldError(Sub(Prop("content"), "sections"), SectionsNotArray)] else [])
    + (if Truthy(Get(content, "faqs")) && !Get(content, "faqs").Arr?
       then [FieldError(Sub(Prop("content"), "faqs"), FaqsNotArray)] else [])
  }

  /** A body `createPages` accepts, stated field by field. */
  predicate Acceptable(p: Value)
  {
    var content := Get(p, "content");
    && Get(p, "title").Str? && Get(p, "title").s != ""
    && Get(p, "key").Str? && Get(p, "key").s != ""
    && (!Truthy(Get(content, "sections")) || Get(content, "sections").Arr?)
    && (!Truthy(Get(content, "faqs")) || Get(content, "faqs").Arr?)
  }

  /** The base slug: from `slug` when it is truthy, otherwise from `title`. */
  function Base(p: Value, slugify: string -> string): Option<string>
  {
    Slugs.Slugify(if Truthy(Get(p, "slug")) then Get(p, "slug") else Get(p, "title"), slugify)
  }

  /** The fields a page keeps besides its brand and slug. */
  function Stored(fields: map<string, Value>): map<string, Value>
  {
    fields - {"slug", "brand"}
  }

  /**
   * What `createPages` answers and the collection afterwards, for the route's
   * `brandId`, the id check `isValid`, the library function `slugify` and the id the
   * database assigns.
   */
  function CreateResult(pages: seq<Page>, brandId: Id, isValid: string -> bool, body: Value,
                        slugify: string -> string, newId: Id): (Response, seq<Page>)
  {
    var p := PayloadOf(body);
    if !isValid(brandId) then (InvalidBrandId, pages)
    else if PageErrors(p) != [] then (ValidationFailed(PageErrors(p)), pages)
    else
      match Base(p, slugify)
      case None => (ServerError, pages)
      case Some(base) =>
        var slug := Slugs.Allocate(base, Competing(pages, brandId, None));
        (Created(newId, slug), pages + [Page(newId, brandId, Some(slug), Stored(Fields(p)))])
  }

  /** What the slug step of `updatePage` does with the payload. */
  datatype SlugStep = Keep | Thrown | NewSlug(slug: string)

  /**
   * A truthy `title` or `slug` regenerates the slug within the page's own brand,
   * excluding the page itself; `slugify` throws on a value that is not a string.
   */
  function SlugStepOf(pages: seq<Page>, page: Page, p: Value, slugify: string -> string): SlugStep
  {
    if Truthy(Get(p, "title")) || Truthy(Get(p, "slug")) then
      match Base(p, slugify)
      case None => Thrown
      case Some(base) => NewSlug(Slugs.Allocate(base, Competing(pages, page.brand, Some(page.id))))
    else Keep
  }

  /** `$set: payload` on a stored page, for the fields other than brand and slug. */
  function Merge(fields: map<string, Value>, p: Value): map<string, Value>
  {
    Stored(fields + Fields(p))
  }

  /**
   * The slug `$set` stores when the payload's `slug` is falsy and was not regenerated:
   * an absent one keeps the old slug, the others are cast to a string (null stays null).
   */
  function FalsySlug(v: Value, stored: Option<string>): Option<string>
    requires !Truthy(v)
  {
    if v.Undefined? then stored
    else if v.Null? then None
    else if v.Bool? then Some("false")
    else if v.Num? then Some("0")
    else if v.Str? then Some(v.s)
    else stored
  }

  /**
   * `updatePage` as written: the payload is `$set` as it stands, so a falsy `slug` is
   * stored unchecked and a `brand` moves the page to another brand, where its slug
   * was never checked. A brand that is not a valid id string fails the cast (500).
   */
  function UpdateAsWritten(pages: seq<Page>, id: Id, body: Value, slugify: string -> string,
                           isValid: string -> bool): (Response, seq<Page>)
  {
    var p := PayloadOf(body);
    match IndexOf(pages, PageId, id)
    case None => (NotFound, pages)
    case Some(i) =>
      var page := pages[i];
      var step := SlugStepOf(pages, page, p, slugify);
      if step.Thrown? then (ServerError, pages)
      else
        var slug := if step.NewSlug? then Some(step.slug) else FalsySlug(Get(p, "slug"), page.slug);
        var brand := Get(p, "brand");
        if brand.Undefined? then
          (Updated(id), pages[i := Page(id, page.brand, slug, Merge(page.fields, p))])
        else if brand.Str? && isValid(brand.s) then
          (Updated(id), pages[i := Page(id, brand.s, slug, Merge(page.fields, p))])
        else (ServerError, pages)
  }

  /**
   * `updatePage` with the page kept in its brand and a slug that was not regenerated
   * left as it is: what the per-brand slug helper is there to guarantee.
   */
  function UpdateResult(pages: seq<Page>, id: Id, body: Value, slugify: string -> string): (Response, seq<Page>)
  {
    var p := PayloadOf(body);
    match IndexOf(pages, PageId, id)
    case None => (NotFound, pages)
    case Some(i) =>
      var page := pages[i];
      match SlugStepOf(pages, page, p, slugify)
      case Thrown => (ServerError, pages)
      case Keep => (Updated(id), pages[i := Page(id, page.brand, page.slug, Merge(page.fields, p))])
      case NewSlug(slug) => (Updated(id), pages[i := Page(id, page.brand, Some(slug), Merge(page.fields, p))])
  }

  /** The checks of `createPages`, pushing one entry per failed check. */
  method ValidatePage(payload: Value) returns (errors: seq<FieldError>)
    ensures errors == PageErrors(payload)
  {
    errors := [];
    var title := Get(payload, "title");
    if !Truthy(title) || !title.Str? {
      errors := errors + [FieldError(Prop("title"), TitleRequired)];
    }
    var key := Get(payload, "key");
    if !Truthy(key) || !key.Str? {
      errors := errors + [FieldError(Prop("key"), KeyRequired)];
    }
    var content := Get(payload, "content");
    if Truthy(Get(content, "sections")) && !Get(content, "sections").Arr? {
      errors := errors + [FieldError(Sub(Prop("content"), "sections"), SectionsNotArray)];
    }
    if Truthy(Get(content, "faqs")) && !Get(content, "faqs").Arr? {
      errors := errors + [FieldError(Sub(Prop("content"), "faqs"), FaqsNotArray)];
    }
  }

  class PageStore {
    var pages: seq<Page>

    /** Ids are unique, and so are the slugs within each brand. */
    ghost predicate Valid()
      reads this
    {
      IdsUnique(pages) && ScopedUnique(pages)
    }

    constructor()
      ensures pages == [] && Valid()
    {
      pages := [];
    }

    /**
     * `generateUniqueSlug(baseSlug, brandId, pageId)`: probe `baseSlug`,
     * `baseSlug-1`, … until no page of `brandId` (other than `pageId`) holds the probe.
     */
    method GenerateUniqueSlug(baseSlug: string, brandId: string, pageId: Option<Id>) returns (slug: string)
      ensures slug == Slugs.Allocate(baseSlug, Competing(pages, brandId, pageId))
      ensures !HeldInScope(pages, slug, brandId, pageId)
    {
      ghost var held := Competing(pages, brandId, pageId);
      slug := baseSlug;
      var counter := 1;
      while HeldInScope(pages, slug, brandId, pageId)
        invariant 1 <= counter && counter - 1 <= |held|
        invariant slug == Slugs.Candidate(baseSlug, counter - 1)
        invariant forall j :: 0 <= j < counter - 1 ==> Slugs.Candidate(baseSlug, j) in held
        decreases |held| - counter
      {
        Slugs.Pigeonhole(baseSlug, held, counter);
        slug := baseSlug + "-" + NatToString(counter);
        counter := counter + 1;
      }
      Slugs.FirstFreeUnique(baseSlug, held, counter - 1);
    }

    /** `createPages`: check the brand id, validate, allocate a slug in the brand and insert. */
    method CreatePage(brandId: Id, isValid: string -> bool, body: Value, slugify: string -> string, newId: Id)
      returns (resp: Response)
      requires Valid()
      requires forall i :: 0 <= i < |pages| ==> pages[i].id != newId
      modifies this
      ensures (resp, pages) == CreateResult(old(pages), brandId, isValid, body, slugify, newId)
      ensures Valid()
    {
      var payload := PayloadOf(body);
      if !isValid(brandId) {
        return InvalidBrandId;
      }
      var errors := ValidatePage(payload);
      if errors != [] {
        return ValidationFailed(errors);
      }
      var base := Base(payload, slugify);
      if base.None? {
        return ServerError;
      }
      var slug := GenerateUniqueSlug(base.value, brandId, None);
      CreateKeepsUnique(pages, brandId, isValid, body, slugify, newId);
      pages := pages + [Page(newId, brandId, Some(slug), Stored(Fields(payload)))];
      resp := Created(newId, slug);
    }

    /** `updatePage`, keeping the page in its brand (see `UpdateResult`). */
    method UpdatePage(id: Id, body: Value, slugify: string -> string) returns (resp: Response)
      requires Valid()
      modifies this
      ensures (resp, pages) == UpdateResult(old(pages), id, body, slugify)
      ensures Valid()
    {
      var payload := PayloadOf(body);
      var found := IndexOf(pages, PageId, id);
      if found.None? {
        return NotFound;
      }
      var i := found.value;
      var page := pages[i];
      var slug := page.slug;
      var title, slugField := Get(payload, "title"), Get(payload, "slug");
      if Truthy(title) || Truthy(slugField) {
        var base := Base(payload, slugify);
        if base.None? {
          return ServerError;
        }
        var s := GenerateUniqueSlug(base.value, page.brand, Some(id));
        slug := Some(s);
      }
      UpdateKeepsUnique(pages, id, body, slugify);
      pages := pages[i := Page(id, page.brand, slug, Merge(page.fields, payload))];
      resp := Updated(id);
    }
  }

  // ---------------------------------------------------------------------------
  // Properties

  /** The page checks pass exactly for a body with a non-empty title and key and array-or-falsy content lists. */
  lemma PageErrorsIff(p: Value)
    ensures PageErrors(p) == [] <==> Acceptable(p)
  {
  }

  /** Unlike a brand name, a page title of white space only is accepted. */
  lemma BlankTitleAccepted()
    ensures PageErrors(Obj(map["title" := Str(" "), "key" := Str("k")])) == []
  {
    var p := Obj(map["title" := Str(" "), "key" := Str("k")]);
    assert Get(p, "title") == Str(" ") && Get(p, "key") == Str("k");
    assert Get(p, "content") == Undefined;
  }

  /** An invalid brand id is answered before the body is looked at. */
  lemma InvalidBrandIdFirst(pages: seq<Page>, brandId: Id, isValid: string -> bool, body: Value,
                            slugify: string -> string, newId: Id)
    requires !isValid(brandId)
    ensures CreateResult(pages, brandId, isValid, body, slugify, newId) == (InvalidBrandId, pages)
  {
  }

  /**
   * A create changes nothing or appends one page of `brandId` whose slug no page of
   * that brand held; ids and per-brand slugs stay unique, and there is no 409.
   */
  lemma CreateKeepsUnique(pages: seq<Page>, brandId: Id, isValid: string -> bool, body: Value,
                          slugify: string -> string, newId: Id)
    requires IdsUnique(pages) && ScopedUnique(pages)
    requires forall i :: 0 <= i < |pages| ==> pages[i].id != newId
    ensures var (resp, after) := CreateResult(pages, brandId, isValid, body, slugify, newId);
      && IdsUnique(after) && ScopedUnique(after)
      && resp != DuplicateKey
      && (resp.Created? ==>
            && |after| == |pages| + 1 && after[..|pages|] == pages
            && after[|pages|].id == newId == resp.id
            && after[|pages|].brand == brandId && after[|pages|].slug == Some(resp.slug)
            && !HeldInScope(pages, resp.slug, brandId, None))
      && (!resp.Created? ==> after == pages)
  {
    var (resp, after) := CreateResult(pages, brandId, isValid, body, slugify, newId);
    if resp.Created? {
      assert after[..|pages|] == pages;
    }
  }

  /**
   * An update keeps every page in its brand, touches no page but `id`, keeps ids and
   * per-brand slugs unique, and leaves the slug alone unless `title` or `slug` asks
   * for a new one.
   */
  lemma UpdateKeepsUnique(pages: seq<Page>, id: Id, body: Value, slugify: string -> string)
    requires IdsUnique(pages) && ScopedUnique(pages)
    ensures var (resp, after) := UpdateResult(pages, id, body, slugify);
      && IdsUnique(after) && ScopedUnique(after)
      && |after| == |pages|
      && (forall j :: 0 <= j < |pages| ==> after[j].id == pages[j].id && after[j].brand == pages[j].brand)
      && (forall j :: 0 <= j < |pages| && pages[j].id != id ==> after[j] == pages[j])
      && (var p := PayloadOf(body);
          !Truthy(Get(p, "title")) && !Truthy(Get(p, "slug")) ==>
            forall j :: 0 <= j < |pages| ==> after[j].slug == pages[j].slug)
  {
    var (resp, after) := UpdateResult(pages, id, body, slugify);
    var found := IndexOf(pages, PageId, id);
    if found.Some? && resp.Updated? {
      var i := found.value;
      var slug := after[i].slug;
      assert slug == pages[i].slug || (slug.Some? && !HeldInScope(pages, slug.value, pages[i].brand, Some(id)));
      forall j | 0 <= j < |pages| && j != i
        ensures pages[j].id != id && after[j] == pages[j]
        ensures pages[j].brand == pages[i].brand && slug.Some? ==> pages[j].slug != slug
      {
        assert pages[j].id != pages[i].id;
      }
    }
  }

  /** An unknown page id is answered with 404 whatever the body. */
  lemma UpdateUnknownId(pages: seq<Page>, id: Id, body: Value, slugify: string -> string)
    requires forall i :: 0 <= i < |pages| ==> pages[i].id != id
    ensures UpdateResult(pages, id, body, slugify) == (NotFound, pages)
    ensures forall isValid: string -> bool :: UpdateAsWritten(pages, id, body, slugify, isValid) == (NotFound, pages)
  {
  }

  /** Pages of other brands never affect the allocation in `brand`. */
  lemma {:induction false} ScopeIndependence(pages: seq<Page>, others: seq<Page>, brand: string, pageId: Option<Id>)
    requires forall k :: 0 <= k < |others| ==> others[k].brand != brand
    ensures Competing(pages + others, brand, pageId) == Competing(pages, brand, pageId)
  {
    var all := pages + others;
    forall s ensures HeldInScope(all, s, brand, pageId) <==> HeldInScope(pages, s, brand, pageId) {
      if HeldInScope(all, s, brand, pageId) {
        var i :| 0 <= i < |all| && all[i].brand == brand && all[i].slug == Some(s)
          && (pageId.None? || all[i].id != pageId.value);
        assert i < |pages|;
        assert all[i] == pages[i];
      }
      if HeldInScope(pages, s, brand, pageId) {
        var i :| 0 <= i < |pages| && pages[i].brand == brand && pages[i].slug == Some(s)
          && (pageId.None? || pages[i].id != pageId.value);
        assert all[i] == pages[i];
      }
    }
  }

  /** Two brands may hold the same slug: a slug taken in brand "A" is free in brand "B". */
  lemma DifferentBrandsShareSlug(slug: string)
    ensures Slugs.Allocate(slug, Competing([Page("1", "A", Some(slug), map[])], "B", None)) == slug
  {
    Slugs.AllocateFreeBase(slug, Competing([Page("1", "A", Some(slug), map[])], "B", None));
  }

  /**
   * Without a page id a page's own slug counts as taken; with its id it does not, so
   * regenerating a page's slug from its own slug keeps it.
   */
  lemma SelfExclusion(pages: seq<Page>, i: nat)
    requires IdsUnique(pages) && ScopedUnique(pages) && i < |pages| && pages[i].slug.Some?
    ensures var p := pages[i];
      && Slugs.Allocate(p.slug.value, Competing(pages, p.brand, Some(p.id))) == p.slug.value
      && Slugs.Allocate(p.slug.value, Competing(pages, p.brand, None)) != p.slug.value
  {
    var p := pages[i];
    forall j | 0 <= j < |pages| && pages[j].brand == p.brand && pages[j].id != p.id
      ensures pages[j].slug != p.slug
    {
      assert j != i;
    }
    Slugs.AllocateFreeBase(p.slug.value, Competing(pages, p.brand, Some(p.id)));
    assert HeldInScope(pages, p.slug.value, p.brand, None);
  }

  /**
   * Creations in one brand from the same base, starting where no page of the brand
   * holds any probe of it, are given `base`, `base-1`, `base-2`, … in order.
   */
  lemma {:induction false} SequentialCreations(pages: seq<Page>, brand: string, base: string, made: seq<Page>)
    requires forall j :: Slugs.Candidate(base, j) !in Competing(pages, brand, None)
    requires forall k :: 0 <= k < |made| ==> made[k].brand == brand && made[k].slug == Some(Slugs.Candidate(base, k))
    ensures Slugs.Allocate(base, Competing(pages + made, brand, None)) == Slugs.Candidate(base, |made|)
  {
    CompetingAppend(pages, made, brand);
    MadeHoldProbes(brand, base, made);
    Slugs.AllocateInSequence(base, Competing(pages, brand, None), |made|);
  }

  /** The slugs held in a brand by two runs of pages are those of each run. */
  lemma CompetingAppend(pages: seq<Page>, others: seq<Page>, brand: string)
    ensures Competing(pages + others, brand, None) == Competing(pages, brand, None) + Competing(others, brand, None)
  {
    var all := pages + others;
    forall s | HeldInScope(all, s, brand, None)
      ensures HeldInScope(pages, s, brand, None) || HeldInScope(others, s, brand, None)
    {
      var i :| 0 <= i < |all| && all[i].brand == brand && all[i].slug == Some(s);
      if i < |pages| {
        assert all[i] == pages[i];
      } else {
        assert all[i] == others[i - |pages|];
      }
    }
    forall s | HeldInScope(pages, s, brand, None)
      ensures HeldInScope(all, s, brand, None)
    {
      var i :| 0 <= i < |pages| && pages[i].brand == brand && pages[i].slug == Some(s);
      assert all[i] == pages[i];
    }
    forall s | HeldInScope(others, s, brand, None)
      ensures HeldInScope(all, s, brand, None)
    {
      var i :| 0 <= i < |others| && others[i].brand == brand && others[i].slug == Some(s);
      assert all[|pages| + i] == others[i];
    }
  }

  /** Pages holding the first probes of `base` in order hold exactly those probes. */
  lemma MadeHoldProbes(brand: string, base: string, made: seq<Page>)
    requires forall k :: 0 <= k < |made| ==> made[k].brand == brand && made[k].slug == Some(Slugs.Candidate(base, k))
    ensures Competing(made, brand, None) == Slugs.Probed(base, |made|)
  {
    forall s | HeldInScope(made, s, brand, None)
      ensures s in Slugs.Probed(base, |made|)
    {
      var i :| 0 <= i < |made| && made[i].brand == brand && made[i].slug == Some(s);
    }
    forall s | s in Slugs.Probed(base, |made|)
      ensures HeldInScope(made, s, brand, None)
    {
      var k :| 0 <= k < |made| && Slugs.Candidate(base, k) == s;
      assert made[k].slug == Some(s);
    }
  }

  // ---------------------------------------------------------------------------
  // updatePage as written

  /**
   * Moving a page to another brand keeps its slug unchecked: with two pages of slug
   * "x" in brands "A" and "B", moving the second to "A" leaves "A" with "x" twice.
   */
  lemma MoveBreaksScopedUnique(slugify: string -> string, isValid: string -> bool)
    requires isValid("A")
    ensures var pages := [Page("1", "A", Some("x"), map[]), Page("2", "B", Some("x"), map[])];
      var (resp, after) := UpdateAsWritten(pages, "2", Obj(map["brand" := Str("A")]), slugify, isValid);
      && IdsUnique(pages) && ScopedUnique(pages)
      && resp == Updated("2") && !ScopedUnique(after)
  {
    var pages := [Page("1", "A", Some("x"), map[]), Page("2", "B", Some("x"), map[])];
    var body := Obj(map["brand" := Str("A")]);
    assert Get(body, "brand") == Str("A") && Get(body, "title") == Undefined && Get(body, "slug") == Undefined;
    assert IndexOf(pages, PageId, "2") == Some(1);
    var after := UpdateAsWritten(pages, "2", body, slugify, isValid).1;
    assert after[0].brand == after[1].brand && after[0].slug == after[1].slug == Some("x");
  }

  /**
   * An empty `slug` is falsy, so it is stored as it is: a page created from a title
   * that slugifies to "" holds "", and updating another page of its brand with
   * `{ slug: "" }` gives a second page with slug "".
   */
  lemma EmptySlugBreaksScopedUnique(slugify: string -> string, isValid: string -> bool)
    ensures var pages := [Page("1", "A", Some(""), map[]), Page("2", "A", Some("y"), map[])];
      var (resp, after) := UpdateAsWritten(pages, "2", Obj(map["slug" := Str("")]), slugify, isValid);
      && IdsUnique(pages) && ScopedUnique(pages)
      && resp == Updated("2") && !ScopedUnique(after)
  {
    var pages := [Page("1", "A", Some(""), map[]), Page("2", "A", Some("y"), map[])];
    var body := Obj(map["slug" := Str("")]);
    assert Get(body, "brand") == Undefined && Get(body, "title") == Undefined && Get(body, "slug") == Str("");
    assert IndexOf(pages, PageId, "2") == Some(1);
    var after := UpdateAsWritten(pages, "2", body, slugify, isValid).1;
    assert after[0].brand == after[1].brand && after[0].slug == after[1].slug == Some("");
  }

  /** Where the body supplies neither `brand` nor a falsy `slug`, the corrected update is the update as written. */
  lemma UpdateAgreesWithAsWritten(pages: seq<Page>, id: Id, body: Value, slugify: string -> string,
                                  isValid: string -> bool)
    requires Get(PayloadOf(body), "brand").Undefined?
    requires Truthy(Get(PayloadOf(body), "slug")) || Get(PayloadOf(body), "slug").Undefined?
    ensures UpdateAsWritten(pages, id, body, slugify, isValid) == UpdateResult(pages, id, body, slugify)
  {
  }
}
