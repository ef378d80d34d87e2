/**
 * The brand collection and the two handlers that write to it, `brandCreate` and
 * `brandUpdate`. The collection is a sequence of records; its unique index on `slug`
 * is the `Valid` invariant of the store, and an insert that would break it is the
 * duplicate-key error (11000) the handlers answer with 409.
 */
module Brands {
  import opened Js
  import opened Http
  import Slugs
  import opened BrandValidation

  /** A stored brand: its `_id`, its `slug` and every other field the body supplied. */
  datatype Brand = Brand(id: Id, slug: string, fields: map<string, Value>)

  predicate IdsUnique(brands: seq<Brand>)
  {
    forall i, j :: 0 <= i < j < |brands| ==> brands[i].id != brands[j].id
  }

  /** The unique index on `slug` of the brand schema. */
  predicate SlugsUnique(brands: seq<Brand>)
  {
    forall i, j :: 0 <= i < j < |brands| ==> brands[i].slug != brands[j].slug
  }

  /** `findOne({ slug })` finds a brand. */
  predicate Held(brands: seq<Brand>, slug: string)
  {
    exists i :: 0 <= i < |brands| && brands[i].slug == slug
  }

  /** `findOne({ slug, _id: { $ne: exclude } })` finds a brand. */
  predicate HeldByOther(brands: seq<Brand>, slug: string, exclude: Id)
  {
    exists i :: 0 <= i < |brands| && brands[i].id != exclude && brands[i].slug == slug
  }

  lemma HeldByOtherStep(brands: seq<Brand>, exclude: Id)
    requires brands != []
    ensures forall s :: HeldByOther(brands, s, exclude) <==>
      (brands[0].id != exclude && brands[0].slug == s) || HeldByOther(brands[1..], s, exclude)
  {
    forall s
      ensures HeldByOther(brands, s, exclude) <==>
        (brands[0].id != exclude && brands[0].slug == s) || HeldByOther(brands[1..], s, exclude)
    {
      if HeldByOther(brands[1..], s, exclude) {
        var i :| 0 <= i < |brands[1..]| && brands[1..][i].id != exclude && brands[1..][i].slug == s;
        assert brands[i + 1] == brands[1..][i];
      }
      if HeldByOther(brands, s, exclude) {
        var i :| 0 <= i < |brands| && brands[i].id != exclude && brands[i].slug == s;
        if i > 0 {
          assert brands[1..][i - 1] == brands[i];
        }
      }
    }
  }

  /**
   * The slugs of the brands other than `exclude`: the set the probe loop of
   * `generateUniqueSlug` runs against. It has at most one slug per brand.
   */
  function Competing(brands: seq<Brand>, exclude: Id): (held: set<string>)
    ensures |held| <= |brands|
    ensures forall s :: s in held <==> HeldByOther(brands, s, exclude)
  {
    if brands == [] then {}
    else
      var rest := Competing(brands[1..], exclude);
      HeldByOtherStep(brands, exclude);
      if brands[0].id != exclude then {brands[0].slug} + rest else rest
  }

  /** The id of a brand, the key `findById` looks up. */
  function BrandId(x: Brand): Id
  {
    x.id
  }

  /** `req.body || {}`. */
  function PayloadOf(body: Value): Value
  {
    if Truthy(body) then body else Obj(map[])
  }

  /** `sanitizeStr`: a string is trimmed, anything else passes through. */
  function SanitizeStr(v: Value): Value
  {
    if v.Str? then Str(Trim(v.s)) else v
  }

  /** The name is always sanitized, the intro only when it is truthy. */
  function Sanitize(p: Value): Value
  {
    var named := Set(p, "name", SanitizeStr(Get(p, "name")));
    var intro := Get(named, "intro");
    if Truthy(intro) then Set(named, "intro", SanitizeStr(intro)) else named
  }

  /** The base slug on create: from a non-blank `slug`, otherwise from `name`. */
  function CreateBase(doc: Value, slugify: string -> string): Option<string>
  {
    var slug := Get(doc, "slug");
    Slugs.Slugify(if Truthy(slug) && IsNonEmptyString(slug) then slug else Get(doc, "name"), slugify)
  }

  /** A random suffix of at most five characters: `Math.random().toString(36).slice(2, 7)`. */
  predicate IsRandomSuffix(suffix: string)
  {
    |suffix| <= 5 && forall i :: 0 <= i < |suffix| ==> '0' <= suffix[i] <= '9' || 'a' <= suffix[i] <= 'z'
  }

  /** The slug `brandCreate` saves: the base, or the base with the suffix when the base is held. */
  function CreateSlug(brands: seq<Brand>, base: string, suffix: string): string
  {
    if Held(brands, base) then base + "-" + suffix else base
  }

  /** The fields a brand keeps: the slug lives in its own component of the record. */
  function Stored(fields: map<string, Value>): map<string, Value>
  {
    fields - {"slug"}
  }

  /**
   * The part of `brandCreate` after validation, on the sanitized body `doc`: derive the
   * base slug, add the suffix when the base is held, and insert.
   */
  function InsertResult(brands: seq<Brand>, doc: Value, slugify: string -> string, suffix: string, newId: Id)
    : (Response, seq<Brand>)
  {
    match CreateBase(doc, slugify)
    case None => (ServerError, brands)
    case Some(base) =>
      var slug := CreateSlug(brands, base, suffix);
      if Held(brands, slug) then (DuplicateKey, brands)
      else (Created(newId, slug), brands + [Brand(newId, slug, Stored(Fields(doc)))])
  }

  /**
   * What `brandCreate` answers and the collection afterwards, for the body `body`, the
   * library function `slugify`, the random `suffix` and the id the database assigns.
   */
  function CreateResult(brands: seq<Brand>, body: Value, slugify: string -> string, suffix: string, newId: Id)
    : (Response, seq<Brand>)
  {
    var p := PayloadOf(body);
    if CreateThrows(p) then (ServerError, brands)
    else if CreateErrors(p) != [] then (ValidationFailed(CreateErrors(p)), brands)
    else InsertResult(brands, Sanitize(RewriteKeywords(p)), slugify, suffix, newId)
  }

  /** `$set: payload` on a stored brand. */
  function Merge(fields: map<string, Value>, p: Value): map<string, Value>
  {
    Stored(fields + Fields(p))
  }

  /** The base slug on update: from `slug` when it is truthy, otherwise from `name`. */
  function UpdateBase(p: Value, slugify: string -> string): Option<string>
  {
    Slugs.Slugify(if Truthy(Get(p, "slug")) then Get(p, "slug") else Get(p, "name"), slugify)
  }

  /** What `brandUpdate` answers and the collection afterwards. */
  function UpdateResult(brands: seq<Brand>, id: Id, body: Value, slugify: string -> string)
    : (Response, seq<Brand>)
  {
    var p := PayloadOf(body);
    match IndexOf(brands, BrandId, id)
    case None => (NotFound, brands)
    case Some(i) =>
      if UpdateErrors(p) != [] then (ValidationFailed(UpdateErrors(p)), brands)
      else if Truthy(Get(p, "name")) || Truthy(Get(p, "slug")) then
        match UpdateBase(p, slugify)
        case None => (ServerError, brands)
        case Some(base) =>
          var slug := Slugs.Allocate(base, Competing(brands, id));
          (Updated(id), brands[i := Brand(id, slug, Merge(brands[i].fields, p))])
      else
        (Updated(id), brands[i := Brand(id, brands[i].slug, Merge(brands[i].fields, p))])
  }

  class BrandStore {
    var brands: seq<Brand>

    ghost predicate Valid()
      reads this
    {
      IdsUnique(brands) && SlugsUnique(brands)
    }

    constructor()
      ensures brands == [] && Valid()
    {
      brands := [];
    }

    /**
     * `generateUniqueSlug(baseSlug, brandId)`: probe `baseSlug`, `baseSlug-1`, … until
     * no brand other than `brandId` holds the probe.
     */
    method GenerateUniqueSlug(baseSlug: string, brandId: Id) returns (slug: string)
      ensures slug == Slugs.Allocate(baseSlug, Competing(brands, brandId))
      ensures !HeldByOther(brands, slug, brandId)
    {
      ghost var held := Competing(brands, brandId);
      slug := baseSlug;
      var counter := 1;
      while HeldByOther(brands, slug, brandId)
        invariant 1 <= counter && counter - 1 <= |held|
        invariant slug == Slugs.Candidate(baseSlug, counter - 1)
        invariant forall j :: 0 <= j < counter - 1 ==> Slugs.Candidate(baseSlug, j) in held
        decreases |held| - counter
      {
        Slugs.Pigeonhole(baseSlug, held, counter);
        slug := baseSlug + "-" + NatToString(counter);
        counter := counter + 1;
      }
      Slugs.FirstFreeUnique(baseSlug, held, counter - 1);
    }

    /** `brandCreate`: validate, sanitize, choose a slug and insert. */
    method BrandCreate(body: Value, slugify: string -> string, suffix: string, newId: Id) returns (resp: Response)
      requires Valid() && IsRandomSuffix(suffix)
      requires forall i :: 0 <= i < |brands| ==> brands[i].id != newId
      modifies this
      ensures (resp, brands) == CreateResult(old(brands), body, slugify, suffix, newId)
      ensures Valid()
    {
      var payload := PayloadOf(body);
      var errors, thrown, rewritten := ValidateBrandCreate(payload);
      if thrown {
        return ServerError;
      }
      if errors != [] {
        return ValidationFailed(errors);
      }
      resp := Insert(Sanitize(rewritten), slugify, suffix, newId);
    }

    /** The slug choice and the save of `brandCreate`, once the body is accepted. */
    method Insert(doc: Value, slugify: string -> string, suffix: string, newId: Id) returns (resp: Response)
      requires Valid()
      requires forall i :: 0 <= i < |brands| ==> brands[i].id != newId
      modifies this
      ensures (resp, brands) == InsertResult(old(brands), doc, slugify, suffix, newId)
      ensures Valid()
    {
      var base := CreateBase(doc, slugify);
      if base.None? {
        return ServerError;
      }
      var slug := base.value;
      if Held(brands, slug) {
        slug := slug + "-" + suffix;
      }
      if Held(brands, slug) {
        return DuplicateKey;  // the unique index rejects the insert
      }
      brands := brands + [Brand(newId, slug, Stored(Fields(doc)))];
      resp := Created(newId, slug);
    }

    /** `brandUpdate`: find, validate, regenerate the slug when asked to, and `$set`. */
    method BrandUpdate(id: Id, body: Value, slugify: string -> string) returns (resp: Response)
      requires Valid()
      modifies this
      ensures (resp, brands) == UpdateResult(old(brands), id, body, slugify)
      ensures Valid()
    {
      var payload := PayloadOf(body);
      var found := IndexOf(brands, BrandId, id);
      if found.None? {
        return NotFound;
      }
      var errors := ValidateBrandUpdate(payload);
      if errors != [] {
        return ValidationFailed(errors);
      }
      var i := found.value;
      var slug := brands[i].slug;
      if Truthy(Get(payload, "name")) || Truthy(Get(payload, "slug")) {
        var base := UpdateBase(payload, slugify);
        if base.None? {
          return ServerError;
        }
        slug := GenerateUniqueSlug(base.value, id);
      }
      UpdateKeepsUnique(brands, id, body, slugify);
      brands := brands[i := Brand(id, slug, Merge(brands[i].fields, payload))];
      resp := Updated(id);
    }
  }

  // ---------------------------------------------------------------------------
  // Properties

  /**
   * A create either changes nothing or appends one brand, with the new id and a slug
   * no brand held before; ids and slugs stay unique.
   */
  lemma CreateKeepsUnique(brands: seq<Brand>, body: Value, slugify: string -> string, suffix: string, newId: Id)
    requires IdsUnique(brands) && SlugsUnique(brands)
    requires forall i :: 0 <= i < |brands| ==> brands[i].id != newId
    ensures var (resp, after) := CreateResult(brands, body, slugify, suffix, newId);
      && IdsUnique(after) && SlugsUnique(after)
      && (resp.Created? ==>
            && |after| == |brands| + 1 && after[..|brands|] == brands
            && after[|brands|].id == newId == resp.id && after[|brands|].slug == resp.slug
            && !Held(brands, resp.slug))
      && (!resp.Created? ==> after == brands)
  {
    var p := PayloadOf(body);
    if !CreateThrows(p) && CreateErrors(p) == [] {
      InsertKeepsUnique(brands, Sanitize(RewriteKeywords(p)), slugify, suffix, newId);
    }
  }

  lemma InsertKeepsUnique(brands: seq<Brand>, doc: Value, slugify: string -> string, suffix: string, newId: Id)
    requires IdsUnique(brands) && SlugsUnique(brands)
    requires forall i :: 0 <= i < |brands| ==> brands[i].id != newId
    ensures var (resp, after) := InsertResult(brands, doc, slugify, suffix, newId);
      && IdsUnique(after) && SlugsUnique(after)
      && (resp.Created? ==>
            && |after| == |brands| + 1 && after[..|brands|] == brands
            && after[|brands|].id == newId == resp.id && after[|brands|].slug == resp.slug
            && !Held(brands, resp.slug))
      && (!resp.Created? ==> after == brands)
  {
    var (resp, after) := InsertResult(brands, doc, slugify, suffix, newId);
    if resp.Created? {
      assert after[..|brands|] == brands;
    }
  }

  /**
   * An update keeps the number of brands and every id, touches no brand but `id`,
   * keeps ids and slugs unique and so never meets the duplicate-key error.
   */
  lemma UpdateKeepsUnique(brands: seq<Brand>, id: Id, body: Value, slugify: string -> string)
    requires IdsUnique(brands) && SlugsUnique(brands)
    ensures var (resp, after) := UpdateResult(brands, id, body, slugify);
      && IdsUnique(after) && SlugsUnique(after)
      && |after| == |brands|
      && (forall j :: 0 <= j < |brands| ==> after[j].id == brands[j].id)
      && (forall j :: 0 <= j < |brands| && brands[j].id != id ==> after[j] == brands[j])
      && resp != DuplicateKey
      && (resp.Updated? ==> resp.id == id)
  {
    var (resp, after) := UpdateResult(brands, id, body, slugify);
    var found := IndexOf(brands, BrandId, id);
    if found.Some? && resp.Updated? {
      var i := found.value;
      var slug := after[i].slug;
      assert slug == brands[i].slug || !HeldByOther(brands, slug, id);
      forall j | 0 <= j < |brands| && j != i
        ensures brands[j].id != id && after[j] == brands[j] && brands[j].slug != slug
      {
        assert brands[j].id != brands[i].id;
      }
    }
  }

  /**
   * An accepted update leaves the stored slug as it was unless `name` or `slug` is
   * supplied; a supplied `slug` is the base of the new one, ahead of `name`.
   */
  lemma UpdateSlugSource(brands: seq<Brand>, id: Id, body: Value, slugify: string -> string)
    requires IndexOf(brands, BrandId, id).Some? && UpdateErrors(PayloadOf(body)) == []
    ensures var p, i := PayloadOf(body), IndexOf(brands, BrandId, id).value;
      var (resp, after) := UpdateResult(brands, id, body, slugify);
      && (!Truthy(Get(p, "name")) && !Truthy(Get(p, "slug")) ==>
            resp == Updated(id) && after[i].slug == brands[i].slug)
      && (Get(p, "slug").Str? && Get(p, "slug").s != "" ==>
            resp == Updated(id)
            && after[i].slug == Slugs.Allocate(slugify(Get(p, "slug").s), Competing(brands, id)))
      && (Get(p, "slug").Undefined? && Get(p, "name").Str? ==>
            resp == Updated(id)
            && after[i].slug == Slugs.Allocate(slugify(Get(p, "name").s), Competing(brands, id)))
  {
    var p := PayloadOf(body);
    if Get(p, "slug").Undefined? && Get(p, "name").Str? {
      assert UpdateTopLevelErrors(p) == [];
      assert Get(p, "name").s != [];
    }
  }

  /**
   * A brand whose slug is regenerated from the slug it already has keeps it: its own
   * record is excluded from the probe.
   */
  lemma OwnSlugKept(brands: seq<Brand>, i: nat)
    requires IdsUnique(brands) && SlugsUnique(brands) && i < |brands|
    ensures Slugs.Allocate(brands[i].slug, Competing(brands, brands[i].id)) == brands[i].slug
  {
    forall j | 0 <= j < |brands| && brands[j].id != brands[i].id
      ensures brands[j].slug != brands[i].slug
    {
      assert j != i;
    }
    Slugs.AllocateFreeBase(brands[i].slug, Competing(brands, brands[i].id));
  }

  /**
   * A regenerated slug on update is the base itself or `base-k` for some k at most the
   * number of brands: each probe past the base is held by a different brand.
   */
  lemma UpdateSlugShape(brands: seq<Brand>, id: Id, base: string)
    ensures var slug := Slugs.Allocate(base, Competing(brands, id));
      !HeldByOther(brands, slug, id)
      && (slug == base || exists k: nat :: 1 <= k <= |brands| && slug == base + "-" + NatToString(k))
      && (!HeldByOther(brands, base, id) ==> slug == base)
  {
    var held := Competing(brands, id);
    if base in held {
      Slugs.AllocateHeldBase(base, held);
    } else {
      Slugs.AllocateFreeBase(base, held);
    }
  }

  /**
   * `brandCreate` looks up the base slug only: the suffixed slug is saved unchecked,
   * and when it is held as well the unique index rejects the insert with a 409.
   */
  lemma CreateSuffixCollision(brands: seq<Brand>, body: Value, slugify: string -> string, suffix: string, newId: Id)
    requires !CreateThrows(PayloadOf(body)) && CreateErrors(PayloadOf(body)) == []
    requires var base := CreateBase(Sanitize(RewriteKeywords(PayloadOf(body))), slugify);
      base.Some? && Held(brands, base.value) && Held(brands, base.value + "-" + suffix)
    ensures CreateResult(brands, body, slugify, suffix, newId) == (DuplicateKey, brands)
  {
  }

  /** A create whose base slug is held, but whose suffixed slug is free, saves the brand under `base-suffix`. */
  lemma CreateHeldBase(brands: seq<Brand>, body: Value, slugify: string -> string, suffix: string, newId: Id)
    requires !CreateThrows(PayloadOf(body)) && CreateErrors(PayloadOf(body)) == []
    requires var base := CreateBase(Sanitize(RewriteKeywords(PayloadOf(body))), slugify);
      base.Some? && Held(brands, base.value) && !Held(brands, base.value + "-" + suffix)
    ensures CreateResult(brands, body, slugify, suffix, newId).0
      == Created(newId, CreateBase(Sanitize(RewriteKeywords(PayloadOf(body))), slugify).value + "-" + suffix)
  {
  }

  /** Such a collection is a valid state of the store: both slugs can be held at once. */
  lemma SuffixCollisionReachable(suffix: string)
    requires IsRandomSuffix(suffix)
    ensures var brands := [Brand("1", "acme", map[]), Brand("2", "acme-" + suffix, map[])];
      IdsUnique(brands) && SlugsUnique(brands)
      && Held(brands, "acme") && Held(brands, "acme" + "-" + suffix)
  {
    var brands := [Brand("1", "acme", map[]), Brand("2", "acme-" + suffix, map[])];
    assert brands[0].slug != brands[1].slug by {
      assert |brands[1].slug| > |brands[0].slug|;
    }
    assert brands[1].slug == "acme" + "-" + suffix;
  }

  /** A create whose base slug is free saves the brand under the base itself. */
  lemma CreateFreeBase(brands: seq<Brand>, body: Value, slugify: string -> string, suffix: string, newId: Id)
    requires !CreateThrows(PayloadOf(body)) && CreateErrors(PayloadOf(body)) == []
    requires var base := CreateBase(Sanitize(RewriteKeywords(PayloadOf(body))), slugify);
      base.Some? && !Held(brands, base.value)
    ensures CreateResult(brands, body, slugify, suffix, newId).0
      == Created(newId, CreateBase(Sanitize(RewriteKeywords(PayloadOf(body))), slugify).value)
  {
  }

  /** Sanitizing a body with a string name trims the name. */
  lemma SanitizedName(q: Value)
    requires q.Obj? && Get(q, "name").Str?
    ensures Get(Sanitize(q), "name") == Str(Trim(Get(q, "name").s))
  {
    var named := Set(q, "name", SanitizeStr(Get(q, "name")));
    GetSet(q, "name", SanitizeStr(Get(q, "name")), "name");
    var intro := Get(named, "intro");
    if Truthy(intro) {
      GetSet(named, "intro", SanitizeStr(intro), "name");
    }
  }

  /** A sanitized body with a string name always has a base slug. */
  lemma SanitizedHasBase(q: Value, slugify: string -> string)
    requires q.Obj? && Get(q, "name").Str?
    ensures CreateBase(Sanitize(q), slugify).Some?
  {
    SanitizedName(q);
    var doc := Sanitize(q);
    assert Get(doc, "name").Str?;
  }

  /** An accepted create always reaches `slugify`, with the name trimmed. */
  lemma AcceptedCreateHasBase(body: Value, slugify: string -> string)
    requires !CreateThrows(PayloadOf(body)) && CreateErrors(PayloadOf(body)) == []
    ensures var doc := Sanitize(RewriteKeywords(PayloadOf(body)));
      CreateBase(doc, slugify).Some?
      && Get(doc, "name") == Str(Trim(Get(PayloadOf(body), "name").s))
  {
    var p := PayloadOf(body);
    AcceptedCreateBody(p);
    RewriteKeywordsFrame(p, "name");
    SanitizedName(RewriteKeywords(p));
    SanitizedHasBase(RewriteKeywords(p), slugify);
  }

  /**
   * A body whose `name` is missing, not a string or only white space is rejected with
   * the `name` entry first, and nothing is saved.
   */
  lemma BlankNameRejected(brands: seq<Brand>, body: Value, slugify: string -> string, suffix: string, newId: Id)
    requires !CreateThrows(PayloadOf(body)) && !IsNonEmptyString(Get(PayloadOf(body), "name"))
    ensures var (resp, after) := CreateResult(brands, body, slugify, suffix, newId);
      && resp.ValidationFailed? && resp.Status() == 400
      && resp.errors[0] == FieldError(Prop("name"), NameRequired)
      && after == brands
  {
    var p := PayloadOf(body);
    assert CreateErrors(p)[0] == TopLevelErrors(p)[0];
  }

  /** An unknown id is answered with 404 whatever the body, before any validation. */
  lemma UpdateUnknownId(brands: seq<Brand>, id: Id, body: Value, slugify: string -> string)
    requires forall i :: 0 <= i < |brands| ==> brands[i].id != id
    ensures UpdateResult(brands, id, body, slugify) == (NotFound, brands)
  {
  }
}
