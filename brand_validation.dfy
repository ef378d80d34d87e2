/**
 * The request-body validation of `brandCreate` and `brandUpdate`. Each handler walks
 * the body section by section, pushing `{ field, message }` entries onto an `errors`
 * array. Here every section has a specification function saying which entries it
 * pushes, and a method that walks the body the way the handler does and is proved to
 * push exactly those.
 *
 * `typeof null === "object"`, so a `null` where the create handler expects an object
 * passes the object test and the next property read throws a TypeError, which the
 * handler's catch turns into a 500. `CreateThrows` says when that happens.
 */
module BrandValidation {
  import opened Js
  import opened Http

  // ---------------------------------------------------------------------------
  // The messages brandCreate pushes

  const NameRequired := "Brand name is required and must be a non-empty string."
  const SlugNotString := "Slug must be a string."
  const IntroNotString := "Intro must be a string."
  const EligibilityNotArray := "Eligibility must be an array of strings."
  const AssetsNotObject := "Assets must be an object."
  const SrcNotNonEmpty := "src must be a non-empty string."
  const AltNotString := "alt must be a string."
  const WidthNotNumber := "width must be a number."
  const HeightNotNumber := "height must be a number."
  const SeoNotObject := "seo must be an object."
  const SeoTitleNotString := "seo.title must be a string."
  const SeoDescriptionNotString := "seo.description must be a string."
  const KeywordsNotListOrString := "seo.keywords must be an array of strings or a comma-separated string."
  const KeywordNotString := "Each seo.keyword must be a string."
  const SeoOgImageNotString := "seo.ogImage must be a string."
  const SeoTwitterImageNotString := "seo.twitterImage must be a string."
  const SeoCanonicalNotString := "seo.canonical must be a string."
  const CitiesNotArray := "cities must be an array."
  const CityNotObject := "Each city must be an object."
  const CityNameNotNonEmpty := "City name must be a non-empty string."
  const CityDescriptionNotString := "City description must be a string."
  const FaqsNotArray := "faqs must be an array."
  const FaqNotObject := "Each faq must be an object."
  const QuestionRequired := "Question (q) is required and must be a non-empty string."
  const AnswerRequired := "Answer (a) is required and must be a non-empty string."
  const DisclaimerNotString := "disclaimer must be a string."

  // ---------------------------------------------------------------------------
  // Specification: brandCreate

  /** One entry when `v` is neither absent nor a string (`isStringIfProvided` fails). */
  function StringIfProvidedError(v: Value, field: Path, message: string): seq<FieldError>
  {
    if IsStringIfProvided(v) then [] else [FieldError(field, message)]
  }

  /** `name` (required), `slug`, `intro` and `eligibility`. */
  function TopLevelErrors(p: Value): seq<FieldError>
  {
    (if IsNonEmptyString(Get(p, "name")) then [] else [FieldError(Prop("name"), NameRequired)])
    + StringIfProvidedError(Get(p, "slug"), Prop("slug"), SlugNotString)
    + StringIfProvidedError(Get(p, "intro"), Prop("intro"), IntroNotString)
    + (if Truthy(Get(p, "eligibility")) && !Get(p, "eligibility").Arr?
       then [FieldError(Prop("eligibility"), EligibilityNotArray)] else [])
  }

  /** `checkAsset(asset, name)` on an asset that is not null. */
  function AssetErrors(asset: Value, name: string): seq<FieldError>
  {
    var at := Sub(Prop("assets"), name);
    if asset.Undefined? then []
    else if !IsObjectNotArray(asset) then [FieldError(at, name + " must be an object.")]
    else
      (if Get(asset, "src").Undefined? || IsNonEmptyString(Get(asset, "src")) then []
       else [FieldError(Sub(at, "src"), SrcNotNonEmpty)])
      + StringIfProvidedError(Get(asset, "alt"), Sub(at, "alt"), AltNotString)
      + (if Get(asset, "width").Undefined? || Get(asset, "width").Num? then []
         else [FieldError(Sub(at, "width"), WidthNotNumber)])
      + (if Get(asset, "height").Undefined? || Get(asset, "height").Num? then []
         else [FieldError(Sub(at, "height"), HeightNotNumber)])
  }

  function AssetsErrors(assets: Value): seq<FieldError>
  {
    if assets.Undefined? then []
    else if !IsObjectNotArray(assets) then [FieldError(Prop("assets"), AssetsNotObject)]
    else AssetErrors(Get(assets, "logo"), "logo") + AssetErrors(Get(assets, "banner"), "banner")
  }

  /** Destructuring a null `assets`, or reading `src` of a null logo or banner, throws. */
  predicate AssetsThrow(assets: Value)
  {
    assets.Null? || (assets.Obj? && (Get(assets, "logo").Null? || Get(assets, "banner").Null?))
  }

  /** Every element of a list is a string (`every((k) => typeof k === "string")`). */
  predicate AllStrings(items: seq<Value>)
  {
    forall i :: 0 <= i < |items| ==> items[i].Str?
  }

  /** `seo.keywords`: an array of strings, or a non-empty comma-separated string. */
  function KeywordsErrors(k: Value): seq<FieldError>
  {
    var at := Sub(Prop("seo"), "keywords");
    if k.Undefined? then []
    else if !k.Arr? then (if IsNonEmptyString(k) then [] else [FieldError(at, KeywordsNotListOrString)])
    else if AllStrings(k.items) then []
    else [FieldError(at, KeywordNotString)]
  }

  function SeoErrors(seo: Value): seq<FieldError>
  {
    var at := Prop("seo");
    if seo.Undefined? then []
    else if !IsObjectNotArray(seo) then [FieldError(at, SeoNotObject)]
    else
      StringIfProvidedError(Get(seo, "title"), Sub(at, "title"), SeoTitleNotString)
      + StringIfProvidedError(Get(seo, "description"), Sub(at, "description"), SeoDescriptionNotString)
      + KeywordsErrors(Get(seo, "keywords"))
      + StringIfProvidedError(Get(seo, "ogImage"), Sub(at, "ogImage"), SeoOgImageNotString)
      + StringIfProvidedError(Get(seo, "twitterImage"), Sub(at, "twitterImage"), SeoTwitterImageNotString)
      + StringIfProvidedError(Get(seo, "canonical"), Sub(at, "canonical"), SeoCanonicalNotString)
  }

  /**
   * The body with a comma-separated `seo.keywords` string replaced by the list of its
   * trimmed, non-empty pieces: the one place the create validator writes to the body.
   */
  function RewriteKeywords(p: Value): Value
  {
    var seo := Get(p, "seo");
    var k := Get(seo, "keywords");
    if seo.Obj? && IsNonEmptyString(k) then
      Set(p, "seo", Set(seo, "keywords", Arr(StringValues(SplitKeywords(k.s)))))
    else p
  }

  /** The `forEach` over a list of keys, each of which must be a string if provided. */
  function KeyErrors(obj: Value, section: string, keys: seq<string>): seq<FieldError>
    decreases |keys|
  {
    if keys == [] then []
    else
      var k := keys[|keys| - 1];
      KeyErrors(obj, section, keys[..|keys| - 1])
      + StringIfProvidedError(Get(obj, k), Sub(Prop(section), k), k + " must be a string.")
  }

  /** `model`, `costSummary`, `profitSummary` and `cta`: an object whose listed keys are strings. */
  function SectionErrors(v: Value, section: string, keys: seq<string>): seq<FieldError>
  {
    if v.Undefined? then []
    else if !IsObjectNotArray(v) then [FieldError(Prop(section), section + " must be an object.")]
    else KeyErrors(v, section, keys)
  }

  const ModelKeys: seq<string> := ["franchise", "dealership", "whichIsLikely"]
  const CostKeys: seq<string> := ["min", "max", "notes"]
  const ProfitKeys: seq<string> := ["range", "notes"]
  const CtaKeys: seq<string> := ["title", "subtitle", "buttonText", "href"]

  /** The entries a `forEach((item, idx) => …)` pushes, given what one item pushes. */
  function Each(items: seq<Value>, check: (Value, nat) -> seq<FieldError>): seq<FieldError>
    decreases |items|
  {
    if items == [] then []
    else Each(items[..|items| - 1], check) + check(items[|items| - 1], |items| - 1)
  }

  /** One more iteration of the `forEach`. */
  lemma EachStep(items: seq<Value>, i: nat, check: (Value, nat) -> seq<FieldError>)
    requires i < |items|
    ensures Each(items[..i + 1], check) == Each(items[..i], check) + check(items[i], i)
  {
    assert items[..i + 1][..i] == items[..i];
  }

  /** One city on create: an object whose `name`, if given, is a non-empty string. */
  function CityErrors(c: Value, idx: nat): seq<FieldError>
  {
    var at := Item("cities", idx);
    if !IsObjectNotArray(c) then [FieldError(at, CityNotObject)]
    else
      (if Get(c, "name").Undefined? || IsNonEmptyString(Get(c, "name")) then []
       else [FieldError(Sub(at, "name"), CityNameNotNonEmpty)])
      + StringIfProvidedError(Get(c, "description"), Sub(at, "description"), CityDescriptionNotString)
  }

  /** One faq on create: an object with a non-empty `q` and a non-empty `a`. */
  function FaqErrors(f: Value, idx: nat): seq<FieldError>
  {
    var at := Item("faqs", idx);
    if !IsObjectNotArray(f) then [FieldError(at, FaqNotObject)]
    else
      (if IsNonEmptyString(Get(f, "q")) then [] else [FieldError(Sub(at, "q"), QuestionRequired)])
      + (if IsNonEmptyString(Get(f, "a")) then [] else [FieldError(Sub(at, "a"), AnswerRequired)])
  }

  function CitiesErrors(cities: Value): seq<FieldError>
  {
    if cities.Undefined? then []
    else if !cities.Arr? then [FieldError(Prop("cities"), CitiesNotArray)]
    else Each(cities.items, CityErrors)
  }

  function FaqsErrors(faqs: Value): seq<FieldError>
  {
    if faqs.Undefined? then []
    else if !faqs.Arr? then [FieldError(Prop("faqs"), FaqsNotArray)]
    else Each(faqs.items, FaqErrors)
  }

  /** An array with a null element: reading a property of that element throws. */
  predicate HoldsNull(v: Value)
  {
    v.Arr? && exists i :: 0 <= i < |v.items| && v.items[i].Null?
  }

  /** Every entry `brandCreate` pushes, in the order it pushes them. */
  function CreateErrors(p: Value): seq<FieldError>
  {
    TopLevelErrors(p)
    + AssetsErrors(Get(p, "assets"))
    + SeoErrors(Get(p, "seo"))
    + SectionErrors(Get(p, "model"), "model", ModelKeys)
    + SectionErrors(Get(p, "costSummary"), "costSummary", CostKeys)
    + SectionErrors(Get(p, "profitSummary"), "profitSummary", ProfitKeys)
    + CitiesErrors(Get(p, "cities"))
    + FaqsErrors(Get(p, "faqs"))
    + SectionErrors(Get(p, "cta"), "cta", CtaKeys)
    + StringIfProvidedError(Get(p, "disclaimer"), Prop("disclaimer"), DisclaimerNotString)
  }

  /** The validation of `brandCreate` throws a TypeError: a null where an object is read. */
  predicate CreateThrows(p: Value)
  {
    || AssetsThrow(Get(p, "assets"))
    || Get(p, "seo").Null?
    || Get(p, "model").Null?
    || Get(p, "costSummary").Null?
    || Get(p, "profitSummary").Null?
    || HoldsNull(Get(p, "cities"))
    || HoldsNull(Get(p, "faqs"))
    || Get(p, "cta").Null?
  }

  // ---------------------------------------------------------------------------
  // Specification: brandUpdate. Only the supplied fields are checked, and `?.` makes
  // a null list element an ordinary failure rather than a TypeError.

  const NameNotNonEmpty := "Brand name must be a non-empty string"
  const SlugNotNonEmpty := "Slug must be a non-empty string"
  const IntroNotStringOnUpdate := "Intro must be a string"
  const EligibilityNotArrayOnUpdate := "Eligibility must be an array"
  const FaqsNotArrayOnUpdate := "Faqs must be an array"
  const FaqIncomplete := "Faq must have non-empty q and a"
  const CitiesNotArrayOnUpdate := "Cities must be an array"
  const CityNameRequired := "City name is required"

  /** One faq on update: `f?.q` and `f?.a` are both non-empty strings. */
  function UpdateFaqErrors(f: Value, idx: nat): seq<FieldError>
  {
    if IsNonEmptyString(Get(f, "q")) && IsNonEmptyString(Get(f, "a")) then []
    else [FieldError(Item("faqs", idx), FaqIncomplete)]
  }

  /** One city on update: `c?.name` is a non-empty string. */
  function UpdateCityErrors(c: Value, idx: nat): seq<FieldError>
  {
    if IsNonEmptyString(Get(c, "name")) then []
    else [FieldError(Sub(Item("cities", idx), "name"), CityNameRequired)]
  }

  /** `name`, `slug`, `intro` and `eligibility` on update. */
  function UpdateTopLevelErrors(p: Value): seq<FieldError>
  {
    (if Get(p, "name").Undefined? || IsNonEmptyString(Get(p, "name")) then []
     else [FieldError(Prop("name"), NameNotNonEmpty)])
    + (if Get(p, "slug").Undefined? || IsNonEmptyString(Get(p, "slug")) then []
       else [FieldError(Prop("slug"), SlugNotNonEmpty)])
    + StringIfProvidedError(Get(p, "intro"), Prop("intro"), IntroNotStringOnUpdate)
    + (if Get(p, "eligibility").Undefined? || Get(p, "eligibility").Arr? then []
       else [FieldError(Prop("eligibility"), EligibilityNotArrayOnUpdate)])
  }

  function UpdateFaqsErrors(faqs: Value): seq<FieldError>
  {
    if faqs.Undefined? then []
    else if !faqs.Arr? then [FieldError(Prop("faqs"), FaqsNotArrayOnUpdate)]
    else Each(faqs.items, UpdateFaqErrors)
  }

  function UpdateCitiesErrors(cities: Value): seq<FieldError>
  {
    if cities.Undefined? then []
    else if !cities.Arr? then [FieldError(Prop("cities"), CitiesNotArrayOnUpdate)]
    else Each(cities.items, UpdateCityErrors)
  }

  /** Every entry `brandUpdate` pushes, in the order it pushes them. */
  function UpdateErrors(p: Value): seq<FieldError>
  {
    UpdateTopLevelErrors(p) + UpdateFaqsErrors(Get(p, "faqs")) + UpdateCitiesErrors(Get(p, "cities"))
  }

  // ---------------------------------------------------------------------------
  // The validators, walking the body as the handlers do

  method CheckCreateTopLevel(payload: Value) returns (errors: seq<FieldError>)
    ensures errors == TopLevelErrors(payload)
  {
    errors := [];
    if !IsNonEmptyString(Get(payload, "name")) {
      errors := errors + [FieldError(Prop("name"), NameRequired)];
    }
    if !IsStringIfProvided(Get(payload, "slug")) {
      errors := errors + [FieldError(Prop("slug"), SlugNotString)];
    }
    if !IsStringIfProvided(Get(payload, "intro")) {
      errors := errors + [FieldError(Prop("intro"), IntroNotString)];
    }
    var eligibility := Get(payload, "eligibility");
    if Truthy(eligibility) && !eligibility.Arr? {
      errors := errors + [FieldError(Prop("eligibility"), EligibilityNotArray)];
    }
  }

  /** `checkAsset(asset, name)`: the entries it pushes, or a throw on a null asset. */
  method CheckAsset(asset: Value, name: string) returns (pushed: seq<FieldError>, thrown: bool)
    ensures thrown == asset.Null?
    ensures !thrown ==> pushed == AssetErrors(asset, name)
  {
    pushed, thrown := [], false;
    if asset.Undefined? {
      return;
    }
    var at := Sub(Prop("assets"), name);
    if !IsObjectNotArray(asset) {
      pushed := [FieldError(at, name + " must be an object.")];
      return;
    }
    if asset.Null? {
      thrown := true;  // reading `asset.src`
      return;
    }
    var src := Get(asset, "src");
    if !src.Undefined? && !IsNonEmptyString(src) {
      pushed := pushed + [FieldError(Sub(at, "src"), SrcNotNonEmpty)];
    }
    var alt := Get(asset, "alt");
    if !alt.Undefined? && !IsStringIfProvided(alt) {
      pushed := pushed + [FieldError(Sub(at, "alt"), AltNotString)];
    }
    var width := Get(asset, "width");
    if !width.Undefined? && !width.Num? {
      pushed := pushed + [FieldError(Sub(at, "width"), WidthNotNumber)];
    }
    var height := Get(asset, "height");
    if !height.Undefined? && !height.Num? {
      pushed := pushed + [FieldError(Sub(at, "height"), HeightNotNumber)];
    }
  }

  method CheckAssets(assets: Value, errors0: seq<FieldError>) returns (errors: seq<FieldError>, thrown: bool)
    ensures thrown == AssetsThrow(assets)
    ensures !thrown ==> errors == errors0 + AssetsErrors(assets)
  {
    errors, thrown := errors0, false;
    if assets.Undefined? {
      return;
    }
    if !IsObjectNotArray(assets) {
      errors := errors + [FieldError(Prop("assets"), AssetsNotObject)];
      return;
    }
    if assets.Null? {
      thrown := true;  // `const { logo, banner } = null`
      return;
    }
    var logo, banner;
    logo, thrown := CheckAsset(Get(assets, "logo"), "logo");
    if thrown {
      return;
    }
    banner, thrown := CheckAsset(Get(assets, "banner"), "banner");
    if thrown {
      return;
    }
    errors := errors + (logo + banner);
  }

  /** `seo.keywords`: the entries pushed, and the body with a keyword string rewritten. */
  method CheckKeywords(payload: Value) returns (pushed: seq<FieldError>, rewritten: Value)
    requires Get(payload, "seo").Obj?
    ensures pushed == KeywordsErrors(Get(Get(payload, "seo"), "keywords"))
    ensures rewritten == RewriteKeywords(payload)
  {
    pushed, rewritten := [], payload;
    var seo := Get(payload, "seo");
    var keywords := Get(seo, "keywords");
    if keywords.Undefined? {
      return;
    }
    var at := Sub(Prop("seo"), "keywords");
    if !keywords.Arr? {
      if IsNonEmptyString(keywords) {
        var list := Arr(StringValues(SplitKeywords(keywords.s)));
        rewritten := Set(payload, "seo", Set(seo, "keywords", list));
      } else {
        pushed := [FieldError(at, KeywordsNotListOrString)];
      }
    } else if !AllStrings(keywords.items) {
      pushed := [FieldError(at, KeywordNotString)];
    }
  }

  /** `if (v !== undefined && !isStringIfProvided(v)) errors.push(…)`. */
  method CheckOptionalString(v: Value, field: Path, message: string) returns (pushed: seq<FieldError>)
    ensures pushed == StringIfProvidedError(v, field, message)
  {
    pushed := [];
    if !v.Undefined? && !IsStringIfProvided(v) {
      pushed := [FieldError(field, message)];
    }
  }

  /** Pushes the `seo` entries and returns the body with `seo.keywords` possibly rewritten. */
  method CheckSeo(payload: Value, errors0: seq<FieldError>)
    returns (errors: seq<FieldError>, thrown: bool, rewritten: Value)
    ensures thrown == Get(payload, "seo").Null?
    ensures !thrown ==> errors == errors0 + SeoErrors(Get(payload, "seo")) && rewritten == RewriteKeywords(payload)
  {
    errors, thrown, rewritten := errors0, false, payload;
    var seo := Get(payload, "seo");
    if seo.Undefined? {
      return;
    }
    var at := Prop("seo");
    if !IsObjectNotArray(seo) {
      errors := errors + [FieldError(at, SeoNotObject)];
      return;
    }
    if seo.Null? {
      thrown := true;  // reading `payload.seo.title`
      return;
    }
    var title := CheckOptionalString(Get(seo, "title"), Sub(at, "title"), SeoTitleNotString);
    var description := CheckOptionalString(Get(seo, "description"), Sub(at, "description"), SeoDescriptionNotString);
    var keywords;
    keywords, rewritten := CheckKeywords(payload);
    var ogImage := CheckOptionalString(Get(seo, "ogImage"), Sub(at, "ogImage"), SeoOgImageNotString);
    var twitterImage := CheckOptionalString(Get(seo, "twitterImage"), Sub(at, "twitterImage"), SeoTwitterImageNotString);
    var canonical := CheckOptionalString(Get(seo, "canonical"), Sub(at, "canonical"), SeoCanonicalNotString);
    var pushed := title + description + keywords + ogImage + twitterImage + canonical;
    errors := errors + pushed;
  }

  /** An optional object section whose listed keys must be strings; a null one throws at the first key. */
  method CheckSection(v: Value, section: string, keys: seq<string>, errors0: seq<FieldError>)
    returns (errors: seq<FieldError>, thrown: bool)
    requires keys != []
    ensures thrown == v.Null?
    ensures !thrown ==> errors == errors0 + SectionErrors(v, section, keys)
  {
    errors, thrown := errors0, false;
    if v.Undefined? {
      return;
    }
    if !IsObjectNotArray(v) {
      errors := errors + [FieldError(Prop(section), section + " must be an object.")];
      return;
    }
    if v.Null? {
      thrown := true;  // reading `payload[section][keys[0]]`
      return;
    }
    var i := 0;
    while i < |keys|
      invariant 0 <= i <= |keys|
      invariant errors == errors0 + KeyErrors(v, section, keys[..i])
    {
      var k := keys[i];
      var x := Get(v, k);
      if !x.Undefined? && !IsStringIfProvided(x) {
        errors := errors + [FieldError(Sub(Prop(section), k), k + " must be a string.")];
      }
      assert keys[..i + 1][..i] == keys[..i];
      i := i + 1;
    }
    assert keys[..|keys|] == keys;
  }

  /** The `forEach` callback for one city: the entries it pushes, or a throw on a null city. */
  method CheckCity(c: Value, idx: nat) returns (pushed: seq<FieldError>, thrown: bool)
    ensures thrown == c.Null?
    ensures !thrown ==> pushed == CityErrors(c, idx)
  {
    pushed, thrown := [], false;
    var at := Item("cities", idx);
    if !IsObjectNotArray(c) {
      pushed := [FieldError(at, CityNotObject)];
      return;
    }
    if c.Null? {
      thrown := true;  // reading `c.name`
      return;
    }
    var name := Get(c, "name");
    if !name.Undefined? && !IsNonEmptyString(name) {
      pushed := pushed + [FieldError(Sub(at, "name"), CityNameNotNonEmpty)];
    }
    var description := Get(c, "description");
    if !description.Undefined? && !IsStringIfProvided(description) {
      pushed := pushed + [FieldError(Sub(at, "description"), CityDescriptionNotString)];
    }
  }

  method CheckCities(cities: Value, errors0: seq<FieldError>) returns (errors: seq<FieldError>, thrown: bool)
    ensures thrown == HoldsNull(cities)
    ensures !thrown ==> errors == errors0 + CitiesErrors(cities)
  {
    errors, thrown := errors0, false;
    if cities.Undefined? {
      return;
    }
    if !cities.Arr? {
      errors := errors + [FieldError(Prop("cities"), CitiesNotArray)];
      return;
    }
    var cs := cities.items;
    var idx := 0;
    while idx < |cs|
      invariant 0 <= idx <= |cs|
      invariant errors == errors0 + Each(cs[..idx], CityErrors)
      invariant forall j :: 0 <= j < idx ==> !cs[j].Null?
    {
      var pushed;
      pushed, thrown := CheckCity(cs[idx], idx);
      if thrown {
        return;
      }
      EachStep(cs, idx, CityErrors);
      errors := errors + pushed;
      idx := idx + 1;
    }
    assert cs[..|cs|] == cs;
  }

  /** The `forEach` callback for one faq: the entries it pushes, or a throw on a null faq. */
  method CheckFaq(f: Value, idx: nat) returns (pushed: seq<FieldError>, thrown: bool)
    ensures thrown == f.Null?
    ensures !thrown ==> pushed == FaqErrors(f, idx)
  {
    pushed, thrown := [], false;
    var at := Item("faqs", idx);
    if !IsObjectNotArray(f) {
      pushed := [FieldError(at, FaqNotObject)];
      return;
    }
    if f.Null? {
      thrown := true;  // reading `f.q`
      return;
    }
    if !IsNonEmptyString(Get(f, "q")) {
      pushed := pushed + [FieldError(Sub(at, "q"), QuestionRequired)];
    }
    if !IsNonEmptyString(Get(f, "a")) {
      pushed := pushed + [FieldError(Sub(at, "a"), AnswerRequired)];
    }
  }

  method CheckFaqs(faqs: Value, errors0: seq<FieldError>) returns (errors: seq<FieldError>, thrown: bool)
    ensures thrown == HoldsNull(faqs)
    ensures !thrown ==> errors == errors0 + FaqsErrors(faqs)
  {
    errors, thrown := errors0, false;
    if faqs.Undefined? {
      return;
    }
    if !faqs.Arr? {
      errors := errors + [FieldError(Prop("faqs"), FaqsNotArray)];
      return;
    }
    var fs := faqs.items;
    var idx := 0;
    while idx < |fs|
      invariant 0 <= idx <= |fs|
      invariant errors == errors0 + Each(fs[..idx], FaqErrors)
      invariant forall j :: 0 <= j < idx ==> !fs[j].Null?
    {
      var pushed;
      pushed, thrown := CheckFaq(fs[idx], idx);
      if thrown {
        return;
      }
      EachStep(fs, idx, FaqErrors);
      errors := errors + pushed;
      idx := idx + 1;
    }
    assert fs[..|fs|] == fs;
  }

  /**
   * The validation half of `brandCreate`: either it throws, or it yields the entries
   * `CreateErrors` lists together with the body as the handler goes on to use it.
   */
  method ValidateBrandCreate(payload: Value) returns (errors: seq<FieldError>, thrown: bool, rewritten: Value)
    ensures thrown == CreateThrows(payload)
    ensures !thrown ==> errors == CreateErrors(payload) && rewritten == RewriteKeywords(payload)
  {
    rewritten := payload;
    errors := CheckCreateTopLevel(payload);
    errors, thrown := CheckAssets(Get(payload, "assets"), errors);
    if thrown { return; }
    errors, thrown, rewritten := CheckSeo(payload, errors);
    if thrown { return; }
    errors, thrown := CheckSection(Get(payload, "model"), "model", ModelKeys, errors);
    if thrown { return; }
    errors, thrown := CheckSection(Get(payload, "costSummary"), "costSummary", CostKeys, errors);
    if thrown { return; }
    errors, thrown := CheckSection(Get(payload, "profitSummary"), "profitSummary", ProfitKeys, errors);
    if thrown { return; }
    errors, thrown := CheckCities(Get(payload, "cities"), errors);
    if thrown { return; }
    errors, thrown := CheckFaqs(Get(payload, "faqs"), errors);
    if thrown { return; }
    errors, thrown := CheckSection(Get(payload, "cta"), "cta", CtaKeys, errors);
    if thrown { return; }
    var disclaimer := Get(payload, "disclaimer");
    var last: seq<FieldError> := [];
    if !disclaimer.Undefined? && !IsStringIfProvided(disclaimer) {
      last := [FieldError(Prop("disclaimer"), DisclaimerNotString)];
    }
    errors := errors + last;
  }

  method CheckUpdateTopLevel(payload: Value) returns (errors: seq<FieldError>)
    ensures errors == UpdateTopLevelErrors(payload)
  {
    errors := [];
    var name := Get(payload, "name");
    if !name.Undefined? && !IsNonEmptyString(name) {
      errors := errors + [FieldError(Prop("name"), NameNotNonEmpty)];
    }
    var slug := Get(payload, "slug");
    if !slug.Undefined? && !IsNonEmptyString(slug) {
      errors := errors + [FieldError(Prop("slug"), SlugNotNonEmpty)];
    }
    var intro := Get(payload, "intro");
    if !intro.Undefined? && !IsStringIfProvided(intro) {
      errors := errors + [FieldError(Prop("intro"), IntroNotStringOnUpdate)];
    }
    var eligibility := Get(payload, "eligibility");
    if !eligibility.Undefined? && !eligibility.Arr? {
      errors := errors + [FieldError(Prop("eligibility"), EligibilityNotArrayOnUpdate)];
    }
  }

  method CheckUpdateFaqs(faqs: Value, errors0: seq<FieldError>) returns (errors: seq<FieldError>)
    ensures errors == errors0 + UpdateFaqsErrors(faqs)
  {
    errors := errors0;
    if faqs.Undefined? {
      return;
    }
    if !faqs.Arr? {
      errors := errors + [FieldError(Prop("faqs"), FaqsNotArrayOnUpdate)];
      return;
    }
    var fs := faqs.items;
    var i := 0;
    while i < |fs|
      invariant 0 <= i <= |fs|
      invariant errors == errors0 + Each(fs[..i], UpdateFaqErrors)
    {
      var f := fs[i];
      var pushed: seq<FieldError> := [];
      if !IsNonEmptyString(Get(f, "q")) || !IsNonEmptyString(Get(f, "a")) {
        pushed := [FieldError(Item("faqs", i), FaqIncomplete)];
      }
      EachStep(fs, i, UpdateFaqErrors);
      errors := errors + pushed;
      i := i + 1;
    }
    assert fs[..|fs|] == fs;
  }

  method CheckUpdateCities(cities: Value, errors0: seq<FieldError>) returns (errors: seq<FieldError>)
    ensures errors == errors0 + UpdateCitiesErrors(cities)
  {
    errors := errors0;
    if cities.Undefined? {
      return;
    }
    if !cities.Arr? {
      errors := errors + [FieldError(Prop("cities"), CitiesNotArrayOnUpdate)];
      return;
    }
    var cs := cities.items;
    var i := 0;
    while i < |cs|
      invariant 0 <= i <= |cs|
      invariant errors == errors0 + Each(cs[..i], UpdateCityErrors)
    {
      var pushed: seq<FieldError> := [];
      if !IsNonEmptyString(Get(cs[i], "name")) {
        pushed := [FieldError(Sub(Item("cities", i), "name"), CityNameRequired)];
      }
      EachStep(cs, i, UpdateCityErrors);
      errors := errors + pushed;
      i := i + 1;
    }
    assert cs[..|cs|] == cs;
  }

  /** The validation half of `brandUpdate`, which never throws. */
  method ValidateBrandUpdate(payload: Value) returns (errors: seq<FieldError>)
    ensures errors == UpdateErrors(payload)
  {
    errors := CheckUpdateTopLevel(payload);
    errors := CheckUpdateFaqs(Get(payload, "faqs"), errors);
    errors := CheckUpdateCities(Get(payload, "cities"), errors);
  }

  // ---------------------------------------------------------------------------
  // Properties of the two validators

  /** A `forEach` pushes nothing exactly when no item pushes anything. */
  lemma {:induction false} EachEmptyIff(items: seq<Value>, check: (Value, nat) -> seq<FieldError>)
    ensures Each(items, check) == [] <==> forall i :: 0 <= i < |items| ==> check(items[i], i) == []
  {
    if items != [] {
      var n := |items| - 1;
      EachEmptyIff(items[..n], check);
      assert forall i :: 0 <= i < n ==> items[..n][i] == items[i];
    }
  }

  /** A city list that pushes nothing is absent or a list of objects. */
  lemma {:induction false} AcceptedCities(cs: Value)
    requires CitiesErrors(cs) == [] && !HoldsNull(cs)
    ensures cs.Undefined? || (cs.Arr? && forall i :: 0 <= i < |cs.items| ==> cs.items[i].Obj?)
  {
    if cs.Arr? {
      EachEmptyIff(cs.items, CityErrors);
      forall i | 0 <= i < |cs.items| ensures cs.items[i].Obj? {
        assert CityErrors(cs.items[i], i) == [];
      }
    }
  }

  /** A faq list that pushes nothing is absent or a list of objects with a question and an answer. */
  lemma {:induction false} AcceptedFaqs(fs: Value)
    requires FaqsErrors(fs) == []
    ensures fs.Undefined? || (fs.Arr? && forall i :: 0 <= i < |fs.items| ==>
      fs.items[i].Obj? && IsNonEmptyString(Get(fs.items[i], "q")) && IsNonEmptyString(Get(fs.items[i], "a")))
  {
    if fs.Arr? {
      EachEmptyIff(fs.items, FaqErrors);
      forall i | 0 <= i < |fs.items|
        ensures fs.items[i].Obj? && IsNonEmptyString(Get(fs.items[i], "q")) && IsNonEmptyString(Get(fs.items[i], "a"))
      {
        assert FaqErrors(fs.items[i], i) == [];
      }
    }
  }

  /**
   * A body `brandCreate` accepts has the shape the brand schema expects: a non-blank
   * name, string slug and intro if given, object cities, faqs with a non-blank question
   * and answer, and — after the rewrite — keywords that are a list of strings.
   */
  lemma {:induction false} AcceptedCreateBody(p: Value)
    requires !CreateThrows(p) && CreateErrors(p) == []
    ensures IsNonEmptyString(Get(p, "name"))
    ensures IsStringIfProvided(Get(p, "slug")) && IsStringIfProvided(Get(p, "intro"))
    ensures var cs := Get(p, "cities");
      cs.Undefined? || (cs.Arr? && forall i :: 0 <= i < |cs.items| ==> cs.items[i].Obj?)
    ensures var fs := Get(p, "faqs");
      fs.Undefined? || (fs.Arr? && forall i :: 0 <= i < |fs.items| ==>
        fs.items[i].Obj? && IsNonEmptyString(Get(fs.items[i], "q")) && IsNonEmptyString(Get(fs.items[i], "a")))
    ensures var k := Get(Get(RewriteKeywords(p), "seo"), "keywords");
      k.Undefined? || (k.Arr? && AllStrings(k.items))
  {
    CreateErrorsEmpty(p);
    AcceptedCities(Get(p, "cities"));
    AcceptedFaqs(Get(p, "faqs"));
    AcceptedKeywords(p);
  }

  /** No entry at all means no entry from any section. */
  lemma CreateErrorsEmpty(p: Value)
    requires CreateErrors(p) == []
    ensures TopLevelErrors(p) == [] && SeoErrors(Get(p, "seo")) == []
    ensures CitiesErrors(Get(p, "cities")) == [] && FaqsErrors(Get(p, "faqs")) == []
  {
  }

  /** Accepted seo leaves `seo.keywords` absent or a list of strings once rewritten. */
  lemma AcceptedKeywords(p: Value)
    requires SeoErrors(Get(p, "seo")) == []
    ensures var k := Get(Get(RewriteKeywords(p), "seo"), "keywords");
      k.Undefined? || (k.Arr? && AllStrings(k.items))
  {
    var seo := Get(p, "seo");
    var kw := Get(seo, "keywords");
    if seo.Obj? {
      assert KeywordsErrors(kw) == [];
      if IsNonEmptyString(kw) {
        var v := Arr(StringValues(SplitKeywords(kw.s)));
        var seo2 := Set(seo, "keywords", v);
        assert RewriteKeywords(p) == Set(p, "seo", seo2);
        GetSet(p, "seo", seo2, "seo");
        GetSet(seo, "keywords", v, "keywords");
      }
    }
  }

  /**
   * `seo.keywords` given as a joined list of non-empty, trimmed, comma-free keywords
   * is accepted and rewritten to exactly that list.
   */
  lemma {:induction false} KeywordStringRewritten(p: Value, ks: seq<string>)
    requires |ks| >= 1
    requires forall i :: 0 <= i < |ks| ==> ks[i] != "" && IsTrimmed(ks[i]) && ',' !in ks[i]
    requires Get(p, "seo").Obj? && Get(Get(p, "seo"), "keywords") == Str(Join(ks, ','))
    ensures KeywordsErrors(Get(Get(p, "seo"), "keywords")) == []
    ensures Get(Get(RewriteKeywords(p), "seo"), "keywords") == Arr(StringValues(ks))
  {
    var s := Join(ks, ',');
    assert s[0] == ks[0][0] by {
      if |ks| > 1 {
        assert s == ks[0] + [','] + Join(ks[1..], ',');
      }
    }
    assert !IsBlank(s);
    KeywordsRoundTrip(ks);
  }

  /** The rewrite touches `seo.keywords` and nothing else. */
  lemma RewriteKeywordsFrame(p: Value, k: string)
    ensures k != "seo" ==> Get(RewriteKeywords(p), k) == Get(p, k)
    ensures k != "keywords" ==> Get(Get(RewriteKeywords(p), "seo"), k) == Get(Get(p, "seo"), k)
  {
    var seo := Get(p, "seo");
    var kw := Get(seo, "keywords");
    if seo.Obj? && IsNonEmptyString(kw) {
      var v := Arr(StringValues(SplitKeywords(kw.s)));
      var seo2 := Set(seo, "keywords", v);
      assert RewriteKeywords(p) == Set(p, "seo", seo2);
      GetSet(p, "seo", seo2, k);
      GetSet(p, "seo", seo2, "seo");
      GetSet(seo, "keywords", v, k);
    }
  }

  /**
   * Replacing a non-empty keywords string by any list of strings leaves both the
   * entries and the throwing of the create validation as they were.
   */
  lemma {:induction false} KeywordListRevalidates(p: Value, x: Value)
    requires Get(p, "seo").Obj? && IsNonEmptyString(Get(Get(p, "seo"), "keywords"))
    requires x.Arr? && AllStrings(x.items)
    ensures var q := Set(p, "seo", Set(Get(p, "seo"), "keywords", x));
      CreateThrows(q) == CreateThrows(p) && CreateErrors(q) == CreateErrors(p)
  {
    var seo := Get(p, "seo");
    var seo2 := Set(seo, "keywords", x);
    var q := Set(p, "seo", seo2);
    forall k | k != "seo" ensures Get(q, k) == Get(p, k) {
      GetSet(p, "seo", seo2, k);
    }
    GetSet(p, "seo", seo2, "seo");
    SameSeoErrors(seo, x);
    AgreeOutsideSeoOf(p, q);
    SameOutsideSeo(p, q);
  }

  lemma SameSeoErrors(seo: Value, x: Value)
    requires seo.Obj? && IsNonEmptyString(Get(seo, "keywords"))
    requires x.Arr? && AllStrings(x.items)
    ensures SeoErrors(Set(seo, "keywords", x)) == SeoErrors(seo)
  {
    var seo2 := Set(seo, "keywords", x);
    assert KeywordsErrors(Get(seo2, "keywords")) == [] == KeywordsErrors(Get(seo, "keywords"));
  }

  /** Two bodies agree on every property the create validation reads besides `seo`. */
  predicate AgreeOutsideSeo(p: Value, q: Value)
  {
    && Get(q, "name") == Get(p, "name") && Get(q, "slug") == Get(p, "slug")
    && Get(q, "intro") == Get(p, "intro") && Get(q, "eligibility") == Get(p, "eligibility")
    && Get(q, "assets") == Get(p, "assets") && Get(q, "model") == Get(p, "model")
    && Get(q, "costSummary") == Get(p, "costSummary") && Get(q, "profitSummary") == Get(p, "profitSummary")
    && Get(q, "cities") == Get(p, "cities") && Get(q, "faqs") == Get(p, "faqs")
    && Get(q, "cta") == Get(p, "cta") && Get(q, "disclaimer") == Get(p, "disclaimer")
  }

  lemma AgreeOutsideSeoOf(p: Value, q: Value)
    requires forall k :: k != "seo" ==> Get(q, k) == Get(p, k)
    ensures AgreeOutsideSeo(p, q)
  {
  }

  /** Two bodies that differ only inside `seo`, with the same seo entries, validate alike. */
  lemma SameOutsideSeo(p: Value, q: Value)
    requires AgreeOutsideSeo(p, q)
    requires Get(q, "seo").Null? == Get(p, "seo").Null?
    requires SeoErrors(Get(q, "seo")) == SeoErrors(Get(p, "seo"))
    ensures CreateThrows(q) == CreateThrows(p) && CreateErrors(q) == CreateErrors(p)
  {
    assert TopLevelErrors(q) == TopLevelErrors(p);
  }

  /** The body the rewrite yields passes the create validation exactly as the original did. */
  lemma RewriteKeywordsRevalidates(p: Value)
    ensures CreateThrows(RewriteKeywords(p)) == CreateThrows(p)
    ensures CreateErrors(RewriteKeywords(p)) == CreateErrors(p)
  {
    var seo := Get(p, "seo");
    var kw := Get(seo, "keywords");
    if seo.Obj? && IsNonEmptyString(kw) {
      var v := Arr(StringValues(SplitKeywords(kw.s)));
      assert AllStrings(v.items);
      KeywordListRevalidates(p, v);
      assert RewriteKeywords(p) == Set(p, "seo", Set(seo, "keywords", v));
    }
  }

  /** The faq rule is the same on create and on update for any faq that is not null. */
  lemma FaqRulesAgree(f: Value, idx: nat)
    requires !f.Null?
    ensures FaqErrors(f, idx) == [] <==> UpdateFaqErrors(f, idx) == []
  {
  }

  /**
   * The city rules differ: on update a city needs a non-blank name, on create a
   * nameless city is accepted (and an update ignores `description`).
   */
  lemma CityRulesDiffer(c: Value, idx: nat)
    ensures UpdateCityErrors(c, idx) == [] ==> Get(c, "name").Str? && !IsBlank(Get(c, "name").s)
    ensures CityErrors(Obj(map[]), idx) == [] && UpdateCityErrors(Obj(map[]), idx) != []
  {
  }

  /** An empty body: create reports only the missing name, update accepts it. */
  lemma EmptyBody()
    ensures CreateErrors(Obj(map[])) == [FieldError(Prop("name"), NameRequired)]
    ensures !CreateThrows(Obj(map[]))
    ensures UpdateErrors(Obj(map[])) == []
  {
  }
}
