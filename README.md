# Brand and page admin handlers

This is a Dafny model of the admin side of a franchise-listing backend. The backend is an
Express application over MongoDB. Admins create and edit **brands** and the **pages**
that belong to a brand.

The model covers these handlers:

- `brandCreate` validates a request body field by field and pushes `{ field, message }`
  entries. It rewrites a comma-separated `seo.keywords` string into a list and trims the
  name. It then derives a slug from `slug` or `name`. When that slug is taken, it appends
  a random suffix of at most five characters, and it saves the brand under the collection's unique
  slug index.
- `brandUpdate` answers 404 for an unknown id and checks only the fields supplied. When
  `name` or `slug` is truthy, which after validation means supplied, it regenerates the slug with `generateUniqueSlug`. That
  helper probes `base`, `base-1`, `base-2`, … until no *other* brand holds the candidate.
  The update then `$set`s the body.
- `createPages` checks the route's `brandId`, `title`, `key` and the shapes of
  `content.sections` and `content.faqs`. It then allocates a slug that is unique within
  the brand.
- `updatePage` runs no validation. It regenerates the slug within the page's brand when
  `title` or `slug` is truthy, excluding the page itself, and then `$set`s the body. A
  falsy `title` or `slug` such as `""` or `0` does not trigger regeneration.
- `getAllBrands` and `getAllPages` paginate with `page = parseInt(page) || 1`,
  `limit = parseInt(limit) || 10`, `skip = (page - 1) * limit` and
  `totalPages = Math.ceil(total / limit)`.

The files:

- `js.dfy` holds what the handlers rely on from JavaScript: parsed JSON values, property
  reads with `?.`, truthiness, `typeof`, `trim`, `split`/`join`, the keyword rewrite,
  decimal rendering and `parseInt`.
- `http.dfy` holds identifiers, the `findById` lookup shared by both collections, responses and error paths.
- `slugs.dfy` holds the probing loop's specification: the first free candidate, and that
  its counter is no larger than the number of held slugs, so the loop stops within one
  probe more than there are held slugs.
- `paging.dfy` holds the pagination arithmetic.
- `brand_validation.dfy` holds one specification function per validation section. Beside
  each is a method that walks the body as the handler does and is proved to push exactly
  those entries.
- `brands.dfy` and `pages.dfy` hold each collection as a class over a sequence of
  documents, which the handler methods update.

Each handler method is proved equal to a specification function, which gives the
response and the collection afterwards. The lemmas are stated about those functions. They
show that the handlers preserve the slug-uniqueness invariant (`Valid`), which error
comes first, and what slug is produced.

## Model

| member | source | states |
|---|---|---|
| Js.Trim | modules/brands/brandControllers.js:29-30 | `trim()` returns the slice of the input that starts after its leading white space. |
| Js.TrimIsTrimmed | modules/brands/brandControllers.js:29-30 | What `trim()` returns has white space at neither end. |
| Js.TrimKeepsAbsent | modules/brands/brandControllers.js:129 | Trimming a keyword never brings in a character, such as a comma, that it did not hold. |
| Js.GetSet | modules/brands/brandControllers.js:127-131 | After `v[k] = x` on an object, reading `k` gives `x` and reading any other property gives what it gave before. |
| Js.TrimEmptyIff | modules/brands/brandControllers.js:29-30 | `trim()` gives the empty string exactly when every character is white space. |
| Js.NonEmptyStringIff | modules/brands/brandControllers.js:29-30 | `isNonEmptyString` of a string holds exactly when its `trim()` is non-empty. |
| Js.TrimOfTrimmed | modules/brands/brandControllers.js:34 | `sanitizeStr` leaves unchanged a string with white space at neither end. |
| Js.Split | modules/brands/brandControllers.js:128 | `split(",")` yields at least one piece, and no piece contains the separator. |
| Js.JoinSplit | modules/brands/brandControllers.js:128 | Joining the pieces of a split with the separator gives the string back. |
| Js.SplitJoin | modules/brands/brandControllers.js:128 | Splitting a join of separator-free pieces gives the pieces back. |
| Js.TrimAndDropEmpty | modules/brands/brandControllers.js:129-130 | `.map(trim).filter(Boolean)` keeps at most as many pieces, each non-empty and trimmed. |
| Js.DropEmpty | modules/brands/brandControllers.js:130 | `.filter(Boolean)` on strings keeps at most as many strings, each non-empty and taken from the input. |
| Js.DropEmptyAppend | modules/brands/brandControllers.js:130 | Filtering distributes over concatenation: what is kept from `a + b` is what is kept from `a`, then what is kept from `b`. |
| Js.DropEmptyMembers | modules/brands/brandControllers.js:130 | A string is kept exactly when it is non-empty and occurs in the input. |
| Js.TrimAndDropEmptyOne | modules/brands/brandControllers.js:129-130 | A single part yields its trim when that is non-empty, and nothing otherwise. |
| Js.TrimAndDropEmptyAppend | modules/brands/brandControllers.js:129-130 | The pieces of `a + b` are the pieces of `a`, then the pieces of `b`. Together with Js.TrimAndDropEmptyOne, this fixes the result: each part in order, trimmed, with empty trims dropped. |
| Js.TrimAndDropEmptyMembers | modules/brands/brandControllers.js:129-130 | A string is among the pieces exactly when it is non-empty and is the trim of some part. |
| Js.TrimAndDropEmptyOfTrimmed | modules/brands/brandControllers.js:129-130 | On pieces that are already non-empty and trimmed, the map and filter change nothing. |
| Js.KeywordsWellFormed | modules/brands/brandControllers.js:127-131 | Every keyword the rewrite produces is non-empty, trimmed and free of commas. |
| Js.KeywordsRoundTrip | modules/brands/brandControllers.js:127-131 | A non-empty list of non-empty, trimmed, comma-free keywords, joined with commas, is rewritten back to the same list. |
| Js.NatToString | modules/brands/brandControllers.js:14 | The `${counter}` of a probe is a non-empty string of decimal digits that denotes the counter. It starts with `0` only when the counter is 0, and then it is `"0"`. |
| Js.NatToStringInjective | modules/brands/brandControllers.js:14 | Distinct counters render to distinct strings. |
| Js.DigitPrefix | modules/brands/brandControllers.js:528-529 | The digits `parseInt` reads: a prefix made only of digits, followed by a non-digit or the end. |
| Js.ParseIntOfNatToString | modules/brands/brandControllers.js:528-529 | `parseInt` reads back `n` and `-n` from their decimal renderings. |
| Js.ParseIntSkipsWhiteSpace | modules/brands/brandControllers.js:528-529 | Leading white space does not change what `parseInt` returns. |
| Slugs.FirstFree | modules/brands/brandControllers.js:4-18 | The counter at which the probing loop stops: the probe there is not held, every earlier probe is held, and it is at most the number of held slugs. |
| Slugs.Allocate | modules/brands/brandControllers.js:4-18 | The slug the loop returns is held by no competing document. |
| Slugs.CandidateInjective | modules/brands/brandControllers.js:14 | Distinct counters give distinct probes `base`, `base-1`, `base-2`, …. |
| Slugs.ProbedSize | modules/brands/brandControllers.js:8-16 | The first m probes are m distinct slugs. |
| Slugs.Pigeonhole | modules/brands/brandControllers.js:8-16 | If the first m probes are all held, then m ≤ the number of held slugs, so the loop terminates. |
| Slugs.FirstFreeUnique | modules/brands/brandControllers.js:8-16 | Any counter whose probe is free while every earlier probe is held is the one where the loop stops. |
| Slugs.AllocateFreeBase | modules/brands/brandControllers.js:5-12 | A base that no competitor holds is returned as it is. |
| Slugs.AllocateHeldBase | modules/brands/brandControllers.js:13-15 | A held base becomes `base-k` for some 1 ≤ k ≤ the number of held slugs. |
| Slugs.AllocateInSequence | modules/pages/pagesController.js:8-23 | When the held slugs beyond an unrelated set are exactly the first n probes, probe n is returned. |
| Slugs.AllocateIgnoresOtherSlugs | modules/pages/pagesController.js:12-17 | Held slugs that are not probes of the base do not change the result. |
| Paging.QueryIntNonZero | modules/brands/brandControllers.js:528-529 | Falling back to a non-zero default, the page or limit read from the query is never 0. |
| Paging.QueryIntOfNumber | modules/brands/brandControllers.js:528-529 | A positive decimal parameter is taken as written. "0" and an absent parameter give the default. |
| Paging.QueryIntOfNonNumeric | modules/brands/brandControllers.js:528-529 | A parameter that starts with no sign, digit or white space gives the default. |
| Paging.CeilDiv | modules/brands/brandControllers.js:546 | `Math.ceil(a / b)`: (r-1)·b < a ≤ r·b for b > 0, and the mirrored bounds for b < 0. |
| Paging.Paginate | modules/brands/brandControllers.js:528-530 | The pagination reports the total, and page and limit are never 0. |
| Paging.PaginateDefaults | modules/pages/pagesController.js:154-156 | With no query: page 1, limit 10, skip 0, and ⌈total/10⌉ pages. |
| Paging.PagesCoverTotal | modules/pages/pagesController.js:154-172 | For any positive page and limit read from the query, `totalPages` pages cover the total and one page fewer does not. The skip is non-negative, and the page starts inside the collection exactly when page ≤ totalPages. |
| Paging.NegativePageSkipsBackwards | modules/brands/brandControllers.js:528-530 | `page=-n` is accepted and gives a negative skip of (-n-1)·limit. |
| BrandValidation.CheckCreateTopLevel | modules/brands/brandControllers.js:37-54 | Pushes exactly the name, slug, intro and eligibility entries of the create rules, in order. |
| BrandValidation.CheckAsset | modules/brands/brandControllers.js:63-97 | Throws exactly on a null asset. Otherwise pushes exactly that asset's src, alt, width and height entries. |
| BrandValidation.CheckAssets | modules/brands/brandControllers.js:56-101 | Throws exactly when logo or banner is null inside an object `assets`. Otherwise appends exactly the assets entries. |
| BrandValidation.CheckKeywords | modules/brands/brandControllers.js:124-148 | Pushes exactly the `seo.keywords` entry, if any, and leaves the body with a keyword string rewritten into its list. |
| BrandValidation.CheckOptionalString | modules/brands/brandControllers.js:108-115 | An optional property pushes one entry exactly when it is present and not a string. |
| BrandValidation.CheckSeo | modules/brands/brandControllers.js:103-174 | Throws exactly on `seo: null`. Otherwise appends exactly the seo entries and leaves the body rewritten. |
| BrandValidation.CheckSection | modules/brands/brandControllers.js:176-193 | Throws exactly on a null section. Otherwise appends exactly its entries: not an object, or a listed key that is not a string. The same walk serves `costSummary`, `profitSummary` and `cta`. |
| BrandValidation.CheckCity | modules/brands/brandControllers.js:244-272 | Throws exactly on a null city. Otherwise pushes exactly its object, name and description entries. |
| BrandValidation.CheckCities | modules/brands/brandControllers.js:244-272 | Throws exactly when the list holds a null. Otherwise appends the entries of every city in index order. |
| BrandValidation.CheckFaq | modules/brands/brandControllers.js:274-300 | Throws exactly on a null faq. Otherwise pushes exactly its object, q and a entries. |
| BrandValidation.CheckFaqs | modules/brands/brandControllers.js:274-300 | Throws exactly when the list holds a null. Otherwise appends the entries of every faq in index order. |
| BrandValidation.ValidateBrandCreate | modules/brands/brandControllers.js:25-336 | The whole create validation throws exactly when a null sits where an object is read. Otherwise it pushes exactly the ordered create entries and returns the body with its keywords rewritten. |
| BrandValidation.CheckUpdateTopLevel | modules/brands/brandControllers.js:409-438 | Pushes exactly the entries for a supplied name, slug, intro or eligibility that fails its rule. |
| BrandValidation.CheckUpdateFaqs | modules/brands/brandControllers.js:441-454 | Appends a non-array entry, or one entry per faq whose `q` or `a` (read with `?.`) is not a non-empty string. |
| BrandValidation.CheckUpdateCities | modules/brands/brandControllers.js:456-469 | Appends a non-array entry, or one entry per city whose `name` is not a non-empty string. |
| BrandValidation.ValidateBrandUpdate | modules/brands/brandControllers.js:405-477 | The update validation never throws and pushes exactly the ordered update entries. |
| BrandValidation.EachStep | modules/brands/brandControllers.js:249-270 | One more `forEach` iteration appends exactly that item's entries. |
| BrandValidation.EachEmptyIff | modules/brands/brandControllers.js:249-270 | A `forEach` pushes nothing exactly when no item's check pushes anything. |
| BrandValidation.AcceptedCities | modules/brands/brandControllers.js:244-272 | Accepted `cities` without a null are absent or an array of objects. |
| BrandValidation.AcceptedFaqs | modules/brands/brandControllers.js:274-300 | Accepted `faqs` without a null are absent or an array of objects, each with non-empty `q` and `a`. |
| BrandValidation.AcceptedCreateBody | modules/brands/brandControllers.js:37-336 | In a body the create validation accepts: the name is a non-empty string; slug and intro are strings if given; cities and faqs have the shapes above; the rewritten keywords are absent or a list of strings. |
| BrandValidation.KeywordStringRewritten | modules/brands/brandControllers.js:124-131 | A keyword string that joins well-formed keywords is accepted and rewritten into exactly that list. |
| BrandValidation.RewriteKeywordsFrame | modules/brands/brandControllers.js:127-131 | The rewrite changes `seo.keywords` and no other property. |
| BrandValidation.SameSeoErrors | modules/brands/brandControllers.js:124-148 | Replacing an accepted keyword string by a list of strings leaves the seo entries unchanged. |
| BrandValidation.KeywordListRevalidates | modules/brands/brandControllers.js:124-148 | Replacing an accepted keyword string by a list of strings changes neither the create entries nor whether validation throws. |
| BrandValidation.SameOutsideSeo | modules/brands/brandControllers.js:37-329 | Two bodies that agree on every property outside `seo` and have the same seo entries validate alike. |
| BrandValidation.AcceptedKeywords | modules/brands/brandControllers.js:124-148 | When seo pushes nothing, the rewritten `seo.keywords` is absent or a list of strings. |
| BrandValidation.CreateErrorsEmpty | modules/brands/brandControllers.js:332-336 | No entry at all means no entry from the top-level, seo, cities or faqs checks. |
| BrandValidation.RewriteKeywordsRevalidates | modules/brands/brandControllers.js:124-148 | The rewritten body passes the create validation exactly as the original did. |
| BrandValidation.FaqRulesAgree | modules/brands/brandControllers.js:441-454 | For a faq that is not null, create and update accept the same faqs. |
| BrandValidation.CityRulesDiffer | modules/brands/brandControllers.js:456-469 | Update demands a non-blank city name. Create accepts a city with no name (`{}`) and update rejects it. |
| BrandValidation.EmptyBody | modules/brands/brandControllers.js:37-42 | `{}` is rejected on create with the name entry alone, and passes update validation. |
| Brands.Competing | modules/brands/brandControllers.js:8-12 | The slugs held by brands other than the given id, no more of them than brands. |
| Http.IndexOf | modules/brands/brandControllers.js:397-403 | `findById` (for brands through `Brands.BrandId`, for pages through `Pages.PageId`, at pagesController.js:113-119): a found position holds the id, and `None` means no document has it. |
| Brands.BrandStore.constructor | modules/brands/brandsModel.js:6 | An empty collection satisfies the unique slug index. |
| Brands.BrandStore.GenerateUniqueSlug | modules/brands/brandControllers.js:4-18 | The probing loop returns the first free candidate, and no other brand holds it. |
| Brands.BrandStore.BrandCreate | modules/brands/brandControllers.js:23-380 | Response and new collection are those of the create specification, and ids and slugs stay unique. |
| Brands.BrandStore.Insert | modules/brands/brandControllers.js:339-378 | Sanitizes, picks the base or suffixed slug and saves, ending in 201, 409 or 500. Uniqueness is kept. |
| Brands.BrandStore.BrandUpdate | modules/brands/brandControllers.js:385-521 | Response and new collection are those of the update specification, and ids and slugs stay unique. |
| Brands.CreateKeepsUnique | modules/brands/brandControllers.js:343-376 | A create appends exactly one brand with the new id and a slug no brand held before, or changes nothing. Ids and slugs stay unique. |
| Brands.InsertKeepsUnique | modules/brands/brandControllers.js:350-376 | The same for the save step after validation. |
| Brands.UpdateKeepsUnique | modules/brands/brandControllers.js:483-519 | An update keeps the size and every id, touches only the addressed brand and keeps slugs unique, so the 409 branch is never taken. |
| Brands.UpdateSlugSource | modules/brands/brandControllers.js:483-502 | With neither name nor slug supplied, the stored slug is kept. A supplied slug, not the name, is the base of the new one. A name supplied without a slug is the base of the new one. |
| Brands.OwnSlugKept | modules/brands/brandControllers.js:8-12 | A brand regenerating its slug from its own slug keeps it, because its own document is excluded. |
| Brands.UpdateSlugShape | modules/brands/brandControllers.js:483-489 | A regenerated slug is the base, or `base-k` with k at most the number of brands. It is the base whenever no other brand holds the base. |
| Brands.CreateSuffixCollision | modules/brands/brandControllers.js:350-376 | When base and suffixed slug are both held, the create ends in 409 and saves nothing. |
| Brands.SuffixCollisionReachable | modules/brands/brandsModel.js:6 | A collection holding both `acme` and `acme-<suffix>` satisfies the unique index. |
| Brands.CreateFreeBase | modules/brands/brandControllers.js:343-368 | A create whose base slug is free is answered 201 with the base as slug. |
| Brands.CreateHeldBase | modules/brands/brandControllers.js:343-368 | A create whose base slug is held, but whose `base-suffix` is free, is answered 201 with `base-suffix` as slug. |
| Brands.SanitizedName | modules/brands/brandControllers.js:339-340 | Sanitizing trims a string name. |
| Brands.SanitizedHasBase | modules/brands/brandControllers.js:343-346 | A sanitized body with a string name always yields a base slug. |
| Brands.AcceptedCreateHasBase | modules/brands/brandControllers.js:339-346 | An accepted create always reaches `slugify`, with the trimmed name. |
| Brands.BlankNameRejected | modules/brands/brandControllers.js:37-42 | A missing, non-string or blank name gives a 400 whose first entry is the name entry, and nothing is saved. |
| Brands.UpdateUnknownId | modules/brands/brandControllers.js:397-403 | An unknown id is answered 404 whatever the body. |
| Pages.Competing | modules/pages/pagesController.js:12-17 | The slugs held in the brand, excluding the given page, no more of them than pages. |
| Pages.ValidatePage | modules/pages/pagesController.js:43-65 | Pushes exactly the title, key, sections and faqs entries, in order. |
| Pages.PageStore.constructor | modules/pages/pagesModel.js:5-12 | An empty collection has unique ids and per-brand unique slugs. |
| Pages.PageStore.GenerateUniqueSlug | modules/pages/pagesController.js:8-23 | The probing loop returns the first free candidate, and no page of the brand, other than the excluded page, holds it. |
| Pages.PageStore.CreatePage | modules/pages/pagesController.js:28-104 | Response and new collection are those of the create specification, and ids and per-brand slugs stay unique. |
| Pages.PageStore.UpdatePage | modules/pages/pagesController.js:108-147 | Response and new collection are those of the corrected update, and ids and per-brand slugs stay unique. |
| Pages.PageErrorsIff | modules/pages/pagesController.js:43-73 | No entry is pushed exactly when title and key are non-empty strings and sections and faqs are arrays if truthy. |
| Pages.BlankTitleAccepted | modules/pages/pagesController.js:43-45 | A title of white space only is accepted: unlike brands, pages do not trim. |
| Pages.InvalidBrandIdFirst | modules/pages/pagesController.js:35-40 | An invalid brand id is answered 400 before the body is looked at. |
| Pages.CreateKeepsUnique | modules/pages/pagesController.js:76-91 | A create appends exactly one page of the route's brand, with a slug free in that brand, or changes nothing. Because a body `_id` is not modelled, it never ends in 409. |
| Pages.UpdateKeepsUnique | modules/pages/pagesController.js:122-134 | The corrected update keeps every page in its brand, touches only the addressed page and keeps per-brand slugs unique. It keeps all slugs when neither title nor slug is truthy. |
| Pages.UpdateUnknownId | modules/pages/pagesController.js:113-119 | An unknown page id is answered 404, both as written and corrected. |
| Pages.ScopeIndependence | modules/pages/pagesController.js:13-17 | Pages of other brands never affect the allocation in a brand. |
| Pages.DifferentBrandsShareSlug | modules/pages/pagesController.js:13-17 | A slug taken in brand A is free in brand B. |
| Pages.SelfExclusion | modules/pages/pagesController.js:16 | With the page id excluded, a page's own slug is free to it. Without the exclusion, the slug counts as taken. |
| Pages.SequentialCreations | modules/pages/pagesController.js:80 | Creations from one base in one brand get `base`, `base-1`, `base-2`, … in order. |
| Pages.CompetingAppend | modules/pages/pagesController.js:13-17 | The slugs held in a brand by two runs of pages are those held by each run. |
| Pages.MoveBreaksScopedUnique | modules/pages/pagesController.js:130-134 | As written, moving a page into a brand that already uses its slug succeeds and leaves that brand with a duplicate slug. |
| Pages.EmptySlugBreaksScopedUnique | modules/pages/pagesController.js:122-134 | As written, `{ slug: "" }` is stored unchecked and can duplicate a slug in the brand. |
| Pages.UpdateAgreesWithAsWritten | modules/pages/pagesController.js:108-147 | With no `brand` in the body and a `slug` that is truthy or absent, the corrected update equals the update as written. |

## Left out

- Injected behaviour:
  - `slugify` is a function parameter. Applying it to a value that is not a string counts as a throw, which gives 500.
  - The random suffix from `Math.random().toString(36).slice(2, 7)` is a parameter of at most five characters from `[0-9a-z]`.
  - `mongoose.Types.ObjectId.isValid` is a function parameter.
  - The database assigns the new document's id. That id is a parameter, required to be unused.
  - A body-supplied `_id` is not modelled. `PagesModel.create(payload)` and `new BrandsModel(payload)` receive the whole body, so in the application a taken `_id` gives 409 through MongoDB's unique `_id_` index, and an `_id` that cannot be cast gives 500. On update, a `$set` that changes `_id` is refused by MongoDB, which gives 500.
- Database and schema behaviour:
  - Mongoose's schema casting, strict mode and `runValidators` are not modelled. Stored fields are kept as the body gives them, except `slug` and (for pages) `brand`.
  - A malformed id in `findById` fails the cast in MongoDB (500). Here an unknown id, malformed or not, is simply not found (404).
  - The listing queries themselves (`find`, `sort`, `skip`, `limit`, `countDocuments`) are not modelled; only the pagination arithmetic is.
  - MongoDB's errors for a negative skip or limit are not modelled.
  - `Paging.CeilDiv` uses exact integer ceiling division for `Math.ceil(total / limit)`. Floating point rounding is not modelled.
  - Query parameters given as arrays are not modelled. A query parameter is a string or absent.
  - Numbers in a body are exact reals; IEEE-754 doubles and NaN are not modelled.
  - Strings are sequences of Unicode scalar values. A JSON body may hold a lone UTF-16 surrogate such as `"\ud800"`, which a Dafny `char` cannot hold, so such strings are not modelled.
- Http.IndexOf, Brands.Competing and Pages.Competing compare identifiers as strings, taken in one canonical form (lower-case hex for ObjectIds). MongoDB casts ids to ObjectIds, so an upper-case variant of a stored id names the same document or brand. Case variants are not modelled: such an id is answered 404 here where `findById` finds the document.
- DifferentBrandsShareSlug: two brand ids that differ only in letter case name one brand in MongoDB, so the lemma holds of the application only for brand ids in the canonical form.
- Query numbers are exact unbounded integers in Js.ParseInt and Paging.QueryInt. `parseInt` returns a double, so digit strings past 2^53 are rounded and very long ones give `Infinity`, which is truthy and would be used as the page or limit. Neither is modelled.
- ParseIntOfNatToString: reads back `n` exactly for every `n`; the application's `parseInt` does so only for |n| ≤ 2^53.
- QueryIntOfNumber: takes a decimal parameter as written for every value; the application rounds past 2^53 and overflows to `Infinity` past about 1.8 × 10^308.
- Concurrency is left out: each handler runs alone. The check-then-save races between the probing loop and the insert are not modelled.
- Out of scope:
  - Image upload (Cloudinary), authentication middleware, routing.
  - The GET-one and DELETE handlers.
  - The public read-only APIs under `modules/globalAPIs/`.
- Error paths and field paths:
  - The model takes duplicate-key errors (409) only from the brands' unique slug index. `createPages`' 409 branch is therefore never taken in the model. In the application it is reached by a body `_id` that is already taken.
  - Error `field` strings are the `Http.Path` datatype, not the rendered strings.
- Corrected behaviour:
  - `Pages.PageStore.UpdatePage` follows the corrected `UpdateResult`.
  - `UpdateAsWritten` models `updatePage` as written, under Findings.

## Findings

| source | as written | input that shows it | evidently intended | confidence | as-written member | corrected member |
|---|---|---|---|---|---|---|
| modules/pages/pagesController.js:130-134 | `$set: payload` also writes a supplied `brand`, so the page moves to another brand with a slug that was only checked in its old brand | pages `{id 1, brand A, slug x}` and `{id 2, brand B, slug x}`; update page 2 with `{ brand: "A" }` | slugs stay unique within each brand (the helper at lines 8-23 exists for that), so a page keeps its brand or its slug is re-checked in the new one | not executed | Pages.MoveBreaksScopedUnique | Pages.UpdateKeepsUnique |
| modules/pages/pagesController.js:122-134 | a falsy `slug` such as `""` skips regeneration and is written as it is | pages `{id 1, brand A, slug ""}` and `{id 2, brand A, slug y}`; update page 2 with `{ slug: "" }` | a slug that was not regenerated is left as it was | not executed | Pages.EmptySlugBreaksScopedUnique | Pages.UpdateKeepsUnique |
