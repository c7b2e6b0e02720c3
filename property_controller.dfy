/**
 * The property controller over an in-memory collection. The collection is a map
 * from id to record plus the ids in insertion order, which is the order a query
 * without a sort returns. Create, update and delete change the collection in
 * place; listing builds a filter from the query string, sorts the matches newest
 * first and cuts one page out of them; search is a case-insensitive match over
 * four fields, capped at twenty records.
 */
module PropertyController {
  import opened Wrappers
  import opened Text
  import opened Http
  import opened ObjectIds
  import opened PropertyModel
  import opened ValidateProperty

  // ----- The fixed texts of the replies -----

  const NotFoundMessage := "Property not found"
  const CreatedMessage := "Property created successfully"
  const CreateRefusal := "Property validation failed"
  const UpdateRefusal := "Validation failed"
  const UpdatedMessage := "Property updated successfully"
  const DeletedMessage := "Property deleted successfully"
  const QueryRequiredMessage := "Search query is required"

  /** The `data` of a reply: one record or a list of records. */
  datatype Payload = One(record: Property) | Many(records: seq<Property>)

  // ----- The listing query and its filter -----

  /**
   * The query string of the listing. A text parameter is `None` when missing; an
   * empty one is falsy and counts as not supplied. A numeric filter parameter is
   * `Some` exactly when it was supplied non-empty, which makes it truthy even when
   * it is 0. `page` and `limit` are `None` only when missing: an empty one is
   * `Number("")`, so `Some(0)`.
   */
  datatype ListQuery = ListQuery(
    category: Option<string>,
    listingType: Option<string>,
    minPrice: Option<int>,
    maxPrice: Option<int>,
    bedrooms: Option<int>,
    bathrooms: Option<int>,
    furnishing: Option<string>,
    status: Option<string>,
    page: Option<int>,
    limit: Option<int>)

  /** The `price` condition: `$gte` and `$lte`, each there only when its bound was given. */
  datatype PriceRange = PriceRange(gte: Option<int>, lte: Option<int>)

  /** The query document handed to the store; a `None` key is not in the document. */
  datatype Filter = Filter(
    category: Option<string>,
    listingType: Option<string>,
    bedrooms: Option<int>,
    bathrooms: Option<int>,
    furnishing: Option<string>,
    status: Option<string>,
    price: Option<PriceRange>)

  predicate InRange(r: PriceRange, price: int) {
    (r.gte.Some? ==> price >= r.gte.value) && (r.lte.Some? ==> price <= r.lte.value)
  }

  /** The store's reading of a filter: every key in it is a condition the record meets. */
  predicate Matches(f: Filter, p: Property) {
    && (f.category.Some? ==> CategoryName(p.category) == f.category.value)
    && (f.listingType.Some? ==> ListingTypeName(p.listingType) == f.listingType.value)
    && (f.bedrooms.Some? ==> p.bedrooms == f.bedrooms.value)
    && (f.bathrooms.Some? ==> p.bathrooms == f.bathrooms.value)
    && (f.furnishing.Some? ==> FurnishingName(p.furnishing) == f.furnishing.value)
    && (f.status.Some? ==> StatusName(p.status) == f.status.value)
    && (f.price.Some? ==> InRange(f.price.value, p.price))
  }

  /** What the listing promises, stated on the query: each supplied parameter is a condition, all of them hold. */
  predicate Satisfies(q: ListQuery, p: Property) {
    && (TruthyText(q.category) ==> CategoryName(p.category) == q.category.value)
    && (TruthyText(q.listingType) ==> ListingTypeName(p.listingType) == q.listingType.value)
    && (q.bedrooms.Some? ==> p.bedrooms == q.bedrooms.value)
    && (q.bathrooms.Some? ==> p.bathrooms == q.bathrooms.value)
    && (TruthyText(q.furnishing) ==> FurnishingName(p.furnishing) == q.furnishing.value)
    && (TruthyText(q.status) ==> StatusName(p.status) == q.status.value)
    && (q.minPrice.Some? ==> p.price >= q.minPrice.value)
    && (q.maxPrice.Some? ==> p.price <= q.maxPrice.value)
  }

  /**
   * Builds the filter key by key, as the listing handler does: a key only for a
   * supplied parameter, and a price range when either bound is supplied.
   */
  method BuildFilter(q: ListQuery) returns (f: Filter)
    ensures FilterOf(q, f)
    ensures forall p :: Matches(f, p) <==> Satisfies(q, p)
  {
    f := Filter(None, None, None, None, None, None, None);
    if TruthyText(q.category) {
      f := f.(category := q.category);
    }
    if TruthyText(q.listingType) {
      f := f.(listingType := q.listingType);
    }
    if q.bedrooms.Some? {
      f := f.(bedrooms := q.bedrooms);
    }
    if q.bathrooms.Some? {
      f := f.(bathrooms := q.bathrooms);
    }
    if TruthyText(q.furnishing) {
      f := f.(furnishing := q.furnishing);
    }
    if TruthyText(q.status) {
      f := f.(status := q.status);
    }
    if q.minPrice.Some? || q.maxPrice.Some? {
      var range := PriceRange(None, None);
      if q.minPrice.Some? {
        range := range.(gte := q.minPrice);
      }
      if q.maxPrice.Some? {
        range := range.(lte := q.maxPrice);
      }
      f := f.(price := Some(range));
    }
    FilterOfAgrees(q, f);
  }

  /** The keys of the filter built from `q`: one per supplied parameter, holding its value. */
  predicate FilterOf(q: ListQuery, f: Filter) {
    && f.category == (if TruthyText(q.category) then q.category else None)
    && f.listingType == (if TruthyText(q.listingType) then q.listingType else None)
    && f.bedrooms == q.bedrooms && f.bathrooms == q.bathrooms
    && f.furnishing == (if TruthyText(q.furnishing) then q.furnishing else None)
    && f.status == (if TruthyText(q.status) then q.status else None)
    && f.price == (if q.minPrice.Some? || q.maxPrice.Some? then Some(PriceRange(q.minPrice, q.maxPrice)) else None)
  }

  /** The store, reading the filter built from `q`, keeps exactly the records that satisfy `q`. */
  lemma FilterOfAgrees(q: ListQuery, f: Filter)
    requires FilterOf(q, f)
    ensures forall p :: Matches(f, p) <==> Satisfies(q, p)
  {
  }

  // ----- Pagination -----

  function Abs(n: int): nat {
    if n < 0 then -n else n
  }

  /** The page and page size the listing uses: 1 and 10 unless supplied. */
  function PageOf(q: ListQuery): int {
    q.page.GetOr(1)
  }

  function LimitOf(q: ListQuery): int {
    q.limit.GetOr(10)
  }

  /** `(page - 1) * limit`: the number of matches before the page. */
  function SkipOf(q: ListQuery): int {
    (PageOf(q) - 1) * LimitOf(q)
  }

  /**
   * `skip(n).limit(k)` on a sorted list: drop the first `n`, then keep at most
   * |k|; a limit of 0 keeps everything. The page is a contiguous run of the list.
   */
  function Window<T>(s: seq<T>, skip: nat, limit: int): (w: seq<T>)
    ensures var rest := if skip <= |s| then |s| - skip else 0;
      |w| == (if limit == 0 || rest <= Abs(limit) then rest else Abs(limit))
    ensures forall i | 0 <= i < |w| :: skip + i < |s| && w[i] == s[skip + i]
  {
    var rest := if skip <= |s| then s[skip..] else [];
    if limit == 0 || |rest| <= Abs(limit) then rest else rest[..Abs(limit)]
  }

  /**
   * `Math.ceil(total / limit)` as the reply carries it: `null` when the quotient
   * is not finite (a limit of 0), and rounded towards positive infinity otherwise.
   */
  function Pages(total: nat, limit: int): (r: Json)
    ensures r.JNull? <==> limit == 0
    ensures limit > 0 ==> r.JNum? && r.n >= 0
    ensures limit < 0 ==> r.JNum? && r.n <= 0
  {
    if limit == 0 then JNull
    else if limit > 0 then JNum((total + limit - 1) / limit)
    else JNum(-(total / -limit))
  }

  /** With a positive limit, `pages` is the least number of pages that hold every match. */
  lemma PagesIsCeiling(total: nat, limit: int)
    requires limit > 0
    ensures Pages(total, limit).JNum?
    ensures var n := Pages(total, limit).n;
      n >= 0 && total <= n * limit && (n == 0 || (n - 1) * limit < total)
  {
    var n := (total + limit - 1) / limit;
    var r := (total + limit - 1) % limit;
    assert total + limit - 1 == n * limit + r;
    assert (n - 1) * limit == n * limit - limit;
  }

  /** `pages` is 0 exactly when nothing matched, for any positive limit. */
  lemma NoPagesIffNoMatches(total: nat, limit: int)
    requires limit > 0
    ensures Pages(total, limit) == JNum(0) <==> total == 0
  {
    PagesIsCeiling(total, limit);
  }

  /** A page past the last one starts after every match, so it is empty. */
  lemma PageBeyondLastIsEmpty<T>(s: seq<T>, page: int, limit: int)
    requires limit > 0
    requires page > Pages(|s|, limit).n
    ensures (page - 1) * limit >= |s|
    ensures Window(s, (page - 1) * limit, limit) == []
  {
    PagesIsCeiling(|s|, limit);
    var n := Pages(|s|, limit).n;
    MulMonotone(page - 1, n, limit);
  }

  lemma MulMonotone(a: int, b: int, c: int)
    requires a >= b && c > 0
    ensures a * c >= b * c
  {
    assert a * c - b * c == (a - b) * c;
  }

  /** A page never holds more records than the limit allows. */
  lemma WindowWithinLimit<T>(s: seq<T>, skip: nat, limit: int)
    requires limit != 0
    ensures |Window(s, skip, limit)| <= Abs(limit)
  {
  }

  // ----- Newest first -----

  /** Sorted by `createdAt`, newest first. */
  predicate NewestFirst(s: seq<Property>) {
    forall i, j | 0 <= i < j < |s| :: s[i].createdAt >= s[j].createdAt
  }

  /** `x` is at least as new as every record of `s`. */
  predicate AtLeastAsNew(x: Property, s: seq<Property>) {
    forall i | 0 <= i < |s| :: x.createdAt >= s[i].createdAt
  }

  /** Being at least as new as every record depends only on which records there are. */
  lemma AtLeastAsNewOfSame(x: Property, s: seq<Property>, t: seq<Property>)
    requires multiset(s) == multiset(t) && AtLeastAsNew(x, t)
    ensures AtLeastAsNew(x, s)
  {
    forall i | 0 <= i < |s| ensures x.createdAt >= s[i].createdAt {
      assert s[i] in multiset(t);
      var j :| 0 <= j < |t| && t[j] == s[i];
    }
  }

  lemma NewestFirstCons(x: Property, s: seq<Property>)
    requires AtLeastAsNew(x, s) && NewestFirst(s)
    ensures NewestFirst([x] + s)
  {
  }

  /** Puts a record before the first one that is not newer than it. */
  function InsertByDate(p: Property, s: seq<Property>): (r: seq<Property>)
    requires NewestFirst(s)
    ensures multiset(r) == multiset(s) + multiset{p}
    ensures NewestFirst(r)
  {
    if s == [] || p.createdAt >= s[0].createdAt then
      NewestFirstCons(p, s);
      [p] + s
    else
      var rest := InsertByDate(p, s[1..]);
      assert s == [s[0]] + s[1..];
      AtLeastAsNewOfSame(s[0], rest, s[1..] + [p]);
      NewestFirstCons(s[0], rest);
      [s[0]] + rest
  }

  /** `sort({ createdAt: -1 })`: a newest-first arrangement of the same records; ties keep their order. */
  function SortNewestFirst(s: seq<Property>): (r: seq<Property>)
    ensures multiset(r) == multiset(s)
    ensures NewestFirst(r)
  {
    if s == [] then []
    else
      assert s == [s[0]] + s[1..];
      InsertByDate(s[0], SortNewestFirst(s[1..]))
  }

  // ----- Scans over the collection -----

  /** The records whose `keep` holds, in the order of `s`. */
  function Filtered(keep: Property -> bool, s: seq<Property>): (r: seq<Property>)
    ensures |r| <= |s|
  {
    if s == [] then []
    else
      var n := |s| - 1;
      Filtered(keep, s[..n]) + (if keep(s[n]) then [s[n]] else [])
  }

  /** Exactly the records of `s` that `keep` accepts are kept. */
  lemma {:induction false} FilteredSpec(keep: Property -> bool, s: seq<Property>)
    ensures forall i | 0 <= i < |Filtered(keep, s)| :: keep(Filtered(keep, s)[i]) && Filtered(keep, s)[i] in s
    ensures forall x | x in s && keep(x) :: x in Filtered(keep, s)
  {
    if s != [] {
      var n := |s| - 1;
      FilteredSpec(keep, s[..n]);
      assert forall x | x in s[..n] :: x in s;
      forall x | x in s && keep(x) ensures x in Filtered(keep, s) {
        var i :| 0 <= i < |s| && s[i] == x;
        if i < n {
          assert s[..n][i] == x;
        }
      }
    }
  }

  /** The first `cap` of a list; a cap of 0 keeps it all. */
  function Take<T>(s: seq<T>, cap: nat): (r: seq<T>)
    ensures |r| == (if cap == 0 || |s| <= cap then |s| else cap)
    ensures r == s[..|r|]
  {
    if cap == 0 || |s| <= cap then s else s[..cap]
  }

  /** Scanning one more record appends it when it is kept. */
  lemma FilteredSnoc(keep: Property -> bool, s: seq<Property>, n: nat)
    requires n < |s|
    ensures Filtered(keep, s[..n + 1]) == Filtered(keep, s[..n]) + (if keep(s[n]) then [s[n]] else [])
  {
    assert s[..n + 1][..n] == s[..n];
  }

  /** What a shorter scan kept is the start of what a longer scan keeps. */
  lemma {:induction false} FilteredPrefix(keep: Property -> bool, s: seq<Property>, n: nat)
    requires n <= |s|
    ensures var a := Filtered(keep, s[..n]); var b := Filtered(keep, s);
      |a| <= |b| && a == b[..|a|]
  {
    if n < |s| {
      var m := |s| - 1;
      FilteredPrefix(keep, s[..m], n);
      assert s[..m][..n] == s[..n];
      assert s[..m] == s[..|s| - 1];
    } else {
      assert s[..n] == s;
    }
  }

  /**
   * A scan that stops at the end of `s`, or once `cap` records are kept, has
   * kept the first `cap` of everything `keep` accepts.
   */
  lemma ScanStops(keep: Property -> bool, s: seq<Property>, n: nat, found: seq<Property>, cap: nat)
    requires n <= |s| && found == Filtered(keep, s[..n])
    requires cap != 0 ==> |found| <= cap
    requires n == |s| || (cap != 0 && |found| == cap)
    ensures found == Take(Filtered(keep, s), cap)
  {
    FilteredPrefix(keep, s, n);
    if n == |s| {
      assert s[..n] == s;
    }
  }

  /** The records stored under a list of ids, in that order. */
  function RecordsOf(ids: seq<ObjectId>, records: map<ObjectId, Property>): (r: seq<Property>)
    requires forall i | 0 <= i < |ids| :: ids[i] in records
    ensures |r| == |ids| && forall i | 0 <= i < |ids| :: r[i] == records[ids[i]]
  {
    seq(|ids|, i requires 0 <= i < |ids| => records[ids[i]])
  }

  /** The ids of a list without `id`, in their order. */
  function Without(ids: seq<ObjectId>, id: ObjectId): (r: seq<ObjectId>)
    ensures forall x :: x in r <==> x in ids && x != id
    ensures Distinct(ids) ==> Distinct(r)
  {
    if ids == [] then []
    else
      var n := |ids| - 1;
      var rest := Without(ids[..n], id);
      assert forall x | x in ids :: x in ids[..n] || x == ids[n];
      if ids[n] == id then rest
      else
        assert Distinct(ids) ==> ids[n] !in ids[..n];
        rest + [ids[n]]
  }

  /** The search condition: the query occurs, ignoring ASCII case, in title, description, location or category. */
  predicate SearchMatches(query: string, p: Property) {
    || ContainsIgnoringCase(p.title, query)
    || ContainsIgnoringCase(p.description, query)
    || (p.location.Some? && ContainsIgnoringCase(p.location.value, query))
    || ContainsIgnoringCase(CategoryName(p.category), query)
  }

  const SearchCap: nat := 20

  // ----- Request bodies -----

  /** Uploaded files enter `images` as their stored paths. */
  function FilePaths(files: seq<UploadedFile>): (r: seq<ImageInput>)
    ensures |r| == |files| && forall i | 0 <= i < |files| :: r[i] == ImagePath(files[i].path)
  {
    seq(|files|, i requires 0 <= i < |files| => ImagePath(files[i].path))
  }

  /**
   * The document a create hands to the schema: the twelve listed fields of the
   * body, with the uploaded files' paths as `images` whenever `req.files` is there.
   * Every other key of the body, `status` included, is dropped.
   */
  function CreateDraft(req: Request): (d: Fields)
    ensures d.images == (if req.files.Some? then Some(FilePaths(req.files.value)) else req.body.images)
    ensures d.status.None?
    ensures d.(images := None) == req.body.(images := None, status := None)
  {
    var b := req.body;
    Fields(
      b.title,
      if req.files.Some? then Some(FilePaths(req.files.value)) else b.images,
      b.category, b.listingType, b.price, b.bedrooms, b.bathrooms, b.area,
      b.description, b.amenities, b.furnishing, b.location,
      None)
  }

  /** The update a request asks for: the body, with `images` replaced by the uploaded paths when there are any. */
  function UpdateDraft(req: Request): (d: Fields)
    ensures req.files.Some? && |req.files.value| > 0 ==> d.images == Some(FilePaths(req.files.value))
    ensures !(req.files.Some? && |req.files.value| > 0) ==> d.images == req.body.images
    ensures d.(images := None) == req.body.(images := None)
  {
    if req.files.Some? && |req.files.value| > 0 then req.body.(images := Some(FilePaths(req.files.value)))
    else req.body
  }

  /** Create reads only the whitelisted fields and the files: `status` and any other key cannot change the record. */
  lemma CreateDraftWhitelist(r1: Request, r2: Request)
    requires r1.files == r2.files
    requires r1.body.(status := None, images := None) == r2.body.(status := None, images := None)
    requires r1.files.None? ==> r1.body.images == r2.body.images
    ensures CreateDraft(r1) == CreateDraft(r2)
  {
  }

  /** A new record always starts out `Available`, whatever status the request names. */
  lemma CreatedIsAvailable(req: Request, id: ObjectId, now: int)
    requires Materialize(CreateDraft(req), id, now).Ok?
    ensures Materialize(CreateDraft(req), id, now).value.status == Available
  {
    MaterializeFields(CreateDraft(req), id, now);
  }

  /**
   * Uploaded files reach the schema as path strings, which no image entry
   * accepts: a create with at least one uploaded file is always refused. This
   * rests on the upload middleware giving every stored file a non-empty path,
   * as disk storage does.
   */
  lemma UploadedFilesAreRefused(req: Request, id: ObjectId, now: int)
    requires req.files.Some? && |req.files.value| > 0
    ensures Materialize(CreateDraft(req), id, now).Err?
  {
    assert !ImageAcceptable(CreateDraft(req).images.value[0]);
  }

  /** The 400 message of a refused update: the cast error's own message, or the validation text. */
  function RefusalText(e: PatchRefusal): (text: string)
    ensures e.CastFailed? ==> text == e.message
    ensures e.Invalid? ==> text == ValidationText(UpdateRefusal, e.errors)
  {
    match e
    case CastFailed(message) => message
    case Invalid(errors) => ValidationText(UpdateRefusal, errors)
  }

  /**
   * An update with uploaded files puts path strings into `images`, so its cast
   * always fails, whatever else the body holds; the reply carries the cast
   * message alone, without the validation prefix.
   */
  lemma UploadedFilesFailUpdateCast(req: Request)
    requires req.files.Some? && |req.files.value| > 0
    ensures HasPathEntry(Some(FilePaths(req.files.value)))
    ensures CastPatch(UpdateDraft(req)) == Err(CastFailed(CastMessage(FilePaths(req.files.value))))
    ensures RefusalText(CastPatch(UpdateDraft(req)).error) == CastMessage(FilePaths(req.files.value))
  {
    assert UpdateDraft(req).images.value[0].ImagePath?;
  }

  /** The 404 reply of the handlers that look a record up. */
  function NotFound<D>(): Reply<D> {
    Failure(404, NotFoundMessage)
  }

  /** The reply to a lookup of `id` in the collection `records`. */
  function Lookup(records: map<ObjectId, Property>, id: ObjectId): (r: Reply<Payload>)
    ensures r.status == 200 <==> id in records
    ensures id in records ==> r.data == Some(One(records[id]))
    ensures id !in records ==> r == NotFound()
  {
    if id in records then Success(200, None, One(records[id])) else NotFound()
  }

  /** The in-memory collection. */
  class PropertyStore {
    var records: map<ObjectId, Property>
    var order: seq<ObjectId>

    /** Each record sits under its own id and is schema-valid; `order` lists every id once. */
    ghost predicate Valid()
      reads this
    {
      && (forall id | id in records :: records[id].id == id && PropertyModel.Valid(records[id]))
      && (forall i | 0 <= i < |order| :: order[i] in records)
      && (forall id | id in records :: id in order)
      && Distinct(order)
    }

    /** The records in insertion order: what a query without a sort scans. */
    function Listing(): (s: seq<Property>)
      requires Valid()
      reads this
      ensures |s| == |order|
    {
      RecordsOf(order, records)
    }

    constructor()
      ensures Valid() && records == map[] && order == []
    {
      records := map[];
      order := [];
    }

    /** Scans the collection in insertion order and keeps the first `cap` records that `keep` accepts (all when `cap` is 0). */
    method Find(keep: Property -> bool, cap: nat) returns (found: seq<Property>)
      requires Valid()
      ensures found == Take(Filtered(keep, Listing()), cap)
    {
      var all := Listing();
      found := [];
      var i := 0;
      while i < |all| && (cap == 0 || |found| < cap)
        invariant 0 <= i <= |all|
        invariant found == Filtered(keep, all[..i])
        invariant cap != 0 ==> |found| <= cap
      {
        var p := all[i];
        FilteredSnoc(keep, all, i);
        if keep(p) {
          found := found + [p];
        }
        i := i + 1;
      }
      ScanStops(keep, all, i, found, cap);
    }

    /** `getPropertyById`: the record, or 404 when no record has that id. */
    method GetById(id: ObjectId) returns (reply: Reply<Payload>)
      ensures reply == Lookup(records, id)
    {
      if id !in records {
        return NotFound();
      }
      reply := Success(200, None, One(records[id]));
    }

    /**
     * `createProperty`: the whitelisted draft goes through the schema; a valid
     * document is stored under the new id and answered with 201, a refused one
     * gets 400 with the validation error's text and the collection is unchanged.
     */
    method Create(req: Request, newId: ObjectId, now: int) returns (reply: Reply<Payload>)
      requires Valid() && newId !in records
      modifies this
      ensures Valid()
      ensures Materialize(CreateDraft(req), newId, now).Ok? ==>
        && records == old(records)[newId := Materialize(CreateDraft(req), newId, now).value]
        && order == old(order) + [newId]
        && reply == Success(201, Some(CreatedMessage), One(records[newId]))
      ensures Materialize(CreateDraft(req), newId, now).Err? ==>
        && records == old(records) && order == old(order)
        && reply == Failure(400, ValidationText(CreateRefusal,
                                                Materialize(CreateDraft(req), newId, now).error))
    {
      var result := Materialize(CreateDraft(req), newId, now);
      if result.Err? {
        return Failure(400, ValidationText(CreateRefusal, result.error));
      }
      Insert(result.value);
      reply := Success(201, Some(CreatedMessage), One(result.value));
    }

    /** Stores a schema-valid record under its id, which is new, at the end of the insertion order. */
    method Insert(p: Property)
      requires Valid() && p.id !in records && PropertyModel.Valid(p)
      modifies this
      ensures Valid()
      ensures records == old(records)[p.id := p] && order == old(order) + [p.id]
    {
      assert p.id !in order;
      records := records[p.id := p];
      order := order + [p.id];
    }

    /**
     * `updateProperty`: the requested changes are validated first (a refusal is
     * a 400 even for an unknown id); then an unknown id is a 404; otherwise the
     * record takes the changes and a new `updatedAt`, and the reply carries it.
     */
    method Update(id: ObjectId, req: Request, now: int) returns (reply: Reply<Payload>)
      requires Valid()
      modifies this
      ensures Valid() && order == old(order)
      ensures CastPatch(UpdateDraft(req)).Err? ==>
        && records == old(records)
        && reply == Failure(400, RefusalText(CastPatch(UpdateDraft(req)).error))
      ensures CastPatch(UpdateDraft(req)).Ok? && id !in old(records) ==>
        records == old(records) && reply == NotFound()
      ensures CastPatch(UpdateDraft(req)).Ok? && id in old(records) ==>
        && records == old(records)[id := Apply(old(records)[id], CastPatch(UpdateDraft(req)).value, now)]
        && reply == Success(200, Some(UpdatedMessage), One(records[id]))
    {
      var cast := CastPatch(UpdateDraft(req));
      if cast.Err? {
        return Failure(400, RefusalText(cast.error));
      }
      if id !in records {
        return NotFound();
      }
      PatchPreservesValid(records[id], UpdateDraft(req), now);
      var updated := Apply(records[id], cast.value, now);
      Replace(updated);
      reply := Success(200, Some(UpdatedMessage), One(updated));
    }

    /** Puts a schema-valid record in place of the stored one with the same id; the order is kept. */
    method Replace(p: Property)
      requires Valid() && p.id in records && PropertyModel.Valid(p)
      modifies this
      ensures Valid()
      ensures records == old(records)[p.id := p] && order == old(order)
    {
      records := records[p.id := p];
    }

    /** `deleteProperty`: removes exactly the record with that id, or answers 404 when there is none. */
    method Delete(id: ObjectId) returns (reply: Reply<Payload>)
      requires Valid()
      modifies this
      ensures Valid()
      ensures id in old(records) ==>
        && records == old(records) - {id} && order == Without(old(order), id)
        && reply == Notice(200, DeletedMessage)
      ensures id !in old(records) ==> records == old(records) && order == old(order) && reply == NotFound()
    {
      if id !in records {
        return NotFound();
      }
      ghost var before := order;
      records := records - {id};
      order := Without(order, id);
      assert forall i | 0 <= i < |order| :: order[i] in before && order[i] != id;
      reply := Notice(200, DeletedMessage);
    }

    /**
     * `searchProperties`: a missing or empty query is a 400; otherwise the first
     * twenty records, in insertion order, that match the query in any of the four fields.
     */
    method Search(query: Option<string>) returns (reply: Reply<Payload>)
      requires Valid()
      ensures !TruthyText(query) ==> reply == Failure(400, QueryRequiredMessage)
      ensures TruthyText(query) ==>
        var items := Take(Filtered(p => SearchMatches(query.value, p), Listing()), SearchCap);
        reply == Reply(200, true, None, None, Some(JNum(|items|)), None, None, None, Some(Many(items)))
    {
      if query.None? || query.value == [] {
        return Failure(400, QueryRequiredMessage);
      }
      var q := query.value;
      var items := Find(p => SearchMatches(q, p), SearchCap);
      reply := Reply(200, true, None, None, Some(JNum(|items|)), None, None, None, Some(Many(items)));
    }

    /**
     * `getAllProperties`: the matches of the filter, newest first, one page of
     * them, with the number on the page, the number of all matches, the page and
     * the page count. A negative skip is refused by the store, which the handler
     * turns into a 500 carrying the store's message `storeError`.
     */
    method GetAll(q: ListQuery, storeError: string) returns (reply: Reply<Payload>)
      requires Valid()
      ensures SkipOf(q) < 0 ==> reply == Failure(500, storeError)
      ensures SkipOf(q) >= 0 ==>
        var matches := Filtered(p => Satisfies(q, p), Listing());
        var items := Window(SortNewestFirst(matches), SkipOf(q), LimitOf(q));
        reply == Reply(200, true, None, None, Some(JNum(|items|)), Some(|matches|), Some(PageOf(q)),
                       Some(Pages(|matches|, LimitOf(q))), Some(Many(items)))
    {
      var f := BuildFilter(q);
      var page := PageOf(q);
      var limit := LimitOf(q);
      var skip := SkipOf(q);
      if skip < 0 {
        return Failure(500, storeError);
      }
      var matches := Find(p => Matches(f, p), 0);
      FilteredSame(p => Matches(f, p), p => Satisfies(q, p), Listing());
      var items := Window(SortNewestFirst(matches), skip, limit);
      var total := |matches|;
      reply := Reply(200, true, None, None, Some(JNum(|items|)), Some(total), Some(page),
                     Some(Pages(total, limit)), Some(Many(items)));
    }
  }

  /** Two conditions that agree on every record keep the same records. */
  lemma {:induction false} FilteredSame(k1: Property -> bool, k2: Property -> bool, s: seq<Property>)
    requires forall p :: k1(p) == k2(p)
    ensures Filtered(k1, s) == Filtered(k2, s)
  {
    if s != [] {
      FilteredSame(k1, k2, s[..|s| - 1]);
    }
  }

  /** Sorting the kept records loses none of them and adds none. */
  lemma SortedKeepsExactly(keep: Property -> bool, s: seq<Property>)
    ensures var sorted := SortNewestFirst(Filtered(keep, s));
      && (forall i | 0 <= i < |sorted| :: keep(sorted[i]) && sorted[i] in s)
      && (forall x | x in s && keep(x) :: x in sorted)
  {
    var kept := Filtered(keep, s);
    var sorted := SortNewestFirst(kept);
    FilteredSpec(keep, s);
    forall i | 0 <= i < |sorted| ensures keep(sorted[i]) && sorted[i] in s {
      assert sorted[i] in multiset(kept);
    }
    forall x | x in s && keep(x) ensures x in sorted {
      assert x in multiset(sorted);
    }
  }

  /** Every record on a page of the listing is a stored record that satisfies the query. */
  lemma PageItemsSatisfyQuery(q: ListQuery, s: seq<Property>)
    requires SkipOf(q) >= 0
    ensures var items := Window(SortNewestFirst(Filtered(p => Satisfies(q, p), s)), SkipOf(q), LimitOf(q));
      forall i | 0 <= i < |items| :: Satisfies(q, items[i]) && items[i] in s
  {
    SortedKeepsExactly(p => Satisfies(q, p), s);
  }

  /**
   * Without a limit and from the first record on (`limit=0`, page 1), the page
   * holds every stored record that satisfies the query, each exactly as often
   * as it is stored, newest first.
   */
  lemma UnlimitedFirstPageIsEveryMatch(q: ListQuery, s: seq<Property>)
    requires q.limit == Some(0) && (q.page.None? || q.page == Some(1))
    ensures var items := Window(SortNewestFirst(Filtered(p => Satisfies(q, p), s)), SkipOf(q), LimitOf(q));
      && multiset(items) == multiset(Filtered(p => Satisfies(q, p), s))
      && NewestFirst(items)
      && (forall x | x in s && Satisfies(q, x) :: x in items)
  {
    var sorted := SortNewestFirst(Filtered(p => Satisfies(q, p), s));
    assert Window(sorted, 0, 0) == sorted;
    SortedKeepsExactly(p => Satisfies(q, p), s);
  }

  /**
   * A search answers at most twenty records, each a stored record matching the
   * query; when fewer than twenty match, it answers all of them.
   */
  lemma SearchItemsMatch(query: string, s: seq<Property>)
    ensures var items := Take(Filtered(p => SearchMatches(query, p), s), SearchCap);
      && |items| <= SearchCap
      && (forall i | 0 <= i < |items| :: SearchMatches(query, items[i]) && items[i] in s)
      && (|items| < SearchCap ==> forall x | x in s && SearchMatches(query, x) :: x in items)
  {
    var all := Filtered(p => SearchMatches(query, p), s);
    FilteredSpec(p => SearchMatches(query, p), s);
    var items := Take(all, SearchCap);
    forall i | 0 <= i < |items| ensures SearchMatches(query, items[i]) && items[i] in s {
      assert items[i] == all[i];
    }
  }
}
