/**
 * The Property schema: the fields a listing has, the enumerations with their
 * defaults, the `trim` setters, the `required`, `min`, `maxlength` and `enum`
 * validators, and the timestamps the store keeps. Creating a document runs every
 * validator over the whole draft; an update with `runValidators` runs the
 * validators of the fields it sets and leaves the others alone.
 */
module PropertyModel {
  import opened Wrappers
  import opened Text
  import opened ObjectIds

  datatype Category = Apartment | House | Villa | Studio | Penthouse | Condo | Townhouse | Other
  datatype ListingType = Rent | Sale
  datatype Furnishing = Furnished | SemiFurnished | Unfurnished | FullyFurnished
  datatype Status = Available | Rented | Sold

  function CategoryName(c: Category): string {
    match c
    case Apartment => "Apartment"
    case House => "House"
    case Villa => "Villa"
    case Studio => "Studio"
    case Penthouse => "Penthouse"
    case Condo => "Condo"
    case Townhouse => "Townhouse"
    case Other => "Other"
  }

  /** The `enum` test for `category`: exactly the eight names are accepted, each as its own value. */
  function ParseCategory(s: string): (r: Option<Category>)
    ensures r.Some? ==> CategoryName(r.value) == s
  {
    if s == "Apartment" then Some(Apartment)
    else if s == "House" then Some(House)
    else if s == "Villa" then Some(Villa)
    else if s == "Studio" then Some(Studio)
    else if s == "Penthouse" then Some(Penthouse)
    else if s == "Condo" then Some(Condo)
    else if s == "Townhouse" then Some(Townhouse)
    else if s == "Other" then Some(Other)
    else None
  }

  function ListingTypeName(t: ListingType): string {
    match t
    case Rent => "Rent"
    case Sale => "Sale"
  }

  function ParseListingType(s: string): (r: Option<ListingType>)
    ensures r.Some? ==> ListingTypeName(r.value) == s
  {
    if s == "Rent" then Some(Rent) else if s == "Sale" then Some(Sale) else None
  }

  function FurnishingName(f: Furnishing): string {
    match f
    case Furnished => "Furnished"
    case SemiFurnished => "Semi-Furnished"
    case Unfurnished => "Unfurnished"
    case FullyFurnished => "Fully Furnished"
  }

  function ParseFurnishing(s: string): (r: Option<Furnishing>)
    ensures r.Some? ==> FurnishingName(r.value) == s
  {
    if s == "Furnished" then Some(Furnished)
    else if s == "Semi-Furnished" then Some(SemiFurnished)
    else if s == "Unfurnished" then Some(Unfurnished)
    else if s == "Fully Furnished" then Some(FullyFurnished)
    else None
  }

  function StatusName(s: Status): string {
    match s
    case Available => "Available"
    case Rented => "Rented"
    case Sold => "Sold"
  }

  function ParseStatus(s: string): (r: Option<Status>)
    ensures r.Some? ==> StatusName(r.value) == s
  {
    if s == "Available" then Some(Available)
    else if s == "Rented" then Some(Rented)
    else if s == "Sold" then Some(Sold)
    else None
  }

  /** Each enumeration value's name is accepted as that value, so the `enum` tests accept exactly the names. */
  lemma NamesParse(c: Category, l: ListingType, f: Furnishing, s: Status)
    ensures ParseCategory(CategoryName(c)) == Some(c)
    ensures ParseListingType(ListingTypeName(l)) == Some(l)
    ensures ParseFurnishing(FurnishingName(f)) == Some(f)
    ensures ParseStatus(StatusName(s)) == Some(s)
  {
  }

  /**
   * An entry of `images` as a request supplies it: an uploaded file's path string,
   * or an object that may carry `data`, `contentType` and `filename`.
   */
  datatype ImageInput =
    | ImagePath(path: string)
    | ImageDoc(data: Option<seq<byte>>, contentType: Option<string>, filename: Option<string>)

  /** A stored image sub-document. */
  datatype Image = Image(data: seq<byte>, contentType: string, filename: string)

  /**
   * The schema's fields as a request body or an update supplies them, before the
   * setters and defaults run; `None` is a key that is not there.
   */
  datatype Fields = Fields(
    title: Option<string>,
    images: Option<seq<ImageInput>>,
    category: Option<string>,
    listingType: Option<string>,
    price: Option<int>,
    bedrooms: Option<int>,
    bathrooms: Option<int>,
    area: Option<int>,
    description: Option<string>,
    amenities: Option<seq<string>>,
    furnishing: Option<string>,
    location: Option<string>,
    status: Option<string>)

  /** A stored listing, with its id and the `timestamps: true` fields. */
  datatype Property = Property(
    id: ObjectId,
    title: string,
    images: seq<Image>,
    category: Category,
    listingType: ListingType,
    price: int,
    bedrooms: int,
    bathrooms: int,
    area: int,
    description: string,
    amenities: seq<string>,
    furnishing: Furnishing,
    location: Option<string>,
    status: Status,
    createdAt: int,
    updatedAt: int)

  const TitleMax: nat := 200
  const DescriptionMax: nat := 2000

  /** A required, trimmed text field: not empty, no surrounding whitespace, within its length cap. */
  predicate ValidText(s: string, max: nat) {
    s != [] && IsTrimmed(s) && |s| <= max
  }

  predicate ValidImage(i: Image) {
    i.data != [] && i.contentType != [] && i.filename != []
  }

  /** What the schema guarantees of every stored record. */
  predicate Valid(p: Property) {
    && ValidText(p.title, TitleMax)
    && (forall i | 0 <= i < |p.images| :: ValidImage(p.images[i]))
    && p.price >= 0 && p.bedrooms >= 0 && p.bathrooms >= 0 && p.area >= 0
    && ValidText(p.description, DescriptionMax)
    && (forall i | 0 <= i < |p.amenities| :: IsTrimmed(p.amenities[i]))
    && (p.location.Some? ==> IsTrimmed(p.location.value))
  }

  /** One validator failure: the document path and its message. */
  datatype FieldError = FieldError(path: string, message: string)

  function ErrorsOf<T>(r: Result<T, FieldError>): (errors: seq<FieldError>)
    ensures errors == [] <==> r.Ok?
  {
    if r.Err? then [r.error] else []
  }

  /** The failures of a path's validators, which run only when the update sets the path. */
  function ErrorsIfSet<T>(present: bool, r: Result<T, FieldError>): (errors: seq<FieldError>)
    ensures errors == [] <==> (present ==> r.Ok?)
  {
    if present then ErrorsOf(r) else []
  }

  function ManyErrorsOf<T>(r: Result<T, seq<FieldError>>): seq<FieldError> {
    if r.Err? then r.error else []
  }

  /** Mongoose's text for a failed `enum` validator. */
  function EnumMessage(value: string, path: string): string {
    "`" + value + "` is not a valid enum value for path `" + path + "`."
  }

  /** `required`, `trim` and `maxlength` on a string path, first failing validator wins. */
  function TextField(path: string, v: Option<string>, requiredMessage: string, max: nat, maxMessage: string)
    : (r: Result<string, FieldError>)
    ensures r.Ok? <==> v.Some? && Trim(v.value) != [] && |Trim(v.value)| <= max
    ensures r.Ok? ==> r.value == Trim(v.value) && ValidText(r.value, max)
  {
    if v.None? || Trim(v.value) == [] then Err(FieldError(path, requiredMessage))
    else if |Trim(v.value)| > max then Err(FieldError(path, maxMessage))
    else TrimSpec(v.value); Ok(Trim(v.value))
  }

  /** `enum` with a `default`, and `required` when the schema says so. */
  function EnumField<E>(path: string, v: Option<string>, default: E, required: bool, requiredMessage: string,
                        parse: string -> Option<E>): (r: Result<E, FieldError>)
    ensures v.None? ==> r == Ok(default)
    ensures v.Some? ==> (r.Ok? <==> parse(v.value).Some? && !(required && v.value == []))
    ensures v.Some? && r.Ok? ==> r == Ok(parse(v.value).value)
  {
    if v.None? then Ok(default)
    else if required && v.value == [] then Err(FieldError(path, requiredMessage))
    else match parse(v.value)
      case Some(e) => Ok(e)
      case None => Err(FieldError(path, EnumMessage(v.value, path)))
  }

  /** `required` and `min: 0` on a number path. */
  function CountField(path: string, v: Option<int>, requiredMessage: string, minMessage: string)
    : (r: Result<int, FieldError>)
    ensures r.Ok? <==> v.Some? && v.value >= 0
    ensures r.Ok? ==> r.value == v.value
  {
    if v.None? then Err(FieldError(path, requiredMessage))
    else if v.value < 0 then Err(FieldError(path, minMessage))
    else Ok(v.value)
  }

  /** An image entry the schema accepts: an object with non-empty `data`, `contentType` and `filename`. */
  predicate ImageAcceptable(e: ImageInput) {
    && e.ImageDoc?
    && e.data.Some? && e.data.value != []
    && e.contentType.Some? && e.contentType.value != []
    && e.filename.Some? && e.filename.value != []
  }

  function RequiredMessage(sub: string): string {
    "Path `" + sub + "` is required."
  }

  /** The `required` failures of one image sub-document at position `index`. */
  function ImageDocErrors(e: ImageInput, index: nat): (errs: seq<FieldError>)
    requires e.ImageDoc?
    ensures errs == [] <==> ImageAcceptable(e)
  {
    var at := "images." + NatToString(index) + ".";
    (if e.data.None? || e.data.value == [] then [FieldError(at + "data", RequiredMessage("data"))] else [])
    + (if e.contentType.None? || e.contentType.value == [] then [FieldError(at + "contentType", RequiredMessage("contentType"))] else [])
    + (if e.filename.None? || e.filename.value == [] then [FieldError(at + "filename", RequiredMessage("filename"))] else [])
  }

  /** Validates the sub-documents `docs`, numbered from `from`, collecting every failure in order. */
  function ImageDocs(docs: seq<ImageInput>, from: nat): (r: Result<seq<Image>, seq<FieldError>>)
    requires forall i | 0 <= i < |docs| :: docs[i].ImageDoc?
    ensures r.Ok? <==> forall i | 0 <= i < |docs| :: ImageAcceptable(docs[i])
    ensures r.Ok? ==> |r.value| == |docs| && forall i | 0 <= i < |docs| ::
      r.value[i] == Image(docs[i].data.value, docs[i].contentType.value, docs[i].filename.value)
    ensures r.Err? ==> r.error != []
  {
    if docs == [] then Ok([])
    else
      var head := ImageDocErrors(docs[0], from);
      var rest := ImageDocs(docs[1..], from + 1);
      if head == [] && rest.Ok? then
        Ok([Image(docs[0].data.value, docs[0].contentType.value, docs[0].filename.value)] + rest.value)
      else
        Err(head + ManyErrorsOf(rest))
  }

  /** The first path string among the entries, which the cast error quotes. */
  function FirstPath(entries: seq<ImageInput>): (p: string)
    requires exists i | 0 <= i < |entries| :: entries[i].ImagePath?
  {
    if entries[0].ImagePath? then entries[0].path else FirstPath(entries[1..])
  }

  /** An `images` value with a path string among its entries, which cannot be cast to a sub-document. */
  predicate HasPathEntry(v: Option<seq<ImageInput>>) {
    v.Some? && exists i | 0 <= i < |v.value| :: v.value[i].ImagePath?
  }

  /** The message of the cast error for such a value: it quotes the first path string. */
  function CastMessage(entries: seq<ImageInput>): string
    requires exists i | 0 <= i < |entries| :: entries[i].ImagePath?
  {
    "Cast to embedded failed for value \"" + FirstPath(entries) + "\" (type string) at path \"images\""
  }

  /**
   * The `images` path: absent gives the array default `[]`; a path string cannot be
   * cast to an image sub-document, which fails the whole path; otherwise every
   * sub-document is validated.
   */
  function ImagesField(v: Option<seq<ImageInput>>): (r: Result<seq<Image>, seq<FieldError>>)
    ensures r.Ok? <==> v.None? || forall i | 0 <= i < |v.value| :: ImageAcceptable(v.value[i])
    ensures v.None? ==> r == Ok([])
    ensures r.Err? ==> r.error != []
  {
    if v.None? then Ok([])
    else if HasPathEntry(v) then Err([FieldError("images", CastMessage(v.value))])
    else ImageDocs(v.value, 0)
  }

  /**
   * `images` holds one stored sub-document per accepted entry, in the order given,
   * with that entry's `data`, `contentType` and `filename`.
   */
  predicate StoresImages(entries: seq<ImageInput>, images: seq<Image>) {
    && |images| == |entries|
    && forall i | 0 <= i < |entries| ::
      && ImageAcceptable(entries[i])
      && images[i] == Image(entries[i].data.value, entries[i].contentType.value, entries[i].filename.value)
  }

  /** An accepted `images` path stores exactly the sub-documents it was given. */
  lemma ImagesFieldStores(v: Option<seq<ImageInput>>)
    requires v.Some? && ImagesField(v).Ok?
    ensures StoresImages(v.value, ImagesField(v).value)
  {
    assert forall i | 0 <= i < |v.value| :: ImageAcceptable(v.value[i]);
    assert !exists i | 0 <= i < |v.value| :: v.value[i].ImagePath?;
  }

  function TrimAll(l: seq<string>): (r: seq<string>)
    ensures |r| == |l| && forall i | 0 <= i < |l| :: r[i] == Trim(l[i])
  {
    seq(|l|, i requires 0 <= i < |l| => Trim(l[i]))
  }

  function TitleField(v: Option<string>): Result<string, FieldError> {
    TextField("title", v, "Property title is required", TitleMax, "Title cannot exceed 200 characters")
  }

  function DescriptionField(v: Option<string>): Result<string, FieldError> {
    TextField("description", v, "Property description is required", DescriptionMax,
              "Description cannot exceed 2000 characters")
  }

  function CategoryField(v: Option<string>): Result<Category, FieldError> {
    EnumField("category", v, Apartment, true, "Property category is required", ParseCategory)
  }

  function ListingTypeField(v: Option<string>): Result<ListingType, FieldError> {
    EnumField("listingType", v, Rent, true, "Listing type is required", ParseListingType)
  }

  function FurnishingField(v: Option<string>): Result<Furnishing, FieldError> {
    EnumField("furnishing", v, Unfurnished, true, "Furnishing type is required", ParseFurnishing)
  }

  function StatusField(v: Option<string>): Result<Status, FieldError> {
    EnumField("status", v, Available, false, "", ParseStatus)
  }

  function PriceField(v: Option<int>): Result<int, FieldError> {
    CountField("price", v, "Property price is required", "Price cannot be negative")
  }

  function BedroomsField(v: Option<int>): Result<int, FieldError> {
    CountField("bedrooms", v, "Number of bedrooms is required", "Bedrooms cannot be negative")
  }

  function BathroomsField(v: Option<int>): Result<int, FieldError> {
    CountField("bathrooms", v, "Number of bathrooms is required", "Bathrooms cannot be negative")
  }

  function AreaField(v: Option<int>): Result<int, FieldError> {
    CountField("area", v, "Property area is required", "Area cannot be negative")
  }

  /**
   * The schema's verdict on a whole draft, stated field by field: what a new
   * document must satisfy after trimming and defaulting.
   */
  predicate Acceptable(d: Fields) {
    && d.title.Some? && Trim(d.title.value) != [] && |Trim(d.title.value)| <= TitleMax
    && (d.images.Some? ==> forall i | 0 <= i < |d.images.value| :: ImageAcceptable(d.images.value[i]))
    && (d.category.Some? ==> ParseCategory(d.category.value).Some?)
    && (d.listingType.Some? ==> ParseListingType(d.listingType.value).Some?)
    && d.price.Some? && d.price.value >= 0
    && d.bedrooms.Some? && d.bedrooms.value >= 0
    && d.bathrooms.Some? && d.bathrooms.value >= 0
    && d.area.Some? && d.area.value >= 0
    && d.description.Some? && Trim(d.description.value) != [] && |Trim(d.description.value)| <= DescriptionMax
    && (d.furnishing.Some? ==> ParseFurnishing(d.furnishing.value).Some?)
    && (d.status.Some? ==> ParseStatus(d.status.value).Some?)
  }

  /** Every path's validators pass on the draft. */
  predicate FieldsOk(d: Fields) {
    && TitleField(d.title).Ok? && ImagesField(d.images).Ok? && CategoryField(d.category).Ok?
    && ListingTypeField(d.listingType).Ok? && PriceField(d.price).Ok? && BedroomsField(d.bedrooms).Ok?
    && BathroomsField(d.bathrooms).Ok? && AreaField(d.area).Ok? && DescriptionField(d.description).Ok?
    && FurnishingField(d.furnishing).Ok? && StatusField(d.status).Ok?
  }

  lemma FieldsOkIffAcceptable(d: Fields)
    ensures FieldsOk(d) <==> Acceptable(d)
  {
  }

  /** Every failure of every path, in schema order. */
  function DraftErrors(d: Fields): (errors: seq<FieldError>)
    ensures errors == [] <==> FieldsOk(d)
  {
    ErrorsOf(TitleField(d.title)) + ManyErrorsOf(ImagesField(d.images))
    + ErrorsOf(CategoryField(d.category)) + ErrorsOf(ListingTypeField(d.listingType))
    + ErrorsOf(PriceField(d.price)) + ErrorsOf(BedroomsField(d.bedrooms))
    + ErrorsOf(BathroomsField(d.bathrooms)) + ErrorsOf(AreaField(d.area))
    + ErrorsOf(DescriptionField(d.description)) + ErrorsOf(FurnishingField(d.furnishing))
    + ErrorsOf(StatusField(d.status))
  }

  /** The document a draft becomes once every path has passed. */
  function Build(d: Fields, id: ObjectId, now: int): (p: Property)
    requires FieldsOk(d)
    ensures Valid(p) && p.id == id && p.createdAt == now && p.updatedAt == now
  {
    TrimmedAll(d.amenities);
    TrimmedLocation(d.location);
    Property(
      id, TitleField(d.title).value, ImagesField(d.images).value, CategoryField(d.category).value,
      ListingTypeField(d.listingType).value, PriceField(d.price).value, BedroomsField(d.bedrooms).value,
      BathroomsField(d.bathrooms).value, AreaField(d.area).value, DescriptionField(d.description).value,
      if d.amenities.Some? then TrimAll(d.amenities.value) else [],
      FurnishingField(d.furnishing).value,
      if d.location.Some? then Some(Trim(d.location.value)) else None,
      StatusField(d.status).value, now, now)
  }

  /**
   * `Property.create(draft)`: run the setters, fill in the defaults, validate every
   * path in schema order and collect every failure; on success the document gets
   * its id and both timestamps.
   */
  function Materialize(d: Fields, id: ObjectId, now: int): (r: Result<Property, seq<FieldError>>)
    ensures r.Ok? <==> Acceptable(d)
    ensures r.Ok? ==> Valid(r.value) && r.value.id == id && r.value.createdAt == now && r.value.updatedAt == now
    ensures r.Err? ==> r.error != []
  {
    FieldsOkIffAcceptable(d);
    var errors := DraftErrors(d);
    if errors != [] then Err(errors) else Ok(Build(d, id, now))
  }

  lemma TrimmedAll(l: Option<seq<string>>)
    ensures l.Some? ==> forall i | 0 <= i < |l.value| :: IsTrimmed(TrimAll(l.value)[i])
  {
    if l.Some? {
      forall i | 0 <= i < |l.value| ensures IsTrimmed(TrimAll(l.value)[i]) {
        TrimSpec(l.value[i]);
      }
    }
  }

  lemma TrimmedLocation(l: Option<string>)
    ensures l.Some? ==> IsTrimmed(Trim(l.value))
  {
    if l.Some? {
      TrimSpec(l.value);
    }
  }

  /**
   * What a new record holds: the trimmed text, the counts as given, and for an
   * enumeration left out of the draft its schema default (Apartment, Rent,
   * Unfurnished, Available).
   */
  lemma MaterializeFields(d: Fields, id: ObjectId, now: int)
    requires Materialize(d, id, now).Ok?
    ensures var p := Materialize(d, id, now).value;
      && p.title == Trim(d.title.value)
      && p.description == Trim(d.description.value)
      && p.price == d.price.value && p.bedrooms == d.bedrooms.value
      && p.bathrooms == d.bathrooms.value && p.area == d.area.value
      && p.category == (if d.category.None? then Apartment else ParseCategory(d.category.value).value)
      && p.listingType == (if d.listingType.None? then Rent else ParseListingType(d.listingType.value).value)
      && p.furnishing == (if d.furnishing.None? then Unfurnished else ParseFurnishing(d.furnishing.value).value)
      && p.status == (if d.status.None? then Available else ParseStatus(d.status.value).value)
      && (d.images.None? ==> p.images == [])
      && (d.images.Some? ==> StoresImages(d.images.value, p.images))
      && p.amenities == (if d.amenities.None? then [] else TrimAll(d.amenities.value))
      && p.location == (if d.location.None? then None else Some(Trim(d.location.value)))
  {
    FieldsOkIffAcceptable(d);
    assert DraftErrors(d) == [];
    assert Materialize(d, id, now).value == Build(d, id, now);
    if d.images.Some? {
      ImagesFieldStores(d.images);
    }
  }

  /** The typed changes of an update: `None` leaves a field as it is. */
  datatype Changes = Changes(
    title: Option<string>,
    images: Option<seq<Image>>,
    category: Option<Category>,
    listingType: Option<ListingType>,
    price: Option<int>,
    bedrooms: Option<int>,
    bathrooms: Option<int>,
    area: Option<int>,
    description: Option<string>,
    amenities: Option<seq<string>>,
    furnishing: Option<Furnishing>,
    location: Option<string>,
    status: Option<Status>)

  /** The update-side verdict, field by field: every field the update sets passes its own validators. */
  predicate PatchAcceptable(d: Fields) {
    && (d.title.Some? ==> Trim(d.title.value) != [] && |Trim(d.title.value)| <= TitleMax)
    && (d.images.Some? ==> forall i | 0 <= i < |d.images.value| :: ImageAcceptable(d.images.value[i]))
    && (d.category.Some? ==> ParseCategory(d.category.value).Some?)
    && (d.listingType.Some? ==> ParseListingType(d.listingType.value).Some?)
    && (d.price.Some? ==> d.price.value >= 0)
    && (d.bedrooms.Some? ==> d.bedrooms.value >= 0)
    && (d.bathrooms.Some? ==> d.bathrooms.value >= 0)
    && (d.area.Some? ==> d.area.value >= 0)
    && (d.description.Some? ==> Trim(d.description.value) != [] && |Trim(d.description.value)| <= DescriptionMax)
    && (d.furnishing.Some? ==> ParseFurnishing(d.furnishing.value).Some?)
    && (d.status.Some? ==> ParseStatus(d.status.value).Some?)
  }

  /** Every path the update sets passes its validators. */
  predicate PatchFieldsOk(d: Fields) {
    && (d.title.Some? ==> TitleField(d.title).Ok?)
    && (d.images.Some? ==> ImagesField(d.images).Ok?)
    && (d.category.Some? ==> CategoryField(d.category).Ok?)
    && (d.listingType.Some? ==> ListingTypeField(d.listingType).Ok?)
    && (d.price.Some? ==> PriceField(d.price).Ok?)
    && (d.bedrooms.Some? ==> BedroomsField(d.bedrooms).Ok?)
    && (d.bathrooms.Some? ==> BathroomsField(d.bathrooms).Ok?)
    && (d.area.Some? ==> AreaField(d.area).Ok?)
    && (d.description.Some? ==> DescriptionField(d.description).Ok?)
    && (d.furnishing.Some? ==> FurnishingField(d.furnishing).Ok?)
    && (d.status.Some? ==> StatusField(d.status).Ok?)
  }

  lemma PatchFieldsOkIffAcceptable(d: Fields)
    ensures PatchFieldsOk(d) <==> PatchAcceptable(d)
  {
    assert (d.images.Some? ==> ImagesField(d.images).Ok?)
      <==> (d.images.Some? ==> forall i | 0 <= i < |d.images.value| :: ImageAcceptable(d.images.value[i]));
  }

  /** The failures of the paths the update sets, in schema order. */
  function PatchErrors(d: Fields): (errors: seq<FieldError>)
    ensures errors == [] <==> PatchFieldsOk(d)
  {
    var a :=
      ErrorsIfSet(d.title.Some?, TitleField(d.title))
      + (if d.images.Some? then ManyErrorsOf(ImagesField(d.images)) else [])
      + ErrorsIfSet(d.category.Some?, CategoryField(d.category))
      + ErrorsIfSet(d.listingType.Some?, ListingTypeField(d.listingType))
      + ErrorsIfSet(d.price.Some?, PriceField(d.price));
    var b :=
      ErrorsIfSet(d.bedrooms.Some?, BedroomsField(d.bedrooms))
      + ErrorsIfSet(d.bathrooms.Some?, BathroomsField(d.bathrooms))
      + ErrorsIfSet(d.area.Some?, AreaField(d.area))
      + ErrorsIfSet(d.description.Some?, DescriptionField(d.description))
      + ErrorsIfSet(d.furnishing.Some?, FurnishingField(d.furnishing))
      + ErrorsIfSet(d.status.Some?, StatusField(d.status));
    a + b
  }

  /** A path's new value when the update sets it and its validators passed. */
  function Set<T>(present: bool, r: Result<T, FieldError>): Option<T>
    requires present ==> r.Ok?
  {
    if present then Some(r.value) else None
  }

  function BuildChanges(d: Fields): (c: Changes)
    requires PatchFieldsOk(d)
  {
    Changes(
      Set(d.title.Some?, TitleField(d.title)),
      if d.images.Some? then Some(ImagesField(d.images).value) else None,
      Set(d.category.Some?, CategoryField(d.category)),
      Set(d.listingType.Some?, ListingTypeField(d.listingType)),
      Set(d.price.Some?, PriceField(d.price)),
      Set(d.bedrooms.Some?, BedroomsField(d.bedrooms)),
      Set(d.bathrooms.Some?, BathroomsField(d.bathrooms)),
      Set(d.area.Some?, AreaField(d.area)),
      Set(d.description.Some?, DescriptionField(d.description)),
      if d.amenities.Some? then Some(TrimAll(d.amenities.value)) else None,
      Set(d.furnishing.Some?, FurnishingField(d.furnishing)),
      if d.location.Some? then Some(Trim(d.location.value)) else None,
      Set(d.status.Some?, StatusField(d.status)))
  }

  /**
   * Why an update is refused: casting it threw before any validator ran, or the
   * validators of the paths it sets failed.
   */
  datatype PatchRefusal = CastFailed(message: string) | Invalid(errors: seq<FieldError>)

  /**
   * Casts and validates an update (`runValidators: true`). The cast comes first and
   * throws its first error on its own: a path string in `images` is refused with
   * the cast message alone. Otherwise only the paths the update sets are checked,
   * with the same validators and setters as on create.
   */
  function CastPatch(d: Fields): (r: Result<Changes, PatchRefusal>)
    ensures r.Ok? <==> PatchAcceptable(d)
    ensures (r.Err? && r.error.CastFailed?) <==> HasPathEntry(d.images)
    ensures HasPathEntry(d.images) ==> r == Err(CastFailed(CastMessage(d.images.value)))
    ensures r.Err? && r.error.Invalid? ==> r.error.errors != []
  {
    PatchFieldsOkIffAcceptable(d);
    if HasPathEntry(d.images) then
      var i :| 0 <= i < |d.images.value| && d.images.value[i].ImagePath?;
      assert !ImageAcceptable(d.images.value[i]);
      Err(CastFailed(CastMessage(d.images.value)))
    else
      var errors := PatchErrors(d);
      if errors != [] then Err(Invalid(errors)) else Ok(BuildChanges(d))
  }

  /** An accepted update passed every validator of the paths it sets, and its changes are built from them. */
  lemma CastPatchAccepted(d: Fields)
    requires CastPatch(d).Ok?
    ensures PatchFieldsOk(d) && CastPatch(d).value == BuildChanges(d)
  {
    PatchFieldsOkIffAcceptable(d);
  }

  /** The stored record after the update: every set field replaced, `updatedAt` refreshed. */
  function Apply(p: Property, c: Changes, now: int): Property {
    Property(
      p.id,
      c.title.GetOr(p.title), c.images.GetOr(p.images), c.category.GetOr(p.category),
      c.listingType.GetOr(p.listingType), c.price.GetOr(p.price), c.bedrooms.GetOr(p.bedrooms),
      c.bathrooms.GetOr(p.bathrooms), c.area.GetOr(p.area), c.description.GetOr(p.description),
      c.amenities.GetOr(p.amenities), c.furnishing.GetOr(p.furnishing),
      if c.location.Some? then c.location else p.location,
      c.status.GetOr(p.status), p.createdAt, now)
  }

  /** A validated update keeps a valid record valid, with its id and creation time. */
  lemma PatchPreservesValid(p: Property, d: Fields, now: int)
    requires Valid(p) && CastPatch(d).Ok?
    ensures var q := Apply(p, CastPatch(d).value, now);
      Valid(q) && q.id == p.id && q.createdAt == p.createdAt && q.updatedAt == now
  {
    CastPatchAccepted(d);
    TrimmedAll(d.amenities);
    TrimmedLocation(d.location);
  }

  /**
   * A validated update changes exactly the fields it sets, to their trimmed or
   * parsed values, and leaves every other field as it was.
   */
  lemma PatchFields(p: Property, d: Fields, now: int)
    requires CastPatch(d).Ok?
    ensures var q := Apply(p, CastPatch(d).value, now);
      && q.title == (if d.title.Some? then Trim(d.title.value) else p.title)
      && q.description == (if d.description.Some? then Trim(d.description.value) else p.description)
      && q.price == d.price.GetOr(p.price) && q.bedrooms == d.bedrooms.GetOr(p.bedrooms)
      && q.bathrooms == d.bathrooms.GetOr(p.bathrooms) && q.area == d.area.GetOr(p.area)
      && q.category == (if d.category.Some? then ParseCategory(d.category.value).value else p.category)
      && q.listingType == (if d.listingType.Some? then ParseListingType(d.listingType.value).value else p.listingType)
      && q.furnishing == (if d.furnishing.Some? then ParseFurnishing(d.furnishing.value).value else p.furnishing)
      && q.status == (if d.status.Some? then ParseStatus(d.status.value).value else p.status)
      && (d.images.None? ==> q.images == p.images)
      && (d.images.Some? ==> StoresImages(d.images.value, q.images))
      && q.amenities == (if d.amenities.Some? then TrimAll(d.amenities.value) else p.amenities)
      && q.location == (if d.location.Some? then Some(Trim(d.location.value)) else p.location)
  {
    CastPatchAccepted(d);
    if d.images.Some? {
      ImagesFieldStores(d.images);
    }
  }

  /** An update that sets nothing only refreshes `updatedAt`. */
  lemma EmptyPatchOnlyTouches(p: Property, now: int)
    ensures CastPatch(Fields(None, None, None, None, None, None, None, None, None, None, None, None, None)).Ok?
    ensures Apply(p, CastPatch(Fields(None, None, None, None, None, None, None, None, None, None, None, None, None)).value, now)
      == p.(updatedAt := now)
  {
  }

  /** Every draft a create accepts, an update accepts too: the update checks a subset of the paths. */
  lemma AcceptableForUpdate(d: Fields)
    requires Acceptable(d)
    ensures PatchAcceptable(d)
  {
  }

  /**
   * The message Mongoose gives a validation error: a prefix, then `path: message`
   * pairs joined by ", ". The pairs come in the order of `errors`, which is schema
   * order here; Mongoose's own order of the entries is not modelled.
   */
  function ValidationText(prefix: string, errors: seq<FieldError>): (text: string)
    ensures |text| >= |prefix| + 2 && text[..|prefix|] == prefix
  {
    prefix + ": " + Join(seq(|errors|, i requires 0 <= i < |errors| => errors[i].path + ": " + errors[i].message), ", ")
  }
}
