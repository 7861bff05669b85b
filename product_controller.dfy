/** The product handlers that hold logic: creating a product from a form,
    merging an edit into a stored product, taking stock off a product, building
    the query of the catalogue filter, and the backslash-to-slash rewriting of
    stored image paths in responses. Form values arrive as text: a value that
    is absent or empty is falsy, and a value that is present but does not read
    as a number turns into NaN, which the store refuses to save. */
module ProductController {
  import opened Common
  import opened Records
  import opened Store

  /** A numeric request value: absent or empty (falsy), present but not a
      number (NaN after parseInt/parseFloat), or a number. The text "0" is
      truthy, so it gives Num(0). */
  datatype NumberField = Absent | NaN | Num(value: int)

  /** The multipart body of addProducts and updateProduct; an absent text
      field is the empty text. */
  datatype ProductForm = ProductForm(
    name: string,
    description: string,
    category: string,
    condition: string,
    quantity: NumberField,
    price: NumberField,
    guidance: string)

  // ---- Image paths ----

  /** `image.replace(/\\/g, '/')`: every backslash becomes a slash. */
  function NormalizeImagePath(path: string): (r: string)
    ensures |r| == |path|
    ensures forall i :: 0 <= i < |r| ==> r[i] != '\\'
  {
    if |path| == 0 then ""
    else [if path[0] == '\\' then '/' else path[0]] + NormalizeImagePath(path[1..])
  }

  /** Only backslashes change: every other character keeps its place. */
  lemma {:induction false} NormalizeKeepsOthers(path: string, i: nat)
    requires i < |path|
    ensures NormalizeImagePath(path)[i] == if path[i] == '\\' then '/' else path[i]
  {
    if i > 0 {
      NormalizeKeepsOthers(path[1..], i - 1);
    }
  }

  /** A path without backslashes is left as it is. */
  lemma {:induction false} NormalizeFixesCleanPaths(path: string)
    requires forall i :: 0 <= i < |path| ==> path[i] != '\\'
    ensures NormalizeImagePath(path) == path
  {
    if |path| > 0 {
      assert path[0] != '\\';
      NormalizeFixesCleanPaths(path[1..]);
      assert path == [path[0]] + path[1..];
    }
  }

  /** Rewriting twice is rewriting once. */
  lemma NormalizeIdempotent(path: string)
    ensures NormalizeImagePath(NormalizeImagePath(path)) == NormalizeImagePath(path)
  {
    NormalizeFixesCleanPaths(NormalizeImagePath(path));
  }

  /** The image a listing shows: `image ? normalised : null`. */
  function ShownImage(image: string): (r: Option<string>)
    ensures r.None? <==> image == ""
    ensures r.Some? ==> r.value == NormalizeImagePath(image)
  {
    if image == "" then None else Some(NormalizeImagePath(image))
  }

  /** The decimal text of an identifier, for the product's image folder. */
  function IdText(n: nat): (s: string)
    ensures |s| > 0
  {
    if n < 10 then ["0123456789"[n]] else IdText(n / 10) + ["0123456789"[n % 10]]
  }

  /** `uploads/product/<id>/<file name>`: where an uploaded image is kept. */
  function ImagePath(id: Id, fileName: string): (path: string)
    ensures |path| > 16 && path[..16] == "uploads/product/"
  {
    "uploads/product/" + IdText(id) + "/" + fileName
  }

  /** The schema's required string fields are non-empty, so a save passes
      validation. */
  predicate Saves(p: Product) {
    p.name != "" && p.description != "" && p.category != "" && p.condition != "" && p.image != ""
  }

  // ---- addProducts ----

  /** A form passes the handler's first guard: name, description, category,
      quantity and price are truthy and an image came with it. */
  predicate AddFormComplete(f: ProductForm, upload: Option<string>) {
    f.name != "" && f.description != "" && f.category != "" && !f.quantity.Absent? && !f.price.Absent? && upload.Some?
  }

  /** `x || fallback` on text. */
  function OrElse(x: string, fallback: string): (r: string)
    ensures x != "" ==> r == x
    ensures x == "" ==> r == fallback
  {
    if x != "" then x else fallback
  }

  /** The product saved for a complete form, with the schema's defaults;
      None when a number is NaN (the save fails). */
  function NewProduct(id: Id, f: ProductForm, fileName: string): Option<Product>
    requires !f.quantity.Absent? && !f.price.Absent?
  {
    if f.quantity.NaN? || f.price.NaN? then None
    else Some(Product(id, f.name, f.description, f.category, OrElse(f.condition, DefaultCondition),
                      f.quantity.value, f.price.value, OrElse(f.guidance, DefaultGuidance), ImagePath(id, fileName)))
  }

  /** A new product has the form's values, "New" when no condition is given,
      the default guidance when none is given, and a stored image, so the
      save's required-field validation always passes. */
  lemma NewProductDefaults(id: Id, f: ProductForm, fileName: string)
    requires AddFormComplete(f, Some(fileName)) && f.quantity.Num? && f.price.Num?
    ensures NewProduct(id, f, fileName).Some?
    ensures var p := NewProduct(id, f, fileName).value;
      && p.id == id && p.name == f.name && p.quantity == f.quantity.value && p.price == f.price.value
      && (f.condition == "" ==> p.condition == "New")
      && (f.condition != "" ==> p.condition == f.condition)
      && (f.guidance == "" ==> p.guidance == "No guidance available")
      && (f.guidance != "" ==> p.guidance == f.guidance)
      && Saves(p)
  {
  }

  /** Adds a product. `upload` is the name given to the uploaded image file,
      None when no file came with the form. */
  method AddProducts(db: Database, f: ProductForm, upload: Option<string>)
    returns (res: Response, created: Option<Product>)
    requires db.Valid()
    modifies db
    ensures db.Valid()
    ensures !AddFormComplete(f, upload) ==> res == BadRequest
    ensures AddFormComplete(f, upload) && (f.quantity.NaN? || f.price.NaN?) ==> res == ServerError
    ensures AddFormComplete(f, upload) && f.quantity.Num? && f.price.Num? ==>
      && res == Created
      && created == NewProduct(old(db.nextId), f, upload.value)
      && db.State() == old(db.State()).(products := old(db.products) + [created.value], nextId := old(db.nextId) + 1)
    ensures res != Created ==> db.State() == old(db.State()) && created.None?
  {
    if !AddFormComplete(f, upload) {
      return BadRequest, None;
    }
    var p := NewProduct(db.nextId, f, upload.value);
    if p.None? {
      return ServerError, None;
    }
    NewProductDefaults(db.nextId, f, upload.value);
    ValidAfterProductAppend(db.State(), p.value);
    db.products, db.nextId := db.products + [p.value], db.nextId + 1;
    res, created := Created, p;
  }

  // ---- updateProduct ----

  /** `given ? parseInt(given) : stored` */
  function NumberOrKeep(given: NumberField, stored: int): NumberField {
    if given.Absent? then Num(stored) else given
  }

  /** The product after an edit: each field takes the supplied value when one
      is supplied and keeps the stored one otherwise; a new upload replaces
      the image. None when a supplied number is NaN. */
  function Merge(p: Product, f: ProductForm, upload: Option<string>): Option<Product> {
    var q := NumberOrKeep(f.quantity, p.quantity);
    var pr := NumberOrKeep(f.price, p.price);
    if q.NaN? || pr.NaN? then None
    else Some(Product(p.id, OrElse(f.name, p.name), OrElse(f.description, p.description),
                      OrElse(f.category, p.category), OrElse(f.condition, p.condition),
                      q.value, pr.value, OrElse(f.guidance, p.guidance),
                      if upload.Some? then ImagePath(p.id, upload.value) else p.image))
  }

  /** The form with nothing supplied. */
  const EmptyForm := ProductForm("", "", "", "", Absent, Absent, "")

  /** Field by field: a field the form leaves empty keeps its stored value,
      a supplied one replaces it, and the identifier never changes. */
  lemma MergeFields(p: Product, f: ProductForm, upload: Option<string>)
    requires f.quantity != NaN && f.price != NaN
    ensures Merge(p, f, upload).Some?
    ensures var m := Merge(p, f, upload).value;
      && m.id == p.id
      && (f.name == "" ==> m.name == p.name) && (f.name != "" ==> m.name == f.name)
      && (f.description == "" ==> m.description == p.description) && (f.description != "" ==> m.description == f.description)
      && (f.category == "" ==> m.category == p.category) && (f.category != "" ==> m.category == f.category)
      && (f.condition == "" ==> m.condition == p.condition) && (f.condition != "" ==> m.condition == f.condition)
      && (f.quantity.Absent? ==> m.quantity == p.quantity) && (f.quantity.Num? ==> m.quantity == f.quantity.value)
      && (f.price.Absent? ==> m.price == p.price) && (f.price.Num? ==> m.price == f.price.value)
      && (f.guidance == "" ==> m.guidance == p.guidance) && (f.guidance != "" ==> m.guidance == f.guidance)
      && (upload.None? ==> m.image == p.image) && (upload.Some? ==> m.image == ImagePath(p.id, upload.value))
  {
  }

  /** An edit that supplies nothing leaves the product as it is. */
  lemma MergeNothingIsIdentity(p: Product)
    ensures Merge(p, EmptyForm, None) == Some(p)
  {
  }

  /** Applying the same edit twice gives what applying it once gives. */
  lemma MergeIdempotent(p: Product, f: ProductForm, upload: Option<string>)
    requires Merge(p, f, upload).Some?
    ensures Merge(Merge(p, f, upload).value, f, upload) == Merge(p, f, upload)
  {
  }

  /** Edits a product. `pid` is None when the path parameter is not a
      well-formed identifier. A NaN number, or a required field left empty
      in the stored product and not supplied, makes the save fail. */
  method UpdateProduct(db: Database, pid: Option<Id>, f: ProductForm, upload: Option<string>)
    returns (res: Response, updated: Option<Product>)
    requires db.Valid()
    modifies db
    ensures db.Valid()
    ensures pid.None? ==> res == BadRequest
    ensures pid.Some? ==>
      match ProductIndex(old(db.products), pid.value)
      case None => res == NotFound
      case Some(k) =>
        match Merge(old(db.products)[k], f, upload)
        case None => res == ServerError
        case Some(m) =>
          && (!Saves(m) ==> res == ServerError)
          && (Saves(m) ==>
                && res == Ok && updated == Some(m)
                && db.State() == old(db.State()).(products := old(db.products)[k := m]))
    ensures res != Ok ==> db.State() == old(db.State()) && updated.None?
  {
    if pid.None? {
      return BadRequest, None;
    }
    var k := ProductIndex(db.products, pid.value);
    if k.None? {
      return NotFound, None;
    }
    var m := Merge(db.products[k.value], f, upload);
    if m.None? || !Saves(m.value) {
      return ServerError, None;
    }
    ValidAfterProductsWrite(db.State(), db.products[k.value := m.value]);
    db.products := db.products[k.value := m.value];
    res, updated := Ok, m;
  }

  // ---- updateProductQuantity ----

  /** Takes `quantity` units off a product's stock, refusing to go below
      zero. `quantity` is Absent only when the field is missing from the JSON
      body. The answer shows the product with its image path normalised; the
      stored path is not rewritten. */
  method UpdateProductQuantity(db: Database, pid: Option<Id>, quantity: NumberField)
    returns (res: Response, shown: Option<Product>)
    requires db.Valid()
    modifies db
    ensures db.Valid()
    ensures pid.None? || quantity.Absent? ==> res == BadRequest
    ensures pid.Some? && !quantity.Absent? ==>
      match ProductIndex(old(db.products), pid.value)
      case None => res == NotFound
      case Some(k) =>
        var p := old(db.products)[k];
        && (quantity.NaN? ==> res == ServerError)
        && (quantity.Num? && p.quantity - quantity.value < 0 ==> res == BadRequest)
        && (quantity.Num? && p.quantity - quantity.value >= 0 ==>
              && (!Saves(p) ==> res == ServerError)
              && (Saves(p) ==>
                    && res == Ok
                    && db.State() == old(db.State()).(products := old(db.products)[k := p.(quantity := p.quantity - quantity.value)])
                    && shown == Some(p.(quantity := p.quantity - quantity.value, image := NormalizeImagePath(p.image)))))
    ensures res == Ok ==> forall k :: 0 <= k < |db.products| && db.products[k] != old(db.products)[k] ==> db.products[k].quantity >= 0
    ensures res != Ok ==> db.State() == old(db.State()) && shown.None?
  {
    if pid.None? || quantity.Absent? {
      return BadRequest, None;
    }
    var k := ProductIndex(db.products, pid.value);
    if k.None? {
      return NotFound, None;
    }
    var p := db.products[k.value];
    if quantity.NaN? {
      return ServerError, None;
    }
    var newQuantity := p.quantity - quantity.value;
    if newQuantity < 0 {
      return BadRequest, None;
    }
    if !Saves(p) {
      return ServerError, None;
    }
    ValidAfterProductsWrite(db.State(), db.products[k.value := p.(quantity := newQuantity)]);
    db.products := db.products[k.value := p.(quantity := newQuantity)];
    res, shown := Ok, Some(p.(quantity := newQuantity, image := NormalizeImagePath(p.image)));
  }

  // ---- filterProducts ----

  /** The categories and conditions the filter recognises. */
  const FilterCategories: seq<string> := ["Equipment", "Supplement"]

  /** The query object built for the catalogue filter: a case-insensitive
      name pattern, an exact category and an exact stored condition, each
      present or not. */
  datatype ProductQuery = ProductQuery(name: Option<string>, category: Option<string>, condition: Option<string>)

  /** A product satisfies the category and condition parts of a query. */
  predicate MatchesFields(q: ProductQuery, p: Product) {
    && (q.category.Some? ==> p.category == q.category.value)
    && (q.condition.Some? ==> p.condition == q.condition.value)
  }

  /** Builds the query step by step from the three query-string values
      (an absent value is the empty text). */
  method FilterProducts(name: string, category: string, condition: string) returns (q: ProductQuery)
    ensures q.name.Some? <==> name != ""
    ensures q.name.Some? ==> q.name.value == name
    ensures forall p :: MatchesFields(q, p) <==>
      && (category in FilterCategories ==> p.category == category)
      && (condition == "Brand New" ==> p.condition == "New")
      && (condition == "Secondary" ==> p.condition == "Used")
  {
    q := ProductQuery(None, None, None);
    if name != "" {
      q := q.(name := Some(name));
    }
    if category != "" && category in FilterCategories {
      q := q.(category := Some(category));
    }
    if condition != "" && condition in ["Brand New", "Secondary"] {
      q := q.(condition := Some(if condition == "Brand New" then "New" else "Used"));
    }
  }
}
