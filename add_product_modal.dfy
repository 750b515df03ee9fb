/**
 * The add-product dialog: the form fields, the list of chosen image files
 * (at most five) with their previews, and the checks made before upload.
 */
module AddProductModal {
  import opened Domain
  import Lists

  const MaxImages: nat := 5
  const MaxImageBytes: nat := 5 * MiB

  /** The names of the files over the size limit, in selection order; each one gets an error message. */
  function OversizeNames(files: seq<File>): (names: seq<string>)
    ensures |names| <= |files|
    ensures forall f :: f in files && f.size > MaxImageBytes ==> f.name in names
  {
    if files == [] then []
    else
      var last := files[|files| - 1];
      assert forall f :: f in files ==> f in files[..|files| - 1] || f == last;
      OversizeNames(files[..|files| - 1]) + (if last.size > MaxImageBytes then [last.name] else [])
  }

  /** Only oversize files are reported. */
  lemma {:induction false} OversizeNamesOnlyOversize(files: seq<File>, k: nat)
    requires k < |OversizeNames(files)|
    ensures exists i :: 0 <= i < |files| && files[i].size > MaxImageBytes && files[i].name == OversizeNames(files)[k]
    decreases |files|
  {
    var init := files[..|files| - 1];
    var last := files[|files| - 1];
    if k < |OversizeNames(init)| {
      OversizeNamesOnlyOversize(init, k);
      var i :| 0 <= i < |init| && init[i].size > MaxImageBytes && init[i].name == OversizeNames(init)[k];
      assert files[i] == init[i];
    } else {
      assert files[|files| - 1] == last;
    }
  }

  /** The `forEach` that reports each oversize file; reporting does not stop the file from being added. */
  method ReportOversize(files: seq<File>) returns (messages: seq<string>)
    ensures messages == OversizeNames(files)
  {
    messages := [];
    var i := 0;
    while i < |files|
      invariant 0 <= i <= |files|
      invariant messages == OversizeNames(files[..i])
    {
      assert files[..i + 1][..i] == files[..i];
      if files[i].size > MaxImageBytes {
        messages := messages + [files[i].name];
      }
      i := i + 1;
    }
    assert files[..i] == files;
  }

  /** What the file picker did with a selection. */
  datatype Selection = TooMany | Accepted(warnings: seq<string>)

  /** The checks before any upload: required fields first, then at least one image. */
  datatype SubmitCheck = MissingRequired | NoImages | Proceed

  function CheckSubmit(name: string, price: string, stock: string, imageCount: nat): (c: SubmitCheck)
    ensures c == MissingRequired <==> name == "" || price == "" || stock == ""
    ensures c == NoImages <==> name != "" && price != "" && stock != "" && imageCount == 0
    ensures c == Proceed <==> name != "" && price != "" && stock != "" && imageCount > 0
  {
    if name == "" || price == "" || stock == "" then MissingRequired
    else if imageCount == 0 then NoImages
    else Proceed
  }

  /** The dialog's `formData`: the text and choice fields. */
  datatype FormData = FormData(name: string, description: string, price: string, stock: string,
                               category: ProductCategory, material: Material)

  /** One field's `onChange`/`onValueChange`; each replaces that field of `formData`. */
  datatype FieldChange =
    | SetName(name: string)
    | SetDescription(description: string)
    | SetPrice(price: string)
    | SetStock(stock: string)
    | SetCategory(category: ProductCategory)
    | SetMaterial(material: Material)

  /** `{ ...formData, field: value }`: the changed field takes the value and every other field keeps its own. */
  function Apply(d: FormData, c: FieldChange): (r: FormData)
    ensures r.name == if c.SetName? then c.name else d.name
    ensures r.description == if c.SetDescription? then c.description else d.description
    ensures r.price == if c.SetPrice? then c.price else d.price
    ensures r.stock == if c.SetStock? then c.stock else d.stock
    ensures r.category == if c.SetCategory? then c.category else d.category
    ensures r.material == if c.SetMaterial? then c.material else d.material
  {
    match c
    case SetName(v) => d.(name := v)
    case SetDescription(v) => d.(description := v)
    case SetPrice(v) => d.(price := v)
    case SetStock(v) => d.(stock := v)
    case SetCategory(v) => d.(category := v)
    case SetMaterial(v) => d.(material := v)
  }

  /** The empty form with its two defaults. */
  const EmptyForm: FormData := FormData("", "", "", "", Ring, Gold18K)

  /** Filling in name, price and stock on the empty form lets a submit with images proceed. */
  lemma FilledFormProceeds(n: string, p: string, st: string, imageCount: nat)
    requires n != "" && p != "" && st != "" && imageCount > 0
    ensures var d := Apply(Apply(Apply(EmptyForm, SetName(n)), SetPrice(p)), SetStock(st));
            CheckSubmit(d.name, d.price, d.stock, imageCount) == Proceed
  {
  }

  class AddProductForm {
    var formData: FormData
    var images: seq<File>
    var imagePreviews: seq<string>
    /** Files whose preview is still being read. */
    var pendingPreviews: nat

    /** At most five images, and each has a preview or one on the way. */
    predicate Valid()
      reads this
    {
      |images| <= MaxImages && |imagePreviews| + pendingPreviews == |images|
    }

    constructor ()
      ensures Valid()
      ensures formData == EmptyForm
      ensures images == [] && imagePreviews == [] && pendingPreviews == 0
    {
      formData := EmptyForm;
      images, imagePreviews, pendingPreviews := [], [], 0;
    }

    /**
     * `handleImageChange`: a selection that would pass five images is refused
     * whole; otherwise every file is appended, oversize ones included.
     */
    method HandleImageChange(files: seq<File>) returns (selection: Selection)
      requires Valid()
      modifies this
      ensures Valid()
      ensures |files| + |old(images)| > MaxImages ==>
                selection == TooMany && images == old(images) && pendingPreviews == old(pendingPreviews)
      ensures |files| + |old(images)| <= MaxImages ==>
                && selection == Accepted(OversizeNames(files))
                && images == old(images) + files
                && pendingPreviews == old(pendingPreviews) + |files|
      ensures imagePreviews == old(imagePreviews)
      ensures formData == old(formData)
    {
      if |files| + |images| > MaxImages {
        return TooMany;
      }
      var warnings := ReportOversize(files);
      images := images + files;
      pendingPreviews := pendingPreviews + |files|;
      selection := Accepted(warnings);
    }

    /** A preview finished reading and is appended. */
    method PreviewLoaded(preview: string)
      requires Valid() && pendingPreviews > 0
      modifies this
      ensures Valid()
      ensures imagePreviews == old(imagePreviews) + [preview] && pendingPreviews == old(pendingPreviews) - 1
      ensures images == old(images) && formData == old(formData)
    {
      imagePreviews := imagePreviews + [preview];
      pendingPreviews := pendingPreviews - 1;
    }

    /** `removeImage`: the remove button sits on a preview; the same position is dropped from both lists. */
    method RemoveImage(index: nat)
      requires Valid() && index < |imagePreviews|
      modifies this
      ensures Valid()
      ensures images == Lists.RemoveAt(old(images), index)
      ensures imagePreviews == Lists.RemoveAt(old(imagePreviews), index)
      ensures pendingPreviews == old(pendingPreviews) && formData == old(formData)
    {
      images := images[..index] + images[index + 1..];
      imagePreviews := imagePreviews[..index] + imagePreviews[index + 1..];
    }

    /** A field's change handler: `formData` takes the change and the images are untouched. */
    method HandleFieldChange(change: FieldChange)
      requires Valid()
      modifies this
      ensures Valid()
      ensures formData == Apply(old(formData), change)
      ensures images == old(images) && imagePreviews == old(imagePreviews) && pendingPreviews == old(pendingPreviews)
    {
      formData := Apply(formData, change);
    }

    method Submit() returns (check: SubmitCheck)
      ensures check == CheckSubmit(formData.name, formData.price, formData.stock, |images|)
    {
      if formData.name == "" || formData.price == "" || formData.stock == "" {
        return MissingRequired;
      }
      if |images| == 0 {
        return NoImages;
      }
      return Proceed;
    }
  }

  /** A six-megabyte file is reported, yet the selection holding it is accepted. */
  lemma OversizeFileStillAccepted()
    ensures OversizeNames([File("ring.jpg", 6 * MiB, "image/jpeg")]) == ["ring.jpg"]
  {
    var f := File("ring.jpg", 6 * MiB, "image/jpeg");
    assert [f][..0] == [];
  }
}
