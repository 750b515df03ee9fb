/**
 * The edit-product dialog: the form starts from the product, the images are
 * split into those already stored and newly chosen files, and on submit the
 * stored images come first, followed by the uploaded new ones.
 */
module EditProductModal {
  import opened Domain
  import Text
  import Lists
  import AddProductModal

  /** The submitted image list: the kept stored images, then the new files in order once uploaded. */
  function MergedImages(existing: seq<Blob>, newFiles: seq<File>, upload: File -> Blob): (all: seq<Blob>)
    ensures |all| == |existing| + |newFiles|
    ensures all[..|existing|] == existing
    ensures forall i :: 0 <= i < |newFiles| ==> all[|existing| + i] == upload(newFiles[i])
  {
    existing + seq(|newFiles|, i requires 0 <= i < |newFiles| => upload(newFiles[i]))
  }

  /** `handleSubmit`'s checks, counting stored and new images together. */
  function CheckSubmit(name: string, price: string, stock: string, existingCount: nat, newCount: nat): (c: AddProductModal.SubmitCheck)
    ensures c == AddProductModal.CheckSubmit(name, price, stock, existingCount + newCount)
    ensures c == AddProductModal.NoImages <==> name != "" && price != "" && stock != "" && existingCount == 0 && newCount == 0
  {
    if name == "" || price == "" || stock == "" then AddProductModal.MissingRequired
    else if existingCount + newCount == 0 then AddProductModal.NoImages
    else AddProductModal.Proceed
  }

  class EditProductForm {
    const productId: nat
    var formData: AddProductModal.FormData
    var existingImages: seq<Blob>
    var newImages: seq<File>
    var newImagePreviews: seq<string>
    /** New files whose preview is still being read. */
    var pendingPreviews: nat

    /**
     * Each new file has a preview or one on the way, and once any new file is
     * chosen the two lists together hold at most five images (a product may
     * arrive with more stored images than that).
     */
    predicate Valid()
      reads this
    {
      && |newImagePreviews| + pendingPreviews == |newImages|
      && (newImages == [] || |existingImages| + |newImages| <= AddProductModal.MaxImages)
    }

    /** The form is filled from the product; price and stock are shown as decimal text. */
    constructor (product: Product)
      ensures Valid()
      ensures productId == product.id && formData.name == product.name && formData.description == product.description
      ensures formData.price == Text.NatToString(product.price) && formData.stock == Text.NatToString(product.stock)
      ensures formData.category == product.category && formData.material == product.material
      ensures existingImages == product.images && newImages == [] && newImagePreviews == [] && pendingPreviews == 0
    {
      productId := product.id;
      formData := AddProductModal.FormData(product.name, product.description, Text.NatToString(product.price),
                                           Text.NatToString(product.stock), product.category, product.material);
      existingImages, newImages, newImagePreviews, pendingPreviews := product.images, [], [], 0;
    }

    /** `handleNewImageChange`: refused whole if stored + new + chosen would pass five; oversize files are only reported. */
    method HandleNewImageChange(files: seq<File>) returns (selection: AddProductModal.Selection)
      requires Valid()
      modifies this
      ensures Valid()
      ensures |old(existingImages)| + |old(newImages)| + |files| > AddProductModal.MaxImages ==>
                selection == AddProductModal.TooMany && newImages == old(newImages) && pendingPreviews == old(pendingPreviews)
      ensures |old(existingImages)| + |old(newImages)| + |files| <= AddProductModal.MaxImages ==>
                && selection == AddProductModal.Accepted(AddProductModal.OversizeNames(files))
                && newImages == old(newImages) + files
                && pendingPreviews == old(pendingPreviews) + |files|
      ensures existingImages == old(existingImages) && newImagePreviews == old(newImagePreviews)
      ensures formData == old(formData)
    {
      if |existingImages| + |newImages| + |files| > AddProductModal.MaxImages {
        return AddProductModal.TooMany;
      }
      var warnings := AddProductModal.ReportOversize(files);
      newImages := newImages + files;
      pendingPreviews := pendingPreviews + |files|;
      selection := AddProductModal.Accepted(warnings);
    }

    method PreviewLoaded(preview: string)
      requires Valid() && pendingPreviews > 0
      modifies this
      ensures Valid()
      ensures newImagePreviews == old(newImagePreviews) + [preview] && pendingPreviews == old(pendingPreviews) - 1
      ensures newImages == old(newImages) && existingImages == old(existingImages)
      ensures formData == old(formData)
    {
      newImagePreviews := newImagePreviews + [preview];
      pendingPreviews := pendingPreviews - 1;
    }

    /** `removeExistingImage`: touches only the stored list. */
    method RemoveExistingImage(index: int)
      requires Valid()
      modifies this
      ensures Valid()
      ensures existingImages == Lists.RemoveAt(old(existingImages), index)
      ensures newImages == old(newImages) && newImagePreviews == old(newImagePreviews) && pendingPreviews == old(pendingPreviews)
      ensures formData == old(formData)
    {
      if 0 <= index < |existingImages| {
        existingImages := existingImages[..index] + existingImages[index + 1..];
      }
    }

    /** `removeNewImage`: the button sits on a new preview; that position is dropped from the new files and previews. */
    method RemoveNewImage(index: nat)
      requires Valid() && index < |newImagePreviews|
      modifies this
      ensures Valid()
      ensures newImages == Lists.RemoveAt(old(newImages), index)
      ensures newImagePreviews == Lists.RemoveAt(old(newImagePreviews), index)
      ensures existingImages == old(existingImages) && pendingPreviews == old(pendingPreviews)
      ensures formData == old(formData)
    {
      newImages := newImages[..index] + newImages[index + 1..];
      newImagePreviews := newImagePreviews[..index] + newImagePreviews[index + 1..];
    }

    /** A field's change handler: `formData` takes the change and the images are untouched. */
    method HandleFieldChange(change: AddProductModal.FieldChange)
      requires Valid()
      modifies this
      ensures Valid()
      ensures formData == AddProductModal.Apply(old(formData), change)
      ensures existingImages == old(existingImages)
      ensures newImages == old(newImages) && newImagePreviews == old(newImagePreviews) && pendingPreviews == old(pendingPreviews)
    {
      formData := AddProductModal.Apply(formData, change);
    }

    /** The checks, and on success the image list that is sent. */
    method Submit(upload: File -> Blob) returns (check: AddProductModal.SubmitCheck, images: seq<Blob>)
      ensures check == CheckSubmit(formData.name, formData.price, formData.stock, |existingImages|, |newImages|)
      ensures check == AddProductModal.Proceed ==> images == MergedImages(existingImages, newImages, upload)
      ensures check != AddProductModal.Proceed ==> images == []
    {
      if formData.name == "" || formData.price == "" || formData.stock == "" {
        return AddProductModal.MissingRequired, [];
      }
      if |existingImages| + |newImages| == 0 {
        return AddProductModal.NoImages, [];
      }
      check := AddProductModal.Proceed;
      images := MergedImages(existingImages, newImages, upload);
    }
  }
}
