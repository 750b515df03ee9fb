/**
 * The carousel editor: one dialog used both to add an item and to edit an
 * existing one, with its image picker, its checks and its reset on close.
 */
module CarouselManagement {
  import opened Wrappers
  import opened Domain
  import Queries

  const MaxCarouselImageBytes: nat := 10 * MiB

  /** The whole dialog state. */
  datatype FormState = FormState(
    showModal: bool, editingItem: Option<Queries.CarouselItem>,
    title: string, url: string, image: Option<File>,
    imagePreview: string, uploadProgress: nat)

  /** The state the page starts in and every close returns to. */
  const Closed := FormState(false, None, "", "", None, "", 0)

  /** What the save button asks the backend for. */
  datatype SaveRequest =
    | AddItem(title: string, url: string, image: Blob)
    | UpdateItem(id: nat, title: string, url: string, image: Blob)

  /** A refusal before any call, or the save request and the error message the failed call shows. */
  datatype SubmitOutcome = NoImageChosen | NoUrl | SaveFailed(request: SaveRequest, message: string)

  /**
   * The checks of `handleSubmit` and the request it builds: an image is needed
   * unless an item is being edited, a URL always; a new file is uploaded,
   * otherwise the edited item keeps its image.
   */
  function SubmitRequest(s: FormState, upload: File -> Blob): (r: Result<SaveRequest>)
    ensures r.Err? <==> (s.image.None? && s.editingItem.None?) || s.url == ""
    ensures r.Ok? && s.image.Some? ==> r.value.image == upload(s.image.value)
    ensures r.Ok? && s.image.None? ==> r.value.image == s.editingItem.value.image
    ensures r.Ok? ==> (r.value.UpdateItem? <==> s.editingItem.Some?)
    ensures r.Ok? ==> r.value.title == s.title && r.value.url == s.url
    ensures r.Ok? && s.editingItem.Some? ==> r.value.id == s.editingItem.value.id
  {
    if s.image.None? && s.editingItem.None? then Err("Please select an image")
    else if s.url == "" then Err("Please enter a URL")
    else
      var blob := if s.image.Some? then upload(s.image.value) else s.editingItem.value.image;
      if s.editingItem.Some? then Ok(UpdateItem(s.editingItem.value.id, s.title, s.url, blob))
      else Ok(AddItem(s.title, s.url, blob))
  }

  /**
   * `handleDelete`: nothing happens unless the confirmation is accepted; a
   * confirmed delete reaches the stub mutation and so always fails.
   */
  function HandleDelete(confirmed: bool, hasActor: bool): (r: Option<Result<()>>)
    ensures r.None? <==> !confirmed
    ensures r.Some? ==> r.value.Err? && r.value == Queries.CarouselMutation(hasActor)
  {
    if !confirmed then None else Some(Queries.CarouselMutation(hasActor))
  }

  class CarouselForm {
    var showModal: bool
    var editingItem: Option<Queries.CarouselItem>
    var title: string
    var url: string
    var image: Option<File>
    var imagePreview: string
    var uploadProgress: nat

    function State(): FormState
      reads this
    {
      FormState(showModal, editingItem, title, url, image, imagePreview, uploadProgress)
    }

    constructor ()
      ensures State() == Closed
    {
      showModal, editingItem := false, None;
      title, url, image, imagePreview, uploadProgress := "", "", None, "", 0;
    }

    method OpenAdd()
      modifies this
      ensures State() == old(State()).(showModal := true)
    {
      showModal := true;
    }

    method SetTitle(value: string)
      modifies this
      ensures State() == old(State()).(title := value)
    {
      title := value;
    }

    method SetUrl(value: string)
      modifies this
      ensures State() == old(State()).(url := value)
    {
      url := value;
    }

    /** `handleImageChange`: a file over 10 MiB is refused and the chosen image stays as it was. */
    method HandleImageChange(file: Option<File>) returns (refused: bool)
      modifies this
      ensures refused <==> file.Some? && file.value.size > MaxCarouselImageBytes
      ensures file.Some? && !refused ==> State() == old(State()).(image := file)
      ensures file.None? || refused ==> State() == old(State())
    {
      refused := false;
      if file.Some? {
        if file.value.size > MaxCarouselImageBytes {
          return true;
        }
        image := file;
      }
    }

    /** The chosen file's preview finished reading. */
    method PreviewLoaded(preview: string)
      modifies this
      ensures State() == old(State()).(imagePreview := preview)
    {
      imagePreview := preview;
    }

    /** `handleEdit`: loads the item's title and URL, drops any chosen file, shows its image and opens the dialog. */
    method HandleEdit(item: Queries.CarouselItem)
      modifies this
      ensures State() == old(State()).(editingItem := Some(item), title := item.title, url := item.url,
                                       image := None, imagePreview := item.image.url, showModal := true)
    {
      editingItem := Some(item);
      title, url, image := item.title, item.url, None;
      imagePreview := item.image.url;
      showModal := true;
    }

    /** `handleCloseModal`: every field back to its initial value. */
    method HandleCloseModal()
      modifies this
      ensures State() == Closed
    {
      showModal, editingItem := false, None;
      title, url, image, imagePreview, uploadProgress := "", "", None, "", 0;
    }

    /**
     * `handleSubmit`: the checks, then the add or update call. Both mutations
     * fail before reaching the backend, so the reset after a successful save
     * never happens: every save shows the mutation's error and the dialog keeps
     * its contents (the method changes nothing).
     */
    method HandleSubmit(upload: File -> Blob, hasActor: bool) returns (outcome: SubmitOutcome)
      ensures SubmitRequest(State(), upload).Err? ==>
                outcome == (if image.None? && editingItem.None? then NoImageChosen else NoUrl)
      ensures SubmitRequest(State(), upload).Ok? ==>
                outcome == SaveFailed(SubmitRequest(State(), upload).value, Queries.CarouselMutation(hasActor).message)
    {
      if image.None? && editingItem.None? {
        return NoImageChosen;
      }
      if url == "" {
        return NoUrl;
      }
      var blob := if image.Some? then upload(image.value) else editingItem.value.image;
      var request := if editingItem.Some? then UpdateItem(editingItem.value.id, title, url, blob)
                     else AddItem(title, url, blob);
      var saved := Queries.CarouselMutation(hasActor);
      outcome := SaveFailed(request, saved.message);
    }
  }
}
