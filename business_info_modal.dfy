/**
 * The business-information dialog: the contact form edited field by field,
 * the logo picker with its type and size checks, and the submit sequence
 * (contact details first, then the logo).
 */
module BusinessInfoModal {
  import opened Wrappers
  import opened Domain

  const ValidLogoTypes: seq<string> := ["image/png", "image/jpeg", "image/jpg", "image/svg+xml"]
  const MaxLogoBytes: nat := 5 * MiB

  datatype LogoCheck = BadType | TooLarge | LogoAccepted

  /** The type is checked before the size. */
  function CheckLogo(file: File): (c: LogoCheck)
    ensures c == BadType <==> file.mimeType !in ValidLogoTypes
    ensures c == TooLarge <==> file.mimeType in ValidLogoTypes && file.size > MaxLogoBytes
    ensures c == LogoAccepted <==> file.mimeType in ValidLogoTypes && file.size <= MaxLogoBytes
  {
    if file.mimeType !in ValidLogoTypes then BadType
    else if file.size > MaxLogoBytes then TooLarge
    else LogoAccepted
  }

  /** A GIF is refused whatever its size; a small SVG is accepted. */
  lemma LogoExamples()
    ensures CheckLogo(File("logo.gif", 10, "image/gif")) == BadType
    ensures CheckLogo(File("logo.svg", 10, "image/svg+xml")) == LogoAccepted
  {
    assert "image/gif" != ValidLogoTypes[0] && "image/gif" != ValidLogoTypes[1];
    assert "image/gif" != ValidLogoTypes[2] && "image/gif" != ValidLogoTypes[3];
    assert "image/svg+xml" == ValidLogoTypes[3];
  }

  /** The keys of the contact form. */
  datatype ContactField = BankAccount | IfscCode | StoreAddress | GstNumber | Description | Email | StoreName | Phone

  function FieldValue(info: BusinessContactInfo, field: ContactField): string {
    match field
    case BankAccount => info.bankAccount
    case IfscCode => info.ifscCode
    case StoreAddress => info.storeAddress
    case GstNumber => info.gstNumber
    case Description => info.description
    case Email => info.email
    case StoreName => info.storeName
    case Phone => info.phone
  }

  /** `{ ...prev, [field]: value }`: the named field takes the value, every other field is kept. */
  function WithField(info: BusinessContactInfo, field: ContactField, value: string): (r: BusinessContactInfo)
    ensures FieldValue(r, field) == value
    ensures forall f :: f != field ==> FieldValue(r, f) == FieldValue(info, f)
  {
    match field
    case BankAccount => info.(bankAccount := value)
    case IfscCode => info.(ifscCode := value)
    case StoreAddress => info.(storeAddress := value)
    case GstNumber => info.(gstNumber := value)
    case Description => info.(description := value)
    case Email => info.(email := value)
    case StoreName => info.(storeName := value)
    case Phone => info.(phone := value)
  }

  /** The fields determine the record, so an edit followed by restoring the old value gives back the record. */
  lemma WithFieldRestores(info: BusinessContactInfo, field: ContactField, value: string)
    ensures WithField(WithField(info, field, value), field, FieldValue(info, field)) == info
  {
  }

  /** The backend calls a submit makes, in order. */
  datatype Call = UpdateContactInfo(info: BusinessContactInfo) | UpdateLogo(file: File)

  /** While the progress bar is between 0 and 100 exclusive, or a call is pending, submit is disabled. */
  predicate SubmitDisabled(pending: bool, uploadProgress: nat) {
    pending || (0 < uploadProgress < 100)
  }

  /** After a submit resets the progress, only a pending call can keep the button disabled. */
  lemma ResetProgressEnablesSubmit(pending: bool)
    ensures SubmitDisabled(pending, 0) <==> pending
    ensures SubmitDisabled(false, 50) && !SubmitDisabled(false, 100)
  {
  }

  class BusinessInfoForm {
    var formData: BusinessContactInfo
    var logoFile: Option<File>
    var logoPreview: Option<string>
    var uploadProgress: nat

    constructor (contactInfo: BusinessContactInfo, logoUrl: Option<string>)
      ensures formData == contactInfo && logoFile.None? && logoPreview == logoUrl && uploadProgress == 0
    {
      formData, logoFile, logoPreview, uploadProgress := contactInfo, None, logoUrl, 0;
    }

    /** `handleLogoChange`: a refused file leaves the chosen logo as it was. */
    method HandleLogoChange(file: Option<File>) returns (check: Option<LogoCheck>)
      modifies this
      ensures file.None? ==> check.None? && logoFile == old(logoFile)
      ensures file.Some? ==> check == Some(CheckLogo(file.value))
      ensures file.Some? && CheckLogo(file.value) == LogoAccepted ==> logoFile == file
      ensures file.Some? && CheckLogo(file.value) != LogoAccepted ==> logoFile == old(logoFile)
      ensures formData == old(formData) && logoPreview == old(logoPreview) && uploadProgress == old(uploadProgress)
    {
      if file.None? {
        return None;
      }
      var f := file.value;
      if f.mimeType !in ValidLogoTypes {
        return Some(BadType);
      }
      if f.size > MaxLogoBytes {
        return Some(TooLarge);
      }
      logoFile := file;
      check := Some(LogoAccepted);
    }

    method PreviewLoaded(preview: string)
      modifies this
      ensures logoPreview == Some(preview)
      ensures formData == old(formData) && logoFile == old(logoFile) && uploadProgress == old(uploadProgress)
    {
      logoPreview := Some(preview);
    }

    /** `handleChange`: only the named field changes. */
    method HandleChange(field: ContactField, value: string)
      modifies this
      ensures formData == WithField(old(formData), field, value)
      ensures logoFile == old(logoFile) && logoPreview == old(logoPreview) && uploadProgress == old(uploadProgress)
    {
      formData := WithField(formData, field, value);
    }

    /** The upload reports its progress. */
    method ReportProgress(percentage: nat)
      modifies this
      ensures uploadProgress == percentage
      ensures formData == old(formData) && logoFile == old(logoFile) && logoPreview == old(logoPreview)
    {
      uploadProgress := percentage;
    }

    /**
     * `handleSubmit`: the contact details are sent first; the logo is sent only
     * if that succeeded and a file was chosen. The dialog closes only when every
     * call succeeded, and the progress returns to 0 in every case.
     */
    method HandleSubmit(contactAccepted: bool, logoAccepted: bool) returns (calls: seq<Call>, closes: bool)
      modifies this
      ensures |calls| >= 1 && calls[0] == UpdateContactInfo(old(formData))
      ensures |calls| == 2 <==> contactAccepted && old(logoFile).Some?
      ensures |calls| == 2 ==> calls[1] == UpdateLogo(old(logoFile).value)
      ensures |calls| <= 2
      ensures closes <==> contactAccepted && (old(logoFile).None? || logoAccepted)
      ensures uploadProgress == 0
      ensures formData == old(formData) && logoFile == old(logoFile) && logoPreview == old(logoPreview)
    {
      calls := [UpdateContactInfo(formData)];
      closes := false;
      if contactAccepted {
        if logoFile.Some? {
          calls := calls + [UpdateLogo(logoFile.value)];
          if logoAccepted {
            closes := true;
          }
        } else {
          closes := true;
        }
      }
      uploadProgress := 0;
    }
  }
}
