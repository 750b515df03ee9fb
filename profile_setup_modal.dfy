/** The first-sign-in profile dialog: every field required, and the dedicated-admin recognition. */
module ProfileSetupModal {
  import opened Wrappers
  import opened Domain
  import Text
  import Queries

  /** `email.toLowerCase() === 'arjun.tapse@gmail.com'`. */
  predicate IsDedicatedAdmin(email: string) {
    Text.Lower(email) == Queries.AdminEmail
  }

  /** The alert is rendered for `isDedicatedAdmin && email`. */
  predicate ShowsAdminAlert(email: string) {
    IsDedicatedAdmin(email) && email != ""
  }

  /** The non-empty test on the email adds nothing: the admin address itself is not empty. */
  lemma AdminAlertIffDedicated(email: string)
    ensures ShowsAdminAlert(email) <==> IsDedicatedAdmin(email)
  {
    if IsDedicatedAdmin(email) {
      assert |Text.Lower(email)| == |Queries.AdminEmail| > 0;
    }
  }

  datatype SubmitOutcome = Incomplete | SaveFailed | Saved(profile: UserProfile, adminMessage: bool)

  /**
   * `handleSubmit`: any empty field stops the submit before saving; after a
   * successful save the success message is the admin variant exactly for the
   * dedicated address.
   */
  function Submit(name: string, email: string, phone: string, address: string, saveSucceeds: bool): (r: SubmitOutcome)
    ensures r == Incomplete <==> name == "" || email == "" || phone == "" || address == ""
    ensures r == SaveFailed <==> name != "" && email != "" && phone != "" && address != "" && !saveSucceeds
    ensures r.Saved? ==> r.profile == UserProfile(name, email, address, phone)
    ensures r.Saved? ==> (r.adminMessage <==> IsDedicatedAdmin(email))
  {
    if name == "" || email == "" || phone == "" || address == "" then Incomplete
    else if !saveSucceeds then SaveFailed
    else Saved(UserProfile(name, email, address, phone), IsDedicatedAdmin(email))
  }

  /**
   * The dialog and the admin query recognise the same address: once the
   * dedicated admin's profile is saved, the admin query answers yes without
   * asking the backend.
   */
  lemma SavedAdminIsRecognised(name: string, email: string, phone: string, address: string)
    requires Submit(name, email, phone, address, true).Saved?
    requires Submit(name, email, phone, address, true).adminMessage
    ensures Queries.IsAdminQuery(true, Some(Submit(name, email, phone, address, true).profile)) == Queries.Answer(true)
  {
  }
}
