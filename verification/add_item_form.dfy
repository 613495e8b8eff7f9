/** The vendor's add-item form: its checks, the normalisation of the
    optional fields, and the alert after the store call. */
module AddItemForm {
  import opened Common
  import opened Text
  import opened Ui
  import opened Auth
  import opened VendorItems

  datatype AddItemOutcome = MissingFields | InvalidPrice | SubmitItem(data: NewItemData)

  /** `handleAddItem` up to the store call. `parsedPrice` is the price text
      read as a number of cents (`None` for JavaScript's NaN). Name,
      description and price text must be non-blank, the price positive; the
      category is trimmed and dropped when blank; an empty image URL is
      dropped; name and description go through untrimmed. */
  function HandleAddItem(name: string, description: string, price: string, parsedPrice: Option<int>,
                         category: string, imageUrl: string, isActive: bool): (r: AddItemOutcome)
    ensures r == MissingFields <==> Blank(name) || Blank(description) || Blank(price)
    ensures r == InvalidPrice <==>
              !Blank(name) && !Blank(description) && !Blank(price) && (parsedPrice.None? || parsedPrice.value <= 0)
    ensures r.SubmitItem? ==>
              r.data.name == name && r.data.description == description
              && Some(r.data.price) == parsedPrice && r.data.price > 0
              && r.data.isActive == Some(isActive)
              && (r.data.category.None? <==> Blank(category))
              && (r.data.category.Some? ==> r.data.category.value == Trim(category))
              && (r.data.imageUrl.None? <==> imageUrl == "")
              && (r.data.imageUrl.Some? ==> r.data.imageUrl.value == imageUrl)
  {
    if Trim(name) == [] || Trim(description) == [] || Trim(price) == [] then MissingFields
    else if parsedPrice.None? || parsedPrice.value <= 0 then InvalidPrice
    else
      var trimmed := Trim(category);
      SubmitItem(NewItemData(name, description, parsedPrice.value,
                             if imageUrl == "" then None else Some(imageUrl),
                             if trimmed == [] then None else Some(trimmed),
                             Some(isActive)))
  }

  /** The alert a rejection shows, one per check; a submission shows none. */
  function AddItemAlert(r: AddItemOutcome): (a: Option<AlertContent>)
    ensures a.None? <==> r.SubmitItem?
    ensures a.Some? ==> a.value.alertType == "warning" && a.value.buttons == [AlertButton("OK", false, None, None)]
    ensures r == MissingFields ==> a.value.title == "Missing Fields"
    ensures r == InvalidPrice ==> a.value.title == "Invalid Price"
  {
    match r
    case MissingFields =>
      Some(AlertContent("Missing Fields", "Please fill in name, description, and price.", "warning",
                        [AlertButton("OK", false, None, None)]))
    case InvalidPrice =>
      Some(AlertContent("Invalid Price", "Please enter a valid positive price.", "warning",
                        [AlertButton("OK", false, None, None)]))
    case SubmitItem(_) => None
  }

  /** The record the store writes for a submitted form has a positive price,
      the form's active flag, and a category that is either absent or
      non-empty without surrounding blanks. */
  lemma SubmittedRecord(name: string, description: string, price: string, parsedPrice: Option<int>,
                        category: string, imageUrl: string, isActive: bool, data: NewItemData, id: string, uid: string)
    requires HandleAddItem(name, description, price, parsedPrice, category, imageUrl, isActive) == SubmitItem(data)
    ensures var rec := NewRecord(id, data, uid);
            rec.price > 0 && rec.isActive == Some(isActive) && rec.vendorId == Some(uid)
            && (rec.category.Some? ==> rec.category.value != "" && !IsSpace(rec.category.value[0])
                                       && !IsSpace(rec.category.value[|rec.category.value| - 1]))
  {
    RecordOfSubmission(data, category, isActive, id, uid);
  }

  /** The record built from submitted form data keeps its price, flag and
      trimmed category. */
  lemma RecordOfSubmission(data: NewItemData, category: string, isActive: bool, id: string, uid: string)
    requires data.price > 0 && data.isActive == Some(isActive)
    requires data.category.None? <==> Blank(category)
    requires data.category.Some? ==> data.category.value == Trim(category)
    ensures var rec := NewRecord(id, data, uid);
            rec.price > 0 && rec.isActive == Some(isActive) && rec.vendorId == Some(uid)
            && (rec.category.Some? ==> rec.category.value != "" && !IsSpace(rec.category.value[0])
                                       && !IsSpace(rec.category.value[|rec.category.value| - 1]))
  {
  }

  /** The text of an error as the alert shows it; a remote failure's text
      is not part of this model. */
  function ErrorText(e: Option<Error>): (r: Option<string>)
    ensures r.Some? <==> e.Some? && e.value.Message? && e.value.text != ""
  {
    if e.Some? && e.value.Message? && e.value.text != "" then Some(e.value.text) else None
  }

  const DefaultFailure := "Could not add the item. Please try again."

  /** The success alert, whose OK button goes back. */
  function SuccessAlert(name: string): AlertContent {
    AlertContent("Item Added", name + " has been successfully added to your store.", "success",
                 [AlertButton("OK", true, None, None)])
  }

  /** The alert after the store call: success when an id came back, else
      the given error's text or a generic message. */
  function ResultAlert(name: string, itemId: Option<string>, shownError: Option<Error>): (a: AlertContent)
    ensures a.alertType == "success" <==> Truthy(itemId)
    ensures !Truthy(itemId) ==> a.message == ErrorText(shownError).GetOr(DefaultFailure)
  {
    if Truthy(itemId) then SuccessAlert(name)
    else AlertContent("Failed to Add", ErrorText(shownError).GetOr(DefaultFailure), "error", [AlertButton("OK", false, None, None)])
  }

  /** The whole handler as written: the failure message reads `error` as
      captured when the screen last rendered, that is, the store's error
      before the call. */
  function AddAndAlertAsWritten(s: VendorItemsState, user: Option<User>, data: NewItemData, remote: map<string, VendorItem>,
                                newId: string, ok: bool, listing: Option<seq<VendorItem>>, name: string): (a: AlertContent)
    ensures a.alertType == "success" <==> Truthy(AddItem(s, user, data, remote, newId, ok, listing).result)
    ensures a.alertType != "success" ==> a.message == ErrorText(s.error).GetOr(DefaultFailure)
  {
    var r := AddItem(s, user, data, remote, newId, ok, listing);
    ResultAlert(name, r.result, s.error)
  }

  /** The handler reading the store's error as the call left it. */
  function AddAndAlert(s: VendorItemsState, user: Option<User>, data: NewItemData, remote: map<string, VendorItem>,
                       newId: string, ok: bool, listing: Option<seq<VendorItem>>, name: string): (a: AlertContent)
    ensures a.alertType == "success" <==> Truthy(AddItem(s, user, data, remote, newId, ok, listing).result)
    ensures a.alertType != "success" ==>
              a.message == ErrorText(AddItem(s, user, data, remote, newId, ok, listing).state.error).GetOr(DefaultFailure)
  {
    var r := AddItem(s, user, data, remote, newId, ok, listing);
    ResultAlert(name, r.result, r.state.error)
  }

  /** The success alert appears exactly when the store returned an id, and a
      signed-out vendor is told why the item was not added. */
  lemma AlertFollowsStore(s: VendorItemsState, user: Option<User>, data: NewItemData, remote: map<string, VendorItem>,
                          newId: string, ok: bool, listing: Option<seq<VendorItem>>, name: string)
    requires newId != ""
    ensures var a := AddAndAlert(s, user, data, remote, newId, ok, listing, name);
            (a.alertType == "success" <==> SignedInUid(user).Some? && ok)
            && (SignedInUid(user).None? ==> a.message == "Vendor not authenticated")
  {
  }

  /** The stale read: a signed-out vendor whose screen rendered with no
      error is shown the generic message instead of the reason. */
  lemma StaleErrorHidesReason(s: VendorItemsState, data: NewItemData, remote: map<string, VendorItem>,
                              newId: string, ok: bool, listing: Option<seq<VendorItem>>, name: string)
    requires s.error.None?
    ensures AddAndAlertAsWritten(s, None, data, remote, newId, ok, listing, name).message == DefaultFailure
    ensures AddAndAlert(s, None, data, remote, newId, ok, listing, name).message == "Vendor not authenticated"
  {
  }
}
