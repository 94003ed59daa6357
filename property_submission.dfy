/** The property submission form (AddPropertyModal.tsx): the list of chosen
    photos and their previews, the phone check, the upload of every chosen
    photo and the row inserted into the `properties` table. Unlike the job
    form, this form does not normalise local digits. */
module PropertySubmission {
  import opened Basics
  import opened Listings
  import opened Feed
  import opened JobSubmission

  datatype PropertyForm = PropertyForm(title: string, price: string, propertyType: PropertyType,
                                       dealType: DealType, bedrooms: string, area: string,
                                       address: string, city: string, description: string,
                                       phoneNumber: string, location: Option<Location>)

  /** The form as it opens: an apartment for sale in Kabul, everything else blank. */
  const InitialPropertyForm := PropertyForm("", "", Apartment, Sale, "", "", "", "کابل", "", "", None)

  /** The row inserted into the `properties` table. */
  datatype PropertyRow = PropertyRow(title: string, price: nat, currency: string, dealType: DealType,
                                     propertyType: PropertyType, bedrooms: nat, area: nat,
                                     city: string, address: string, description: string,
                                     phoneNumber: string, location: Location,
                                     images: seq<string>, status: Status, ownerId: string)

  /** The form renders no input for the bedrooms, the property type or the
      address, so these keep the values the form opened with. */
  predicate UnrenderedFieldsAsOpened(form: PropertyForm)
  {
    form.bedrooms == "" && form.propertyType == Apartment && form.address == ""
  }

  /** The edits the rendered inputs make through `handleInputChange`: the
      title, price, area, phone, city and description fields, the deal-type
      chips and the map's confirm button. */
  datatype FieldEdit =
    | EditTitle(text: string)
    | EditPrice(text: string)
    | EditArea(text: string)
    | EditPhone(text: string)
    | EditCity(text: string)
    | EditDescription(text: string)
    | EditDealType(deal: DealType)
    | EditLocation(picked: Location)

  /** `setFormData(prev => ({ ...prev, [field]: value }))` for one edit. */
  function ApplyEdit(form: PropertyForm, edit: FieldEdit): (r: PropertyForm)
    ensures r.bedrooms == form.bedrooms && r.propertyType == form.propertyType
            && r.address == form.address
    ensures r.title == (if edit.EditTitle? then edit.text else form.title)
    ensures r.price == (if edit.EditPrice? then edit.text else form.price)
    ensures r.area == (if edit.EditArea? then edit.text else form.area)
    ensures r.phoneNumber == (if edit.EditPhone? then edit.text else form.phoneNumber)
    ensures r.city == (if edit.EditCity? then edit.text else form.city)
    ensures r.description == (if edit.EditDescription? then edit.text else form.description)
    ensures r.dealType == (if edit.EditDealType? then edit.deal else form.dealType)
    ensures r.location == (if edit.EditLocation? then Some(edit.picked) else form.location)
  {
    match edit
    case EditTitle(t) => form.(title := t)
    case EditPrice(t) => form.(price := t)
    case EditArea(t) => form.(area := t)
    case EditPhone(t) => form.(phoneNumber := t)
    case EditCity(t) => form.(city := t)
    case EditDescription(t) => form.(description := t)
    case EditDealType(d) => form.(dealType := d)
    case EditLocation(l) => form.(location := Some(l))
  }

  /** A run of edits, oldest first. */
  function ApplyEdits(form: PropertyForm, edits: seq<FieldEdit>): PropertyForm
    decreases |edits|
  {
    if edits == [] then form else ApplyEdits(ApplyEdit(form, edits[0]), edits[1..])
  }

  /** No run of edits reaches the unrendered fields. */
  lemma {:induction false} EditsKeepUnrenderedFields(form: PropertyForm, edits: seq<FieldEdit>)
    requires UnrenderedFieldsAsOpened(form)
    ensures UnrenderedFieldsAsOpened(ApplyEdits(form, edits))
    decreases |edits|
  {
    if edits != [] {
      EditsKeepUnrenderedFields(ApplyEdit(form, edits[0]), edits[1..]);
    }
  }

  /** The placeholder image; `now` stands for `Date.now()`. */
  function PropertyPlaceholder(now: string): string
  {
    "https://picsum.photos/seed/" + now + "/800/600"
  }

  /** `finalImageUrls`: the uploaded URLs (one per chosen file) when files
      were chosen, else the single placeholder. Never empty. */
  function FinalImages(fileCount: nat, uploaded: seq<string>, now: string): (r: seq<string>)
    requires |uploaded| == fileCount
    ensures |r| >= 1
    ensures fileCount > 0 ==> r == uploaded
    ensures fileCount == 0 ==> r == [PropertyPlaceholder(now)]
  {
    if fileCount > 0 then uploaded else [PropertyPlaceholder(now)]
  }

  /** The inserted record: always PENDING and owned by `user_123`; the
      numbers fall back to 0 when they do not parse; the phone number is
      stored as typed. */
  function PropertyPayload(form: PropertyForm, loc: Location, images: seq<string>): (r: PropertyRow)
    ensures r.status == Pending && r.ownerId == CurrentUser && r.currency == "AFN"
    ensures r.title == form.title && r.dealType == form.dealType && r.propertyType == form.propertyType
    ensures r.city == form.city && r.address == form.address && r.description == form.description
    ensures r.phoneNumber == form.phoneNumber && r.images == images && r.location == loc
    ensures r.price == NumberOrZero(form.price) && r.bedrooms == NumberOrZero(form.bedrooms)
            && r.area == NumberOrZero(form.area)
    ensures (form.price == "" || !IsDigit(form.price[0])) ==> r.price == 0
    ensures (form.bedrooms == "" || !IsDigit(form.bedrooms[0])) ==> r.bedrooms == 0
    ensures (form.area == "" || !IsDigit(form.area[0])) ==> r.area == 0
  {
    PropertyRow(form.title, NumberOrZero(form.price), "AFN", form.dealType, form.propertyType,
                NumberOrZero(form.bedrooms), NumberOrZero(form.area), form.city, form.address,
                form.description, form.phoneNumber, loc, images, Pending, CurrentUser)
  }

  /** Whatever the inputs were used for, the row the form sends has no
      bedrooms, is an apartment and has an empty address. */
  lemma EditedFormRow(edits: seq<FieldEdit>, loc: Location, images: seq<string>)
    ensures var r := PropertyPayload(ApplyEdits(InitialPropertyForm, edits), loc, images);
            r.bedrooms == 0 && r.propertyType == Apartment && r.address == ""
  {
    EditsKeepUnrenderedFields(InitialPropertyForm, edits);
  }

  /** The price expression turns local-digit text into 0 (a number input
      would not hand such text over), while the job form keeps the value of
      the same text as a salary. */
  lemma LocalDigitPriceIsDropped(form: PropertyForm, loc: Location, images: seq<string>)
    requires form.price == "۵۰۰۰"
    ensures PropertyPayload(form, loc, images).price == 0
    ensures NumberOrZero(ToEnglishDigits(form.price)) == 5000
  {
    LocalSalaryKeepsValue();
  }

  /** A phone number typed in local digits reaches the row unchanged, while
      the job form would rewrite it. */
  lemma LocalDigitPhoneIsKept(form: PropertyForm, loc: Location, images: seq<string>)
    requires form.phoneNumber == "۰۷۰۰"
    ensures PropertyPayload(form, loc, images).phoneNumber == "۰۷۰۰"
    ensures ToEnglishDigits(form.phoneNumber) == "0700"
  {
    ToEnglishDigitsAt(form.phoneNumber);
    assert forall i :: 0 <= i < 4 ==> ToEnglishDigits(form.phoneNumber)[i] == "0700"[i];
  }

  // -------------------------------------------------------- the form

  class AddPropertyModal {
    var formData: PropertyForm
    var selectedFiles: seq<File>
    var previews: seq<string>
    var tempLocation: Location
    var isSubmitting: bool
    var isSuccess: bool

    /** Each chosen file has the preview at the same position, and the
        fields without an input keep their opening values. */
    predicate Valid()
      reads this
    {
      |selectedFiles| == |previews| && UnrenderedFieldsAsOpened(formData)
    }

    constructor ()
      ensures formData == InitialPropertyForm
      ensures selectedFiles == [] && previews == [] && tempLocation == KabulCenter
      ensures !isSubmitting && !isSuccess
      ensures Valid()
    {
      formData := InitialPropertyForm;
      selectedFiles, previews, tempLocation := [], [], KabulCenter;
      isSubmitting, isSuccess := false, false;
    }

    /** `handleInputChange` from one of the rendered inputs. */
    method HandleInputChange(edit: FieldEdit)
      requires Valid()
      modifies this`formData
      ensures formData == ApplyEdit(old(formData), edit)
      ensures Valid()
    {
      formData := ApplyEdit(formData, edit);
    }

    /** `handleFileChange`: the chosen files (None: the input reported no
        file list) are appended, and so are their preview URLs, which stand
        for `URL.createObjectURL` of each file. */
    method HandleFileChange(files: Option<seq<File>>, previewUrls: seq<string>)
      requires Valid()
      requires files.Some? ==> |previewUrls| == |files.value|
      modifies this`selectedFiles, this`previews
      ensures Valid()
      ensures files.Some? ==> selectedFiles == old(selectedFiles) + files.value
                              && previews == old(previews) + previewUrls
      ensures files.None? ==> selectedFiles == old(selectedFiles) && previews == old(previews)
      ensures forall i :: 0 <= i < |old(selectedFiles)| ==>
                selectedFiles[i] == old(selectedFiles)[i] && previews[i] == old(previews)[i]
    {
      if files.Some? {
        selectedFiles := selectedFiles + files.value;
        previews := previews + previewUrls;
      }
    }

    /** `handleSubmit`. `uploaded` is what uploading every chosen file gives
        (one URL per file; None: an upload failed), `insertOk` whether the
        insert reported no error, and `now` the clock. Returns whether an
        upload was started and the row sent to insert. */
    method HandleSubmit(uploaded: Option<seq<string>>, insertOk: bool, now: string)
      returns (outcome: SubmitOutcome, uploadStarted: bool, sent: Option<PropertyRow>)
      requires Valid()
      requires uploaded.Some? ==> |uploaded.value| == |selectedFiles|
      modifies this`isSubmitting, this`isSuccess
      ensures formData.phoneNumber == "" ==>
                && outcome == Aborted && !uploadStarted && sent == None
                && isSubmitting == old(isSubmitting) && isSuccess == old(isSuccess)
      ensures formData.phoneNumber != "" ==>
                var uploadFailed := selectedFiles != [] && uploaded.None?;
                && uploadStarted == (selectedFiles != [])
                && sent == (if uploadFailed then None
                            else Some(PropertyPayload(formData, ChosenLocation(formData.location, tempLocation),
                                                      FinalImages(|selectedFiles|,
                                                                  if selectedFiles != [] then uploaded.value
                                                                  else [], now))))
                && outcome == (if !uploadFailed && insertOk then Succeeded else Failed)
                && isSuccess == (outcome == Succeeded || old(isSuccess))
                && !isSubmitting
      ensures sent.Some? ==> |sent.value.images| >= 1 && sent.value.status == Pending
      ensures sent.Some? ==> sent.value.bedrooms == 0 && sent.value.propertyType == Apartment
                             && sent.value.address == ""
    {
      uploadStarted, sent := false, None;
      if formData.phoneNumber == "" {
        return Aborted, uploadStarted, sent;
      }
      isSubmitting := true;
      var thrown := false;
      var urls: seq<string> := [];
      if |selectedFiles| > 0 {
        uploadStarted := true;
        if uploaded.None? {
          thrown := true;
        } else {
          urls := uploaded.value;
        }
      }
      if !thrown {
        var images := FinalImages(|selectedFiles|, urls, now);
        sent := Some(PropertyPayload(formData, ChosenLocation(formData.location, tempLocation), images));
        thrown := !insertOk;
      }
      if !thrown {
        isSuccess := true;
        outcome := Succeeded;
      } else {
        outcome := Failed;
      }
      isSubmitting := false;
    }
  }
}
