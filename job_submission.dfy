/** The job submission form (AddJobModal.tsx): Extended Arabic-Indic digit
    normalisation, the location check, the optional single photo upload and
    the row inserted into the `jobs` table. */
module JobSubmission {
  import opened Basics
  import opened Listings

  // ------------------------------------------------ digit normalisation

  /** The Extended Arabic-Indic digits U+06F0 (zero) to U+06F9 (nine). */
  predicate IsLocalDigit(c: char)
  {
    0x06F0 <= c as int <= 0x06F9
  }

  predicate NoLocalDigits(s: string)
  {
    forall i :: 0 <= i < |s| ==> !IsLocalDigit(s[i])
  }

  /** The replacement `'۰۱۲۳۴۵۶۷۸۹'.indexOf(d).toString()` for one character. */
  function EnglishDigit(c: char): char
  {
    if IsLocalDigit(c) then (c as int - 0x06F0 + '0' as int) as char else c
  }

  /** `toEnglishDigits`. */
  function ToEnglishDigits(s: string): string
  {
    if s == [] then "" else [EnglishDigit(s[0])] + ToEnglishDigits(s[1..])
  }

  /** Each local digit becomes the ASCII digit of the same value; every other
      character is kept; the length does not change. */
  lemma {:induction false} ToEnglishDigitsAt(s: string)
    ensures |ToEnglishDigits(s)| == |s|
    ensures forall i :: 0 <= i < |s| && IsLocalDigit(s[i]) ==>
              IsDigit(ToEnglishDigits(s)[i]) &&
              ToEnglishDigits(s)[i] as int - '0' as int == s[i] as int - 0x06F0
    ensures forall i :: 0 <= i < |s| && !IsLocalDigit(s[i]) ==> ToEnglishDigits(s)[i] == s[i]
  {
    if s != [] {
      ToEnglishDigitsAt(s[1..]);
      var r := ToEnglishDigits(s);
      assert forall i :: 1 <= i < |s| ==> r[i] == ToEnglishDigits(s[1..])[i - 1] && s[i] == s[1..][i - 1];
    }
  }

  /** The result holds no local digit, so normalising again changes nothing. */
  lemma ToEnglishDigitsClean(s: string)
    ensures NoLocalDigits(ToEnglishDigits(s))
    ensures ToEnglishDigits(ToEnglishDigits(s)) == ToEnglishDigits(s)
  {
    ToEnglishDigitsAt(s);
    var r := ToEnglishDigits(s);
    ToEnglishDigitsAt(r);
    assert forall i :: 0 <= i < |r| ==> ToEnglishDigits(r)[i] == r[i];
  }

  /** A string without local digits is left as it is. */
  lemma ToEnglishDigitsKeepsClean(s: string)
    ensures NoLocalDigits(s) ==> ToEnglishDigits(s) == s
  {
    ToEnglishDigitsAt(s);
  }

  /** The other direction: ASCII digits written as local digits. */
  function LocalDigit(c: char): char
  {
    if IsDigit(c) then (c as int - '0' as int + 0x06F0) as char else c
  }

  function ToLocalDigits(s: string): (r: string)
    ensures |r| == |s|
  {
    seq(|s|, i requires 0 <= i < |s| => LocalDigit(s[i]))
  }

  /** Writing the ASCII digits of `s` as local digits and normalising them
      back gives `s` again (for input that had no local digits). */
  lemma LocalDigitsRoundTrip(s: string)
    requires NoLocalDigits(s)
    ensures ToEnglishDigits(ToLocalDigits(s)) == s
  {
    var l := ToLocalDigits(s);
    ToEnglishDigitsAt(l);
    assert forall i :: 0 <= i < |s| ==> ToEnglishDigits(l)[i] == s[i];
  }

  /** A number typed in local digits parses to the value of its ASCII spelling. */
  lemma LocalDigitsParseAlike(s: string)
    requires NoLocalDigits(s)
    ensures NumberOrZero(ToEnglishDigits(ToLocalDigits(s))) == NumberOrZero(s)
  {
    LocalDigitsRoundTrip(s);
  }

  // --------------------------------------------------------- the payload

  datatype JobForm = JobForm(title: string, company: string, jobType: JobType, salary: string,
                             city: string, address: string, description: string,
                             phoneNumber: string, location: Option<Location>)

  /** The row inserted into the `jobs` table. */
  datatype JobRow = JobRow(title: string, company: string, salary: nat, currency: string,
                           jobType: JobType, address: string, city: string,
                           description: string, phoneNumber: string, location: Location,
                           images: seq<string>, status: Status, ownerId: string)

  /** The map's starting point (Kabul). */
  const KabulCenter := Location(Finite(34.5553), Finite(69.2075))

  /** The placeholder image; `now` stands for `Date.now()`. */
  function JobPlaceholder(now: string): string
  {
    "https://picsum.photos/seed/job-" + now + "/800/600"
  }

  /** `localStorage.getItem('user_phone') || 'guest'`: a missing or empty
      stored phone gives `guest`. */
  function JobOwner(storedPhone: Option<string>): (r: string)
    ensures r != ""
    ensures storedPhone.Some? && storedPhone.value != "" ==> r == storedPhone.value
    ensures !(storedPhone.Some? && storedPhone.value != "") ==> r == "guest"
  {
    if storedPhone.Some? && storedPhone.value != "" then storedPhone.value else "guest"
  }

  /** `formData.location || tempLocation`, in both forms: the picked
      location, else the map's current centre. */
  function ChosenLocation(picked: Option<Location>, centre: Location): Location
  {
    if picked.Some? then picked.value else centre
  }

  /** The payload of `handleSubmit`; `uploadedUrl` is "" when no photo was chosen. */
  function JobPayload(form: JobForm, loc: Location, uploadedUrl: string,
                      storedPhone: Option<string>, now: string): (r: JobRow)
    ensures r.status == Pending && r.ownerId == JobOwner(storedPhone) && r.currency == "AFN"
    ensures r.title == form.title && r.company == form.company && r.jobType == form.jobType
    ensures r.address == form.address && r.city == form.city && r.description == form.description
    ensures |r.images| == 1 && r.images[0] != ""
    ensures uploadedUrl != "" ==> r.images == [uploadedUrl]
    ensures uploadedUrl == "" ==> r.images == [JobPlaceholder(now)]
    ensures r.salary == NumberOrZero(ToEnglishDigits(form.salary))
    ensures r.phoneNumber == ToEnglishDigits(form.phoneNumber)
    ensures NoLocalDigits(r.phoneNumber) && |r.phoneNumber| == |form.phoneNumber|
    ensures NoLocalDigits(form.phoneNumber) ==> r.phoneNumber == form.phoneNumber
    ensures r.location == loc
  {
    ToEnglishDigitsClean(form.phoneNumber);
    ToEnglishDigitsAt(form.phoneNumber);
    ToEnglishDigitsKeepsClean(form.phoneNumber);
    JobRow(form.title, form.company, NumberOrZero(ToEnglishDigits(form.salary)), "AFN",
           form.jobType, form.address, form.city, form.description,
           ToEnglishDigits(form.phoneNumber), loc,
           if uploadedUrl != "" then [uploadedUrl] else [JobPlaceholder(now)],
           Pending, JobOwner(storedPhone))
  }

  /** A salary typed in local digits is stored with its value. */
  lemma LocalSalaryKeepsValue()
    ensures NumberOrZero(ToEnglishDigits("۵۰۰۰")) == 5000
  {
    assert ToEnglishDigits("۵۰۰۰") == "5000";
    assert DigitPrefixLength("5000") == 4;
    assert "5000"[..4] == "5000";
    assert "5000"[..3] == "500";
    assert "500"[..2] == "50";
    assert "50"[..1] == "5";
    assert "5"[..0] == "";
  }

  // -------------------------------------------------------- the form

  datatype SubmitOutcome = Aborted | Succeeded | Failed

  class AddJobModal {
    var formData: JobForm
    var selectedFile: Option<File>
    var preview: string
    var tempLocation: Location
    var isSubmitting: bool
    var isSuccess: bool

    /** The form opens with the second province of the translation table
        (or Kabul) as its city, nothing picked and nothing submitted. */
    constructor (provinces: seq<string>)
      ensures formData == JobForm("", "", FullTime, "",
                                  if |provinces| > 1 && provinces[1] != "" then provinces[1] else "کابل",
                                  "", "", "", None)
      ensures selectedFile == None && preview == "" && tempLocation == KabulCenter
      ensures !isSubmitting && !isSuccess
    {
      formData := JobForm("", "", FullTime, "",
                          if |provinces| > 1 && provinces[1] != "" then provinces[1] else "کابل",
                          "", "", "", None);
      selectedFile, preview, tempLocation := None, "", KabulCenter;
      isSubmitting, isSuccess := false, false;
    }

    /** `handleFileChange`: the first chosen file replaces the photo;
        `previewUrl` stands for `URL.createObjectURL(file)`. */
    method HandleFileChange(files: seq<File>, previewUrl: string)
      modifies this`selectedFile, this`preview
      ensures files != [] ==> selectedFile == Some(files[0]) && preview == previewUrl
      ensures files == [] ==> selectedFile == old(selectedFile) && preview == old(preview)
    {
      if files != [] {
        selectedFile := Some(files[0]);
        preview := previewUrl;
      }
    }

    /** `handleSubmit`. The backend is given as parameters: whether it is
        configured, the URL the photo upload returns (None: it failed),
        whether the insert succeeds, and the stored phone and clock. It
        returns whether an upload was started and the row sent to insert. */
    method HandleSubmit(storedPhone: Option<string>, backendReady: bool,
                        uploadedUrl: Option<string>, insertOk: bool, now: string)
      returns (outcome: SubmitOutcome, uploadStarted: bool, sent: Option<JobRow>)
      modifies this`isSubmitting, this`isSuccess
      ensures !IsFiniteLocation(ChosenLocation(formData.location, tempLocation)) ==>
                && outcome == Aborted && !uploadStarted && sent == None
                && isSubmitting == old(isSubmitting) && isSuccess == old(isSuccess)
      ensures IsFiniteLocation(ChosenLocation(formData.location, tempLocation)) ==>
                var uploadFailed := selectedFile.Some? && (!backendReady || uploadedUrl.None?);
                var url := if selectedFile.Some? && !uploadFailed then uploadedUrl.value else "";
                && uploadStarted == selectedFile.Some?
                && sent == (if !uploadFailed && backendReady
                            then Some(JobPayload(formData, ChosenLocation(formData.location, tempLocation), url, storedPhone, now))
                            else None)
                && outcome == (if !backendReady || (!uploadFailed && insertOk) then Succeeded else Failed)
                && isSuccess == (outcome == Succeeded || old(isSuccess))
                && !isSubmitting
    {
      var cleanSalary := ToEnglishDigits(formData.salary);
      var cleanPhone := ToEnglishDigits(formData.phoneNumber);
      var loc := ChosenLocation(formData.location, tempLocation);
      uploadStarted, sent := false, None;
      if !IsFiniteLocation(loc) {
        return Aborted, uploadStarted, sent;
      }
      isSubmitting := true;
      var thrown := false;
      var finalImageUrl := "";
      if selectedFile.Some? {
        uploadStarted := true;
        if !backendReady || uploadedUrl.None? {
          thrown := true;
        } else {
          finalImageUrl := uploadedUrl.value;
        }
      }
      if !thrown {
        var payload := JobPayload(formData, loc, finalImageUrl, storedPhone, now);
        if backendReady {
          sent := Some(payload);
          thrown := !insertOk;
        }
      }
      if !thrown || !backendReady {
        isSuccess := true;
        outcome := Succeeded;
      } else {
        outcome := Failed;
      }
      isSubmitting := false;
    }
  }
}
