/** The user sign-in sheet (AuthModal.tsx): a three-view machine, login,
    one-time code and profile, over the phone number kept in local storage
    under `user_phone`. The component's timers become immediate steps. */
module Auth {
  import opened Basics

  datatype View = LoginView | OtpView | ProfileView

  /** The shortest phone number a code is sent to. */
  const MinPhoneLength := 9

  /** `otp === '1234' || otp.length === 4`. */
  predicate CodeAccepted(otp: string)
  {
    otp == "1234" || |otp| == 4
  }

  /** The fixed code is just one of the accepted four-character codes. */
  lemma CodeAcceptedIsFourCharacters(otp: string)
    ensures CodeAccepted(otp) <==> |otp| == 4
  {
  }

  /** The view the sheet opens on: the profile of a stored (non-empty)
      phone number, else the login view. */
  function MountView(stored: Option<string>): (r: View)
    ensures r == ProfileView <==> stored.Some? && stored.value != ""
    ensures r != OtpView
  {
    if stored.Some? && stored.value != "" then ProfileView else LoginView
  }

  class AuthModal {
    var view: View
    var phoneNumber: string
    var otp: string
    var isLoading: bool
    /** The `user_phone` entry of local storage. */
    var storedPhone: Option<string>

    /** The code view is reached with a long enough number only, and the
        profile view always shows the stored, non-empty number. Between
        steps nothing is loading (the timers run at once here). */
    predicate Valid()
      reads this
    {
      && !isLoading
      && (view == OtpView ==> |phoneNumber| >= MinPhoneLength)
      && (view == ProfileView ==> storedPhone == Some(phoneNumber) && phoneNumber != "")
    }

    /** Mount: a stored phone number opens the profile with that number. */
    constructor (stored: Option<string>)
      ensures view == MountView(stored) && storedPhone == stored
      ensures phoneNumber == (if view == ProfileView then stored.value else "")
      ensures otp == ""
      ensures Valid()
    {
      view := MountView(stored);
      phoneNumber := if stored.Some? && stored.value != "" then stored.value else "";
      otp, isLoading := "", false;
      storedPhone := stored;
    }

    /** Typing in the phone field, which only the login view shows. */
    method SetPhoneNumber(p: string)
      requires Valid() && view == LoginView
      modifies this`phoneNumber
      ensures Valid() && phoneNumber == p
    {
      phoneNumber := p;
    }

    /** Typing in the code field, which only the code view shows. */
    method SetOtp(code: string)
      requires Valid() && view == OtpView
      modifies this`otp
      ensures Valid() && otp == code
    {
      otp := code;
    }

    /** `handleSendOtp` (the button of the login view): a number shorter than
        nine characters is refused with an alert; otherwise the code view opens. */
    method HandleSendOtp() returns (alerted: bool)
      requires Valid() && view == LoginView
      modifies this`view, this`isLoading
      ensures Valid()
      ensures alerted <==> |phoneNumber| < MinPhoneLength
      ensures view == (if alerted then LoginView else OtpView)
    {
      if |phoneNumber| < MinPhoneLength {
        return true;
      }
      isLoading := true;
      isLoading := false;
      view := OtpView;
      alerted := false;
    }

    /** `handleVerifyOtp` (the button of the code view): an accepted code
        stores the number and opens the profile; any other code is refused
        with an alert. */
    method HandleVerifyOtp() returns (alerted: bool)
      requires Valid() && view == OtpView
      modifies this`view, this`isLoading, this`storedPhone
      ensures Valid()
      ensures alerted <==> !CodeAccepted(otp)
      ensures !alerted ==> view == ProfileView && storedPhone == Some(phoneNumber)
      ensures alerted ==> view == OtpView && storedPhone == old(storedPhone)
    {
      if CodeAccepted(otp) {
        isLoading := true;
        isLoading := false;
        storedPhone := Some(phoneNumber);
        view := ProfileView;
        alerted := false;
      } else {
        alerted := true;
      }
    }

    /** `handleLogout` (the button of the profile view). */
    method HandleLogout()
      requires Valid() && view == ProfileView
      modifies this`view, this`storedPhone
      ensures Valid()
      ensures storedPhone == None && view == LoginView
    {
      storedPhone := None;
      view := LoginView;
    }
  }
}
