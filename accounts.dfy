/**
 * The phone-number sign-in flow of `accounts/views.py`: `request_otp` draws a six-digit
 * code and parks it in the session beside the phone number, `verify_otp` compares the
 * code the user types with it and signs the user in, and `setup_profile` lets a
 * signed-in user record the location the rest of the site depends on.
 */
module Accounts {
  import opened Wrappers
  import opened Http

  /** The session keys the flow uses. */
  const PhoneKey: string := "phone_number"
  const OtpKey: string := "otp"

  /** `random.randint(100000, 999999)` draws from this closed range. */
  const OtpLow: int := 100000
  const OtpHigh: int := 999999

  const InvalidOtpError: string := "Invalid OTP. Please try again."

  const RequestOtpPage: string := "accounts/request_otp.html"
  const VerifyOtpPage: string := "accounts/verify_otp.html"
  const SetupProfilePage: string := "accounts/setup_profile.html"

  /** A value stored in the session. */
  datatype Value = Str(s: string) | Int(n: int)

  /** Python truthiness of `request.session.get(key)`: `None`, `''` and `0` are false. */
  predicate Truthy(v: Option<Value>)
  {
    match v
    case None => false
    case Some(Str(s)) => s != []
    case Some(Int(n)) => n != 0
  }

  /** What became of the text message: no Twilio credentials, sent, or the client raised. */
  datatype Sms = NoClient | Sent | SendFailed

  /** The submitted `OTPForm`: rejected by its own validation, or accepted with the text whose
      `int(...)` is `number` (`None` when `int` raises `ValueError`). */
  datatype OtpSubmission = OtpRejected | OtpAccepted(number: Option<int>)

  /** The submitted `ProfileEditForm`: rejected, or accepted with its cleaned `location`. */
  datatype ProfileSubmission = ProfileRejected | ProfileAccepted(location: string)

  /** The `Profile` row of one user. */
  datatype Profile = Profile(phoneNumber: Option<string>, location: string)

  /** `Profile.objects.create(user=...)` from the `post_save` signal: no phone, no location. */
  const NewProfile: Profile := Profile(None, "")

  /** The state the three views read and write: the visitor's session, the users with their
      profiles (keyed by username), and who is signed in. */
  class Site {
    var session: map<string, Value>
    var profiles: map<string, Profile>
    var user: Option<string>

    /** A signed-in user has a profile (the signal creates one with every user), and the two
        session keys hold what `request_otp` stores there: a string and an integer. */
    ghost predicate Valid()
      reads this
    {
      (user.Some? ==> user.value in profiles)
      && (PhoneKey in session ==> session[PhoneKey].Str?)
      && (OtpKey in session ==> session[OtpKey].Int?)
    }

    /** `request.session.get(key)`. */
    function SessionGet(key: string): Option<Value>
      reads this
    {
      if key in session then Some(session[key]) else None
    }

    constructor(session0: map<string, Value>, profiles0: map<string, Profile>, user0: Option<string>)
      requires user0.Some? ==> user0.value in profiles0
      requires PhoneKey in session0 ==> session0[PhoneKey].Str?
      requires OtpKey in session0 ==> session0[OtpKey].Int?
      ensures Valid()
      ensures session == session0 && profiles == profiles0 && user == user0
    {
      session := session0;
      profiles := profiles0;
      user := user0;
    }

    /**
     * `request_otp`. A valid POST stores the phone number and a fresh code in the session
     * and redirects to the verification page whatever became of the text message; any
     * other request renders the phone form and changes nothing.
     */
    method RequestOtp(verb: Verb, phone: Option<string>, sms: Sms) returns (response: Response)
      requires Valid()
      modifies this
      ensures Valid()
      ensures profiles == old(profiles) && user == old(user)
      ensures verb == Post && phone.Some? ==>
        response == Redirect("verify_otp")
        && OtpKey in session && session[OtpKey].Int? && OtpLow <= session[OtpKey].n <= OtpHigh
        && session == old(session)[PhoneKey := Str(phone.value)][OtpKey := session[OtpKey]]
      ensures verb == Post && phone.None? ==> response == Render(RequestOtpPage, Bound([])) && session == old(session)
      ensures verb == NonPost ==> response == Render(RequestOtpPage, Unbound) && session == old(session)
    {
      if verb == Post {
        if phone.Some? {
          var otp :| OtpLow <= otp <= OtpHigh;
          session := session[PhoneKey := Str(phone.value)][OtpKey := Int(otp)];
          // The message is sent, or not, or the client raises and the error is swallowed:
          // the response is the same in every case.
          return Redirect("verify_otp");
        }
        return Render(RequestOtpPage, Bound([]));
      }
      return Render(RequestOtpPage, Unbound);
    }

    /**
     * `verify_otp`. Without a phone number and a code in the session the visitor is sent
     * back to `request_otp`. A POST whose code equals the stored one signs in the user
     * named by the phone number (creating it, with that phone on its profile, when it is
     * new), removes both keys from the session and redirects to the profile set-up; a
     * wrong code re-renders the form with an error and changes nothing. When a different
     * user was signed in, `login` empties the session first, so removing the keys raises:
     * the answer is a server error, which the session middleware does not save, so the
     * visitor is left with an empty session and nobody signed in.
     */
    method VerifyOtp(verb: Verb, submission: OtpSubmission) returns (response: Response)
      requires Valid()
      modifies this
      ensures Valid()
      ensures !Truthy(old(SessionGet(PhoneKey))) || !Truthy(old(SessionGet(OtpKey))) ==>
        response == Redirect("request_otp") && Unchanged()
      ensures Truthy(old(SessionGet(PhoneKey))) && Truthy(old(SessionGet(OtpKey))) ==>
        match (verb, submission)
        case (NonPost, _) => response == Render(VerifyOtpPage, Unbound) && Unchanged()
        case (Post, OtpRejected) => response == Render(VerifyOtpPage, Bound([])) && Unchanged()
        case (Post, OtpAccepted(None)) => response == ServerError && Unchanged()
        case (Post, OtpAccepted(Some(n))) =>
          if Int(n) == old(session[OtpKey]) then
            var phone := old(session[PhoneKey].s);
            profiles == (if phone in old(profiles) then old(profiles)
                         else old(profiles)[phone := NewProfile.(phoneNumber := Some(phone))])
            && if old(user).Some? && old(user).value != phone then
                 response == ServerError && session == map[] && user == None
               else
                 response == Redirect("setup_profile") && session == old(session) - {PhoneKey, OtpKey}
                 && user == Some(phone)
          else
            response == Render(VerifyOtpPage, Bound([InvalidOtpError])) && Unchanged()
    {
      var phone := SessionGet(PhoneKey);
      var sessionOtp := SessionGet(OtpKey);
      if !Truthy(phone) || !Truthy(sessionOtp) {
        return Redirect("request_otp");
      }
      if verb == NonPost {
        return Render(VerifyOtpPage, Unbound);
      }
      match submission
      case OtpRejected =>
        return Render(VerifyOtpPage, Bound([]));
      case OtpAccepted(None) =>
        // `int(form.cleaned_data['otp'])` raises `ValueError`, which nothing catches.
        return ServerError;
      case OtpAccepted(Some(n)) =>
        if Int(n) != sessionOtp.value {
          return Render(VerifyOtpPage, Bound([InvalidOtpError]));
        }
        var username := phone.value.s;
        // `User.objects.get_or_create(username=phone_number)`; only a new user's profile gets the phone.
        if username !in profiles {
          profiles := profiles[username := NewProfile.(phoneNumber := Some(username))];
        }
        // `login(request, user)` flushes the session when someone else is signed in; the
        // `del request.session['phone_number']` that follows then raises `KeyError`. The
        // session middleware saves nothing on a server error, and the flushed session it
        // replaced is gone, so the next request finds an empty session and no user.
        if user.Some? && user.value != username {
          user := None;
          session := map[];
          return ServerError;
        }
        user := Some(username);
        session := session - {PhoneKey, OtpKey};
        return Redirect("setup_profile");
    }

    /** Nothing the views write has changed. */
    twostate predicate Unchanged()
      reads this
    {
      session == old(session) && profiles == old(profiles) && user == old(user)
    }

    /**
     * `setup_profile`. An anonymous visitor is sent to the login page. A user whose profile
     * already has a location goes to the assistant unless `force` is given and non-empty.
     * Otherwise a valid POST saves the location and redirects to `index`, and anything
     * else renders the profile form.
     */
    method SetupProfile(verb: Verb, force: Option<string>, submission: ProfileSubmission) returns (response: Response)
      requires Valid()
      modifies this
      ensures Valid()
      ensures session == old(session) && user == old(user)
      ensures old(user).None? ==> response == RedirectToLogin && profiles == old(profiles)
      ensures old(user).Some? ==>
        var profile := old(profiles[user.value]);
        if profile.location != "" && (force.None? || force.value == "") then
          response == Redirect("ai") && profiles == old(profiles)
        else
          match (verb, submission)
          case (Post, ProfileAccepted(location)) =>
            response == Redirect("index")
            && profiles == old(profiles)[user.value := profile.(location := location)]
          case (Post, ProfileRejected) => response == Render(SetupProfilePage, Bound([])) && profiles == old(profiles)
          case (NonPost, _) => response == Render(SetupProfilePage, Unbound) && profiles == old(profiles)
    {
      if user.None? {
        return RedirectToLogin;
      }
      var profile := profiles[user.value];
      if profile.location != "" && (force.None? || force.value == "") {
        return Redirect("ai");
      }
      if verb == Post {
        match submission
        case ProfileAccepted(location) =>
          profiles := profiles[user.value := profile.(location := location)];
          return Redirect("index");
        case ProfileRejected =>
          return Render(SetupProfilePage, Bound([]));
      }
      return Render(SetupProfilePage, Unbound);
    }
  }

  /**
   * The whole sign-in: asking for a code and then typing the code that was stored signs in
   * the user named by the phone number and leaves neither key behind, whatever became of
   * the text message. Over someone else's sign-in the second step is a server error that
   * leaves nobody signed in.
   */
  method SignIn(site: Site, phone: string, sms: Sms) returns (first: Response, second: Response)
    requires site.Valid() && phone != []
    modifies site
    ensures site.Valid()
    ensures first == Redirect("verify_otp")
    ensures phone in site.profiles
    ensures PhoneKey !in site.session && OtpKey !in site.session
    ensures old(site.user).None? || old(site.user).value == phone ==>
      && second == Redirect("setup_profile") && site.user == Some(phone)
      && site.session == old(site.session) - {PhoneKey, OtpKey}
    ensures old(site.user).Some? && old(site.user).value != phone ==>
      second == ServerError && site.user == None && site.session == map[]
  {
    first := site.RequestOtp(Post, Some(phone), sms);
    var code := site.session[OtpKey].n;
    second := site.VerifyOtp(Post, OtpAccepted(Some(code)));
  }

  /** A code is good for one sign-in: once it has been accepted, verifying again sends the
      visitor back to ask for a new one and changes nothing. */
  method CodeIsSingleUse(site: Site, n: int) returns (first: Response, second: Response)
    requires site.Valid()
    modifies site
    ensures first == Redirect("setup_profile") ==>
      second == Redirect("request_otp")
      && site.user.Some? && old(site.SessionGet(PhoneKey)) == Some(Str(site.user.value))
  {
    first := site.VerifyOtp(Post, OtpAccepted(Some(n)));
    second := site.VerifyOtp(Post, OtpAccepted(Some(n)));
  }
}
