/**
 * The citizen and admin login screens: input guards, the disabled state of their submit buttons,
 * the call into the auth context with trimmed input, and navigation to the tabs on success.
 * `router.replace` is recorded in `routes`; alerts are the `Attempt` a handler ends with.
 */
module LoginScreens {
  import opened Wrappers
  import Text
  import AuthContext
  import AuthComponents

  const TabsRoute: string := "/(tabs)"

  /** The OTP length the citizen screen insists on. */
  const OtpLength: int := 6

  /** How a submit ends: rejected by the guard, refused by the auth context, or signed in. */
  datatype Attempt = Rejected | LoginFailed | SignedIn

  /** Citizen guard: a non-blank phone/email and an OTP of at least six characters. */
  predicate CitizenGuardPasses(phoneEmail: string, otp: string) {
    Text.Trim(phoneEmail) != "" && |otp| >= OtpLength
  }

  /** Citizen Continue button: disabled on an empty (untrimmed) phone/email, a short OTP, or while loading. */
  predicate CitizenContinueDisabled(phoneEmail: string, otp: string, loading: bool) {
    phoneEmail == "" || |otp| < OtpLength || loading
  }

  /** Admin guard: a non-blank email and a non-blank OTP, of any length. */
  predicate AdminGuardPasses(email: string, otp: string) {
    Text.Trim(email) != "" && Text.Trim(otp) != ""
  }

  /** Admin Login button: disabled on an empty (untrimmed) email or OTP, or while loading. */
  predicate AdminLoginDisabled(email: string, otp: string, loading: bool) {
    email == "" || otp == "" || loading
  }

  /** The outcome of a submit: the guard, then a login with the trimmed email and OTP. */
  function SubmitAttempt(guardPasses: bool, email: string, otp: string, userType: string, storageWritable: bool)
    : (a: Attempt)
    ensures a == Rejected <==> !guardPasses
    ensures a == SignedIn <==>
              guardPasses && storageWritable
              && AuthContext.Authenticate(Text.Trim(email), Text.Trim(otp), Some(userType)).Some?
  {
    if !guardPasses then Rejected
    else if AuthContext.Authenticate(Text.Trim(email), Text.Trim(otp), Some(userType)).Some? && storageWritable
    then SignedIn
    else LoginFailed
  }

  class CitizenLoginScreen {
    const auth: AuthContext.AuthProvider
    var phoneEmail: string
    var otp: string
    /** `isLoading`. */
    var loading: bool
    /** The routes passed to `router.replace`, in order. */
    var routes: seq<string>

    constructor (auth: AuthContext.AuthProvider)
      ensures this.auth == auth && phoneEmail == "" && otp == "" && !loading && routes == []
    {
      this.auth := auth;
      phoneEmail := "";
      otp := "";
      loading := false;
      routes := [];
    }

    /** Typing into the OTP field, which holds at most six characters. */
    method SetOtp(typed: string)
      modifies this`otp
      ensures otp == AuthComponents.OtpFieldText(typed)
    {
      otp := AuthComponents.OtpFieldText(typed);
    }

    method SetPhoneEmail(typed: string)
      modifies this`phoneEmail
      ensures phoneEmail == typed
    {
      phoneEmail := typed;
    }

    /**
     * `handleContinue`: after the guard, a citizen login with the trimmed input; navigation only
     * on success; loading is off again afterwards.
     */
    method HandleContinue(storageWritable: bool) returns (attempt: Attempt)
      modifies this`loading, this`routes, auth
      ensures attempt == SubmitAttempt(CitizenGuardPasses(phoneEmail, otp), phoneEmail, otp, "citizen", storageWritable)
      ensures routes == old(routes) + (if attempt == SignedIn then [TabsRoute] else [])
      ensures loading == (if attempt == Rejected then old(loading) else false)
      ensures attempt == SignedIn ==>
                auth.user == AuthContext.Authenticate(Text.Trim(phoneEmail), Text.Trim(otp), Some("citizen"))
                && auth.stored == auth.user
      ensures attempt != SignedIn ==> auth.user == old(auth.user) && auth.stored == old(auth.stored)
    {
      var trimmedEmail, trimmedOtp := Text.Trim(phoneEmail), Text.Trim(otp);
      if trimmedEmail == "" || |otp| < OtpLength {
        return Rejected;
      }
      loading := true;
      var success := auth.Login(trimmedEmail, trimmedOtp, Some("citizen"), storageWritable);
      ghost var signedIn := AuthContext.Authenticate(trimmedEmail, trimmedOtp, Some("citizen"));
      assert success ==> auth.user == signedIn;
      if success {
        routes := routes + [TabsRoute];
        attempt := SignedIn;
      } else {
        attempt := LoginFailed;
      }
      loading := false;
    }

    /** `handleContinueAsGuest`: a guest login, then the tabs whatever the login answered. */
    method HandleContinueAsGuest(storageWritable: bool) returns (success: bool)
      modifies this`loading, this`routes, auth
      ensures success == storageWritable
      ensures routes == old(routes) + [TabsRoute]
      ensures !loading
      ensures success ==> auth.user == Some(AuthContext.GuestCredential.userData) && auth.stored == auth.user
      ensures !success ==> auth.user == old(auth.user) && auth.stored == old(auth.stored)
    {
      loading := true;
      AuthContext.GuestForAnyUserType("guest@local.com", Some("citizen"));
      success := auth.Login("guest@local.com", "000000", Some("citizen"), storageWritable);
      routes := routes + [TabsRoute];
      loading := false;
    }

    /** `handleGoogleSignIn` on this screen navigates straight to the tabs. */
    method HandleGoogleSignIn()
      modifies this`routes
      ensures routes == old(routes) + [TabsRoute]
    {
      routes := routes + [TabsRoute];
    }
  }

  class AdminLoginScreen {
    const auth: AuthContext.AuthProvider
    var email: string
    var otp: string
    /** `isLoading`. */
    var loading: bool
    /** The routes passed to `router.replace`, in order. */
    var routes: seq<string>

    constructor (auth: AuthContext.AuthProvider)
      ensures this.auth == auth && email == "" && otp == "" && !loading && routes == []
    {
      this.auth := auth;
      email := "";
      otp := "";
      loading := false;
      routes := [];
    }

    /** Typing into the OTP field, which holds at most six characters. */
    method SetOtp(typed: string)
      modifies this`otp
      ensures otp == AuthComponents.OtpFieldText(typed)
    {
      otp := AuthComponents.OtpFieldText(typed);
    }

    method SetEmail(typed: string)
      modifies this`email
      ensures email == typed
    {
      email := typed;
    }

    /**
     * `handleLogin`: after the guard, an admin login with the trimmed input; navigation only on
     * success; loading is off again afterwards.
     */
    method HandleLogin(storageWritable: bool) returns (attempt: Attempt)
      modifies this`loading, this`routes, auth
      ensures attempt == SubmitAttempt(AdminGuardPasses(email, otp), email, otp, "admin", storageWritable)
      ensures routes == old(routes) + (if attempt == SignedIn then [TabsRoute] else [])
      ensures loading == (if attempt == Rejected then old(loading) else false)
      ensures attempt == SignedIn ==>
                auth.user == AuthContext.Authenticate(Text.Trim(email), Text.Trim(otp), Some("admin"))
                && auth.stored == auth.user
      ensures attempt != SignedIn ==> auth.user == old(auth.user) && auth.stored == old(auth.stored)
    {
      var trimmedEmail, trimmedOtp := Text.Trim(email), Text.Trim(otp);
      if trimmedEmail == "" || trimmedOtp == "" {
        return Rejected;
      }
      loading := true;
      var success := auth.Login(trimmedEmail, trimmedOtp, Some("admin"), storageWritable);
      ghost var signedIn := AuthContext.Authenticate(trimmedEmail, trimmedOtp, Some("admin"));
      assert success ==> auth.user == signedIn;
      if success {
        routes := routes + [TabsRoute];
        attempt := SignedIn;
      } else {
        attempt := LoginFailed;
      }
      loading := false;
    }

    /** `handleGoogleSignIn` on this screen only logs: nothing changes and nothing navigates. */
    method HandleGoogleSignIn()
      ensures routes == old(routes) && loading == old(loading)
    {
    }
  }

  /** Whatever passes the citizen guard finds the Continue button enabled when nothing is loading. */
  lemma CitizenGuardImpliesButtonEnabled(phoneEmail: string, otp: string)
    requires CitizenGuardPasses(phoneEmail, otp)
    ensures !CitizenContinueDisabled(phoneEmail, otp, false)
  {
  }

  /** The converse fails: a blank phone/email enables the button but is rejected by the guard. */
  lemma CitizenBlankEmailPassesButtonNotGuard()
    ensures !CitizenContinueDisabled(" ", "654321", false)
    ensures !CitizenGuardPasses(" ", "654321")
  {
    Text.TrimEmptyIff(" ");
  }

  /** A press on Continue reaches the handler only with a non-empty phone/email, six OTP characters and no login under way. */
  lemma CitizenPressNeedsFullOtp(phoneEmail: string, otp: string, loading: bool)
    requires AuthComponents.PrimaryButtonFires(Some(CitizenContinueDisabled(phoneEmail, otp, loading)))
    ensures phoneEmail != "" && |otp| >= OtpLength && !loading
  {
  }

  /** Whatever passes the admin guard finds the Login button enabled when nothing is loading. */
  lemma AdminGuardImpliesButtonEnabled(email: string, otp: string)
    requires AdminGuardPasses(email, otp)
    ensures !AdminLoginDisabled(email, otp, false)
  {
  }

  /** A press on Login reaches the handler only with a non-empty email and OTP and no login under way. */
  lemma AdminPressNeedsEmailAndOtp(email: string, otp: string, loading: bool)
    requires AuthComponents.PrimaryButtonFires(Some(AdminLoginDisabled(email, otp, loading)))
    ensures email != "" && otp != "" && !loading
  {
  }

  /** The admin guard has no OTP length check: a one-digit OTP passes it (and then fails the login). */
  lemma AdminGuardAcceptsShortOtp(email: string)
    requires Text.Trim(email) != ""
    ensures AdminGuardPasses(email, "1")
    ensures SubmitAttempt(AdminGuardPasses(email, "1"), email, "1", "admin", true) == LoginFailed
  {
    assert Text.IsTrimmed("1");
    Text.TrimOfTrimmed("1");
    AuthContext.OtpExact(Text.Trim(email), "1", Some("admin"));
  }

  /** The citizen test pair, with the email in any case and padded with blanks, signs in the test citizen. */
  lemma CitizenScreenSignsInTestCitizen(phoneEmail: string)
    requires Text.Lower(Text.Trim(phoneEmail)) == AuthContext.CitizenCredential.email
    ensures SubmitAttempt(CitizenGuardPasses(phoneEmail, "654321"), phoneEmail, "654321", "citizen", true) == SignedIn
    ensures AuthContext.Authenticate(Text.Trim(phoneEmail), Text.Trim("654321"), Some("citizen"))
            == Some(AuthContext.CitizenCredential.userData)
  {
    assert Text.IsTrimmed("654321");
    Text.TrimOfTrimmed("654321");
    assert |AuthContext.CitizenCredential.email| == 17;
    AuthContext.TestCredentialsSucceed(Text.Trim(phoneEmail));
  }

  /** The guest pair typed into the admin screen signs in the guest, whose user type is citizen. */
  lemma AdminScreenAdmitsGuestAsCitizen()
    ensures SubmitAttempt(AdminGuardPasses("guest@local.com", "000000"), "guest@local.com", "000000", "admin", true)
            == SignedIn
    ensures AuthContext.DerivedUserType(AuthContext.Authenticate("guest@local.com", "000000", Some("admin")))
            == Some(AuthContext.Role.Citizen)
  {
    assert Text.IsTrimmed("guest@local.com") && Text.IsTrimmed("000000");
    Text.TrimOfTrimmed("guest@local.com");
    Text.TrimOfTrimmed("000000");
    AuthContext.CredentialEmailsAreLowercase();
    AuthContext.GuestForAnyUserType("guest@local.com", Some("admin"));
  }
}
