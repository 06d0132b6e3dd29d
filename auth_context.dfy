/**
 * The mock authentication context: two test credential pairs keyed by user type, a guest
 * credential checked first, the signed-in user, and the 'user_data' record kept in persistent
 * storage (a plain field here; whether a storage write succeeds is a parameter).
 */
module AuthContext {
  import opened Wrappers
  import Text

  datatype Role = Admin | Citizen

  /** A signed-in user; `userType` may be null in the source's type. */
  datatype AuthUser = AuthUser(id: string, email: string, userType: Option<Role>, name: string)

  /** An email/OTP pair and the user it signs in. */
  datatype Credential = Credential(email: string, otp: string, userData: AuthUser)

  const AdminCredential: Credential :=
    Credential("admin@city.gov", "123456", AuthUser("admin_001", "admin@city.gov", Some(Admin), "City Administrator"))

  const CitizenCredential: Credential :=
    Credential("citizen@email.com", "654321", AuthUser("citizen_001", "citizen@email.com", Some(Citizen), "John Citizen"))

  const GuestCredential: Credential :=
    Credential("guest@local.com", "000000", AuthUser("guest_001", "guest@local.com", Some(Citizen), "Guest User"))

  /** The test credential for a requested user type: only "admin" and "citizen" have one. */
  function TestCredential(userType: Option<string>): (c: Option<Credential>)
    ensures c.Some? <==> userType == Some("admin") || userType == Some("citizen")
    ensures userType == Some("admin") ==> c == Some(AdminCredential)
    ensures userType == Some("citizen") ==> c == Some(CitizenCredential)
  {
    if userType == Some("admin") then Some(AdminCredential)
    else if userType == Some("citizen") then Some(CitizenCredential)
    else None
  }

  /** The email matches ignoring case, the OTP matches exactly. */
  predicate Matches(c: Credential, email: string, otp: string) {
    Text.Lower(email) == Text.Lower(c.email) && otp == c.otp
  }

  /**
   * The user a login signs in, if any: the guest, whatever type was requested, when the guest
   * credential matches; otherwise the requested type's test user when its credential matches.
   */
  function Authenticate(email: string, otp: string, userType: Option<string>): (r: Option<AuthUser>)
    ensures Matches(GuestCredential, email, otp) ==> r == Some(GuestCredential.userData)
    ensures !Matches(GuestCredential, email, otp) ==>
              (r.Some? <==> TestCredential(userType).Some? && Matches(TestCredential(userType).value, email, otp))
    ensures !Matches(GuestCredential, email, otp) && r.Some? ==> r == Some(TestCredential(userType).value.userData)
  {
    if Matches(GuestCredential, email, otp) then Some(GuestCredential.userData)
    else
      var credential := TestCredential(userType);
      if credential.Some? && Matches(credential.value, email, otp) then Some(credential.value.userData)
      else None
  }

  /** The context's `userType`, `user?.userType || null`, applied to the provider's `user`. */
  function DerivedUserType(user: Option<AuthUser>): (t: Option<Role>)
    ensures user.None? ==> t.None?
    ensures user.Some? ==> t == user.value.userType
  {
    if user.Some? then user.value.userType else None
  }

  class AuthProvider {
    /** The signed-in user (`user` state). */
    var user: Option<AuthUser>
    /** The record stored under 'user_data' in persistent storage. */
    var stored: Option<AuthUser>

    /** A fresh provider has no user; whatever was stored before is still stored. */
    constructor (stored: Option<AuthUser>)
      ensures user == None && this.stored == stored
    {
      user := None;
      this.stored := stored;
    }

    /**
     * `login`: on matching credentials the record is written, then the user is set. A storage
     * write that throws is caught: the login fails and neither field changes.
     */
    method Login(email: string, otp: string, userType: Option<string>, storageWritable: bool)
      returns (success: bool)
      modifies this
      ensures success <==> Authenticate(email, otp, userType).Some? && storageWritable
      ensures success ==> user == Authenticate(email, otp, userType) && stored == user
      ensures !success ==> user == old(user) && stored == old(stored)
    {
      if Text.Lower(email) == Text.Lower(GuestCredential.email) && otp == GuestCredential.otp {
        if !storageWritable {
          return false;
        }
        stored := Some(GuestCredential.userData);
        user := Some(GuestCredential.userData);
        return true;
      }
      var credential := TestCredential(userType);
      if credential.None? {
        return false;
      }
      var emailMatch := Text.Lower(email) == Text.Lower(credential.value.email);
      var otpMatch := otp == credential.value.otp;
      if emailMatch && otpMatch {
        if !storageWritable {
          return false;
        }
        stored := Some(credential.value.userData);
        user := Some(credential.value.userData);
        return true;
      }
      return false;
    }

    /** `logout`: the record is removed, then the user cleared; a removal that throws changes nothing. */
    method Logout(storageWritable: bool)
      modifies this
      ensures storageWritable ==> user == None && stored == None
      ensures !storageWritable ==> user == old(user) && stored == old(stored)
    {
      if storageWritable {
        stored := None;
        user := None;
      }
    }
  }

  /** The three credential emails are already lower case, so matching one means lowering to it. */
  lemma CredentialEmailsAreLowercase()
    ensures Text.Lower(AdminCredential.email) == AdminCredential.email
    ensures Text.Lower(CitizenCredential.email) == CitizenCredential.email
    ensures Text.Lower(GuestCredential.email) == GuestCredential.email
  {
    assert Text.HasNoUpper(AdminCredential.email);
    assert Text.HasNoUpper(CitizenCredential.email);
    assert Text.HasNoUpper(GuestCredential.email);
    Text.LowerFixesLowercase(AdminCredential.email);
    Text.LowerFixesLowercase(CitizenCredential.email);
    Text.LowerFixesLowercase(GuestCredential.email);
  }

  /** The three credential emails are pairwise distinct. */
  lemma CredentialEmailsDiffer()
    ensures AdminCredential.email != CitizenCredential.email
    ensures AdminCredential.email != GuestCredential.email
    ensures CitizenCredential.email != GuestCredential.email
  {
    assert |AdminCredential.email| == 14;
    assert |CitizenCredential.email| == 17;
    assert |GuestCredential.email| == 15;
  }

  /** An email matches at most one of the three credential emails. */
  lemma EmailIdentifiesCredential(email: string)
    ensures Text.Lower(email) == Text.Lower(AdminCredential.email) ==>
              Text.Lower(email) != Text.Lower(CitizenCredential.email)
              && Text.Lower(email) != Text.Lower(GuestCredential.email)
    ensures Text.Lower(email) == Text.Lower(CitizenCredential.email) ==>
              Text.Lower(email) != Text.Lower(GuestCredential.email)
  {
    CredentialEmailsAreLowercase();
    CredentialEmailsDiffer();
  }

  /** The guest credential signs in the guest citizen for every requested user type, including none. */
  lemma GuestForAnyUserType(email: string, userType: Option<string>)
    requires Text.Lower(email) == GuestCredential.email
    ensures Authenticate(email, "000000", userType) == Some(GuestCredential.userData)
    ensures DerivedUserType(Authenticate(email, "000000", userType)) == Some(Citizen)
  {
    CredentialEmailsAreLowercase();
  }

  /** Emails are compared ignoring case: two emails that lower alike are interchangeable. */
  lemma EmailCaseIgnored(e1: string, e2: string, otp: string, userType: Option<string>)
    requires Text.Lower(e1) == Text.Lower(e2)
    ensures Authenticate(e1, otp, userType) == Authenticate(e2, otp, userType)
  {
  }

  /** The OTP is compared exactly: an OTP that is none of the three credential OTPs signs nobody in. */
  lemma OtpExact(email: string, otp: string, userType: Option<string>)
    requires otp != "000000" && otp != "123456" && otp != "654321"
    ensures Authenticate(email, otp, userType) == None
  {
  }

  /** A type other than "admin" and "citizen" (null included) admits only the guest. */
  lemma UnknownUserTypeRejected(email: string, otp: string, userType: Option<string>)
    requires userType != Some("admin") && userType != Some("citizen")
    requires !Matches(GuestCredential, email, otp)
    ensures Authenticate(email, otp, userType) == None
  {
  }

  /** Every successful login yields one of the three known users, and the submitted OTP is that user's. */
  lemma SuccessIsKnownUser(email: string, otp: string, userType: Option<string>)
    requires Authenticate(email, otp, userType).Some?
    ensures var u := Authenticate(email, otp, userType).value;
      || (u == GuestCredential.userData && otp == GuestCredential.otp)
      || (u == AdminCredential.userData && otp == AdminCredential.otp && userType == Some("admin"))
      || (u == CitizenCredential.userData && otp == CitizenCredential.otp && userType == Some("citizen"))
  {
  }

  /**
   * Credentials are looked up by the requested type: with the admin email no OTP signs in as
   * citizen, and with the citizen email no OTP signs in as admin.
   */
  lemma CrossRoleRejected(email: string, otp: string)
    ensures Text.Lower(email) == AdminCredential.email ==> Authenticate(email, otp, Some("citizen")) == None
    ensures Text.Lower(email) == CitizenCredential.email ==> Authenticate(email, otp, Some("admin")) == None
  {
    CredentialEmailsAreLowercase();
    EmailIdentifiesCredential(email);
  }

  /** The test pairs succeed for their own type whatever the case of the email. */
  lemma TestCredentialsSucceed(email: string)
    ensures Text.Lower(email) == AdminCredential.email ==>
              Authenticate(email, "123456", Some("admin")) == Some(AdminCredential.userData)
    ensures Text.Lower(email) == CitizenCredential.email ==>
              Authenticate(email, "654321", Some("citizen")) == Some(CitizenCredential.userData)
  {
    CredentialEmailsAreLowercase();
    CredentialEmailsDiffer();
  }
}
