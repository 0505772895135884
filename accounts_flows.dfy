/**
 * Sequences of requests a client can make against the account views, and
 * what the handlers' contracts promise about them together: a code can be
 * replayed, a re-issued code replaces the old one, mail failures leave the
 * written rows in place, and RequestOTP issues codes to patients that do not
 * exist and admin codes to any staff member.
 */
module AccountFlows {
  import opened Wrappers
  import opened Otp
  import opened Accounts
  import StaffIds
  import Dates

  /**
   * The `verified` flag is written but never read: a code that logged a user
   * in once logs the same user in again.
   */
  method ReplayLoginCode(store: Store, email: Option<string>, otp: Option<string>, userType: Option<string>)
    returns (first: int, second: int)
    requires store.Valid()
    modifies store
    ensures store.Valid()
    ensures first == OK ==> second == OK
  {
    var firstToken;
    first, firstToken := store.VerifyLoginOtp(email, otp, userType);
    var secondToken;
    second, secondToken := store.VerifyLoginOtp(email, otp, userType);
  }

  /**
   * Issuing a code for the same e-mail and user type replaces the previous
   * one: afterwards only the new code is accepted.
   */
  method ReissueRejectsOldCode(store: Store, email: string, oldCode: string, draws: seq<int>, mailSent: bool)
    returns (issued: int, verified: int)
    requires store.Valid() && IsDigitDraws(draws, DEFAULT_LENGTH)
    requires email != "" && oldCode != "" && oldCode != GenerateOtp(DEFAULT_LENGTH, draws)
    modifies store
    ensures store.Valid()
    ensures issued == (if mailSent then OK else INTERNAL_SERVER_ERROR)
    ensures verified == BAD_REQUEST
  {
    issued := store.RequestOtp(Some(email), Some("patient"), draws, mailSent);
    var token;
    verified, token := store.VerifyLoginOtp(Some(email), Some(oldCode), Some("patient"));
  }

  /**
   * Sign-up with the code InitiateEmailVerification issued creates the
   * patient, whether or not the mail with the code was delivered.
   */
  method SignupWithIssuedCode(store: Store, email: string, name: string, mobile: string, password: string,
                              draws: seq<int>, mailSent: bool)
    returns (issued: int, signedUp: int, token: Option<Claims>)
    requires store.Valid() && IsDigitDraws(draws, DEFAULT_LENGTH)
    requires email != "" && name != "" && mobile != "" && password != ""
    requires !store.HasPatientEmail(email)
    modifies store
    ensures store.Valid()
    ensures issued == (if mailSent then OK else INTERNAL_SERVER_ERROR)
    ensures signedUp == CREATED
    ensures token.Some? && token.value.email == email && store.IsAccount(token.value.userId, "patient", email)
    ensures store.PatientPasswordMatches(email, password)
  {
    issued := store.InitiateEmailVerification(Some(email), draws, mailSent);
    assert GenerateOtp(DEFAULT_LENGTH, draws) != "";
    ghost var id := store.nextPatientId;
    signedUp, token := store.PatientSignup(Some(email), Some(GenerateOtp(DEFAULT_LENGTH, draws)), Some(name),
                                           Some(mobile), Some(password));
    assert store.patients[id].email == email;
  }

  /**
   * RequestOTP for user type "patient" stores a code for an e-mail no patient
   * has; the code matches, and only the later user lookup fails.
   */
  method CodeForUnknownPatient(store: Store, email: string, draws: seq<int>)
    returns (issued: int, verified: int)
    requires store.Valid() && IsDigitDraws(draws, DEFAULT_LENGTH)
    requires email != "" && !store.HasPatientEmail(email)
    modifies store
    ensures store.Valid()
    ensures issued == OK && verified == NOT_FOUND
  {
    issued := store.RequestOtp(Some(email), Some("patient"), draws, true);
    assert GenerateOtp(DEFAULT_LENGTH, draws) != "";
    var token;
    verified, token := store.VerifyLoginOtp(Some(email), Some(GenerateOtp(DEFAULT_LENGTH, draws)), Some("patient"));
  }

  /**
   * RequestOTP checks only the user type "staff". Asking it for an "admin"
   * code and then verifying that code logs any staff member in as "admin"
   * without the password and without the `is_admin` flag that UserLogin
   * demands.
   */
  method AdminTokenWithoutPassword(store: Store, email: string, draws: seq<int>)
    returns (issued: int, verified: int, token: Option<Claims>)
    requires store.Valid() && IsDigitDraws(draws, DEFAULT_LENGTH)
    requires email != "" && store.HasStaffEmail(email)
    modifies store
    ensures store.Valid()
    ensures issued == OK && verified == OK
    ensures token.Some? && token.value.userType == "admin" && token.value.email == email
    ensures token.value.userId.StaffRef? && store.IsAccount(token.value.userId, "admin", email)
  {
    issued := store.RequestOtp(Some(email), Some("admin"), draws, true);
    assert GenerateOtp(DEFAULT_LENGTH, draws) != "";
    verified, token := store.VerifyLoginOtp(Some(email), Some(GenerateOtp(DEFAULT_LENGTH, draws)), Some("admin"));
  }

  /**
   * A staff member created while mail fails (500) is still stored with its
   * password, and can log in with the two factors.
   */
  method StaffLoginAfterFailedWelcomeMail(store: Store, name: string, email: string, mobile: string, roleId: string,
                                          joiningDate: string, password: string, uuids: seq<string>,
                                          draws: seq<int>, loginDraws: seq<int>)
    returns (created: int, passwordStep: int, codeStep: int)
    requires store.Valid() && IsDigitDraws(draws, DEFAULT_LENGTH) && IsDigitDraws(loginDraws, DEFAULT_LENGTH)
    requires forall i :: 0 <= i < |uuids| ==> StaffIds.IsUuidHex(uuids[i])
    requires StaffIds.SomeUnused(uuids, store.staff.Keys)
    requires name != "" && email != "" && mobile != "" && roleId != "" && joiningDate != "" && password != ""
    requires !store.HasStaffEmail(email) && roleId in store.roles
    modifies store
    ensures store.Valid()
    ensures created == INTERNAL_SERVER_ERROR && passwordStep == OK && codeStep == OK
  {
    var staffId;
    created, staffId := store.CreateAdminStaff(Some(name), Some(email), Some(mobile), Some(roleId), Some(joiningDate),
                                       Some(password), uuids, draws, false);
    ghost var id := StaffIds.FirstUnusedStaffId(uuids, old(store.staff).Keys);
    assert store.staff[id].email == email && CheckPassword(password, store.staff[id].password);
    assert store.HasStaffEmail(email);
    var userId;
    passwordStep, userId := store.UserLogin(Some(email), Some(password), Some("staff"), loginDraws, true);
    assert GenerateOtp(DEFAULT_LENGTH, loginDraws) != "";
    var token;
    codeStep, token := store.VerifyLoginOtp(Some(email), Some(GenerateOtp(DEFAULT_LENGTH, loginDraws)), Some("staff"));
  }

  /**
   * A profile update with an invalid date answers 400, yet the new name has
   * already been saved and stays.
   */
  method BadDateKeepsNewName(store: Store, id: nat, name: string, dob: string)
    returns (status: int)
    requires store.Valid() && id in store.patients
    requires name != "" && dob != "" && Dates.ParseIsoDate(dob).None?
    modifies store
    ensures store.Valid()
    ensures status == BAD_REQUEST
    ensures id in store.patients && store.patients[id].name == name
    ensures store.details == old(store.details)
  {
    var created;
    status, created := store.UpdatePatientProfile(PatientCaller(id), Some(name), None, Some(dob), None, None, None);
  }
}
