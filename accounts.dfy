/**
 * The account views of accounts/views.py over an in-memory store: patient
 * sign-up with an e-mailed code, two-factor login for patients, staff and
 * admins, one-time code issue and verification, password change, staff
 * creation and patient profile completion and update.
 *
 * The Patient, PatientDetails, Staff, Role and EmailOTP tables are maps held
 * by one `Store` object, and every handler is a method that answers with an
 * HTTP status code and writes the maps in the order the view writes the
 * database. Nothing is rolled back when a later step fails, as in the view.
 * Mail delivery, random digits and uuids are inputs of the methods.
 */
module Accounts {
  import opened Wrappers
  import opened Otp
  import opened Dates
  import opened StaffIds
  import opened Conversions

  // The status codes the views answer with.
  const OK := 200
  const CREATED := 201
  const BAD_REQUEST := 400
  const UNAUTHORIZED := 401
  const FORBIDDEN := 403
  const NOT_FOUND := 404
  const INTERNAL_SERVER_ERROR := 500

  /** Python truthiness of a request field (`not x` rejects both a missing value and ""). */
  predicate Supplied(v: Option<string>) {
    v.Some? && v.value != ""
  }

  /** `request.data.get("user_type", "patient")` */
  function UserTypeOf(v: Option<string>): string {
    v.GetOr("patient")
  }

  /**
   * A stored password hash. Hashing is abstract: a hash remembers the one
   * password it was made from, and checking compares against that password.
   */
  datatype PasswordHash = Hashed(secret: string)

  /** `make_password` / `set_password` */
  function MakePassword(raw: string): PasswordHash {
    Hashed(raw)
  }

  /** `check_password` */
  predicate CheckPassword(raw: string, hash: PasswordHash) {
    hash.secret == raw
  }

  datatype Patient = Patient(name: string, email: string, mobile: string, password: PasswordHash)

  /** A PatientDetails row; a field is None while it has never been written. */
  datatype Details = Details(dob: Option<Date>, gender: Option<bool>, bloodGroup: Option<string>, address: Option<string>)

  const NO_DETAILS := Details(None, None, None, None)

  /** `Role.role_permissions`, a JSON object of flags. */
  datatype Role = Role(permissions: map<string, bool>)

  /** `role.role_permissions.get('is_admin', False)` */
  predicate IsAdminRole(r: Role) {
    "is_admin" in r.permissions && r.permissions["is_admin"]
  }

  datatype StaffMember = StaffMember(name: string, email: string, mobile: string, roleId: string,
                                     createdAt: string, password: PasswordHash)

  /** EmailOTP rows are found by e-mail and user type. */
  datatype OtpKey = OtpKey(email: string, userType: string)

  datatype OtpRecord = OtpRecord(code: string, verified: bool)

  datatype UserId = PatientRef(patientId: nat) | StaffRef(staffId: string)

  /** The claims the views put into the issued tokens; the token strings themselves are opaque. */
  datatype Claims = Claims(userId: UserId, userType: string, email: string)

  /** `request.user` on the authenticated views: a patient, a staff member, or another kind of user. */
  datatype Caller = PatientCaller(patientId: nat) | StaffCaller(staffId: string) | OtherUser

  /** `patient_gender` as a JSON body can carry it: text or a boolean. */
  datatype GenderInput = GenderText(text: string) | GenderFlag(flag: bool)

  /** Python truthiness of the gender field. */
  predicate GenderSupplied(g: Option<GenderInput>) {
    g.Some? && match g.value
               case GenderText(t) => t != ""
               case GenderFlag(b) => b
  }

  /** Text is converted with the profile rule; a boolean is kept. */
  function GenderValue(g: GenderInput): (male: bool)
    ensures g.GenderText? ==> (male <==> g.text == "1" || SpellsTrue(g.text))
    ensures g.GenderFlag? ==> male == g.flag
  {
    match g
    case GenderText(t) => GenderFromProfileText(t)
    case GenderFlag(b) => b
  }

  /** The details fields a profile update writes (None: not in `patient_details_data`). */
  function RequestedDetails(dob: Option<string>, gender: Option<string>, bloodGroup: Option<string>,
                            address: Option<string>): (r: Details)
    // `patient_details_data` stays empty exactly when no field was given (a
    // date that does not parse is refused before this point).
    ensures r == NO_DETAILS <==> (!Supplied(dob) || ParseIsoDate(dob.value).None?) && gender.None?
                                 && !Supplied(bloodGroup) && !Supplied(address)
  {
    Details(if Supplied(dob) then ParseIsoDate(dob.value) else None,
            if gender.Some? then Some(GenderFromUpdateText(gender.value)) else None,
            if Supplied(bloodGroup) then bloodGroup else None,
            if Supplied(address) then address else None)
  }

  /** `update_or_create(defaults=upd)`: the supplied fields replace those of `base`, the others stay. */
  function Overlay(base: Details, upd: Details): (r: Details)
    // A field `upd` supplies comes from `upd`; every other field keeps its value in `base`.
    ensures upd.dob.Some? ==> r.dob == upd.dob
    ensures upd.dob.None? ==> r.dob == base.dob
    ensures upd.gender.Some? ==> r.gender == upd.gender
    ensures upd.gender.None? ==> r.gender == base.gender
    ensures upd.bloodGroup.Some? ==> r.bloodGroup == upd.bloodGroup
    ensures upd.bloodGroup.None? ==> r.bloodGroup == base.bloodGroup
    ensures upd.address.Some? ==> r.address == upd.address
    ensures upd.address.None? ==> r.address == base.address
    ensures upd == NO_DETAILS ==> r == base
  {
    Details(if upd.dob.Some? then upd.dob else base.dob,
            if upd.gender.Some? then upd.gender else base.gender,
            if upd.bloodGroup.Some? then upd.bloodGroup else base.bloodGroup,
            if upd.address.Some? then upd.address else base.address)
  }

  /** The name and mobile a profile update leaves on the patient row. */
  function WithContact(p: Patient, name: Option<string>, mobile: Option<string>): Patient {
    p.(name := if Supplied(name) then name.value else p.name,
       mobile := if Supplied(mobile) then mobile.value else p.mobile)
  }

  class Store {
    var patients: map<nat, Patient>
    var details: map<nat, Details>
    var staff: map<string, StaffMember>
    var roles: map<string, Role>
    var otps: map<OtpKey, OtpRecord>
    /** The id the next created patient receives. */
    var nextPatientId: nat

    predicate HasPatientEmail(e: string)
      reads this`patients
    {
      e in PatientEmails(patients)
    }

    predicate HasStaffEmail(e: string)
      reads this`staff
    {
      e in StaffEmails(staff)
    }

    /**
     * The invariant every handler keeps: e-mails identify at most one patient
     * and one staff member, details belong to patients, every staff role
     * exists, and a code for user type "staff" was only ever issued to the
     * e-mail of an existing staff member.
     */
    ghost predicate Valid()
      reads this
    {
      && (forall p :: p in patients ==> p < nextPatientId)
      && (forall p, q :: p in patients && q in patients && patients[p].email == patients[q].email ==> p == q)
      && (forall s, t :: s in staff && t in staff && staff[s].email == staff[t].email ==> s == t)
      && details.Keys <= patients.Keys
      && (forall s :: s in staff ==> staff[s].roleId in roles)
      && (forall k :: k in otps && k.userType == "staff" ==> HasStaffEmail(k.email))
    }

    /** The patient with e-mail `e` exists and `pw` is its password. */
    predicate PatientPasswordMatches(e: string, pw: string)
      reads this`patients
    {
      exists p :: p in patients && patients[p].email == e && CheckPassword(pw, patients[p].password)
    }

    /** The staff member with e-mail `e` exists and `pw` is its password. */
    predicate StaffPasswordMatches(e: string, pw: string)
      reads this`staff
    {
      exists s :: s in staff && staff[s].email == e && CheckPassword(pw, staff[s].password)
    }

    /** The staff member with e-mail `e` has a role with the is_admin flag set. */
    predicate StaffIsAdmin(e: string)
      reads this`staff, this`roles
    {
      exists s :: s in staff && staff[s].email == e && staff[s].roleId in roles && IsAdminRole(roles[staff[s].roleId])
    }

    /** `u` is the account with e-mail `e` in the table user type `t` selects. */
    predicate IsAccount(u: UserId, t: string, e: string)
      reads this`patients, this`staff
    {
      if t == "patient" then u.PatientRef? && u.patientId in patients && patients[u.patientId].email == e
      else u.StaffRef? && u.staffId in staff && staff[u.staffId].email == e
    }

    /** The user type selects the patient table or the staff table, and it has `e`. */
    predicate HasAccount(t: string, e: string)
      reads this`patients, this`staff
    {
      if t == "patient" then HasPatientEmail(e) else HasStaffEmail(e)
    }

    /** Some patient other than `id` already has mobile `m`. */
    predicate MobileTakenByOther(id: nat, m: string)
      reads this`patients
    {
      exists q :: q in patients && q != id && patients[q].mobile == m
    }

    /** The authenticated user exists. */
    predicate CallerExists(c: Caller)
      reads this`patients, this`staff
    {
      match c
      case PatientCaller(id) => id in patients
      case StaffCaller(id) => id in staff
      case OtherUser => true
    }

    /** `pw` is the caller's password (another kind of user has none). */
    predicate CallerPasswordIs(c: Caller, pw: string)
      reads this`patients, this`staff
      requires CallerExists(c)
    {
      match c
      case PatientCaller(id) => CheckPassword(pw, patients[id].password)
      case StaffCaller(id) => CheckPassword(pw, staff[id].password)
      case OtherUser => false
    }

    /** The EmailOTP rows for e-mail `e`, whatever their user type. */
    function OtpKeysOf(e: string): set<OtpKey>
      reads this`otps
    {
      set k | k in otps && k.email == e
    }

    /** Only the EmailOTP table may have changed. */
    twostate predicate OnlyOtpsChanged()
      reads this
    {
      patients == old(patients) && details == old(details) && staff == old(staff) && roles == old(roles)
      && nextPatientId == old(nextPatientId)
    }

    /** Only the patient and details tables may have changed. */
    twostate predicate OnlyPatientTablesChanged()
      reads this
    {
      staff == old(staff) && roles == old(roles) && otps == old(otps) && nextPatientId == old(nextPatientId)
    }

    /** An empty database with the given roles. */
    constructor (roles: map<string, Role>)
      ensures Valid()
      ensures patients == map[] && details == map[] && staff == map[] && otps == map[] && this.roles == roles
    {
      this.patients := map[];
      this.details := map[];
      this.staff := map[];
      this.roles := roles;
      this.otps := map[];
      this.nextPatientId := 1;
    }

    /**
     * InitiateEmailVerification: a new patient's e-mail receives a code.
     * The code is stored before mail is sent and stays stored when sending fails.
     */
    method InitiateEmailVerification(email: Option<string>, draws: seq<int>, mailSent: bool) returns (status: int)
      requires Valid() && IsDigitDraws(draws, DEFAULT_LENGTH)
      modifies this
      ensures Valid()
      ensures if !Supplied(email) || old(HasPatientEmail(email.value)) then
                status == BAD_REQUEST && unchanged(this)
              else
                && OnlyOtpsChanged()
                && otps == old(otps)[OtpKey(email.value, "patient") := OtpRecord(GenerateOtp(DEFAULT_LENGTH, draws), false)]
                && status == (if mailSent then OK else INTERNAL_SERVER_ERROR)
    {
      if !Supplied(email) {
        return BAD_REQUEST;
      }
      var e := email.value;
      if HasPatientEmail(e) {
        return BAD_REQUEST;
      }
      var code := GenerateOtp(DEFAULT_LENGTH, draws);
      otps := otps[OtpKey(e, "patient") := OtpRecord(code, false)];
      status := if mailSent then OK else INTERNAL_SERVER_ERROR;
    }

    /**
     * The outcome of a patient sign-up (PatientSignup and
     * VerifyEmailAndCreatePatient). The checks run in order: all five fields,
     * a free e-mail, a requested code, a matching code. Each failure answers
     * 400 and writes nothing. Success adds one patient under the next id and
     * marks that one code verified.
     */
    twostate predicate SignupOutcome(email: Option<string>, otp: Option<string>, name: Option<string>,
                                     mobile: Option<string>, password: Option<string>,
                                     status: int, new token: Option<Claims>)
      reads this
    {
      if !(Supplied(email) && Supplied(otp) && Supplied(name) && Supplied(mobile) && Supplied(password))
         || old(HasPatientEmail(email.value))
         || OtpKey(email.value, "patient") !in old(otps)
         || old(otps)[OtpKey(email.value, "patient")].code != otp.value
      then
        status == BAD_REQUEST && token == None && unchanged(this)
      else
        var key, id := OtpKey(email.value, "patient"), old(nextPatientId);
        && id !in old(patients)
        && patients == old(patients)[id := Patient(name.value, email.value, mobile.value, MakePassword(password.value))]
        && nextPatientId == id + 1
        && otps == old(otps)[key := OtpRecord(old(otps)[key].code, true)]
        && details == old(details) && staff == old(staff) && roles == old(roles)
        && status == CREATED
        && token == Some(Claims(PatientRef(id), "patient", email.value))
    }

    /** PatientSignup: create a patient once the e-mailed code matches. */
    method PatientSignup(email: Option<string>, otp: Option<string>, name: Option<string>,
                         mobile: Option<string>, password: Option<string>)
      returns (status: int, token: Option<Claims>)
      requires Valid()
      modifies this
      ensures Valid()
      ensures SignupOutcome(email, otp, name, mobile, password, status, token)
    {
      if !(Supplied(email) && Supplied(otp) && Supplied(name) && Supplied(mobile) && Supplied(password)) {
        return BAD_REQUEST, None;
      }
      var e := email.value;
      if HasPatientEmail(e) {
        return BAD_REQUEST, None;
      }
      var key := OtpKey(e, "patient");
      if key !in otps {
        return BAD_REQUEST, None;
      }
      var record := otps[key];
      if record.code != otp.value {
        return BAD_REQUEST, None;
      }
      var id := nextPatientId;
      patients := patients[id := Patient(name.value, e, mobile.value, Hashed(""))];
      nextPatientId := nextPatientId + 1;
      patients := patients[id := patients[id].(password := MakePassword(password.value))];
      otps := otps[key := record.(verified := true)];
      status, token := CREATED, Some(Claims(PatientRef(id), "patient", e));
    }

    /**
     * VerifyEmailAndCreatePatient: the same checks and writes as
     * PatientSignup; only its messages and its hashing call differ.
     */
    method VerifyEmailAndCreatePatient(email: Option<string>, otp: Option<string>, name: Option<string>,
                                       mobile: Option<string>, password: Option<string>)
      returns (status: int, token: Option<Claims>)
      requires Valid()
      modifies this
      ensures Valid()
      ensures SignupOutcome(email, otp, name, mobile, password, status, token)
    {
      status, token := PatientSignup(email, otp, name, mobile, password);
    }

    /**
     * CompletePatientProfile: a patient adds the details row. All four fields
     * must be truthy (a JSON `false` gender counts as missing), the date must
     * parse, and a second details row for the patient violates the one-to-one
     * relation, which the view does not catch.
     */
    method CompletePatientProfile(caller: Caller, dob: Option<string>, bloodGroup: Option<string>,
                                  gender: Option<GenderInput>, address: Option<string>)
      returns (status: int)
      requires Valid() && CallerExists(caller)
      modifies this
      ensures Valid()
      ensures if !caller.PatientCaller? then
                status == FORBIDDEN && unchanged(this)
              else if !(Supplied(dob) && Supplied(bloodGroup) && GenderSupplied(gender) && Supplied(address))
                      || ParseIsoDate(dob.value).None? then
                status == BAD_REQUEST && unchanged(this)
              else if caller.patientId in old(details) then
                status == INTERNAL_SERVER_ERROR && unchanged(this)
              else
                && OnlyPatientTablesChanged() && patients == old(patients)
                && details == old(details)[caller.patientId :=
                     Details(ParseIsoDate(dob.value), Some(GenderValue(gender.value)), bloodGroup, address)]
                && status == OK
    {
      if !caller.PatientCaller? {
        return FORBIDDEN;
      }
      var id := caller.patientId;
      if !(Supplied(dob) && Supplied(bloodGroup) && GenderSupplied(gender) && Supplied(address)) {
        return BAD_REQUEST;
      }
      var male := GenderValue(gender.value);
      var parsed := ParseIsoDate(dob.value);
      if parsed.None? {
        return BAD_REQUEST;
      }
      if id in details {
        return INTERNAL_SERVER_ERROR;
      }
      details := details[id := Details(Some(parsed.value), Some(male), bloodGroup, address)];
      status := OK;
    }

    /**
     * The outcome of the password step of login (UserLogin and
     * VerifyPasswordAndSendOTP). Checks in order: both fields, the account in
     * the table the user type selects (404), the password (401), and for
     * user type "admin" the is_admin flag of the staff role (403). Every
     * failure writes nothing. Otherwise the code for (e-mail, user type) is
     * replaced by a fresh unverified one, and stays when mail fails (500).
     */
    twostate predicate PasswordStepOutcome(email: Option<string>, password: Option<string>, userType: Option<string>,
                                           draws: seq<int>, mailSent: bool, status: int, new userId: Option<UserId>)
      reads this
      requires IsDigitDraws(draws, DEFAULT_LENGTH)
    {
      var t := UserTypeOf(userType);
      if !Supplied(email) || !Supplied(password) then
        status == BAD_REQUEST && userId == None && unchanged(this)
      else if !old(HasAccount(t, email.value)) then
        status == NOT_FOUND && userId == None && unchanged(this)
      else if (t == "patient" && !old(PatientPasswordMatches(email.value, password.value)))
              || (t != "patient" && !old(StaffPasswordMatches(email.value, password.value))) then
        status == UNAUTHORIZED && userId == None && unchanged(this)
      else if t == "admin" && !old(StaffIsAdmin(email.value)) then
        status == FORBIDDEN && userId == None && unchanged(this)
      else
        && OnlyOtpsChanged()
        && otps == old(otps)[OtpKey(email.value, t) := OtpRecord(GenerateOtp(DEFAULT_LENGTH, draws), false)]
        && status == (if mailSent then OK else INTERNAL_SERVER_ERROR)
        && (mailSent ==> userId.Some? && old(IsAccount(userId.value, t, email.value)))
        && (!mailSent ==> userId == None)
    }

    /** UserLogin: check the password, then e-mail a code for the second factor. */
    method UserLogin(email: Option<string>, password: Option<string>, userType: Option<string>,
                     draws: seq<int>, mailSent: bool)
      returns (status: int, userId: Option<UserId>)
      requires Valid() && IsDigitDraws(draws, DEFAULT_LENGTH)
      modifies this
      ensures Valid()
      ensures PasswordStepOutcome(email, password, userType, draws, mailSent, status, userId)
    {
      var t := UserTypeOf(userType);
      if !Supplied(email) || !Supplied(password) {
        return BAD_REQUEST, None;
      }
      var e, pw := email.value, password.value;
      var user: UserId;
      if t == "patient" {
        if !HasPatientEmail(e) {
          return NOT_FOUND, None;
        }
        var p :| p in patients && patients[p].email == e;
        if !CheckPassword(pw, patients[p].password) {
          return UNAUTHORIZED, None;
        }
        user := PatientRef(p);
      } else {
        if !HasStaffEmail(e) {
          return NOT_FOUND, None;
        }
        var s :| s in staff && staff[s].email == e;
        if !CheckPassword(pw, staff[s].password) {
          return UNAUTHORIZED, None;
        }
        user := StaffRef(s);
        if t == "admin" && !IsAdminRole(roles[staff[s].roleId]) {
          return FORBIDDEN, None;
        }
      }
      otps := otps[OtpKey(e, t) := OtpRecord(GenerateOtp(DEFAULT_LENGTH, draws), false)];
      if mailSent {
        status, userId := OK, Some(user);
      } else {
        status, userId := INTERNAL_SERVER_ERROR, None;
      }
    }

    /** VerifyPasswordAndSendOTP: the same checks and writes as UserLogin. */
    method VerifyPasswordAndSendOtp(email: Option<string>, password: Option<string>, userType: Option<string>,
                                    draws: seq<int>, mailSent: bool)
      returns (status: int, userId: Option<UserId>)
      requires Valid() && IsDigitDraws(draws, DEFAULT_LENGTH)
      modifies this
      ensures Valid()
      ensures PasswordStepOutcome(email, password, userType, draws, mailSent, status, userId)
    {
      status, userId := UserLogin(email, password, userType, draws, mailSent);
    }

    /**
     * The outcome of the code step of login (VerifyLoginOTP and
     * VerifyOTPAndLogin). The code is looked up and compared before the user
     * is: a missing record or a different code answers 400, a missing user
     * 404, each without writes. The `verified` flag is never read, so a code
     * that succeeded once succeeds again. Success marks that record verified.
     */
    twostate predicate OtpLoginOutcome(email: Option<string>, otp: Option<string>, userType: Option<string>,
                                       status: int, new token: Option<Claims>)
      reads this
    {
      var t := UserTypeOf(userType);
      if !Supplied(email) || !Supplied(otp)
         || OtpKey(email.value, t) !in old(otps)
         || old(otps)[OtpKey(email.value, t)].code != otp.value then
        status == BAD_REQUEST && token == None && unchanged(this)
      else if !old(HasAccount(t, email.value)) then
        status == NOT_FOUND && token == None && unchanged(this)
      else
        var key := OtpKey(email.value, t);
        && OnlyOtpsChanged()
        && otps == old(otps)[key := OtpRecord(old(otps)[key].code, true)]
        && status == OK
        && token.Some? && token.value.userType == t && token.value.email == email.value
        && old(IsAccount(token.value.userId, t, email.value))
    }

    /** VerifyLoginOTP: check the e-mailed code and issue the tokens. */
    method VerifyLoginOtp(email: Option<string>, otp: Option<string>, userType: Option<string>)
      returns (status: int, token: Option<Claims>)
      requires Valid()
      modifies this
      ensures Valid()
      ensures OtpLoginOutcome(email, otp, userType, status, token)
    {
      var t := UserTypeOf(userType);
      if !Supplied(email) || !Supplied(otp) {
        return BAD_REQUEST, None;
      }
      var e := email.value;
      var key := OtpKey(e, t);
      if key !in otps {
        return BAD_REQUEST, None;
      }
      var record := otps[key];
      if record.code != otp.value {
        return BAD_REQUEST, None;
      }
      var user: UserId;
      if t == "patient" {
        if !HasPatientEmail(e) {
          return NOT_FOUND, None;
        }
        var p :| p in patients && patients[p].email == e;
        user := PatientRef(p);
      } else {
        if !HasStaffEmail(e) {
          return NOT_FOUND, None;
        }
        var s :| s in staff && staff[s].email == e;
        user := StaffRef(s);
      }
      otps := otps[key := record.(verified := true)];
      status, token := OK, Some(Claims(user, t, e));
    }

    /** VerifyOTPAndLogin: the same checks and writes as VerifyLoginOTP. */
    method VerifyOtpAndLogin(email: Option<string>, otp: Option<string>, userType: Option<string>)
      returns (status: int, token: Option<Claims>)
      requires Valid()
      modifies this
      ensures Valid()
      ensures OtpLoginOutcome(email, otp, userType, status, token)
    {
      status, token := VerifyLoginOtp(email, otp, userType);
    }

    /**
     * RequestOTP: e-mail a code for any user type. Only the exact user type
     * "staff" is checked against the accounts; a patient, an admin or any
     * other type gets a code stored whether or not the account exists.
     */
    method RequestOtp(email: Option<string>, userType: Option<string>, draws: seq<int>, mailSent: bool)
      returns (status: int)
      requires Valid() && IsDigitDraws(draws, DEFAULT_LENGTH)
      modifies this
      ensures Valid()
      ensures if !Supplied(email) then
                status == BAD_REQUEST && unchanged(this)
              else if UserTypeOf(userType) == "staff" && !old(HasStaffEmail(email.value)) then
                status == NOT_FOUND && unchanged(this)
              else
                && OnlyOtpsChanged()
                && otps == old(otps)[OtpKey(email.value, UserTypeOf(userType)) := OtpRecord(GenerateOtp(DEFAULT_LENGTH, draws), false)]
                && status == (if mailSent then OK else INTERNAL_SERVER_ERROR)
    {
      var t := UserTypeOf(userType);
      if !Supplied(email) {
        return BAD_REQUEST;
      }
      var e := email.value;
      if t == "staff" && !HasStaffEmail(e) {
        return NOT_FOUND;
      }
      otps := otps[OtpKey(e, t) := OtpRecord(GenerateOtp(DEFAULT_LENGTH, draws), false)];
      status := if mailSent then OK else INTERNAL_SERVER_ERROR;
    }

    /**
     * VerifyOTP: `EmailOTP.objects.get(email=...)` ignores the user type, so
     * no record answers 400 and several records raise an uncaught error (500);
     * with exactly one record, a matching code marks it verified.
     */
    method VerifyOtp(email: Option<string>, otp: Option<string>) returns (status: int)
      requires Valid()
      modifies this
      ensures Valid()
      ensures if !Supplied(email) || !Supplied(otp) || old(OtpKeysOf(email.value)) == {} then
                status == BAD_REQUEST && unchanged(this)
              else if |old(OtpKeysOf(email.value))| > 1 then
                status == INTERNAL_SERVER_ERROR && unchanged(this)
              else
                var k :| k in old(OtpKeysOf(email.value));
                if old(otps)[k].code == otp.value then
                  status == OK && OnlyOtpsChanged() && otps == old(otps)[k := OtpRecord(old(otps)[k].code, true)]
                else
                  status == BAD_REQUEST && unchanged(this)
    {
      if !Supplied(email) || !Supplied(otp) {
        return BAD_REQUEST;
      }
      var keys := OtpKeysOf(email.value);
      if keys == {} {
        return BAD_REQUEST;
      }
      if |keys| > 1 {
        return INTERNAL_SERVER_ERROR;
      }
      var k :| k in keys;
      SingletonSet(keys, k);
      var record := otps[k];
      if record.code == otp.value {
        otps := otps[k := record.(verified := true)];
        status := OK;
      } else {
        status := BAD_REQUEST;
      }
    }

    /**
     * The `while Staff.objects.filter(staff_id=staff_id).exists()` loop: draw
     * ids until one is unused. Reads the store and changes nothing.
     */
    method NextStaffId(uuids: seq<string>) returns (id: string)
      requires forall i :: 0 <= i < |uuids| ==> IsUuidHex(uuids[i])
      requires SomeUnused(uuids, staff.Keys)
      ensures id == FirstUnusedStaffId(uuids, staff.Keys)
      ensures id !in staff && IsStaffIdShape(id)
    {
      var drawn := 0;
      id := StaffIdOf(uuids[drawn]);
      while id in staff
        invariant 0 <= drawn < |uuids| && id == StaffIdOf(uuids[drawn])
        invariant SomeUnused(uuids[drawn..], staff.Keys)
        invariant FirstUnusedStaffId(uuids[drawn..], staff.Keys) == FirstUnusedStaffId(uuids, staff.Keys)
        decreases |uuids| - drawn
      {
        SomeUnusedTail(uuids[drawn..], staff.Keys);
        assert uuids[drawn..][1..] == uuids[drawn + 1..];
        drawn := drawn + 1;
        id := StaffIdOf(uuids[drawn]);
      }
      FirstUnusedStaffIdIsFresh(uuids, staff.Keys);
    }

    /**
     * CreateAdminStaffView: all six fields, a free staff e-mail and an
     * existing role are checked before anything is written. The staff row and
     * its unverified "staff" code are then written and stay when mail fails.
     */
    method CreateAdminStaff(name: Option<string>, email: Option<string>, mobile: Option<string>,
                            roleId: Option<string>, joiningDate: Option<string>, password: Option<string>,
                            uuids: seq<string>, draws: seq<int>, mailSent: bool)
      returns (status: int, staffId: Option<string>)
      requires Valid() && IsDigitDraws(draws, DEFAULT_LENGTH)
      requires forall i :: 0 <= i < |uuids| ==> IsUuidHex(uuids[i])
      requires SomeUnused(uuids, staff.Keys)
      modifies this
      ensures Valid()
      ensures if !(Supplied(name) && Supplied(email) && Supplied(mobile) && Supplied(roleId)
                   && Supplied(joiningDate) && Supplied(password))
                 || old(HasStaffEmail(email.value))
                 || roleId.value !in old(roles) then
                status == BAD_REQUEST && staffId == None && unchanged(this)
              else
                var id := FirstUnusedStaffId(uuids, old(staff).Keys);
                && id !in old(staff)
                && staff == old(staff)[id := StaffMember(name.value, email.value, mobile.value, roleId.value,
                                                        joiningDate.value, MakePassword(password.value))]
                && OtpKey(email.value, "staff") !in old(otps)
                && otps == old(otps)[OtpKey(email.value, "staff") := OtpRecord(GenerateOtp(DEFAULT_LENGTH, draws), false)]
                && patients == old(patients) && details == old(details) && roles == old(roles)
                && nextPatientId == old(nextPatientId)
                && status == (if mailSent then CREATED else INTERNAL_SERVER_ERROR)
                && staffId == (if mailSent then Some(id) else None)
    {
      if !(Supplied(name) && Supplied(email) && Supplied(mobile) && Supplied(roleId)
           && Supplied(joiningDate) && Supplied(password)) {
        return BAD_REQUEST, None;
      }
      var e := email.value;
      if HasStaffEmail(e) {
        return BAD_REQUEST, None;
      }
      if roleId.value !in roles {
        return BAD_REQUEST, None;
      }
      var id := NextStaffId(uuids);
      var member := StaffMember(name.value, e, mobile.value, roleId.value, joiningDate.value, MakePassword(password.value));
      StaffEmailsAdded(staff, id, member);
      staff := staff[id := member];
      // EmailOTP.objects.create: the invariant rules out an existing (e-mail, "staff") row.
      assert OtpKey(e, "staff") !in otps;
      otps := otps[OtpKey(e, "staff") := OtpRecord(GenerateOtp(DEFAULT_LENGTH, draws), false)];
      if mailSent {
        status, staffId := CREATED, Some(id);
      } else {
        status, staffId := INTERNAL_SERVER_ERROR, None;
      }
    }

    /**
     * ChangePasswordView: both passwords must be given, the caller must be a
     * patient or a staff member, and the current password must match; only
     * then is the caller's hash replaced.
     */
    method ChangePassword(caller: Caller, current: Option<string>, newPassword: Option<string>)
      returns (status: int)
      requires Valid() && CallerExists(caller)
      modifies this
      ensures Valid()
      ensures if !Supplied(current) || !Supplied(newPassword) || !old(CallerPasswordIs(caller, current.value)) then
                status == BAD_REQUEST && unchanged(this)
              else
                && status == OK
                && details == old(details) && roles == old(roles) && otps == old(otps)
                && nextPatientId == old(nextPatientId)
                && match caller
                   case PatientCaller(id) =>
                     patients == old(patients)[id := old(patients)[id].(password := MakePassword(newPassword.value))]
                     && staff == old(staff)
                   case StaffCaller(id) =>
                     staff == old(staff)[id := old(staff)[id].(password := MakePassword(newPassword.value))]
                     && patients == old(patients)
                   case OtherUser => false
    {
      if !Supplied(current) || !Supplied(newPassword) {
        return BAD_REQUEST;
      }
      match caller {
        case PatientCaller(id) =>
          if !CheckPassword(current.value, patients[id].password) {
            return BAD_REQUEST;
          }
          PatientEmailsKept(patients, id, patients[id].(password := MakePassword(newPassword.value)));
          patients := patients[id := patients[id].(password := MakePassword(newPassword.value))];
        case StaffCaller(id) =>
          if !CheckPassword(current.value, staff[id].password) {
            return BAD_REQUEST;
          }
          StaffEmailsKept(staff, id, staff[id].(password := MakePassword(newPassword.value)));
          staff := staff[id := staff[id].(password := MakePassword(newPassword.value))];
        case OtherUser =>
          return BAD_REQUEST;
      }
      status := OK;
    }

    /**
     * UpdatePatientProfileView. A mobile already used by another patient is
     * refused before anything is saved. Name and mobile are saved next, before
     * the date is parsed, so a bad date answers 400 with them already written.
     * The details row then receives only the supplied fields, and `created`
     * says whether the row was new.
     */
    method UpdatePatientProfile(caller: Caller, name: Option<string>, mobile: Option<string>, dob: Option<string>,
                                bloodGroup: Option<string>, gender: Option<string>, address: Option<string>)
      returns (status: int, created: bool)
      requires Valid() && CallerExists(caller)
      modifies this
      ensures Valid()
      ensures if !caller.PatientCaller? then
                status == FORBIDDEN && !created && unchanged(this)
              else if Supplied(mobile) && old(MobileTakenByOther(caller.patientId, mobile.value)) then
                status == BAD_REQUEST && !created && unchanged(this)
              else
                var id, upd := caller.patientId, RequestedDetails(dob, gender, bloodGroup, address);
                && OnlyPatientTablesChanged()
                && patients == old(patients)[id := WithContact(old(patients)[id], name, mobile)]
                && if Supplied(dob) && ParseIsoDate(dob.value).None? then
                     status == BAD_REQUEST && !created && details == old(details)
                   else
                     && status == OK
                     && created == (upd != NO_DETAILS && id !in old(details))
                     && details == if upd == NO_DETAILS then old(details)
                                   else old(details)[id := Overlay(if id in old(details) then old(details)[id] else NO_DETAILS, upd)]
    {
      if !caller.PatientCaller? {
        return FORBIDDEN, false;
      }
      var id := caller.patientId;
      var saved := SaveContact(id, name, mobile);
      if !saved {
        return BAD_REQUEST, false;
      }

      var data := NO_DETAILS;
      if Supplied(dob) {
        var parsed := ParseIsoDate(dob.value);
        if parsed.None? {
          return BAD_REQUEST, false;
        }
        data := data.(dob := parsed);
      }
      if gender.Some? {
        data := data.(gender := Some(GenderFromUpdateText(gender.value)));
      }
      if Supplied(bloodGroup) {
        data := data.(bloodGroup := bloodGroup);
      }
      if Supplied(address) {
        data := data.(address := address);
      }
      assert data == RequestedDetails(dob, gender, bloodGroup, address);
      if data != NO_DETAILS {
        created := UpdateOrCreateDetails(id, data);
      } else {
        created := false;
      }
      status := OK;
    }

    /**
     * The patient row part of UpdatePatientProfileView: refuse a mobile that
     * another patient has, otherwise save the supplied name and mobile.
     */
    method SaveContact(id: nat, name: Option<string>, mobile: Option<string>) returns (saved: bool)
      requires Valid() && id in patients
      modifies this`patients
      ensures Valid()
      ensures saved == !(Supplied(mobile) && old(MobileTakenByOther(id, mobile.value)))
      ensures patients == if saved then old(patients)[id := WithContact(old(patients)[id], name, mobile)]
                          else old(patients)
    {
      var patient := patients[id];
      if Supplied(name) {
        patient := patient.(name := name.value);
      }
      if Supplied(mobile) {
        if exists q :: q in patients && q != id && patients[q].mobile == mobile.value {
          return false;
        }
        patient := patient.(mobile := mobile.value);
      }
      PatientEmailsKept(patients, id, patient);
      patients := patients[id := patient];
      saved := true;
    }

    /** `PatientDetails.objects.update_or_create(patient=..., defaults=data)` */
    method UpdateOrCreateDetails(id: nat, data: Details) returns (created: bool)
      requires Valid() && id in patients
      modifies this`details
      ensures Valid()
      ensures created == (id !in old(details))
      ensures details == old(details)[id := Overlay(if id in old(details) then old(details)[id] else NO_DETAILS, data)]
    {
      created := id !in details;
      var base := if id in details then details[id] else NO_DETAILS;
      details := details[id := Overlay(base, data)];
    }

    /**
     * VerifyEmailExists: whether an account with the e-mail exists in the
     * table the user type selects. Reads the store and changes nothing.
     */
    method VerifyEmailExists(email: Option<string>, userType: Option<string>) returns (status: int)
      ensures !Supplied(email) ==> status == BAD_REQUEST
      ensures Supplied(email) ==> (status == OK <==> HasAccount(UserTypeOf(userType), email.value))
      ensures Supplied(email) ==> (status == NOT_FOUND <==> !HasAccount(UserTypeOf(userType), email.value))
    {
      if !Supplied(email) {
        return BAD_REQUEST;
      }
      var found := if UserTypeOf(userType) == "patient" then HasPatientEmail(email.value)
                    else HasStaffEmail(email.value);
      status := if found then OK else NOT_FOUND;
    }
  }

  /** A set of one element is that element's singleton. */
  lemma SingletonSet<T>(s: set<T>, x: T)
    requires x in s && |s| == 1
    ensures s == {x}
  {
    assert |s - {x}| == 0;
  }

  /** The e-mails of the patient table. */
  function PatientEmails(patients: map<nat, Patient>): set<string> {
    set p | p in patients :: patients[p].email
  }

  /** The e-mails of the staff table. */
  function StaffEmails(staff: map<string, StaffMember>): set<string> {
    set s | s in staff :: staff[s].email
  }

  /** Rewriting a staff row without touching its e-mail keeps the table's e-mails. */
  lemma StaffEmailsKept(staff: map<string, StaffMember>, id: string, m: StaffMember)
    requires id in staff && m.email == staff[id].email
    ensures StaffEmails(staff[id := m]) == StaffEmails(staff)
  {
    var after := staff[id := m];
    forall e | e in StaffEmails(staff) ensures e in StaffEmails(after) {
      var s :| s in staff && staff[s].email == e;
      assert after[s].email == e;
    }
  }

  /** Adding a staff row adds its e-mail to the table's e-mails. */
  lemma StaffEmailsAdded(staff: map<string, StaffMember>, id: string, m: StaffMember)
    requires id !in staff
    ensures StaffEmails(staff[id := m]) == StaffEmails(staff) + {m.email}
  {
    var after := staff[id := m];
    forall e | e in StaffEmails(staff) ensures e in StaffEmails(after) {
      var s :| s in staff && staff[s].email == e;
      assert after[s].email == e;
    }
    assert after[id].email == m.email;
    forall e | e in StaffEmails(after) ensures e in StaffEmails(staff) + {m.email} {
      var s :| s in after && after[s].email == e;
      if s != id {
        assert staff[s].email == e;
      }
    }
  }

  /** Rewriting a patient row without touching its e-mail keeps the table's e-mails. */
  lemma PatientEmailsKept(patients: map<nat, Patient>, id: nat, p: Patient)
    requires id in patients && p.email == patients[id].email
    ensures PatientEmails(patients[id := p]) == PatientEmails(patients)
  {
    var after := patients[id := p];
    forall e | e in PatientEmails(patients) ensures e in PatientEmails(after) {
      var q :| q in patients && patients[q].email == e;
      assert after[q].email == e;
    }
  }
}
