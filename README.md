# Hospital accounts: sign-up, two-factor login and one-time codes

This project models the account views of the hospital management backend
(`Backend/hospital_management_system/accounts/views.py`). It covers these
views:

- patient sign-up with an e-mailed one-time code (OTP);
- two-factor login for patients, staff and admins: first the password, then an e-mailed code;
- code issue and verification;
- password change;
- creation of staff accounts;
- completion and partial update of a patient's profile.

The Patient, PatientDetails, Staff, Role and EmailOTP tables are maps held by
one `Accounts.Store` object. Each view is a method of that object. It
answers with the view's HTTP status code and rewrites the maps in the order
the view writes the database.

Every view keeps the invariant `Store.Valid`:

- a patient e-mail identifies at most one patient, and a staff e-mail at most one staff member;
- every details row belongs to a patient;
- every staff member's role exists;
- a code for user type `staff` is only held for the e-mail of an existing staff member.

The invariant describes the stores these views can reach from an empty
database. Staff rows deleted elsewhere (the foreign keys cascade) could leave
a stale staff code behind. `EmailOTP.objects.create` in CreateAdminStaffView
would then collide with it, and that case is outside this model.

The pure pieces are one module each:

- `Otp`: `generate_otp`;
- `Dates`: `strptime(dob, '%Y-%m-%d')`, exactly as CPython's `_strptime` matches it;
- `StaffIds`: the `STAFF…` id and its regeneration loop;
- `Conversions`: the two gender rules and the photo-URL choice.

`AccountFlows` chains several requests together. It shows the behaviours of
the views that only become visible across calls:

- a code can be replayed, because `verified` is written but never read;
- a re-issued code replaces the old one;
- a failed mail (500) rolls nothing back;
- `RequestOTP` stores codes for patients that do not exist;
- `RequestOTP` with user type `admin`, followed by the code step, gives any staff member an admin login without the password or the `is_admin` check.

Mail delivery (`mailSent`), the digits `random.choices` draws and the
`uuid4` hex strings are inputs of the methods. A password hash is abstract:
`Hashed(p)` is checked by comparing with `p`.

## Model

| member | source | states |
|---|---|---|
| Otp.GenerateOtp | Backend/hospital_management_system/accounts/views.py:17-19 | the code has exactly `length` characters, all decimal digits, the i-th being the digit drawn i-th |
| Otp.OtpDeterminesDraws | Backend/hospital_management_system/accounts/views.py:17-19 | two draws give the same code iff they are the same draws |
| Otp.OtpReachesEveryDigitString | Backend/hospital_management_system/accounts/views.py:17-19 | every digit string, leading zeros included, is a code some draw produces |
| Dates.ParseIsoDate | Backend/hospital_management_system/accounts/views.py:140-144 | a parsed date is a real calendar date in years 1..9999, from a string of 8 to 10 characters with a dash after the year |
| Dates.ParsedShape | Backend/hospital_management_system/accounts/views.py:141 | whatever parses is four digits, a dash, a `%m` token, a dash and a `%d` token |
| Dates.ParseFormatRoundTrip | Backend/hospital_management_system/accounts/views.py:975 | parsing the ISO form of any valid date gives that date back |
| Dates.ParseExamples | Backend/hospital_management_system/accounts/views.py:975 | unpadded months and days and a space-padded day are accepted; 29 February of a non-leap year, year 0, month 13, a three-digit day and a two-digit year are refused |
| StaffIds.StaffIdShape | Backend/hospital_management_system/accounts/views.py:749 | a generated id is `STAFF` followed by eight upper-case hex digits |
| StaffIds.StaffIdDeterminedByPrefix | Backend/hospital_management_system/accounts/views.py:749 | two uuids give the same id iff their first eight hex digits agree |
| StaffIds.FirstUnusedStaffIdIsFresh | Backend/hospital_management_system/accounts/views.py:749-751 | the id the loop settles on is unused, has the id shape, and comes from the first draw whose id was free |
| StaffIds.StaffIdOf | Backend/hospital_management_system/accounts/views.py:749 | the id is 13 characters: `STAFF`, then the first eight hex digits of the uuid upper-cased, position by position; its partners StaffIdShape and StaffIdDeterminedByPrefix give the shape and when two ids coincide |
| StaffIds.FirstUnusedStaffId | Backend/hospital_management_system/accounts/views.py:749-751 | the id the regeneration loop settles on is not among the used ids and has the `STAFF` + eight upper-case hex shape |
| Conversions.GenderFromProfileText | Backend/hospital_management_system/accounts/views.py:136-137 | true iff the text is `1` or a case variant of `true` |
| Conversions.GenderFromUpdateText | Backend/hospital_management_system/accounts/views.py:982-984 | true iff the text is `1`, a case variant of `true` or a case variant of `male` |
| Conversions.UpdateRuleExtendsProfileRule | Backend/hospital_management_system/accounts/views.py:983-984 | the update rule accepts everything the profile rule does, and additionally exactly the spellings of `male` |
| Conversions.ChoosePhotoUrl | Backend/hospital_management_system/accounts/views.py:869-874 | a URL kept as stored starts with `http`; any other is passed on unchanged to be made absolute |
| Conversions.PhotoUrlChoice | Backend/hospital_management_system/accounts/views.py:869-874 | a URL is rebuilt from the request iff it starts with neither `http://` nor `https://` |
| Accounts.RequestedDetails | Backend/hospital_management_system/accounts/views.py:969-991 | the details dictionary is empty iff no date, gender, blood group or address was supplied |
| Accounts.GenderValue | Backend/hospital_management_system/accounts/views.py:135-137 | a text gender is true iff it is `1` or a case variant of `true`; a boolean gender is kept as given |
| Accounts.Overlay | Backend/hospital_management_system/accounts/views.py:996-999 | every field the defaults supply replaces the row's value, every other field keeps it, and empty defaults leave the row unchanged |
| Accounts.Store.InitiateEmailVerification | Backend/hospital_management_system/accounts/views.py:21-55 | a missing e-mail or one a patient already has answers 400 and writes nothing; otherwise only the (e-mail, patient) code is replaced by a fresh unverified one, kept when mail fails with 500 |
| Accounts.Store.PatientSignup | Backend/hospital_management_system/accounts/views.py:373-426 | an empty field, a taken e-mail, a missing code or a wrong code answers 400 and writes nothing; success adds exactly one patient under a new id, marks only that code verified, answers 201 with the patient's claims |
| Accounts.Store.VerifyEmailAndCreatePatient | Backend/hospital_management_system/accounts/views.py:57-111 | the same outcome as PatientSignup |
| Accounts.Store.CompletePatientProfile | Backend/hospital_management_system/accounts/views.py:113-158 | a non-patient gets 403, a missing field or an unparsable date 400, an existing details row 500, each without writes; otherwise only the caller's details row is added |
| Accounts.Store.UserLogin | Backend/hospital_management_system/accounts/views.py:160-225 | 400 for a missing field, 404 for no account in the table the user type selects, 401 for a wrong password, 403 for `admin` without the `is_admin` flag, none of them writing; otherwise only the (e-mail, user type) code is replaced, kept when mail fails with 500 |
| Accounts.Store.VerifyPasswordAndSendOtp | Backend/hospital_management_system/accounts/views.py:1097-1161 | the same outcome as UserLogin |
| Accounts.Store.VerifyLoginOtp | Backend/hospital_management_system/accounts/views.py:227-281 | the code is checked before the user: a missing or different code answers 400, then a missing account 404, without writes; success marks only that code verified and returns claims for the account with that e-mail; `verified` is not consulted |
| Accounts.Store.VerifyOtpAndLogin | Backend/hospital_management_system/accounts/views.py:1163-1217 | the same outcome as VerifyLoginOtp |
| Accounts.Store.RequestOtp | Backend/hospital_management_system/accounts/views.py:284-320 | 404 only for user type exactly `staff` with no such staff e-mail; every other type gets its code stored whether or not the account exists, kept when mail fails |
| Accounts.Store.VerifyOtp | Backend/hospital_management_system/accounts/views.py:630-653 | lookup by e-mail alone: no code answers 400, several codes 500, one code with a match is marked verified and nothing else changes |
| Accounts.Store.NextStaffId | Backend/hospital_management_system/accounts/views.py:749-751 | the loop returns the first drawn id not in the staff table, with the id shape |
| Accounts.Store.CreateAdminStaff | Backend/hospital_management_system/accounts/views.py:719-789 | a missing field, a taken staff e-mail or an unknown role answers 400 before any write; otherwise one staff row under a fresh id and a new unverified staff code are added, both kept when mail fails with 500 |
| Accounts.Store.ChangePassword | Backend/hospital_management_system/accounts/views.py:791-822 | a missing password, a wrong current password or a caller that is neither patient nor staff answers 400 without writes; otherwise only the caller's hash is replaced |
| Accounts.Store.UpdatePatientProfile | Backend/hospital_management_system/accounts/views.py:934-1007 | non-patient 403 and a mobile another patient has 400, both without writes; name and mobile are saved before the date is parsed, so an unparsable date answers 400 with them kept; otherwise only the supplied details fields are upserted and `created` says whether the row was new |
| Accounts.Store.SaveContact | Backend/hospital_management_system/accounts/views.py:956-967 | a mobile used by another patient is refused with no write; otherwise the supplied name and mobile are saved |
| Accounts.Store.UpdateOrCreateDetails | Backend/hospital_management_system/accounts/views.py:993-999 | the given fields replace those of the row, which is created when missing, and `created` says so |
| Accounts.Store.VerifyEmailExists | Backend/hospital_management_system/accounts/views.py:1075-1095 | 400 without an e-mail; otherwise 200 iff the table the user type selects has the e-mail, and 404 iff not |
| AccountFlows.ReplayLoginCode | Backend/hospital_management_system/accounts/views.py:238-266 | a code that logged in once logs in again |
| AccountFlows.ReissueRejectsOldCode | Backend/hospital_management_system/accounts/views.py:302-306 | after a re-issue, a different earlier code is refused with 400 |
| AccountFlows.SignupWithIssuedCode | Backend/hospital_management_system/accounts/views.py:37-52 | sign-up with the issued code answers 201 even when the mail carrying it failed |
| AccountFlows.CodeForUnknownPatient | Backend/hospital_management_system/accounts/views.py:294-306 | a code is issued for an unknown patient e-mail, and the later login fails only on the user lookup (404) |
| AccountFlows.AdminTokenWithoutPassword | Backend/hospital_management_system/accounts/views.py:294-306 | for any staff e-mail, an `admin` code from RequestOTP verifies with 200 and yields an `admin` token for that staff member, skipping the password and `is_admin` checks |
| AccountFlows.StaffLoginAfterFailedWelcomeMail | Backend/hospital_management_system/accounts/views.py:757-784 | a staff member created with a failed mail (500) can still log in with both factors |
| AccountFlows.BadDateKeepsNewName | Backend/hospital_management_system/accounts/views.py:956-979 | an unparsable date answers 400 but the new name stays saved and the details are untouched |

## Left out

- Mail sending is an input (`mailSent`). Its message text and the error detail in the response are not modelled.
- JWT creation: a successful login returns the claims put into the token (user id, user type, e-mail). The token strings are not modelled.
- Password hashing is abstract. `make_password`/`set_password` store `Hashed(p)`, and `check_password` compares against `p`.
- `random.choices` and `uuid.uuid4` are inputs. Their distributions are not modelled.
- Accounts.Store.CreateAdminStaff: requires that some supplied uuid gives an unused id. This is how the model states that the regeneration loop terminates; the view assumes it implicitly.
- HTTP parsing, the authentication and permission classes, and response bodies (messages, ids in the JSON) are not modelled. `request.user` is the `Caller` parameter, and a caller is assumed to exist.
- Request fields are strings or absent. CompletePatientProfile also accepts a boolean gender (`GenderInput`). UpdatePatientProfileView reads form data, so its gender is always text. Other JSON types (numbers, lists) are not modelled.
- The role id is compared as a string. Django's coercion of `role_id` to the key type is not modelled.
- Text: lower- and upper-casing and digit tests cover ASCII only. Python's Unicode case mapping and Unicode digits in `strptime` are not modelled.
- Accounts.Store.CompletePatientProfile: a second details row answering 500 relies on PatientDetails being one-to-one with Patient. The models file is not part of this model; the relation is inferred from `patient.details` and `PatientDetails.DoesNotExist` in the profile view.
- Details fields are taken to be nullable, so an upsert may create a row with only some fields set.
- Patient ids come from a counter, as an auto-increment primary key would give them.
- PatientProfileView is modelled only in its photo-URL choice (`Conversions.ChoosePhotoUrl`). The rest is a read of the tables.
- UpdatePatientPhotoView handles file uploads and is not modelled.
- The commented-out earlier versions of the views and the `print` calls are not modelled.
- The three hospital migrations declare schema only and have no behaviour.
- Database errors other than the ones named above (connection failures, concurrent requests) are not modelled. Each view runs alone and to completion.
