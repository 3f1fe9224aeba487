/**
 * What user and service-provider profiles have in common: phone-number
 * normalisation, the field rules of `ValidateUserProfile` and
 * `ValidateProviderProfile` (identical but for the table consulted), and the
 * password rules of `VerifyUserPassword` and `VerifySPPassword`.
 */
module Accounts {
  import opened Wrappers
  import opened Text
  import opened Entity
  import opened Common
  import opened StringTools

  /* ---------------------------- phone numbers ----------------------------- */

  /** `^0\d{9}$`: a local Ethiopian number. */
  predicate IsLocalPhone(s: string) {
    |s| == 10 && s[0] == '0' && AllDigits(s[1..])
  }

  /**
   * The phone number handed to the phone-number parser: white space removed,
   * a local number rewritten to the +251 country code, and any other
   * non-empty value given a leading `+` if it lacks one.
   */
  function NormalisePhone(raw: string): (n: string)
    ensures IsLocalPhone(StripSpaces(raw)) ==> n == "+251" + StripSpaces(raw)[1..]
    ensures !IsLocalPhone(StripSpaces(raw)) && |StripSpaces(raw)| > 0 && StripSpaces(raw)[0] != '+' ==>
              n == "+" + StripSpaces(raw)
    ensures !IsLocalPhone(StripSpaces(raw)) && (|StripSpaces(raw)| == 0 || StripSpaces(raw)[0] == '+') ==>
              n == StripSpaces(raw)
    ensures n == "" <==> StripSpaces(raw) == ""
    ensures n != "" ==> n[0] == '+'
    ensures forall i | 0 <= i < |n| :: !IsFieldSpace(n[i])
  {
    var stripped := StripSpaces(raw);
    if IsLocalPhone(stripped) then "+251" + stripped[1..]
    else if |stripped| != 0 && stripped[0] != '+' then "+" + stripped
    else stripped
  }

  /** Normalising twice is normalising once. */
  lemma NormalisePhoneIdempotent(raw: string)
    ensures NormalisePhone(NormalisePhone(raw)) == NormalisePhone(raw)
  {
    var n := NormalisePhone(raw);
    StripSpacesKeepsSpaceless(n);
  }

  /**
   * The key rewrite of the account repositories' `Find` and `Search`: a key
   * whose first rune is `0` is looked up in phone_number as `+251` followed
   * by the rest of the key.
   */
  function PhoneKey(key: string): (bound: string)
    requires key != ""
    ensures key[0] == '0' ==> bound == "+251" + key[1..] && |bound| == |key| + 3
    ensures key[0] != '0' ==> bound == key
  {
    if key[0] == '0' then "+251" + key[1..] else key
  }

  /**
   * The repositories' rewrite agrees with the validators' normalisation: a
   * local number given as a search key is looked up in the form the
   * validator hands to the phone parser.
   */
  lemma PhoneKeyAgreesWithNormalise(key: string)
    requires IsLocalPhone(key)
    ensures PhoneKey(key) == NormalisePhone(key)
  {
    assert key == "0" + key[1..];
    LocalPhoneGetsCountryCode(key[1..]);
  }

  /** A local number, spaced or not, always reaches the parser as +251 and its nine digits. */
  lemma LocalPhoneGetsCountryCode(digits: string)
    requires |digits| == 9 && AllDigits(digits)
    ensures NormalisePhone("0" + digits) == "+251" + digits
    ensures NormalisePhone("0" + digits[..4] + " " + digits[4..]) == "+251" + digits
  {
    var local := "0" + digits;
    LocalStripped(digits);
    assert local[1..] == digits;
    assert IsLocalPhone(StripSpaces(local));
    assert IsLocalPhone(StripSpaces("0" + digits[..4] + " " + digits[4..]));
  }

  /** Stripping spaces from a local number, spaced after its fourth digit or not, gives the unspaced number. */
  lemma LocalStripped(digits: string)
    requires |digits| == 9 && AllDigits(digits)
    ensures StripSpaces("0" + digits) == "0" + digits
    ensures StripSpaces("0" + digits[..4] + " " + digits[4..]) == "0" + digits
  {
    var local := "0" + digits;
    assert forall i | 0 <= i < |local| :: !IsFieldSpace(local[i]) by {
      forall i | 0 <= i < |local| ensures IsDigit(local[i]) {
        if i > 0 { assert local[i] == digits[i - 1]; }
      }
    }
    StripSpacesKeepsSpaceless(local);
    var head, tail := "0" + digits[..4], digits[4..];
    assert head + tail == local;
    assert forall i | 0 <= i < |head| :: !IsFieldSpace(head[i]) by {
      forall i | 0 <= i < |head| ensures head[i] == local[i] { }
    }
    assert forall i | 0 <= i < |tail| :: !IsFieldSpace(tail[i]) by {
      forall i | 0 <= i < |tail| ensures tail[i] == local[5 + i] { }
    }
    SpaceBetweenStripped(head, tail);
  }

  /** One space between two space-free strings disappears. */
  lemma SpaceBetweenStripped(head: string, tail: string)
    requires forall i | 0 <= i < |head| :: !IsFieldSpace(head[i])
    requires forall i | 0 <= i < |tail| :: !IsFieldSpace(tail[i])
    ensures StripSpaces(head + " " + tail) == head + tail
  {
    var space := " ";
    assert IsFieldSpace(space[0]) && space[1..] == "";
    assert StripSpaces(space) == "";
    var spaced := head + space;
    StripSpacesSplit(spaced, tail);
    StripSpacesSplit(head, space);
    StripSpacesKeepsSpaceless(head);
    StripSpacesKeepsSpaceless(tail);
    calc {
      StripSpaces(head + space + tail);
      StripSpaces(spaced) + StripSpaces(tail);
      (StripSpaces(head) + StripSpaces(space)) + tail;
      { assert head + "" == head; }
      head + tail;
    }
  }

  lemma {:induction false} StripSpacesSplit(s: string, t: string)
    ensures StripSpaces(s + t) == StripSpaces(s) + StripSpaces(t)
    decreases |s|
  {
    if |s| > 0 {
      assert (s + t)[1..] == s[1..] + t;
      StripSpacesSplit(s[1..], t);
    } else {
      assert s + t == t;
    }
  }

  /* ------------------------------- messages ------------------------------- */

  const FirstNameLengthMessage := "first name should not be longer than 255 characters"
  const LastNameLengthMessage := "last name should not be longer than 255 characters"
  const UserNameCharsMessage := "username shouldn't contain space or any special characters"
  const UserNameLengthMessage := "username should not be longer than 20 characters"
  const UserNameTakenMessage := "username is taken, username should be unique"
  const EmailInvalidMessage := "invalid email address used"
  const EmailTakenMessage := "email address already exists"
  const PhoneInvalidMessage := "invalid phonenumber used"
  const PhoneTakenMessage := "phone number already exists"

  /* ----------------------------- field rules ------------------------------ */

  /**
   * The oracles a profile validation consults. `phone(n)` is the parser's
   * verdict on the normalised number `n`: the `+<country><national>` form when
   * it is a valid number. `emailOk` is the e-mail pattern. `stored` is what
   * the repository's `Find` returns for the profile's ID (read only on update).
   */
  datatype Oracles = Oracles(
    phone: string -> Option<string>,
    emailOk: string -> bool,
    stored: Option<Account>,
    check: TableCheck)

  /** An update (non-empty ID) consults uniqueness only when the stored value differs and the stored row was found. */
  predicate Consults(id: string, stored: Option<Account>, same: Account -> bool) {
    id == "" || (stored.Some? && !same(stored.value))
  }

  function LengthError(field: string, limit: nat, message: string): Option<Error> {
    if ByteLen(field) > limit then Some(Error(message)) else None
  }

  /** The format rule for the username, before any uniqueness check. */
  function UserNameFormatError(name: string): Option<Error> {
    if !IsBlank(name) && !IsWord(name) then Some(Error(UserNameCharsMessage))
    else if ByteLen(name) > 20 then Some(Error(UserNameLengthMessage))
    else None
  }

  /** The user_name rule, on the lower-cased name. */
  function UserNameError(name: string, id: string, table: string, o: Oracles): Option<Error> {
    if UserNameFormatError(name).Some? then UserNameFormatError(name)
    else if !IsBlank(name) && Consults(id, o.stored, (s: Account) => s.userName == name)
            && !IsUnique("user_name", Str(name), table, o.check)
    then Some(Error(UserNameTakenMessage))
    else None
  }

  function EmailError(email: string, id: string, table: string, o: Oracles): Option<Error> {
    if !IsBlank(email) && !o.emailOk(email) then Some(Error(EmailInvalidMessage))
    else if !IsBlank(email) && Consults(id, o.stored, (s: Account) => s.email == email)
            && !IsUnique("email", Str(email), table, o.check)
    then Some(Error(EmailTakenMessage))
    else None
  }

  /** The phone_number rule: `raw` as supplied, `parsed` the parser's verdict on its normalised form. */
  function PhoneError(raw: string, parsed: Option<string>, id: string, table: string, o: Oracles): Option<Error> {
    if !IsBlank(raw) && parsed.None? then Some(Error(PhoneInvalidMessage))
    else if parsed.Some? && Consults(id, o.stored, (s: Account) => s.phoneNumber == parsed.value)
            && !IsUnique("phone_number", Str(parsed.value), table, o.check)
    then Some(Error(PhoneTakenMessage))
    else None
  }

  /** The profile as the validator leaves it: lower-case username, canonical phone when valid. */
  function Rewritten(account: Account, o: Oracles): Account {
    var parsed := o.phone(NormalisePhone(account.phoneNumber));
    account.(
      userName := ToLower(account.userName),
      phoneNumber := if parsed.Some? then parsed.value else account.phoneNumber)
  }

  /** Every rule of a profile validation holds of the error map and the rewritten record. */
  ghost predicate ProfileChecked(account: Account, table: string, o: Oracles, errs: Option<ErrMap>, updated: Account) {
    var e := Recorded(errs);
    var parsed := o.phone(NormalisePhone(account.phoneNumber));
    && updated == Rewritten(account, o)
    && (errs.Some? ==> |errs.value| > 0)
    && e.Keys <= {"first_name", "last_name", "user_name", "email", "phone_number"}
    && ErrorAt(e, "first_name") == LengthError(account.firstName, 255, FirstNameLengthMessage)
    && ErrorAt(e, "last_name") == LengthError(account.lastName, 255, LastNameLengthMessage)
    && ErrorAt(e, "user_name") == UserNameError(updated.userName, account.id, table, o)
    && ErrorAt(e, "email") == EmailError(account.email, account.id, table, o)
    && ErrorAt(e, "phone_number") == PhoneError(account.phoneNumber, parsed, account.id, table, o)
  }

  /** Records `error` under `field` when there is one. */
  function Put(errs: ErrMap, field: string, error: Option<Error>): (r: ErrMap)
    ensures ErrorAt(r, field) == (if error.Some? then error else ErrorAt(errs, field))
    ensures forall k | k != field :: ErrorAt(r, k) == ErrorAt(errs, k)
    ensures r.Keys <= errs.Keys + {field}
  {
    if error.Some? then errs[field := error.value] else errs
  }

  /** The error map holding the five field entries that are present. */
  function Assemble(firstName: Option<Error>, lastName: Option<Error>, userName: Option<Error>,
                    email: Option<Error>, phone: Option<Error>): (e: ErrMap)
    ensures e.Keys <= {"first_name", "last_name", "user_name", "email", "phone_number"}
    ensures ErrorAt(e, "first_name") == firstName && ErrorAt(e, "last_name") == lastName
    ensures ErrorAt(e, "user_name") == userName && ErrorAt(e, "email") == email
    ensures ErrorAt(e, "phone_number") == phone
  {
    var e1 := Put(map[], "first_name", firstName);
    var e2 := Put(e1, "last_name", lastName);
    var e3 := Put(e2, "user_name", userName);
    var e4 := Put(e3, "email", email);
    Put(e4, "phone_number", phone)
  }

  /**
   * The shared body of `ValidateUserProfile` and `ValidateProviderProfile`.
   * Each field's entry of the error map is a slot filled in the source's
   * order: the format checks first, then the uniqueness checks, which only
   * fill a slot still empty; the map is assembled from the five slots.
   */
  method ValidateAccount(account: Account, table: string, o: Oracles) returns (errs: Option<ErrMap>, updated: Account)
    ensures ProfileChecked(account, table, o, errs, updated)
  {
    var phoneNumber := NormalisePhone(account.phoneNumber);
    var parsed := o.phone(phoneNumber);
    var firstName, lastName, userName, email, phone;
    firstName, lastName, userName, email, phone, updated := CheckFormats(account, parsed, o.emailOk);
    userName, email, phone := CheckUniqueness(account, updated, parsed, table, o, userName, email, phone);
    var e := Assemble(firstName, lastName, userName, email, phone);
    errs := Reported(e);
    RecordedReported(e);
  }

  /** The format half of the validation, and the in-place rewrites of username and phone. */
  method CheckFormats(account: Account, parsed: Option<string>, emailOk: string -> bool)
    returns (firstName: Option<Error>, lastName: Option<Error>, userName: Option<Error>,
             email: Option<Error>, phone: Option<Error>, updated: Account)
    ensures firstName == LengthError(account.firstName, 255, FirstNameLengthMessage)
    ensures lastName == LengthError(account.lastName, 255, LastNameLengthMessage)
    ensures userName == UserNameFormatError(ToLower(account.userName))
    ensures email == (if !IsBlank(account.email) && !emailOk(account.email) then Some(Error(EmailInvalidMessage)) else None)
    ensures phone == (if !IsBlank(account.phoneNumber) && parsed.None? then Some(Error(PhoneInvalidMessage)) else None)
    ensures updated == account.(userName := ToLower(account.userName),
                                phoneNumber := if parsed.Some? then parsed.value else account.phoneNumber)
  {
    var isValidUsername := IsWord(account.userName);
    var isValidPhoneNumber := parsed.Some?;
    var isValidEmail := emailOk(account.email);
    firstName, lastName, userName, email, phone := None, None, None, None, None;

    if ByteLen(account.firstName) > 255 {
      firstName := Some(Error(FirstNameLengthMessage));
    }
    if ByteLen(account.lastName) > 255 {
      lastName := Some(Error(LastNameLengthMessage));
    }

    updated := account.(userName := ToLower(account.userName));
    ToLowerProperties(account.userName);
    var emptyUsername := IsBlank(updated.userName);
    if !emptyUsername && !isValidUsername {
      userName := Some(Error(UserNameCharsMessage));
    } else if ByteLen(updated.userName) > 20 {
      userName := Some(Error(UserNameLengthMessage));
    }

    var emptyEmail := IsBlank(account.email);
    if !emptyEmail && !isValidEmail {
      email := Some(Error(EmailInvalidMessage));
    }

    var emptyPhoneNumber := IsBlank(account.phoneNumber);
    if !emptyPhoneNumber && !isValidPhoneNumber {
      phone := Some(Error(PhoneInvalidMessage));
    } else if isValidPhoneNumber {
      updated := updated.(phoneNumber := parsed.value);
    }
  }

  /** The uniqueness half: a new profile consults the table for every well-formed field, an update only for changed ones. */
  method CheckUniqueness(account: Account, updated: Account, parsed: Option<string>, table: string, o: Oracles,
                         userName0: Option<Error>, email0: Option<Error>, phone0: Option<Error>)
    returns (userName: Option<Error>, email: Option<Error>, phone: Option<Error>)
    requires updated.userName == ToLower(account.userName)
    requires parsed.Some? ==> updated.phoneNumber == parsed.value
    requires userName0 == UserNameFormatError(updated.userName)
    requires email0 == (if !IsBlank(account.email) && !o.emailOk(account.email) then Some(Error(EmailInvalidMessage)) else None)
    requires phone0 == (if !IsBlank(account.phoneNumber) && parsed.None? then Some(Error(PhoneInvalidMessage)) else None)
    ensures userName == UserNameError(updated.userName, account.id, table, o)
    ensures email == EmailError(account.email, account.id, table, o)
    ensures phone == PhoneError(account.phoneNumber, parsed, account.id, table, o)
  {
    userName, email, phone := userName0, email0, phone0;
    var emptyUsername := IsBlank(updated.userName);
    var emptyEmail := IsBlank(account.email);
    var isValidPhoneNumber := parsed.Some?;
    if account.id == "" {
      if userName.None? && !emptyUsername && !IsUnique("user_name", Str(updated.userName), table, o.check) {
        userName := Some(Error(UserNameTakenMessage));
      }
      if email.None? && !emptyEmail && !IsUnique("email", Str(account.email), table, o.check) {
        email := Some(Error(EmailTakenMessage));
      }
      if isValidPhoneNumber && !IsUnique("phone_number", Str(updated.phoneNumber), table, o.check) {
        phone := Some(Error(PhoneTakenMessage));
      }
    } else {
      var found := o.stored.Some?;
      if found && userName.None? && o.stored.value.userName != updated.userName && !emptyUsername {
        if !IsUnique("user_name", Str(updated.userName), table, o.check) {
          userName := Some(Error(UserNameTakenMessage));
        }
      }
      if found && email.None? && o.stored.value.email != account.email && !emptyEmail {
        if !IsUnique("email", Str(account.email), table, o.check) {
          email := Some(Error(EmailTakenMessage));
        }
      }
      if found && isValidPhoneNumber && o.stored.value.phoneNumber != updated.phoneNumber {
        if !IsUnique("phone_number", Str(updated.phoneNumber), table, o.check) {
          phone := Some(Error(PhoneTakenMessage));
        }
      }
    }
  }

  /** Re-validating a validated profile rewrites nothing further, when the parser accepts its own canonical form. */
  lemma RewrittenIsStable(account: Account, o: Oracles)
    requires forall n | o.phone(n).Some? :: o.phone(NormalisePhone(o.phone(n).value)) == o.phone(n)
    ensures Rewritten(Rewritten(account, o), o) == Rewritten(account, o)
  {
    ToLowerProperties(account.userName);
  }

  /**
   * An update that changes neither username, e-mail nor phone against the
   * stored row never asks the table: its errors are the same whatever the
   * uniqueness check answers.
   */
  lemma UnchangedUpdateSkipsUniqueness(account: Account, table: string, o: Oracles, other: TableCheck)
    requires account.id != "" && o.stored.Some?
    requires o.stored.value.userName == ToLower(account.userName)
    requires o.stored.value.email == account.email
    requires o.stored.value.phoneNumber == Rewritten(account, o).phoneNumber
    ensures UserNameError(ToLower(account.userName), account.id, table, o)
         == UserNameError(ToLower(account.userName), account.id, table, o.(check := other))
    ensures EmailError(account.email, account.id, table, o) == EmailError(account.email, account.id, table, o.(check := other))
    ensures PhoneError(account.phoneNumber, o.phone(NormalisePhone(account.phoneNumber)), account.id, table, o)
         == PhoneError(account.phoneNumber, o.phone(NormalisePhone(account.phoneNumber)), account.id, table, o.(check := other))
  {
  }

  /**
   * For a new profile, a well-formed non-blank username is refused exactly
   * when the table already holds it, and a blank one is never looked up.
   */
  lemma NewUserNameUniqueness(name: string, table: string, o: Oracles)
    requires IsWord(name) && ByteLen(name) <= 20
    ensures UserNameError(name, "", table, o) == Some(Error(UserNameTakenMessage))
         <==> !o.check("user_name", Str(name), table)
    ensures UserNameError(name, "", table, o) == None <==> o.check("user_name", Str(name), table)
  {
    WordIsNotBlank(name);
  }
}
