/**
 * The password rules shared by `VerifyUserPassword` and `VerifySPPassword`:
 * a guard chain on the entered password, then salting and hashing.
 */
module Passwords {
  import opened Wrappers
  import opened Text
  import opened Entity
  import opened Common
  import opened StringTools

  const PasswordShortMessage := "password should contain at least 8 characters"
  const PasswordCharsMessage := "invalid characters used in password"
  const PasswordMismatchMessage := "passwords do not match"
  const PasswordNotFoundMessage := "password not found"

  /** The length of the salt drawn for every new password. */
  const SaltLength: nat := 30

  predicate IsPasswordChar(c: char) {
    IsAsciiLetter(c) || IsDigit(c) || c == '.' || c == '_' || c == '-' || c == '&' || c == '!' || c == '?' || c == '=' || c == '#'
  }

  /** `^[a-zA-Z0-9\._\-&!?=#]{8}[a-zA-Z0-9\._\-&!?=#]*$`: eight or more allowed runes. */
  predicate MatchesPasswordPattern(p: string) {
    |p| >= 8 && forall i | 0 <= i < |p| :: IsPasswordChar(p[i])
  }

  /** The guard chain of the password check, in its order: length in bytes, charset, match. */
  function PasswordError(password: string, verify: string): Option<Error> {
    if ByteLen(password) < 8 then Some(Error(PasswordShortMessage))
    else if !MatchesPasswordPattern(password) then Some(Error(PasswordCharsMessage))
    else if password != verify then Some(Error(PasswordMismatchMessage))
    else None
  }

  /** The pattern admits ASCII runes only, so the byte length of a matching password is its length. */
  lemma PatternIsAscii(password: string)
    requires MatchesPasswordPattern(password)
    ensures ByteLen(password) == |password|
  {
    assert forall i | 0 <= i < |password| :: password[i] as int < 0x80 by {
      forall i | 0 <= i < |password| ensures password[i] as int < 0x80 {
        assert IsPasswordChar(password[i]);
      }
    }
    ByteLenAscii(password);
  }

  /**
   * A password passes exactly when it is at least eight allowed runes and the
   * second entry repeats it; the byte-length guard adds nothing to the pattern.
   */
  lemma PasswordAccepted(password: string, verify: string)
    ensures PasswordError(password, verify).None? <==> MatchesPasswordPattern(password) && password == verify
  {
    if MatchesPasswordPattern(password) {
      PatternIsAscii(password);
    }
  }

  /** A short password is refused as short even when its runes are not allowed. */
  lemma ShortPasswordReportedFirst(password: string, verify: string)
    requires |password| < 8 && forall i | 0 <= i < |password| :: password[i] as int < 0x80
    ensures PasswordError(password, verify) == Some(Error(PasswordShortMessage))
  {
    ByteLenAscii(password);
  }

  /** The draws behind one salt: at least thirty positions in the charset. */
  predicate SaltPicks(picks: seq<int>) {
    |picks| >= SaltLength && forall i | 0 <= i < |picks| :: 0 <= picks[i] < 62
  }

  /**
   * `VerifyUserPassword`: a refused password leaves the record as it was;
   * an accepted one gets a fresh 30-rune salt and is replaced by
   * `hash(password + salt)`, `hash` standing for bcrypt at cost 12 followed
   * by base64.
   */
  method VerifyUserPassword(entry: UserPassword, verify: string, picks: seq<int>, hash: string -> string)
    returns (err: Option<Error>, updated: UserPassword)
    requires SaltPicks(picks)
    ensures err == PasswordError(entry.password, verify)
    ensures err.Some? ==> updated == entry
    ensures err.None? ==>
      && IsRandomString(updated.salt, SaltLength)
      && (forall i | 0 <= i < SaltLength :: updated.salt[i] == Charset[picks[i]])
      && updated == entry.(salt := updated.salt, password := hash(entry.password + updated.salt))
  {
    err := PasswordError(entry.password, verify);
    if err.Some? {
      return err, entry;
    }
    var salt := RandomStringGN(SaltLength, picks);
    updated := entry.(salt := salt, password := hash(entry.password + salt));
  }

  /** `VerifySPPassword`: the same rules for a service provider's password. */
  method VerifySPPassword(entry: SPPassword, verify: string, picks: seq<int>, hash: string -> string)
    returns (err: Option<Error>, updated: SPPassword)
    requires SaltPicks(picks)
    ensures err == PasswordError(entry.password, verify)
    ensures err.Some? ==> updated == entry
    ensures err.None? ==>
      && IsRandomString(updated.salt, SaltLength)
      && (forall i | 0 <= i < SaltLength :: updated.salt[i] == Charset[picks[i]])
      && updated == entry.(salt := updated.salt, password := hash(entry.password + updated.salt))
  {
    err := PasswordError(entry.password, verify);
    if err.Some? {
      return err, entry;
    }
    var salt := RandomStringGN(SaltLength, picks);
    updated := entry.(salt := salt, password := hash(entry.password + salt));
  }

  /** `FindUserPassword`: `find` is the password repository's `Find`; one message for both failures. */
  function FindUserPassword(userId: string, find: string -> Option<UserPassword>): (r: Result<UserPassword>)
    ensures IsBlank(userId) ==> r == Failure(Error(PasswordNotFoundMessage))
    ensures !IsBlank(userId) ==> r.Success? == find(userId).Some?
    ensures r.Success? ==> r.value == find(userId).value
    ensures r.Failure? ==> r.error == Error(PasswordNotFoundMessage)
  {
    GuardedFind(userId, find, PasswordNotFoundMessage)
  }

  /** `FindSPPassword`: the same lookup for a service provider's password. */
  function FindSPPassword(providerId: string, find: string -> Option<SPPassword>): (r: Result<SPPassword>)
    ensures IsBlank(providerId) ==> r == Failure(Error(PasswordNotFoundMessage))
    ensures !IsBlank(providerId) ==> r.Success? == find(providerId).Some?
    ensures r.Success? ==> r.value == find(providerId).value
    ensures r.Failure? ==> r.error == Error(PasswordNotFoundMessage)
  {
    GuardedFind(providerId, find, PasswordNotFoundMessage)
  }
}
