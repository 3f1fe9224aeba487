/** `tools/tool.validation.go`: the generic profile check over positional entries. */
module Validation {
  import opened Wrappers
  import opened Text
  import opened Entity

  /** `^[a-zA-Z]\w*$`: a letter followed by word runes. */
  predicate IsFirstName(s: string) {
    |s| > 0 && IsAsciiLetter(s[0]) && AllWordChars(s)
  }

  /**
   * The phone pattern `^(\+\d{11,12})|(0\d{9})$` exactly as Go reads it: the
   * anchors bind to the alternatives, so the first alternative only needs a
   * matching PREFIX and the second only a matching SUFFIX.
   */
  predicate MatchesPhonePattern(s: string) {
    (|s| >= 12 && s[0] == '+' && AllDigits(s[1..12]))
    || (|s| >= 10 && s[|s| - 10] == '0' && AllDigits(s[|s| - 9..]))
  }

  /**
   * The phone shape the error message asks for, the whole string being
   * `+` and 11 or 12 digits, or `0` and 9 digits.
   */
  predicate IsPhoneShape(s: string) {
    ((|s| == 12 || |s| == 13) && s[0] == '+' && AllDigits(s[1..]))
    || (|s| == 10 && s[0] == '0' && AllDigits(s[1..]))
  }

  /** The pattern lets through strings that are not phone numbers at all. */
  lemma PhonePatternLooserThanShape()
    ensures MatchesPhonePattern("+25191122334455xyz") && !IsPhoneShape("+25191122334455xyz")
    ensures MatchesPhonePattern("call 0911223344") && !IsPhoneShape("call 0911223344")
  {
    var a := "+25191122334455xyz";
    assert AllDigits(a[1..12]) by {
      assert a[1..12] == "25191122334";
    }
    var b := "call 0911223344";
    assert b[|b| - 10] == '0';
    assert AllDigits(b[|b| - 9..]) by {
      assert b[|b| - 9..] == "911223344";
    }
    assert !IsPhoneShape(b) by {
      assert |b| == 15;
    }
  }

  /** Every string of the phone shape matches the pattern. */
  lemma PhoneShapeMatchesAsWritten(s: string)
    requires IsPhoneShape(s)
    ensures MatchesPhonePattern(s)
  {
    if s[0] == '+' {
      assert forall i | 0 <= i < 11 :: s[1..12][i] == s[1..][i];
    } else {
      assert s[|s| - 9..] == s[1..];
    }
  }

  const FirstNameMessage := "firstname should only contain alpha numerical values and have at least one character"
  const LastNameMessage := "lastname should only contain alpha numerical values"
  const EmailMessage := "invalid email address used"
  const PhoneMessage := "phonenumber should be +XXXXXXXXXXXX or 0XXXXXXXXX formate, also use url escaping if country code was used"

  /**
   * `ValidateProfile(role, firstName, lastName, phoneNumber, ...)`. The e-mail
   * check is commented out in the source, so its flag keeps Go's zero value
   * and the e-mail entry is always reported; the role is never consulted.
   * Fewer than three entries make the Go code panic on the index.
   */
  function ValidateProfile(role: string, entries: seq<string>): (r: Option<ErrMap>)
    requires |entries| >= 3
    ensures r.Some?
    ensures "email" in r.value && r.value["email"] == Error(EmailMessage)
    ensures "first_name" in r.value <==> !IsFirstName(entries[0])
    ensures "last_name" in r.value <==> !AllWordChars(entries[1])
    ensures "phone_number" in r.value <==> !MatchesPhonePattern(entries[2])
    ensures r.value.Keys <= {"first_name", "last_name", "email", "phone_number"}
  {
    var matchEmail := false;
    var errs: ErrMap := map[];
    var errs := if !IsFirstName(entries[0]) then errs["first_name" := Error(FirstNameMessage)] else errs;
    var errs := if !AllWordChars(entries[1]) then errs["last_name" := Error(LastNameMessage)] else errs;
    var errs := if !matchEmail then errs["email" := Error(EmailMessage)] else errs;
    var errs := if !MatchesPhonePattern(entries[2]) then errs["phone_number" := Error(PhoneMessage)] else errs;
    Reported(errs)
  }

  /** Only the first three entries are inspected, and the role never is. */
  lemma ValidateProfileReadsThreeEntries(role: string, entries: seq<string>, role': string, entries': seq<string>)
    requires |entries| >= 3 && |entries'| >= 3
    requires entries[..3] == entries'[..3]
    ensures ValidateProfile(role, entries) == ValidateProfile(role', entries')
  {
    assert entries[0] == entries[..3][0] == entries'[0];
    assert entries[1] == entries[..3][1] == entries'[1];
    assert entries[2] == entries[..3][2] == entries'[2];
  }
}
