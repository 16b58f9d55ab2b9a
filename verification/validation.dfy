/** The field validators of lib/validation.ts: pure predicates over strings
    and wrappers that turn them into a verdict with a user-facing message. */
module Validation {

  import opened Wrappers
  import opened Text

  // ---------------------------------------------------------------------
  // Email: /^[^\s@]+@[^\s@]+\.[^\s@]+$/
  // ---------------------------------------------------------------------

  /** A character allowed in every part of an address: `[^\s@]`. */
  predicate IsEmailChar(c: char) {
    !IsWhitespace(c) && c != '@'
  }

  /** The email regular expression read literally: a non-empty local part,
      `@`, a non-empty label, a `.`, a non-empty last part, where no part
      holds whitespace or `@` (the middle label may hold further dots). */
  ghost predicate MatchesEmailPattern(s: string) {
    exists at, dot ::
      && 0 < at && at + 1 < dot < |s| - 1
      && s[at] == '@' && s[dot] == '.'
      && forall i :: 0 <= i < |s| && i != at ==> IsEmailChar(s[i])
  }

  /** `isValidEmail`, computed by locating the `@`. */
  predicate IsValidEmail(s: string) {
    match IndexOf(s, '@')
    case None => false
    case Some(at) =>
      && 0 < at
      && (forall i :: 0 <= i < |s| && i != at ==> IsEmailChar(s[i]))
      && at + 3 < |s|
      && '.' in s[at + 2..|s| - 1]
  }

  /** The computed check is the regular expression. */
  lemma EmailMatchesPattern(s: string)
    ensures IsValidEmail(s) <==> MatchesEmailPattern(s)
  {
    if IsValidEmail(s) {
      var at := IndexOf(s, '@').value;
      var k :| 0 <= k < |s[at + 2..|s| - 1]| && s[at + 2..|s| - 1][k] == '.';
      var dot := at + 2 + k;
      assert s[dot] == '.';
    }
    if MatchesEmailPattern(s) {
      var at, dot :|
        && 0 < at && at + 1 < dot < |s| - 1
        && s[at] == '@' && s[dot] == '.'
        && forall i :: 0 <= i < |s| && i != at ==> IsEmailChar(s[i]);
      var found := IndexOf(s, '@');
      assert found.Some?;
      assert found.value == at;
      assert s[at + 2..|s| - 1][dot - at - 2] == '.';
    }
  }

  /** What an accepted address looks like: no whitespace, exactly one `@`,
      and after it a `.` that is neither the domain's first nor its last
      character. */
  lemma EmailShape(s: string)
    requires IsValidEmail(s)
    ensures forall i :: 0 <= i < |s| ==> !IsWhitespace(s[i])
    ensures multiset(s)['@'] == 1
    ensures exists at :: 0 < at < |s| && s[at] == '@' && '.' in s[at + 2..|s| - 1]
  {
    var at := IndexOf(s, '@').value;
    assert s == s[..at] + [s[at]] + s[at + 1..];
    assert '@' !in s[at + 1..] by {
      forall j | at + 1 <= j < |s|
        ensures s[j] != '@'
      {
        assert IsEmailChar(s[j]);
      }
    }
    assert multiset(s) == multiset(s[..at]) + multiset{'@'} + multiset(s[at + 1..]);
  }

  // ---------------------------------------------------------------------
  // Nigerian phone numbers
  // ---------------------------------------------------------------------

  /** The characters `isValidNigerianPhone` strips first: `[\s\-\(\)]`. */
  predicate IsPhoneSeparator(c: char) {
    IsWhitespace(c) || c == '-' || c == '(' || c == ')'
  }

  function CleanPhone(phone: string): string {
    Filter(phone, c => !IsPhoneSeparator(c))
  }

  /** `[7-9][0-1]\d{8}`: the ten digits after the trunk or country prefix. */
  predicate IsSubscriberNumber(s: string) {
    |s| == 10 && '7' <= s[0] <= '9' && '0' <= s[1] <= '1' && AllDigits(s[2..])
  }

  /** `prefix` followed by a subscriber number, and nothing else. */
  predicate PrefixedNumber(s: string, prefix: string) {
    StartsWith(s, prefix) && IsSubscriberNumber(s[|prefix|..])
  }

  /** `/^0[7-9][0-1]\d{8}$/` */
  predicate LocalPhonePattern(s: string) {
    PrefixedNumber(s, "0")
  }

  /** `/^(\+?234)[7-9][0-1]\d{8}$/` */
  predicate InternationalPhonePattern(s: string) {
    PrefixedNumber(s, "+234") || PrefixedNumber(s, "234")
  }

  predicate IsValidNigerianPhone(phone: string) {
    var cleaned := CleanPhone(phone);
    LocalPhonePattern(cleaned) || InternationalPhonePattern(cleaned)
  }

  /** Cleaning leaves a string without separators as it is, so on such a
      string the check is just the two patterns (no cleaning). */
  lemma PhoneWithoutSeparators(s: string)
    requires forall i :: 0 <= i < |s| ==> !IsPhoneSeparator(s[i])
    ensures IsValidNigerianPhone(s) <==> LocalPhonePattern(s) || InternationalPhonePattern(s)
  {
  }

  /** The prefixes a Nigerian number may carry. */
  const PhonePrefixes: set<string> := {"0", "234", "+234"}

  /** Once separators are gone, a number is accepted exactly when its last
      ten characters are a subscriber number and what precedes them is one
      of the three prefixes. */
  lemma PhoneCharacterization(phone: string)
    ensures IsValidNigerianPhone(phone) <==>
      var c := CleanPhone(phone);
      |c| >= 10 && c[..|c| - 10] in PhonePrefixes && IsSubscriberNumber(c[|c| - 10..])
  {
    var c := CleanPhone(phone);
    if |c| >= 10 && c[..|c| - 10] in PhonePrefixes {
      var p := c[..|c| - 10];
      assert c[|p|..] == c[|c| - 10..];
      assert p == "0" || p == "234" || p == "+234";
    }
  }

  lemma PhoneAcceptsLocalForm()
    ensures IsValidNigerianPhone("08012345678")
  {
    LocalExample("08012345678");
  }

  /** The proof of the example above, on a parameter so that the solver does
      not evaluate the cleaning step character by character. */
  lemma LocalExample(s: string)
    requires s == "08012345678"
    ensures IsValidNigerianPhone(s)
  {
    DigitsHaveNoSeparators(s);
    PhoneWithoutSeparators(s);
    var rest := s[1..];
    assert StartsWith(s, "0") by { assert s[..1] == "0"; }
    assert |rest| == 10 && rest[0] == '8' && rest[1] == '0';
    assert AllDigits(rest[2..]) by { assert rest[2..] == "12345678"; }
    assert LocalPhonePattern(s);
  }

  /** Digits are never separators. */
  lemma DigitsHaveNoSeparators(s: string)
    requires AllDigits(s)
    ensures forall i :: 0 <= i < |s| ==> !IsPhoneSeparator(s[i])
  {
  }

  lemma PhoneAcceptsInternationalForm()
    ensures IsValidNigerianPhone("+2348012345678")
  {
    InternationalExample("+2348012345678");
  }

  /** The proof of the example above, on a parameter so that the solver does
      not evaluate the cleaning step character by character. */
  lemma InternationalExample(s: string)
    requires s == "+2348012345678"
    ensures IsValidNigerianPhone(s)
  {
    DigitsHaveNoSeparators(s[1..]);
    assert !IsPhoneSeparator(s[0]);
    PhoneWithoutSeparators(s);
    var rest := s[4..];
    assert StartsWith(s, "+234") by { assert s[..4] == "+234"; }
    assert |rest| == 10 && rest[0] == '8' && rest[1] == '0';
    assert AllDigits(rest[2..]) by { assert rest[2..] == "12345678"; }
    assert InternationalPhonePattern(s);
  }

  lemma PhoneRejectsShortNumber()
    ensures !IsValidNigerianPhone("12345")
  {
    var s := "12345";
    PhoneWithoutSeparators(s);
  }

  // ---------------------------------------------------------------------
  // BVN and TIN
  // ---------------------------------------------------------------------

  function RemoveWhitespace(s: string): string {
    Filter(s, c => !IsWhitespace(c))
  }

  /** `/^\d{11}$/` */
  predicate BvnPattern(s: string) {
    |s| == 11 && AllDigits(s)
  }

  /** `/^\d{9}-\d{4}$/` */
  predicate TinPattern(s: string) {
    |s| == 14 && AllDigits(s[..9]) && s[9] == '-' && AllDigits(s[10..])
  }

  predicate IsValidBVN(bvn: string) {
    BvnPattern(RemoveWhitespace(bvn))
  }

  predicate IsValidTIN(tin: string) {
    TinPattern(RemoveWhitespace(tin))
  }

  /** On a string without whitespace the two checks are their patterns. */
  lemma IdentifiersWithoutWhitespace(s: string)
    requires forall i :: 0 <= i < |s| ==> !IsWhitespace(s[i])
    ensures IsValidBVN(s) <==> BvnPattern(s)
    ensures IsValidTIN(s) <==> TinPattern(s)
  {
  }

  /** On a string of digits, the BVN check is exactly a length check:
      eleven digits pass, ten or twelve do not. */
  lemma BvnDigitsIffEleven(s: string)
    requires AllDigits(s)
    ensures IsValidBVN(s) <==> |s| == 11
  {
    IdentifiersWithoutWhitespace(s);
  }

  lemma TinAcceptsExample()
    ensures IsValidTIN("123456789-1234")
  {
    TinExample("123456789-1234");
  }

  /** The proof of the example above, on a parameter so that the solver does
      not evaluate the whitespace removal character by character. */
  lemma TinExample(s: string)
    requires s == "123456789-1234"
    ensures IsValidTIN(s)
  {
    IdentifiersWithoutWhitespace(s);
    assert TinPattern(s);
  }

  lemma TinRejectsMissingSuffix()
    ensures !IsValidTIN("123456789")
  {
    var s := "123456789";
    IdentifiersWithoutWhitespace(s);
  }

  // ---------------------------------------------------------------------
  // Required-ness and names
  // ---------------------------------------------------------------------

  /** `isRequired`: the value is present and not only whitespace. */
  predicate IsRequired(value: Option<string>) {
    value.Some? && |Trim(value.value)| > 0
  }

  lemma RequiredIffNotBlank(value: Option<string>)
    ensures IsRequired(value) <==> value.Some? && !IsBlank(value.value)
  {
    if value.Some? {
      TrimEmptyIffBlank(value.value);
    }
  }

  /** `[a-zA-Z\s\-']` */
  predicate IsNameChar(c: char) {
    IsAsciiLetter(c) || IsWhitespace(c) || c == '-' || c == '\''
  }

  /** `/^[a-zA-Z\s\-']+$/` */
  predicate NamePattern(s: string) {
    |s| > 0 && forall i :: 0 <= i < |s| ==> IsNameChar(s[i])
  }

  predicate IsValidName(name: string) {
    NamePattern(name) && |Trim(name)| >= 2
  }

  /** A valid name is never blank, so it always passes the required check. */
  lemma ValidNameIsRequired(name: string)
    ensures IsValidName(name) ==> IsRequired(Some(name)) && !IsBlank(name)
  {
    TrimEmptyIffBlank(name);
  }

  // ---------------------------------------------------------------------
  // The validate* wrappers
  // ---------------------------------------------------------------------

  /** `ValidationResult`: `{isValid: true}` or `{isValid: false, error}`. */
  datatype ValidationResult = Valid | Invalid(error: string)

  /** The shared shape of `validatePhone`, `validateBVN` and `validateTIN`:
      a blank value passes unless required; anything else must be well
      formed. */
  function ValidateOptional(value: string, required: bool, wellFormed: bool,
                            missing: string, malformed: string): (r: ValidationResult)
    ensures IsBlank(value) ==> r == (if required then Invalid(missing) else Valid)
    ensures !IsBlank(value) ==> r == (if wellFormed then Valid else Invalid(malformed))
  {
    TrimEmptyIffBlank(value);
    if |Trim(value)| == 0 then
      if required then Invalid(missing) else Valid
    else if !wellFormed then Invalid(malformed)
    else Valid
  }

  /** `validatePhone(phone, required)`; a call that omits `required` passes
      `false`. */
  function ValidatePhone(phone: string, required: bool): (r: ValidationResult)
    ensures IsBlank(phone) && !required ==> r == Valid
    ensures IsBlank(phone) && required ==> r == Invalid("Phone number is required")
    ensures !IsBlank(phone) ==>
      r == (if IsValidNigerianPhone(phone) then Valid
            else Invalid("Please enter a valid Nigerian phone number"))
  {
    ValidateOptional(phone, required, IsValidNigerianPhone(phone),
      "Phone number is required", "Please enter a valid Nigerian phone number")
  }

  /** `validateBVN(bvn, required)`; a call that omits `required` passes
      `false`. */
  function ValidateBVN(bvn: string, required: bool): (r: ValidationResult)
    ensures IsBlank(bvn) && !required ==> r == Valid
    ensures IsBlank(bvn) && required ==> r == Invalid("BVN is required")
    ensures !IsBlank(bvn) ==>
      r == (if IsValidBVN(bvn) then Valid else Invalid("BVN must be 11 digits"))
  {
    ValidateOptional(bvn, required, IsValidBVN(bvn),
      "BVN is required", "BVN must be 11 digits")
  }

  /** `validateTIN(tin, required)`; a call that omits `required` passes
      `false`. */
  function ValidateTIN(tin: string, required: bool): (r: ValidationResult)
    ensures IsBlank(tin) && !required ==> r == Valid
    ensures IsBlank(tin) && required ==> r == Invalid("TIN is required")
    ensures !IsBlank(tin) ==>
      r == (if IsValidTIN(tin) then Valid else Invalid("TIN must be in format XXXXXXXXX-XXXX"))
  {
    ValidateOptional(tin, required, IsValidTIN(tin),
      "TIN is required", "TIN must be in format XXXXXXXXX-XXXX")
  }

  /** `validateEmail`: required-ness first, then format. */
  function ValidateEmail(email: string): (r: ValidationResult)
    ensures r == Valid <==> !IsBlank(email) && MatchesEmailPattern(email)
    ensures IsBlank(email) ==> r == Invalid("Email is required")
    ensures !IsBlank(email) && !MatchesEmailPattern(email) ==>
      r == Invalid("Please enter a valid email address")
  {
    RequiredIffNotBlank(Some(email));
    EmailMatchesPattern(email);
    if !IsRequired(Some(email)) then Invalid("Email is required")
    else if !IsValidEmail(email) then Invalid("Please enter a valid email address")
    else Valid
  }

  /** `validateName(name, fieldName)`: required-ness first, then format; a
      non-blank but malformed name always gets the format message. A call
      that omits `fieldName` passes `"Name"`. */
  function ValidateName(name: string, fieldName: string): (r: ValidationResult)
    ensures r == Valid <==> IsValidName(name)
    ensures IsBlank(name) ==> r == Invalid(fieldName + " is required")
    ensures !IsBlank(name) && !IsValidName(name) ==>
      r == Invalid(fieldName + " should only contain letters")
  {
    RequiredIffNotBlank(Some(name));
    ValidNameIsRequired(name);
    if !IsRequired(Some(name)) then Invalid(fieldName + " is required")
    else if !IsValidName(name) then Invalid(fieldName + " should only contain letters")
    else Valid
  }
}
