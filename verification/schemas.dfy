/** The form schemas of lib/validationSchemas.ts. Each schema is a list of
    per-field rules, read the way Yup reads them: a required field must be
    present and non-empty, a `min` bound counts characters, a pattern must
    match whenever the field is present. Values are the form's string fields;
    a missing key is `undefined`. Yup's `.email()` test is a parameter. */
module Schemas {

  import opened Wrappers
  import opened Text
  import opened Validation
  import opened OnboardingTypes

  /** `NIGERIAN_PHONE_REGEX`: `/^(\+?234|0)[7-9][0-1]\d{8}$/`. Unlike
      `isValidNigerianPhone` it does not strip separators first. */
  predicate SchemaPhonePattern(s: string) {
    PrefixedNumber(s, "+234") || PrefixedNumber(s, "234") || PrefixedNumber(s, "0")
  }

  /** The test a rule applies to a present value. */
  datatype Check = Unchecked | NameCheck | EmailCheck | PhoneCheck | BvnCheck | TinCheck

  /** One `Yup.string()` field: `.required()`, `.min(minLength)` and the
      `.matches`/`.email` test. */
  datatype Rule = Rule(field: string, required: bool, minLength: nat, check: Check)

  type Values = map<string, string>

  predicate CheckHolds(c: Check, s: string, isEmail: string -> bool) {
    match c
    case Unchecked => true
    case NameCheck => NamePattern(s)
    case EmailCheck => isEmail(s)
    case PhoneCheck => SchemaPhonePattern(s)
    case BvnCheck => BvnPattern(s)
    case TinCheck => TinPattern(s)
  }

  predicate RuleHolds(r: Rule, v: Values, isEmail: string -> bool) {
    if r.field !in v then !r.required
    else
      var s := v[r.field];
      && (r.required ==> |s| > 0)
      && |s| >= r.minLength
      && CheckHolds(r.check, s, isEmail)
  }

  /** `schema.isValidSync(values)` */
  predicate Valid(schema: seq<Rule>, v: Values, isEmail: string -> bool) {
    forall i :: 0 <= i < |schema| ==> RuleHolds(schema[i], v, isEmail)
  }

  /** Formik's `prepareDataForValidation`: an empty string becomes
      `undefined` before the schema sees the values. */
  function Prepared(v: Values): (r: Values)
    ensures r.Keys <= v.Keys
    ensures forall k :: k in r ==> r[k] == v[k] && r[k] != ""
  {
    map k | k in v && v[k] != "" :: v[k]
  }

  /** A rule read against prepared values: an empty field counts as missing,
      so it fails only when the field is required; a filled field must meet
      the length bound and the test. */
  lemma PreparedRuleMeaning(r: Rule, v: Values, isEmail: string -> bool)
    ensures RuleHolds(r, Prepared(v), isEmail) <==>
      if r.field !in v || v[r.field] == "" then !r.required
      else |v[r.field]| >= r.minLength && CheckHolds(r.check, v[r.field], isEmail)
  {
  }

  /** Preparing twice is preparing once. */
  lemma PreparedIdempotent(v: Values)
    ensures Prepared(Prepared(v)) == Prepared(v)
  {
  }

  /** The fields a schema marks `.required()`. */
  function RequiredOf(schema: seq<Rule>): set<string> {
    set i | 0 <= i < |schema| && schema[i].required :: schema[i].field
  }

  const IndividualSchema: seq<Rule> := [
    Rule("firstName", true, 2, NameCheck),
    Rule("lastName", true, 2, NameCheck),
    Rule("email", true, 0, EmailCheck),
    Rule("phoneNumber", false, 0, PhoneCheck),
    Rule("bvn", false, 0, BvnCheck),
    Rule("tin", false, 0, TinCheck)]

  const BusinessSchema: seq<Rule> := [
    Rule("firstName", true, 2, NameCheck),
    Rule("lastName", true, 2, NameCheck),
    Rule("email", true, 0, EmailCheck),
    Rule("phoneNumber", false, 0, PhoneCheck),
    Rule("businessName", true, 2, Unchecked),
    Rule("businessType", true, 0, Unchecked),
    Rule("businessCategory", true, 0, Unchecked),
    Rule("businessEmail", true, 0, EmailCheck),
    Rule("businessPhone", false, 0, PhoneCheck),
    Rule("registrationNumber", false, 0, Unchecked),
    Rule("address", false, 0, Unchecked),
    Rule("city", false, 0, Unchecked),
    Rule("state", false, 0, Unchecked)]

  const InvitationCodeSchema: seq<Rule> := [Rule("invitationCode", true, 3, Unchecked)]

  const LoginSchema: seq<Rule> := [
    Rule("email", true, 0, EmailCheck),
    Rule("password", true, 6, Unchecked)]

  /** A person's name field: present, at least two characters, and only
      letters, whitespace, `-` and `'`. */
  predicate PersonName(v: Values, f: string) {
    f in v && |v[f]| >= 2 && NamePattern(v[f])
  }

  predicate PresentEmail(v: Values, f: string, isEmail: string -> bool) {
    f in v && |v[f]| > 0 && isEmail(v[f])
  }

  predicate OptionalPhone(v: Values, f: string) {
    f in v ==> SchemaPhonePattern(v[f])
  }

  /** The individual schema, field by field. */
  lemma IndividualSchemaMeaning(v: Values, isEmail: string -> bool)
    ensures Valid(IndividualSchema, v, isEmail) <==>
      && PersonName(v, "firstName") && PersonName(v, "lastName")
      && PresentEmail(v, "email", isEmail)
      && OptionalPhone(v, "phoneNumber")
      && ("bvn" in v ==> BvnPattern(v["bvn"]))
      && ("tin" in v ==> TinPattern(v["tin"]))
  {
    if Valid(IndividualSchema, v, isEmail) {
      assert RuleHolds(IndividualSchema[0], v, isEmail);
      assert RuleHolds(IndividualSchema[1], v, isEmail);
      assert RuleHolds(IndividualSchema[2], v, isEmail);
      assert RuleHolds(IndividualSchema[3], v, isEmail);
      assert RuleHolds(IndividualSchema[4], v, isEmail);
      assert RuleHolds(IndividualSchema[5], v, isEmail);
    }
  }

  /** The business schema, field by field: the owner's fields, four
      required business fields, an optional business phone that must match
      the pattern, and four unconstrained fields. */
  lemma BusinessSchemaMeaning(v: Values, isEmail: string -> bool)
    ensures Valid(BusinessSchema, v, isEmail) <==>
      && PersonName(v, "firstName") && PersonName(v, "lastName")
      && PresentEmail(v, "email", isEmail)
      && OptionalPhone(v, "phoneNumber")
      && "businessName" in v && |v["businessName"]| >= 2
      && "businessType" in v && |v["businessType"]| > 0
      && "businessCategory" in v && |v["businessCategory"]| > 0
      && PresentEmail(v, "businessEmail", isEmail)
      && OptionalPhone(v, "businessPhone")
  {
    if Valid(BusinessSchema, v, isEmail) {
      assert RuleHolds(BusinessSchema[0], v, isEmail);
      assert RuleHolds(BusinessSchema[1], v, isEmail);
      assert RuleHolds(BusinessSchema[2], v, isEmail);
      assert RuleHolds(BusinessSchema[3], v, isEmail);
      assert RuleHolds(BusinessSchema[4], v, isEmail);
      assert RuleHolds(BusinessSchema[5], v, isEmail);
      assert RuleHolds(BusinessSchema[6], v, isEmail);
      assert RuleHolds(BusinessSchema[7], v, isEmail);
      assert RuleHolds(BusinessSchema[8], v, isEmail);
    }
  }

  /** The unconstrained business fields never make a form invalid: changing
      them keeps the verdict. */
  lemma BusinessOptionalFieldsUnconstrained(v: Values, isEmail: string -> bool, f: string, s: string)
    requires f in {"registrationNumber", "address", "city", "state"}
    ensures Valid(BusinessSchema, v[f := s], isEmail) <==> Valid(BusinessSchema, v, isEmail)
  {
    BusinessSchemaMeaning(v, isEmail);
    BusinessSchemaMeaning(v[f := s], isEmail);
  }

  lemma InvitationCodeSchemaMeaning(v: Values, isEmail: string -> bool)
    ensures Valid(InvitationCodeSchema, v, isEmail) <==>
      "invitationCode" in v && |v["invitationCode"]| >= 3
  {
    if Valid(InvitationCodeSchema, v, isEmail) {
      assert RuleHolds(InvitationCodeSchema[0], v, isEmail);
    }
  }

  lemma LoginSchemaMeaning(v: Values, isEmail: string -> bool)
    ensures Valid(LoginSchema, v, isEmail) <==>
      PresentEmail(v, "email", isEmail) && "password" in v && |v["password"]| >= 6
  {
    if Valid(LoginSchema, v, isEmail) {
      assert RuleHolds(LoginSchema[0], v, isEmail);
      assert RuleHolds(LoginSchema[1], v, isEmail);
    }
  }

  /** The individual schema requires exactly `REQUIRED_FIELDS.individual`. */
  lemma IndividualRequiredFields()
    ensures RequiredOf(IndividualSchema) == set f | f in RequiredIndividual
  {
    forall i | 0 <= i < |IndividualSchema| && IndividualSchema[i].required
      ensures IndividualSchema[i].field in RequiredIndividual
    {
      assert i == 0 || i == 1 || i == 2 || i == 3 || i == 4 || i == 5;
    }
    assert IndividualSchema[0].required && IndividualSchema[1].required;
    assert IndividualSchema[2].required;
  }

  /** The business schema requires exactly `REQUIRED_FIELDS.business`: the
      individual fields and four business fields. */
  lemma BusinessRequiredFields()
    ensures RequiredOf(BusinessSchema) == set f | f in RequiredBusiness
    ensures RequiredOf(BusinessSchema) - RequiredOf(IndividualSchema)
         == {"businessName", "businessType", "businessCategory", "businessEmail"}
  {
    IndividualRequiredFields();
    forall i | 0 <= i < |BusinessSchema| && BusinessSchema[i].required
      ensures BusinessSchema[i].field in RequiredBusiness
    {
      assert i < 8;
      assert i == 0 || i == 1 || i == 2 || i == 3 || i == 4 || i == 5 || i == 6 || i == 7;
    }
    assert BusinessSchema[0].required && BusinessSchema[1].required;
    assert BusinessSchema[2].required && BusinessSchema[4].required;
    assert BusinessSchema[5].required && BusinessSchema[6].required;
    assert BusinessSchema[7].required;
  }

  /** A string the schema pattern accepts is made of digits and `+`, so it
      holds no separator. */
  lemma SchemaPhoneHasNoSeparators(s: string)
    requires SchemaPhonePattern(s)
    ensures forall i :: 0 <= i < |s| ==> !IsPhoneSeparator(s[i])
  {
    forall i | 0 <= i < |s|
      ensures !IsPhoneSeparator(s[i])
    {
      if PrefixedNumber(s, "+234") {
        if i >= 4 { assert s[4..][i - 4] == s[i]; }
        else { assert s[..4][i] == s[i]; }
      } else if PrefixedNumber(s, "234") {
        if i >= 3 { assert s[3..][i - 3] == s[i]; }
        else { assert s[..3][i] == s[i]; }
      } else {
        if i >= 1 { assert s[1..][i - 1] == s[i]; }
        else { assert s[..1][i] == s[i]; }
      }
    }
  }

  /** Whatever the schema pattern accepts, `isValidNigerianPhone` accepts. */
  lemma SchemaPhoneImpliesValidator(s: string)
    requires SchemaPhonePattern(s)
    ensures IsValidNigerianPhone(s)
  {
    SchemaPhoneHasNoSeparators(s);
    PhoneWithoutSeparators(s);
  }

  /** On strings with no whitespace, hyphens or parentheses, the schema
      pattern and `isValidNigerianPhone` agree. */
  lemma SchemaPhoneAgreesWithoutSeparators(s: string)
    requires forall i :: 0 <= i < |s| ==> !IsPhoneSeparator(s[i])
    ensures SchemaPhonePattern(s) <==> IsValidNigerianPhone(s)
  {
    PhoneWithoutSeparators(s);
  }

  /** The converse fails: a space inside a number the schema accepts makes
      the schema reject it, while `isValidNigerianPhone` still accepts. */
  lemma SchemaPhoneRejectsSpacedNumber(a: string, b: string)
    requires SchemaPhonePattern(a + b)
    ensures IsValidNigerianPhone(a + " " + b)
    ensures !SchemaPhonePattern(a + " " + b)
  {
    var keep := c => !IsPhoneSeparator(c);
    SchemaPhoneHasNoSeparators(a + b);
    PhoneWithoutSeparators(a + b);
    forall i | 0 <= i < |a| ensures keep(a[i]) { assert a[i] == (a + b)[i]; }
    forall i | 0 <= i < |b| ensures keep(b[i]) { assert b[i] == (a + b)[|a| + i]; }
    FilterConcat(a + " ", b, keep);
    FilterConcat(a, " ", keep);
    assert Filter(" ", keep) == "";
    assert CleanPhone(a + " " + b) == a + b;
    if SchemaPhonePattern(a + " " + b) {
      SchemaPhoneHasNoSeparators(a + " " + b);
      assert false;
    }
  }
}
