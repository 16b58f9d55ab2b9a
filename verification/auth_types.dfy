/** The records of types/auth.types.ts: users, businesses, the
    account-creation payload, the server responses and the session state. */
module AuthTypes {

  import opened Wrappers

  /** `UserType`: 'individual' | 'employee' | 'business'. */
  datatype UserType = Individual | Employee | BusinessOwner

  /** The string literal each user type is sent as. */
  function UserTypeTag(t: UserType): string {
    match t
    case Individual => "individual"
    case Employee => "employee"
    case BusinessOwner => "business"
  }

  /** The three user types are told apart by their tags, so the type has
      exactly three values. */
  lemma UserTypeTagsDistinct(a: UserType, b: UserType)
    ensures UserTypeTag(a) == UserTypeTag(b) <==> a == b
    ensures a == Individual || a == Employee || a == BusinessOwner
  {
  }

  datatype User = User(
    id: string,
    email: string,
    firstName: string,
    lastName: string,
    phoneNumber: Option<string>,
    userType: UserType,
    businessId: Option<string>,
    bvn: Option<string>,
    tin: Option<string>,
    isAdmin: bool,
    createdAt: string,
    updatedAt: string)

  datatype Business = Business(
    id: string,
    name: string,
    email: string,
    phone: Option<string>,
    businessType: Option<string>,
    category: Option<string>,
    registrationNumber: Option<string>,
    address: Option<string>,
    city: Option<string>,
    state: Option<string>,
    invitationCode: Option<string>,
    createdAt: string,
    updatedAt: string)

  /** `AccountCreationPayload`, discriminated by `userType`. The fields the
      TypeScript types declare mandatory are `Option` here because the
      payload is assembled with unchecked `!` assertions (see `Conforms`). */
  datatype AccountCreationPayload =
    | IndividualPayload(
        userType: UserType,
        firstName: Option<string>,
        lastName: Option<string>,
        email: Option<string>,
        phoneNumber: Option<string>,
        bvn: Option<string>,
        tin: Option<string>,
        businessId: Option<string>)
    | BusinessPayload(
        firstName: Option<string>,
        lastName: Option<string>,
        email: Option<string>,
        phoneNumber: Option<string>,
        businessName: Option<string>,
        businessType: Option<string>,
        businessCategory: Option<string>,
        businessEmail: Option<string>,
        businessPhone: Option<string>,
        registrationNumber: Option<string>,
        address: Option<string>,
        city: Option<string>,
        state: Option<string>)

  /** The `userType` discriminant as sent. */
  function PayloadUserType(p: AccountCreationPayload): UserType {
    match p
    case IndividualPayload(t, _, _, _, _, _, _, _) => t
    case BusinessPayload(_, _, _, _, _, _, _, _, _, _, _, _, _) => BusinessOwner
  }

  /** What the static types promise of a payload: the individual variant is
      tagged 'individual' or 'employee' and carries the three personal
      fields; the business variant also carries the four business fields. */
  predicate Conforms(p: AccountCreationPayload) {
    && p.firstName.Some? && p.lastName.Some? && p.email.Some?
    && match p
       case IndividualPayload(t, _, _, _, _, _, _, _) => t != BusinessOwner
       case BusinessPayload(_, _, _, _, name, kind, category, email, _, _, _, _, _) =>
         name.Some? && kind.Some? && category.Some? && email.Some?
  }

  /** `AuthResponse.data` (the `success`/`message` envelope is not read). */
  datatype AuthResponse = AuthResponse(
    user: User,
    business: Option<Business>,
    accessToken: string,
    refreshToken: string)

  /** `BusinessVerificationResponse`; `business` may be missing at run time,
      which the onboarding hook tests for. */
  datatype VerificationResponse = VerificationResponse(success: bool, business: Option<Business>)

  /** `RefreshTokenResponse.data`. */
  datatype RefreshResponse = RefreshResponse(accessToken: string, refreshToken: string)

  /** `AuthState`: the session as the auth provider holds it. */
  datatype AuthState = AuthState(
    user: Option<User>,
    business: Option<Business>,
    isAuthenticated: bool,
    isLoading: bool,
    accessToken: Option<string>,
    refreshToken: Option<string>)

  predicate Distinct(s: seq<string>) {
    forall i, j :: 0 <= i < j < |s| ==> s[i] != s[j]
  }

  const BusinessTypes: seq<string> := [
    "Company", "Partnership", "Sole Proprietorship", "LLC", "Corporation",
    "Non-Profit", "Other"]

  const BusinessCategories: seq<string> := [
    "Technology", "Retail", "Services", "Manufacturing", "Healthcare",
    "Education", "Finance", "Real Estate", "Construction", "Hospitality",
    "Transportation", "Agriculture", "Entertainment", "Professional Services",
    "Other"]

  /** The option lists offer distinct entries and end with the catch-all. */
  lemma OptionListsWellFormed()
    ensures |BusinessTypes| == 7 && Distinct(BusinessTypes)
    ensures BusinessTypes[|BusinessTypes| - 1] == "Other"
    ensures |BusinessCategories| == 15 && Distinct(BusinessCategories)
    ensures BusinessCategories[|BusinessCategories| - 1] == "Other"
  {
  }
}
