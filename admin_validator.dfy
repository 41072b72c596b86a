/** The schema of the admin "create user" route, as a decision over the request body. */
module AdminValidator {
  import opened Wrappers
  import opened JsonFields
  import opened UserModel
  import Text

  datatype CreateAdminUserFields = CreateAdminUserFields(
    fullName: Field, mobile: Field, password: Field, city: Field,
    planId: Field, accessDuration: Field, planTier: Field)

  /** `accessDuration`: the word `unlimited`, or a number of at least one. */
  datatype AccessDuration = Unlimited | Days(n: real)

  /** An accepted body. */
  datatype AdminUserRequest = AdminUserRequest(
    fullName: string, mobile: string, password: string, city: Option<string>,
    planId: Option<string>, accessDuration: Option<AccessDuration>, planTier: Option<Tier>)

  /** The pattern `^[0-9]{10}$`. */
  predicate TenDigits(s: string)
  {
    |s| == 10 && Text.AllDigits(s)
  }

  function AccessDurationOf(f: Field): (r: Option<AccessDuration>)
    ensures r.Some? && r.value.Days? ==> r.value.n >= 1.0
    ensures r.Some? && r.value.Unlimited? <==> f == Some(JStr("unlimited"))
  {
    match f
    case Some(JStr(s)) => if s == "unlimited" then Some(Unlimited) else None
    case Some(JNum(n)) => if n >= 1.0 then Some(Days(n)) else None
    case _ => None
  }

  function TierOf(s: string): (r: Option<Tier>)
    ensures r == Some(Regular) <==> s == "Regular"
    ensures r == Some(Premium) <==> s == "Premium"
    ensures r == Some(International) <==> s == "International"
  {
    if s == "Regular" then Some(Regular)
    else if s == "Premium" then Some(Premium)
    else if s == "International" then Some(International)
    else None
  }

  /** `createAdminUserSchema`. */
  function ValidateCreateAdminUser(b: CreateAdminUserFields): (r: Option<AdminUserRequest>)
    ensures r.Some? ==> && b.fullName == Some(JStr(r.value.fullName)) && r.value.fullName != ""
                        && b.mobile == Some(JStr(r.value.mobile)) && TenDigits(r.value.mobile)
                        && b.password == Some(JStr(r.value.password)) && |r.value.password| >= 6
    ensures r.Some? ==> && (r.value.accessDuration.Some? <==> b.accessDuration.Some?)
                        && (r.value.planTier.Some? <==> b.planTier.Some?)
                        && (r.value.planId.Some? ==> r.value.planId.value != "")
    ensures b.fullName.None? || b.mobile.None? || b.password.None? ==> r.None?
  {
    if && b.fullName.Some? && StringOk(b.fullName, false, false, None)
       && b.mobile.Some? && b.mobile.value.JStr? && TenDigits(b.mobile.value.s)
       && b.password.Some? && b.password.value.JStr? && |b.password.value.s| >= 6
       && StringOk(b.city, true, false, None)
       && StringOk(b.planId, false, false, None)
       && (b.accessDuration.None? || AccessDurationOf(b.accessDuration).Some?)
       && (b.planTier.None? || (b.planTier.value.JStr? && TierOf(b.planTier.value.s).Some?))
    then
      Some(AdminUserRequest(
        b.fullName.value.s, b.mobile.value.s, b.password.value.s, TextOf(b.city), TextOf(b.planId),
        if b.accessDuration.Some? then AccessDurationOf(b.accessDuration) else None,
        if b.planTier.Some? then TierOf(b.planTier.value.s) else None))
    else None
  }

  /** Every ten-digit number, written with its leading zeros, is an accepted mobile. */
  lemma {:induction false} EveryTenDigitNumberAccepted(n: nat, name: string, password: string)
    requires n < Text.Pow10(10) && name != "" && |password| >= 6
    ensures ValidateCreateAdminUser(CreateAdminUserFields(
              Some(JStr(name)), Some(JStr(Text.PadDigits(n, 10))), Some(JStr(password)), None, None, None, None)).Some?
    ensures Text.DigitsValue(Text.PadDigits(n, 10)) == n
  {
    Text.PadDigitsValue(n, 10);
  }

  /** A mobile of any other length, or with a non-digit, is refused. */
  lemma MobileMustBeTenDigits(b: CreateAdminUserFields)
    requires b.mobile.Some? && b.mobile.value.JStr?
    requires |b.mobile.value.s| != 10 || exists i :: 0 <= i < |b.mobile.value.s| && !Text.IsDigit(b.mobile.value.s[i])
    ensures ValidateCreateAdminUser(b).None?
  {
  }

  /** `accessDuration` accepts `unlimited` and numbers of at least one, nothing else. */
  lemma AccessDurationChoices(b: CreateAdminUserFields)
    requires ValidateCreateAdminUser(b).Some?
    ensures b.accessDuration.None? || b.accessDuration == Some(JStr("unlimited"))
            || (b.accessDuration.value.JNum? && b.accessDuration.value.n >= 1.0)
  {
  }

  /** The plan tier, when sent, is one of the three tiers and is read back as that tier. */
  lemma PlanTierChoices(b: CreateAdminUserFields)
    requires ValidateCreateAdminUser(b).Some? && b.planTier.Some?
    ensures b.planTier.value.JStr?
    ensures b.planTier.value.s == "Regular" || b.planTier.value.s == "Premium" || b.planTier.value.s == "International"
    ensures TierOf(b.planTier.value.s) == ValidateCreateAdminUser(b).value.planTier
  {
  }
}
