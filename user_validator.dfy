/**
 * The request schemas of the user administration routes, as decisions that
 * accept a body (returning it with the schema's defaults filled in) or reject it.
 */
module UserValidator {
  import opened Wrappers
  import opened JsonFields
  import Text
  import AdminUsers

  // ---------------------------------------------------------------- ObjectId

  /** How many characters at the front of `s` are hexadecimal digits. */
  function HexRunLength(s: string): (n: nat)
    ensures n <= |s|
  {
    if s == [] || !Text.IsHexDigit(s[0]) then 0 else 1 + HexRunLength(s[1..])
  }

  /** The pattern `^[0-9a-fA-F]{24}$`, matched left to right. */
  predicate MatchesObjectIdPattern(s: string)
  {
    |s| == 24 && HexRunLength(s) == 24
  }

  lemma {:induction false} HexRunCoversAll(s: string)
    ensures HexRunLength(s) == |s| <==> forall i :: 0 <= i < |s| ==> Text.IsHexDigit(s[i])
  {
    if s != [] {
      HexRunCoversAll(s[1..]);
      if HexRunLength(s) == |s| {
        forall i | 0 <= i < |s| ensures Text.IsHexDigit(s[i]) {
          if i > 0 { assert s[i] == s[1..][i - 1]; }
        }
      }
      if forall i :: 0 <= i < |s| ==> Text.IsHexDigit(s[i]) {
        assert forall i :: 0 <= i < |s[1..]| ==> Text.IsHexDigit(s[1..][i]) by {
          forall i | 0 <= i < |s[1..]| ensures Text.IsHexDigit(s[1..][i]) { assert s[1..][i] == s[i + 1]; }
        }
      }
    }
  }

  /** An id is accepted exactly when it has 24 characters, every one a hexadecimal digit. */
  lemma ObjectIdMeaning(s: string)
    ensures MatchesObjectIdPattern(s) <==> |s| == 24 && forall i :: 0 <= i < |s| ==> Text.IsHexDigit(s[i])
  {
    HexRunCoversAll(s);
  }

  /** `objectIdSchema`: a string matching the pattern (an empty string is refused before the pattern). */
  predicate ObjectIdOk(f: Field)
  {
    f.None? || (f.value.JStr? && f.value.s != "" && MatchesObjectIdPattern(f.value.s))
  }

  // ---------------------------------------------------------------- pagination

  datatype PageQuery = PageQuery(page: Field, limit: Field, sortBy: Field, sortOrder: Field, search: Field)

  /** A validated page request with the defaults filled in. */
  datatype Paging = Paging(page: int, limit: int, sortBy: string, sortOrder: string)

  const PaginationSortFields: seq<string> := ["createdAt", "updatedAt", "mobile"]
  const SortOrders: seq<string> := ["asc", "desc"]

  /** `paginationQuerySchema`. */
  function ValidatePagination(q: PageQuery): (r: Option<Paging>)
    ensures r.Some? ==> && r.value.page >= 1 && 1 <= r.value.limit <= 100
                        && r.value.sortBy in PaginationSortFields && r.value.sortOrder in SortOrders
    ensures r.Some? ==> && (q.page.None? ==> r.value.page == 1)
                        && (q.limit.None? ==> r.value.limit == 10)
                        && (q.sortBy.None? ==> r.value.sortBy == "createdAt")
                        && (q.sortOrder.None? ==> r.value.sortOrder == "desc")
    ensures r.Some? ==> && (q.page.Some? ==> q.page == Some(JNum(r.value.page as real)))
                        && (q.limit.Some? ==> q.limit == Some(JNum(r.value.limit as real)))
    ensures q.page.Some? && q.page.value.JNum? && !IsInteger(q.page.value.n) ==> r.None?
    ensures (q.search.Some? && q.search.value.JStr? && |q.search.value.s| > 100) ==> r.None?
  {
    if && NumberOk(q.page, true, Some(1), None)
       && NumberOk(q.limit, true, Some(1), Some(100))
       && OneOfOk(q.sortBy, PaginationSortFields)
       && OneOfOk(q.sortOrder, SortOrders)
       && StringOk(q.search, true, false, Some(100))
    then Some(Paging(IntOr(q.page, 1), IntOr(q.limit, 10), TextOr(q.sortBy, "createdAt"), TextOr(q.sortOrder, "desc")))
    else None
  }

  /** Every in-range page request is accepted and read back unchanged. */
  lemma PaginationAcceptsInRange(page: int, limit: int, sortBy: string, sortOrder: string)
    requires page >= 1 && 1 <= limit <= 100 && sortBy in PaginationSortFields && sortOrder in SortOrders
    ensures ValidatePagination(PageQuery(Some(JNum(page as real)), Some(JNum(limit as real)),
              Some(JStr(sortBy)), Some(JStr(sortOrder)), None))
            == Some(Paging(page, limit, sortBy, sortOrder))
  {
  }

  /** An empty query is a request for the first ten, newest first. */
  lemma PaginationDefaults()
    ensures ValidatePagination(PageQuery(None, None, None, None, None)) == Some(Paging(1, 10, "createdAt", "desc"))
  {
  }

  /** Page 0 and a limit over 100 are refused. */
  lemma PaginationRejectsOutOfRange(q: PageQuery)
    requires q.page == Some(JNum(0.0)) || q.limit == Some(JNum(101.0))
    ensures ValidatePagination(q).None?
  {
  }

  // ---------------------------------------------------------------- user list query

  datatype UserFilterQuery = UserFilterQuery(
    page: Field, limit: Field, search: Field, isActive: Field, hasSubscription: Field,
    subscriptionPlan: Field, sortBy: Field, sortOrder: Field)

  const UserSortFields: seq<string> := ["createdAt", "updatedAt", "mobile", "subscription.endDate"]

  /** `userFilterQuerySchema`: the page request it carries, defaults filled in. */
  function ValidateUserFilterQuery(q: UserFilterQuery): (r: Option<Paging>)
    ensures r.Some? ==> && r.value.page >= 1 && 1 <= r.value.limit <= 100
                        && r.value.sortBy in UserSortFields && r.value.sortOrder in SortOrders
    ensures r.Some? ==> BoolOk(q.isActive) && BoolOk(q.hasSubscription)
                        && OneOfOk(q.subscriptionPlan, ["daily", "weekly", "custom"])
    ensures r.Some? && q.sortBy.None? ==> r.value.sortBy == "createdAt"
  {
    if && NumberOk(q.page, true, Some(1), None)
       && NumberOk(q.limit, true, Some(1), Some(100))
       && StringOk(q.search, true, false, Some(100))
       && BoolOk(q.isActive)
       && BoolOk(q.hasSubscription)
       && OneOfOk(q.subscriptionPlan, ["daily", "weekly", "custom"])
       && OneOfOk(q.sortBy, UserSortFields)
       && OneOfOk(q.sortOrder, SortOrders)
    then Some(Paging(IntOr(q.page, 1), IntOr(q.limit, 10), TextOr(q.sortBy, "createdAt"), TextOr(q.sortOrder, "desc")))
    else None
  }

  // ---------------------------------------------------------------- status and activation

  /** `updateUserStatusSchema`: `isActive` is a required boolean. */
  function ValidateUserStatus(isActive: Field): (r: Option<bool>)
    ensures r.Some? <==> isActive.Some? && isActive.value.JBool?
    ensures r.Some? ==> isActive == Some(JBool(r.value))
  {
    if isActive.Some? && isActive.value.JBool? then Some(isActive.value.b) else None
  }

  /** `activateSubscriptionSchema`: the accepted plan (the controller does not read `durationDays`). */
  function ValidateActivation(plan: Field, durationDays: Field): (r: Option<string>)
    ensures r.Some? ==> (r.value == "daily" || r.value == "weekly") && plan == Some(JStr(r.value))
    ensures r.Some? ==> durationDays.None? || (durationDays.value.JNum? && IsInteger(durationDays.value.n)
                                                && 1.0 <= durationDays.value.n <= 365.0)
    ensures plan.None? ==> r.None?
  {
    if plan.Some? && OneOfOk(plan, ["daily", "weekly"]) && NumberOk(durationDays, true, Some(1), Some(365))
    then Some(plan.value.s)
    else None
  }

  lemma ActivationAcceptsPlans(plan: string, days: int)
    requires plan == "daily" || plan == "weekly"
    requires 1 <= days <= 365
    ensures ValidateActivation(Some(JStr(plan)), None) == Some(plan)
    ensures ValidateActivation(Some(JStr(plan)), Some(JNum(days as real))) == Some(plan)
    ensures ValidateActivation(Some(JStr(plan)), Some(JNum(366.0))).None?
    ensures ValidateActivation(Some(JStr("monthly")), None).None?
  {
  }

  // ---------------------------------------------------------------- create user

  datatype CreateUserFields = CreateUserFields(
    fullName: Field, mobile: Field, city: Field, isActive: Field, accessDays: Field, isUnlimited: Field)

  /** A name or city key: a string of at most 100 characters, `""` or `null`. */
  predicate OptionalTextOk(f: Field)
  {
    StringOk(f, true, true, Some(100))
  }

  function InputOf(f: Field): AdminUsers.Input<string>
  {
    if f.None? then AdminUsers.Absent
    else if f.value.JStr? then AdminUsers.Given(f.value.s)
    else AdminUsers.Null
  }

  /** `accessDays`: an integer from 1 to 3650. */
  predicate AccessDaysOk(f: Field)
  {
    NumberOk(f, true, Some(1), Some(3650))
  }

  /**
   * `createUserSchema`, including its custom check that `isUnlimited` and
   * `accessDays` are not both set; `isActive` defaults to true and
   * `isUnlimited` to false.
   */
  function ValidateCreateUser(b: CreateUserFields): (r: Option<AdminUsers.CreateUserBody>)
    ensures r.Some? ==> b.mobile == Some(JStr(r.value.mobile)) && r.value.mobile != ""
    ensures r.Some? ==> && r.value.isActive == Some(b.isActive != Some(JBool(false)))
                        && r.value.isUnlimited == Some(b.isUnlimited == Some(JBool(true)))
    ensures r.Some? ==> r.value.accessDays.None? || 1 <= r.value.accessDays.value <= 3650
    ensures r.Some? ==> !(r.value.isUnlimited == Some(true) && r.value.accessDays.Some?)
    ensures r.Some? ==> && (r.value.fullName.Given? ==> |r.value.fullName.value| <= 100)
                        && (r.value.city.Given? ==> |r.value.city.value| <= 100)
    ensures b.mobile.None? || b.mobile == Some(JStr("")) ==> r.None?
  {
    if && OptionalTextOk(b.fullName)
       && b.mobile.Some? && StringOk(b.mobile, false, false, None)
       && OptionalTextOk(b.city)
       && BoolOk(b.isActive)
       && AccessDaysOk(b.accessDays)
       && BoolOk(b.isUnlimited)
    then
      var isUnlimited := b.isUnlimited.Some? && b.isUnlimited.value.b;
      var accessDays := if b.accessDays.Some? then Some(b.accessDays.value.n.Floor) else None;
      if isUnlimited && accessDays.Some? then None
      else
        Some(AdminUsers.CreateUserBody(
          InputOf(b.fullName), b.mobile.value.s, InputOf(b.city),
          Some(if b.isActive.Some? then b.isActive.value.b else true),
          accessDays, Some(isUnlimited)))
    else None
  }

  /** A body with a mobile number and nothing else is accepted, with the defaults. */
  lemma CreateUserMinimalBody(mobile: string)
    requires mobile != ""
    ensures ValidateCreateUser(CreateUserFields(None, Some(JStr(mobile)), None, None, None, None))
            == Some(AdminUsers.CreateUserBody(AdminUsers.Absent, mobile, AdminUsers.Absent, Some(true), None, Some(false)))
  {
  }

  /** Both `isUnlimited: true` and an `accessDays` count: refused, whatever else the body says. */
  lemma CreateUserConflict(b: CreateUserFields)
    requires b.isUnlimited == Some(JBool(true)) && b.accessDays.Some?
    ensures ValidateCreateUser(b).None?
  {
  }

  /** Fractional or out-of-range access days are refused. */
  lemma CreateUserAccessDaysRange(b: CreateUserFields)
    requires b.accessDays == Some(JNum(0.0)) || b.accessDays == Some(JNum(3651.0)) || b.accessDays == Some(JNum(1.5))
    ensures ValidateCreateUser(b).None?
  {
  }

  // ---------------------------------------------------------------- update user

  datatype UpdateUserFields = UpdateUserFields(
    fullName: Field, mobile: Field, city: Field, isActive: Field,
    accessDays: Field, isUnlimited: Field, extendSubscription: Field)

  /** How many keys the client sent. */
  function SentKeys(b: UpdateUserFields): (n: nat)
    ensures n == 0 <==> b == UpdateUserFields(None, None, None, None, None, None, None)
  {
    (if b.fullName.Some? then 1 else 0) + (if b.mobile.Some? then 1 else 0) + (if b.city.Some? then 1 else 0)
    + (if b.isActive.Some? then 1 else 0) + (if b.accessDays.Some? then 1 else 0)
    + (if b.isUnlimited.Some? then 1 else 0) + (if b.extendSubscription.Some? then 1 else 0)
  }

  /** The per-key rules of `updateUserSchema`. */
  predicate UpdateKeysOk(b: UpdateUserFields)
  {
    && OptionalTextOk(b.fullName)
    && StringOk(b.mobile, false, false, None)
    && OptionalTextOk(b.city)
    && BoolOk(b.isActive)
    && AccessDaysOk(b.accessDays)
    && BoolOk(b.isUnlimited)
    && BoolOk(b.extendSubscription)
  }

  function UpdateBodyOf(b: UpdateUserFields, extendSubscription: Option<bool>): AdminUsers.UpdateUserBody
  {
    AdminUsers.UpdateUserBody(
      InputOf(b.fullName), TextOf(b.mobile), InputOf(b.city), BoolOf(b.isActive),
      if b.accessDays.Some? && b.accessDays.value.JNum? then Some(b.accessDays.value.n.Floor) else None,
      BoolOf(b.isUnlimited), extendSubscription)
  }

  /**
   * `updateUserSchema` as written: `extendSubscription` is defaulted to false
   * while the keys are validated, and only then is `min(1)` counted, on the
   * value that already holds the default.
   */
  function ValidateUpdateUserAsWritten(b: UpdateUserFields): (r: Option<AdminUsers.UpdateUserBody>)
    ensures r.Some? ==> r.value.extendSubscription.Some?
    ensures r.Some? <==> UpdateKeysOk(b)
  {
    var withDefault := if b.extendSubscription.None? then b.(extendSubscription := Some(JBool(false))) else b;
    if UpdateKeysOk(b) && SentKeys(withDefault) >= 1
    then Some(UpdateBodyOf(b, BoolOf(withDefault.extendSubscription)))
    else None
  }

  /** As written, an empty body passes the "at least one field" rule. */
  lemma EmptyUpdateAcceptedAsWritten()
    ensures ValidateUpdateUserAsWritten(UpdateUserFields(None, None, None, None, None, None, None)).Some?
  {
  }

  /**
   * `updateUserSchema` with `min(1)` counting the keys the client sent; the
   * false default of `extendSubscription` is left to the controller.
   */
  function ValidateUpdateUser(b: UpdateUserFields): (r: Option<AdminUsers.UpdateUserBody>)
    ensures r.Some? ==> SentKeys(b) >= 1
    ensures r.Some? ==> r.value.mobile.None? || r.value.mobile.value != ""
    ensures r.Some? ==> r.value.accessDays.None? || 1 <= r.value.accessDays.value <= 3650
    ensures r.Some? ==> && (r.value.fullName.Given? ==> |r.value.fullName.value| <= 100)
                        && (r.value.city.Given? ==> |r.value.city.value| <= 100)
  {
    if UpdateKeysOk(b) && SentKeys(b) >= 1
    then Some(UpdateBodyOf(b, BoolOf(b.extendSubscription)))
    else None
  }

  /** The correction only changes the verdict on the empty body. */
  lemma UpdateCorrectionOnlyRejectsEmpty(b: UpdateUserFields)
    ensures ValidateUpdateUser(b).Some? <==> ValidateUpdateUserAsWritten(b).Some? && SentKeys(b) >= 1
    ensures ValidateUpdateUser(UpdateUserFields(None, None, None, None, None, None, None)).None?
  {
  }

  /** An update that only sets the name is accepted and carries just that change. */
  lemma UpdateNameOnly(name: string)
    requires |name| <= 100
    ensures ValidateUpdateUser(UpdateUserFields(Some(JStr(name)), None, None, None, None, None, None))
            == Some(AdminUsers.UpdateUserBody(AdminUsers.Given(name), None, AdminUsers.Absent, None, None, None, None))
  {
  }
}
