/**
 * The admin user controller over an in-memory user and payment store:
 * listing filter, lookup, status toggle, payments, manual activation,
 * creation, update with subscription replace/extend arithmetic, and deletion.
 */
module AdminUsers {
  import opened Wrappers
  import opened UserModel
  import Text
  import Calendar

  /** 24 * 60 * 60 * 1000. */
  const DayMs: int := 86_400_000

  /** A JSON body field that may be left out, sent as null, or given a value. */
  datatype Input<T> = Absent | Null | Given(value: T)

  /** Truthiness of a number: present and non-zero. */
  predicate TruthyNumber(n: Option<int>)
  {
    n.Some? && n.value != 0
  }

  predicate TruthyText(s: Option<string>)
  {
    s.Some? && s.value != ""
  }

  /** `x || null` for an optional text field. */
  function NullIfEmpty(s: Input<string>): (r: Option<string>)
    ensures r.Some? <==> s.Given? && s.value != ""
    ensures r.Some? ==> r.value == s.value
  {
    if s.Given? && s.value != "" then Some(s.value) else None
  }

  // ---------------------------------------------------------------- listing filter

  /** The `$or` clause of the list filter: the text search, or "inactive or expired". */
  datatype OrClause = SearchText(term: string) | InactiveOrExpired(asOf: int)

  /** The list filter; `activeAfter` stands for `isActive: true` with `endDate > t`. */
  datatype UserFilter = UserFilter(or: Option<OrClause>, activeAfter: Option<int>)

  /** `endDate` compared with a date: a null end date satisfies neither `$gt` nor `$lte`. */
  predicate EndsAfter(s: Subscription, t: int)
  {
    s.endDate.Some? && s.endDate.value > t
  }

  predicate EndedBy(s: Subscription, t: int)
  {
    s.endDate.Some? && s.endDate.value <= t
  }

  /** The search `$or`: the term occurs in the mobile, the full name or the city. */
  predicate SearchHit(u: User, t: string)
  {
    Text.Contains(u.mobile, t)
    || (u.fullName.Some? && Text.Contains(u.fullName.value, t))
    || (u.city.Some? && Text.Contains(u.city.value, t))
  }

  predicate UserMatches(f: UserFilter, u: User)
  {
    && (f.or.Some? && f.or.value.SearchText? ==> SearchHit(u, f.or.value.term))
    && (f.or.Some? && f.or.value.InactiveOrExpired? ==>
          !u.subscription.isActive || EndedBy(u.subscription, f.or.value.asOf))
    && (f.activeAfter.Some? ==> u.subscription.isActive && EndsAfter(u.subscription, f.activeAfter.value))
  }

  /**
   * `getAllUsers` filter: a search sets the `$or`; 'active' adds the active
   * conditions; 'inactive' overwrites the `$or`, so the search is dropped.
   */
  method BuildUserFilter(search: Option<string>, subscriptionStatus: Option<string>, now: int) returns (f: UserFilter)
    ensures subscriptionStatus == Some("inactive") ==> f == UserFilter(Some(InactiveOrExpired(now)), None)
    ensures subscriptionStatus != Some("inactive") ==> f.or == if TruthyText(search) then Some(SearchText(search.value)) else None
    ensures f.activeAfter == if subscriptionStatus == Some("active") then Some(now) else None
  {
    f := UserFilter(None, None);
    if TruthyText(search) {
      f := f.(or := Some(SearchText(search.value)));
    }
    if subscriptionStatus == Some("active") {
      f := f.(activeAfter := Some(now));
    } else if subscriptionStatus == Some("inactive") {
      f := f.(or := Some(InactiveOrExpired(now)));
    }
  }

  /** The 'active' list keeps exactly the enabled subscriptions that end after `now`. */
  lemma ActiveListMeaning(u: User, now: int)
    ensures UserMatches(UserFilter(None, Some(now)), u) <==> u.subscription.isActive && EndsAfter(u.subscription, now)
  {
  }

  /**
   * As written, an unlimited subscription (enabled, null end date) is in
   * neither the 'active' nor the 'inactive' list.
   */
  lemma UnlimitedUserInNeitherList(u: User, now: int)
    requires u.subscription.isActive && u.subscription.isUnlimited && u.subscription.endDate.None?
    ensures !UserMatches(UserFilter(None, Some(now)), u)
    ensures !UserMatches(UserFilter(Some(InactiveOrExpired(now)), None), u)
  {
  }

  /** A subscription that is on at `now`: enabled, and unlimited or ending after `now`. */
  predicate SubscriptionOn(s: Subscription, now: int)
  {
    s.isActive && (s.isUnlimited || EndsAfter(s, now))
  }

  /** The list filter with unlimited subscriptions counted as active. */
  datatype StatusFilter = AnyStatus | OnlyActive(asOf: int) | OnlyInactive(asOf: int)

  predicate UserMatchesCorrected(search: Option<string>, status: StatusFilter, u: User)
  {
    && (status.OnlyInactive? || !TruthyText(search) || SearchHit(u, search.value))
    && (status.OnlyActive? ==> SubscriptionOn(u.subscription, status.asOf))
    && (status.OnlyInactive? ==> !SubscriptionOn(u.subscription, status.asOf))
  }

  /** The corrected builder: same parameters, with 'active' and 'inactive' complementary. */
  method BuildUserFilterCorrected(search: Option<string>, subscriptionStatus: Option<string>, now: int)
    returns (status: StatusFilter)
    ensures subscriptionStatus == Some("active") <==> status == OnlyActive(now)
    ensures subscriptionStatus == Some("inactive") <==> status == OnlyInactive(now)
    ensures subscriptionStatus != Some("active") && subscriptionStatus != Some("inactive") <==> status == AnyStatus
  {
    status := AnyStatus;
    if subscriptionStatus == Some("active") {
      status := OnlyActive(now);
    } else if subscriptionStatus == Some("inactive") {
      status := OnlyInactive(now);
    }
  }

  /** With the correction every user without a search term is in exactly one of the two lists. */
  lemma {:induction false} StatusListsPartitionUsers(u: User, now: int)
    ensures UserMatchesCorrected(None, OnlyActive(now), u) != UserMatchesCorrected(None, OnlyInactive(now), u)
    ensures u.subscription.isActive && u.subscription.isUnlimited ==> UserMatchesCorrected(None, OnlyActive(now), u)
  {
  }

  // ---------------------------------------------------------------- subscription arithmetic

  /** `plan === 'daily' ? 1 : 7`. */
  function DurationDays(plan: string): (d: int)
    ensures d == 1 <==> plan == "daily"
    ensures d == 1 || d == 7
  {
    if plan == "daily" then 1 else 7
  }

  /** The subscription `activateSubscription` stores: `plan` for one day if daily, else seven. */
  function ActivatedSubscription(plan: string, now: int): (s: Subscription)
    ensures s.plan == Some(plan) && s.startDate == Some(now) && s.isActive && !s.isUnlimited
    ensures s.endDate == Some(now + (if plan == "daily" then 1 else 7) * DayMs)
    ensures s.endDate.value > now
  {
    Subscription(Some(plan), Some(now), Some(now + DurationDays(plan) * DayMs), true, false, None, None)
  }

  /**
   * The new end date of an update with `accessDays`: in extend mode (flag set,
   * subscription enabled, an end date recorded) the days are added to the later
   * of the current end and now; otherwise they are counted from now.
   */
  function NewEndDate(current: Subscription, extend: bool, accessDays: int, now: int): (e: int)
    ensures e >= now + accessDays * DayMs
    ensures extend && current.isActive && current.endDate.Some? ==>
              e >= current.endDate.value + accessDays * DayMs
              && (e == current.endDate.value + accessDays * DayMs || e == now + accessDays * DayMs)
    ensures !(extend && current.isActive && current.endDate.Some?) ==> e == now + accessDays * DayMs
  {
    if extend && current.isActive && current.endDate.Some? then
      var base := if current.endDate.value > now then current.endDate.value else now;
      base + accessDays * DayMs
    else now + accessDays * DayMs
  }

  /** The body of `createUser`; unset defaults are `isActive = true` and `isUnlimited = false`. */
  datatype CreateUserBody = CreateUserBody(
    fullName: Input<string>,
    mobile: string,
    city: Input<string>,
    isActive: Option<bool>,
    accessDays: Option<int>,
    isUnlimited: Option<bool>)

  /** The subscription a created user starts with (none unless `accessDays` or `isUnlimited` is given). */
  function CreatedSubscription(body: CreateUserBody, now: int): (s: Subscription)
    ensures !TruthyNumber(body.accessDays) && body.isUnlimited != Some(true) ==> s == NoSubscription
    ensures body.isUnlimited == Some(true) ==>
              s.isActive && s.isUnlimited && s.endDate.None? && s.startDate == Some(now) && s.plan == Some("custom")
    ensures TruthyNumber(body.accessDays) && body.isUnlimited != Some(true) ==>
              s.isActive && !s.isUnlimited && s.startDate == Some(now) && s.plan == Some("custom")
              && s.endDate == Some(now + body.accessDays.value * DayMs)
  {
    var unlimited := body.isUnlimited == Some(true);
    if TruthyNumber(body.accessDays) || unlimited then
      Subscription(Some("custom"), Some(now),
        if unlimited then None else Some(now + body.accessDays.value * DayMs),
        true, unlimited, None, None)
    else NoSubscription
  }

  /** The body of `updateUser`; `extendSubscription` defaults to false. */
  datatype UpdateUserBody = UpdateUserBody(
    fullName: Input<string>,
    mobile: Option<string>,
    city: Input<string>,
    isActive: Option<bool>,
    accessDays: Option<int>,
    isUnlimited: Option<bool>,
    extendSubscription: Option<bool>)

  /** The subscription after `updateUser`. */
  function UpdatedSubscription(current: Subscription, body: UpdateUserBody, now: int): (s: Subscription)
    ensures body.accessDays.None? && body.isUnlimited.None? ==> s == current
    ensures body.isUnlimited == Some(true) ==>
              && s.endDate.None? && s.isActive && s.isUnlimited && s.plan == Some("custom")
              && s.startDate == (if current.isActive then current.startDate else Some(now))
    ensures body.isUnlimited != Some(true) && TruthyNumber(body.accessDays) ==>
              && s.isActive && !s.isUnlimited && s.plan == Some("custom")
              && s.endDate == Some(NewEndDate(current, body.extendSubscription == Some(true), body.accessDays.value, now))
              && s.startDate == (if body.extendSubscription == Some(true) && current.startDate.Some?
                                 then current.startDate else Some(now))
    ensures body.isUnlimited != Some(true) && !TruthyNumber(body.accessDays) ==> s == current
  {
    if body.accessDays.Some? || body.isUnlimited.Some? then
      if body.isUnlimited == Some(true) then
        Subscription(Some("custom"), if current.isActive then current.startDate else Some(now), None, true, true, None, None)
      else if TruthyNumber(body.accessDays) then
        var extend := body.extendSubscription == Some(true);
        Subscription(Some("custom"),
          if extend && current.startDate.Some? then current.startDate else Some(now),
          Some(NewEndDate(current, extend, body.accessDays.value, now)),
          true, false, None, None)
      else current
    else current
  }

  /** An update with a non-negative `accessDays` never ends a limited subscription before `now`. */
  lemma UpdatedEndNotBeforeNow(current: Subscription, body: UpdateUserBody, now: int)
    requires body.isUnlimited != Some(true) && TruthyNumber(body.accessDays) && body.accessDays.value >= 0
    ensures UpdatedSubscription(current, body, now).endDate.Some?
    ensures UpdatedSubscription(current, body, now).endDate.value >= now
  {
  }

  /** Extending an active subscription that still runs never shortens it. */
  lemma ExtendNeverShortens(current: Subscription, body: UpdateUserBody, now: int)
    requires body.isUnlimited != Some(true) && TruthyNumber(body.accessDays) && body.accessDays.value >= 0
    requires body.extendSubscription == Some(true) && current.isActive && current.endDate.Some?
    ensures UpdatedSubscription(current, body, now).endDate.value >= current.endDate.value
  {
  }

  // ---------------------------------------------------------------- the store

  function FindUser(users: seq<User>, id: string): (r: Option<nat>)
    ensures r.Some? ==> r.value < |users| && users[r.value].id == id
    ensures r.None? <==> forall j :: 0 <= j < |users| ==> users[j].id != id
  {
    if users == [] then None
    else if users[0].id == id then Some(0)
    else match FindUser(users[1..], id)
      case None => None
      case Some(k) => Some(k + 1)
  }

  /** `User.findOne({ mobile })` finds someone. */
  predicate MobileTaken(users: seq<User>, mobile: string)
  {
    exists j :: 0 <= j < |users| && users[j].mobile == mobile
  }

  /** Ids are unique, and no two users share a mobile number. */
  predicate UniqueUsers(users: seq<User>)
  {
    forall i, j :: 0 <= i < j < |users| ==> users[i].id != users[j].id && users[i].mobile != users[j].mobile
  }

  /** The payments of one user, in stored order. */
  function PaymentsOf(payments: seq<Payment>, userId: string): (r: seq<Payment>)
    ensures forall p :: p in r <==> p in payments && p.user == userId
  {
    if payments == [] then []
    else (if payments[0].user == userId then [payments[0]] else []) + PaymentsOf(payments[1..], userId)
  }

  /** `Payment.deleteMany({ user: id })`: the payments that remain. */
  function PaymentsNotOf(payments: seq<Payment>, userId: string): (r: seq<Payment>)
    ensures forall p :: p in r <==> p in payments && p.user != userId
  {
    if payments == [] then []
    else (if payments[0].user != userId then [payments[0]] else []) + PaymentsNotOf(payments[1..], userId)
  }

  /** `User.find(filter)` before sorting and paging: the matching users, in stored order. */
  function SelectUsers(users: seq<User>, f: UserFilter): (r: seq<User>)
    ensures forall u :: u in r <==> u in users && UserMatches(f, u)
  {
    if users == [] then []
    else (if UserMatches(f, users[0]) then [users[0]] else []) + SelectUsers(users[1..], f)
  }

  /** The same selection under the corrected status lists. */
  function SelectUsersCorrected(users: seq<User>, search: Option<string>, status: StatusFilter): (r: seq<User>)
    ensures forall u :: u in r <==> u in users && UserMatchesCorrected(search, status, u)
  {
    if users == [] then []
    else (if UserMatchesCorrected(search, status, users[0]) then [users[0]] else [])
         + SelectUsersCorrected(users[1..], search, status)
  }

  class UserStore {
    var users: seq<User>
    var payments: seq<Payment>

    ghost predicate Valid()
      reads this
    {
      UniqueUsers(users)
    }

    constructor ()
      ensures Valid() && users == [] && payments == []
    {
      users := [];
      payments := [];
    }

    /**
     * `getAllUsers` before sorting and paging, with the filter as written:
     * 'active' needs an end date after now (so unlimited users are left out),
     * and 'inactive' replaces the search by "disabled or ended by now".
     */
    method GetAllUsers(search: Option<string>, subscriptionStatus: Option<string>, now: int) returns (r: seq<User>)
      ensures subscriptionStatus == Some("inactive") ==>
                forall u :: u in r <==> u in users && (!u.subscription.isActive || EndedBy(u.subscription, now))
      ensures subscriptionStatus != Some("inactive") ==>
                forall u :: u in r <==>
                  && u in users
                  && (TruthyText(search) ==> SearchHit(u, search.value))
                  && (subscriptionStatus == Some("active") ==> u.subscription.isActive && EndsAfter(u.subscription, now))
    {
      var f := BuildUserFilter(search, subscriptionStatus, now);
      r := SelectUsers(users, f);
    }

    /**
     * `getAllUsers` with the corrected status lists: 'active' keeps the
     * subscriptions that are on (unlimited ones included), 'inactive' the
     * others and, as written, ignores the search.
     */
    method GetAllUsersCorrected(search: Option<string>, subscriptionStatus: Option<string>, now: int) returns (r: seq<User>)
      ensures subscriptionStatus == Some("inactive") ==>
                forall u :: u in r <==> u in users && !SubscriptionOn(u.subscription, now)
      ensures subscriptionStatus != Some("inactive") ==>
                forall u :: u in r <==>
                  && u in users
                  && (TruthyText(search) ==> SearchHit(u, search.value))
                  && (subscriptionStatus == Some("active") ==> SubscriptionOn(u.subscription, now))
    {
      var status := BuildUserFilterCorrected(search, subscriptionStatus, now);
      r := SelectUsersCorrected(users, search, status);
    }

    method GetUserById(id: string) returns (r: Result<User>)
      ensures r.Err? <==> FindUser(users, id).None?
      ensures r.Err? ==> r.error == NotFound
      ensures r.Ok? ==> r.value == users[FindUser(users, id).value] && r.value.id == id
    {
      var i := FindUser(users, id);
      if i.None? {
        return Err(NotFound);
      }
      r := Ok(users[i.value]);
    }

    /** `updateUserStatus`: set the account's `isActive`; an unknown id is a 404. */
    method UpdateUserStatus(id: string, isActive: bool) returns (r: Result<User>)
      requires Valid()
      modifies this`users
      ensures Valid()
      ensures r.Err? <==> FindUser(old(users), id).None?
      ensures r.Err? ==> r.error == NotFound && users == old(users)
      ensures r.Ok? ==> var i := FindUser(old(users), id).value;
                        r.value == old(users)[i].(isActive := isActive) && users == old(users)[i := r.value]
    {
      var i := FindUser(users, id);
      if i.None? {
        return Err(NotFound);
      }
      var u := users[i.value].(isActive := isActive);
      users := users[i.value := u];
      r := Ok(u);
    }

    /** `getUserPayments` before sorting and paging. */
    method GetUserPayments(id: string) returns (r: Result<seq<Payment>>)
      ensures r.Err? <==> FindUser(users, id).None?
      ensures r.Err? ==> r.error == NotFound
      ensures r.Ok? ==> forall p :: p in r.value <==> p in payments && p.user == id
    {
      var i := FindUser(users, id);
      if i.None? {
        return Err(NotFound);
      }
      r := Ok(PaymentsOf(payments, id));
    }

    /** `activateSubscription`: replace the subscription by a daily or weekly one starting now. */
    method ActivateSubscription(id: string, plan: string, now: int) returns (r: Result<User>)
      requires Valid()
      modifies this`users
      ensures Valid()
      ensures r.Err? <==> FindUser(old(users), id).None?
      ensures r.Err? ==> r.error == NotFound && users == old(users)
      ensures r.Ok? ==> var i := FindUser(old(users), id).value;
                        r.value == old(users)[i].(subscription := ActivatedSubscription(plan, now))
                        && users == old(users)[i := r.value]
    {
      var i := FindUser(users, id);
      if i.None? {
        return Err(NotFound);
      }
      var u := users[i.value];
      u := u.(subscription := ActivatedSubscription(plan, now));
      users := users[i.value := u];
      r := Ok(u);
    }

    /** `createUser`: a taken mobile is a 409 and nothing is stored. */
    method CreateUser(id: string, body: CreateUserBody, now: int) returns (r: Result<User>)
      requires Valid() && FindUser(users, id).None?
      modifies this`users
      ensures Valid()
      ensures r.Err? <==> MobileTaken(old(users), body.mobile)
      ensures r.Err? ==> r.error == Conflict && users == old(users)
      ensures r.Ok? ==> users == old(users) + [r.value]
      ensures r.Ok? ==> && r.value.id == id && r.value.mobile == body.mobile
                        && r.value.isActive == (if body.isActive.Some? then body.isActive.value else true)
                        && r.value.fullName == NullIfEmpty(body.fullName)
                        && r.value.city == NullIfEmpty(body.city)
                        && r.value.subscription == CreatedSubscription(body, now)
    {
      var j := 0;
      while j < |users|
        invariant 0 <= j <= |users|
        invariant forall k :: 0 <= k < j ==> users[k].mobile != body.mobile
      {
        if users[j].mobile == body.mobile {
          return Err(Conflict);
        }
        j := j + 1;
      }
      var u := User(id, body.mobile, None, None, if body.isActive.Some? then body.isActive.value else true, NoSubscription);
      if body.fullName.Given? && body.fullName.value != "" {
        u := u.(fullName := Some(body.fullName.value));
      }
      if body.city.Given? && body.city.value != "" {
        u := u.(city := Some(body.city.value));
      }
      if TruthyNumber(body.accessDays) || body.isUnlimited == Some(true) {
        u := u.(subscription := CreatedSubscription(body, now));
      }
      users := users + [u];
      r := Ok(u);
    }

    /**
     * `updateUser`: a new mobile that another user has is a 409 and nothing is
     * saved; otherwise the given fields are overwritten one by one.
     */
    method UpdateUser(id: string, body: UpdateUserBody, now: int) returns (r: Result<User>)
      requires Valid()
      modifies this`users
      ensures Valid()
      ensures FindUser(old(users), id).None? ==> r == Err(NotFound) && users == old(users)
      ensures r.Err? ==> users == old(users)
      ensures r.Err? ==> (r == Err(NotFound) && FindUser(old(users), id).None?) || r == Err(Conflict)
      ensures FindUser(old(users), id).Some? ==>
                var old_u := old(users)[FindUser(old(users), id).value];
                && (r == Err(Conflict) <==>
                      TruthyText(body.mobile) && body.mobile.value != old_u.mobile && MobileTaken(old(users), body.mobile.value))
                && (r.Ok? ==>
                      var u := r.value;
                      && users == old(users)[FindUser(old(users), id).value := u]
                      && u.id == old_u.id
                      && u.mobile == (if TruthyText(body.mobile) then body.mobile.value else old_u.mobile)
                      && u.fullName == (if body.fullName.Absent? then old_u.fullName else NullIfEmpty(body.fullName))
                      && u.city == (if body.city.Absent? then old_u.city else NullIfEmpty(body.city))
                      && u.isActive == (if body.isActive.Some? then body.isActive.value else old_u.isActive)
                      && u.subscription == UpdatedSubscription(old_u.subscription, body, now))
    {
      var i := FindUser(users, id);
      if i.None? {
        return Err(NotFound);
      }
      var u := users[i.value];
      if TruthyText(body.mobile) && body.mobile.value != u.mobile {
        if MobileTaken(users, body.mobile.value) {
          return Err(Conflict);
        }
        u := u.(mobile := body.mobile.value);
      }
      if !body.fullName.Absent? {
        u := u.(fullName := NullIfEmpty(body.fullName));
      }
      if !body.city.Absent? {
        u := u.(city := NullIfEmpty(body.city));
      }
      if body.isActive.Some? {
        u := u.(isActive := body.isActive.value);
      }
      u := u.(subscription := UpdatedSubscription(u.subscription, body, now));
      users := users[i.value := u];
      r := Ok(u);
    }

    /** `deleteUser`: remove the user and every payment that references it; an unknown id is a 404. */
    method DeleteUser(id: string) returns (r: Result<()>)
      requires Valid()
      modifies this
      ensures Valid()
      ensures r.Err? <==> FindUser(old(users), id).None?
      ensures r.Err? ==> r.error == NotFound && users == old(users) && payments == old(payments)
      ensures r.Ok? ==> forall u :: u in users <==> u in old(users) && u.id != id
      ensures r.Ok? ==> forall p :: p in payments <==> p in old(payments) && p.user != id
    {
      var i := FindUser(users, id);
      if i.None? {
        return Err(NotFound);
      }
      var k := i.value;
      forall u | u in users[..k] + users[k + 1..] ensures u.id != id {
        var j :| 0 <= j < |users[..k] + users[k + 1..]| && (users[..k] + users[k + 1..])[j] == u;
        if j < k { assert u == users[j]; } else { assert u == users[j + 1]; }
      }
      assert users == users[..k] + [users[k]] + users[k + 1..];
      users := users[..k] + users[k + 1..];
      payments := PaymentsNotOf(payments, id);
      r := Ok(());
    }
  }
}
