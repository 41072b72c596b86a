/**
 * The subscriber record the controllers and the migration read and write:
 * a user with an embedded subscription, and the payments that reference a user.
 */
module UserModel {
  import opened Wrappers

  datatype Tier = Regular | Premium | International

  /** The embedded `subscription` sub-document; absent fields are `None` (null or unset). */
  datatype Subscription = Subscription(
    plan: Option<string>,
    startDate: Option<int>,
    endDate: Option<int>,
    isActive: bool,
    isUnlimited: bool,
    planTier: Option<Tier>,
    maxTargetsVisible: Option<int>)

  /** The subscription of a user that has never been given one. */
  const NoSubscription: Subscription := Subscription(None, None, None, false, false, None, None)

  datatype User = User(
    id: string,
    mobile: string,
    fullName: Option<string>,
    city: Option<string>,
    isActive: bool,
    subscription: Subscription)

  datatype Payment = Payment(id: string, user: string)
}
