/**
 * The `maxTargetsVisible` migration: three ordered bulk updates over the user
 * collection, held here as an array updated in place.
 */
module FixMaxTargets {
  import opened Wrappers
  import opened UserModel

  /** The three `updateMany` passes, in the order they run. */
  datatype Pass = ReplaceLegacy99 | CapPremiumTiers | CapRegular

  /** `$gt` on a stored value; a missing value never compares greater. */
  predicate Above(v: Option<int>, bound: int)
  {
    v.Some? && v.value > bound
  }

  function WithMax(u: User, n: int): User
  {
    u.(subscription := u.subscription.(maxTargetsVisible := Some(n)))
  }

  /** What one pass does to one user. */
  function Step(p: Pass, u: User): (r: User)
    ensures r.(subscription := u.subscription) == u
    ensures r.subscription.(maxTargetsVisible := u.subscription.maxTargetsVisible) == u.subscription
  {
    var s := u.subscription;
    match p
    case ReplaceLegacy99 =>
      if s.maxTargetsVisible == Some(99) then WithMax(u, 6) else u
    case CapPremiumTiers =>
      if (s.planTier == Some(Premium) || s.planTier == Some(International)) && Above(s.maxTargetsVisible, 6)
      then WithMax(u, 6) else u
    case CapRegular =>
      if s.planTier == Some(Regular) && Above(s.maxTargetsVisible, 2) then WithMax(u, 2) else u
  }

  /** The whole run on one user: the three passes in order. */
  function Migrated(u: User): User
  {
    Step(CapRegular, Step(CapPremiumTiers, Step(ReplaceLegacy99, u)))
  }

  /** One `updateMany`: every document of the collection goes through the pass. */
  method UpdateMany(a: array<User>, p: Pass)
    modifies a
    ensures forall i :: 0 <= i < a.Length ==> a[i] == Step(p, old(a[i]))
  {
    var i := 0;
    while i < a.Length
      invariant 0 <= i <= a.Length
      invariant forall j :: 0 <= j < i ==> a[j] == Step(p, old(a[j]))
      invariant forall j :: i <= j < a.Length ==> a[j] == old(a[j])
    {
      a[i] := Step(p, a[i]);
      i := i + 1;
    }
  }

  /** `migrateMaxTargets`: the three passes, one after the other. */
  method MigrateMaxTargets(a: array<User>)
    modifies a
    ensures forall i :: 0 <= i < a.Length ==> a[i] == Migrated(old(a[i]))
  {
    UpdateMany(a, ReplaceLegacy99);
    UpdateMany(a, CapPremiumTiers);
    UpdateMany(a, CapRegular);
  }

  /** After the run no user has the legacy value 99. */
  lemma NoLegacyValueRemains(u: User)
    ensures Migrated(u).subscription.maxTargetsVisible != Some(99)
  {
  }

  /** Premium and International users end at most at 6. */
  lemma PremiumTiersCapped(u: User)
    requires u.subscription.planTier == Some(Premium) || u.subscription.planTier == Some(International)
    ensures !Above(Migrated(u).subscription.maxTargetsVisible, 6)
  {
  }

  /** Regular users end at most at 2; a Regular user at 99 passes through 6 and ends at 2. */
  lemma RegularCapped(u: User)
    requires u.subscription.planTier == Some(Regular)
    ensures !Above(Migrated(u).subscription.maxTargetsVisible, 2)
    ensures u.subscription.maxTargetsVisible == Some(99) ==> Migrated(u).subscription.maxTargetsVisible == Some(2)
  {
  }

  /** A user with no tier at 99 ends at 6; any other value of such a user is kept. */
  lemma UntieredUsers(u: User)
    requires u.subscription.planTier.None?
    ensures u.subscription.maxTargetsVisible == Some(99) ==> Migrated(u).subscription.maxTargetsVisible == Some(6)
    ensures u.subscription.maxTargetsVisible != Some(99) ==> Migrated(u) == u
  {
  }

  /** Only `maxTargetsVisible` changes, and a value already within its tier's cap is kept. */
  lemma OnlyMaxTargetsChanges(u: User)
    ensures Migrated(u).(subscription := u.subscription) == u
    ensures Migrated(u).subscription.planTier == u.subscription.planTier
    ensures Migrated(u).subscription.(maxTargetsVisible := u.subscription.maxTargetsVisible) == u.subscription
    ensures u.subscription.maxTargetsVisible != Some(99)
            && !Above(u.subscription.maxTargetsVisible, if u.subscription.planTier == Some(Regular) then 2 else 6)
            ==> Migrated(u) == u
  {
  }

  /** Running the migration a second time changes nothing. */
  lemma MigrationIdempotent(u: User)
    ensures Migrated(Migrated(u)) == Migrated(u)
  {
  }
}
