/**
 * The profile and preference accessors of settingsService.ts. Each is a
 * single locally cached record (`finhive_user_profile`,
 * `finhive_user_preferences`); the profile falls back to a remote
 * single-row select, the preferences are local only.
 */
module Settings {
  import opened Wrappers
  import opened Remote
  import opened Records

  // ------------------------------------------------------------ profile

  /** A user profile; every field but `id` may be absent. */
  datatype Profile = Profile(
    id: UserId,
    firstName: Option<string>, lastName: Option<string>,
    phoneNumber: Option<string>, avatarUrl: Option<string>,
    createdAt: Option<Timestamp>, updatedAt: Option<Timestamp>)

  /** A partial profile as a caller passes it: the fields it carries are `Some`. */
  datatype ProfilePatch = ProfilePatch(
    id: Option<UserId>,
    firstName: Option<string>, lastName: Option<string>,
    phoneNumber: Option<string>, avatarUrl: Option<string>,
    createdAt: Option<Timestamp>, updatedAt: Option<Timestamp>)

  /** Object spread of one optional field: the later object's value wins when it carries one. */
  function Over<T>(earlier: Option<T>, later: Option<T>): (r: Option<T>)
    ensures later.Some? ==> r == later
    ensures later.None? ==> r == earlier
  {
    if later.Some? then later else earlier
  }

  /**
   * The record `updateUserProfile` writes: the patch laid over `id: userId`,
   * then `updated_at` set to now, all laid over the stored profile when
   * there is one. The `id` is written before the patch is spread, so a
   * patch carrying an `id` wins over `userId`.
   */
  function MergeProfile(existing: Option<Profile>, patch: ProfilePatch, userId: UserId, now: Timestamp): Profile {
    var base := if existing.Some? then existing.value
                else Profile(userId, None, None, None, None, None, None);
    Profile(patch.id.GetOr(userId),
      Over(base.firstName, patch.firstName), Over(base.lastName, patch.lastName),
      Over(base.phoneNumber, patch.phoneNumber), Over(base.avatarUrl, patch.avatarUrl),
      Over(base.createdAt, patch.createdAt), Some(now))
  }

  /** Field by field: the patch's value where it carries one, the stored one otherwise; a fresh update time. */
  lemma MergeProfileFields(existing: Option<Profile>, patch: ProfilePatch, userId: UserId, now: Timestamp)
    ensures var m := MergeProfile(existing, patch, userId, now);
      && m.id == (if patch.id.Some? then patch.id.value else userId)
      && (patch.firstName.Some? ==> m.firstName == patch.firstName)
      && (patch.firstName.None? ==> m.firstName == (if existing.Some? then existing.value.firstName else None))
      && (patch.lastName.Some? ==> m.lastName == patch.lastName)
      && (patch.lastName.None? ==> m.lastName == (if existing.Some? then existing.value.lastName else None))
      && (patch.phoneNumber.Some? ==> m.phoneNumber == patch.phoneNumber)
      && (patch.phoneNumber.None? ==> m.phoneNumber == (if existing.Some? then existing.value.phoneNumber else None))
      && (patch.avatarUrl.Some? ==> m.avatarUrl == patch.avatarUrl)
      && (patch.avatarUrl.None? ==> m.avatarUrl == (if existing.Some? then existing.value.avatarUrl else None))
      && (patch.createdAt.Some? ==> m.createdAt == patch.createdAt)
      && (patch.createdAt.None? ==> m.createdAt == (if existing.Some? then existing.value.createdAt else None))
      && m.updatedAt == Some(now)
  {
  }

  /** What a lookup returns, and the slot's content afterwards. */
  datatype Lookup<T> = Lookup(result: Option<T>, stored: Option<T>)

  /**
   * `getUserProfile`: the cached profile when its id is the caller's;
   * otherwise the remote row, which then replaces the cached profile; a
   * remote error (including "no rows") gives nothing and writes nothing.
   */
  function ProfileLookup(cached: Option<Profile>, userId: UserId, remote: Single<Profile>): Lookup<Profile> {
    if cached.Some? && cached.value.id == userId then Lookup(cached, cached)
    else if remote.Row? then Lookup(Some(remote.value), Some(remote.value))
    else Lookup(None, cached)
  }

  /** A cached profile of the caller is returned as it is, and the slot is left alone. */
  lemma ProfileLookupHit(cached: Option<Profile>, userId: UserId, remote: Single<Profile>)
    requires cached.Some? && cached.value.id == userId
    ensures ProfileLookup(cached, userId, remote) == Lookup(cached, cached)
  {
  }

  /**
   * A cached profile of somebody else is never returned: the caller gets the
   * remote row, which replaces it in the slot, or nothing, and the slot keeps it.
   */
  lemma ProfileLookupMiss(cached: Option<Profile>, userId: UserId, remote: Single<Profile>)
    requires remote.Row? ==> remote.value.id == userId
    ensures var l := ProfileLookup(cached, userId, remote);
      cached.Some? && cached.value.id != userId ==>
        l.result != cached
        && (remote.Row? ==> l.result == Some(remote.value) && l.stored == Some(remote.value))
        && (!remote.Row? ==> l.result == None && l.stored == cached)
  {
  }

  /**
   * When the remote answers only with the caller's row, a cached profile is
   * returned exactly when its id is the caller's.
   */
  lemma ProfileLookupReturnsCacheIffOwn(cached: Option<Profile>, userId: UserId, remote: Single<Profile>)
    requires remote.Row? ==> remote.value.id == userId
    requires cached.Some?
    ensures ProfileLookup(cached, userId, remote).result == cached <==> cached.value.id == userId
  {
    if cached.value.id == userId {
      ProfileLookupHit(cached, userId, remote);
    } else {
      ProfileLookupMiss(cached, userId, remote);
    }
  }

  /** Once the remote row for the caller has been cached, the next lookup is local and returns the same profile. */
  lemma ProfileLookupSettles(cached: Option<Profile>, userId: UserId, remote: Single<Profile>, later: Single<Profile>)
    requires remote.Row? ==> remote.value.id == userId
    ensures var first := ProfileLookup(cached, userId, remote);
      first.result.Some? ==> ProfileLookup(first.stored, userId, later) == first
  {
  }

  /**
   * A profile update for the caller is what the caller's next lookup returns,
   * without a remote call, as long as the patch does not carry an `id`.
   */
  lemma UpdateThenLookupProfile(existing: Option<Profile>, patch: ProfilePatch, userId: UserId, now: Timestamp,
                                remote: Single<Profile>)
    requires patch.id.None?
    ensures var m := MergeProfile(existing, patch, userId, now);
      ProfileLookup(Some(m), userId, remote) == Lookup(Some(m), Some(m))
  {
  }

  /**
   * A patch carrying another user's `id` rekeys the cached profile, so the
   * caller's next lookup misses the cache and goes to the remote.
   */
  lemma PatchIdOverridesUser(existing: Option<Profile>, patch: ProfilePatch, userId: UserId, now: Timestamp,
                             remote: Single<Profile>)
    requires patch.id.Some? && patch.id.value != userId
    ensures MergeProfile(existing, patch, userId, now).id == patch.id.value
    ensures var m := MergeProfile(existing, patch, userId, now);
      ProfileLookup(Some(m), userId, remote).result == (if remote.Row? then Some(remote.value) else None)
  {
  }

  // -------------------------------------------------------- preferences

  /** A user's display and notification preferences. */
  datatype Preferences = Preferences(
    id: string, userId: UserId, currency: string, dateFormat: string,
    emailNotifications: bool, pushNotifications: bool,
    createdAt: Option<Timestamp>, updatedAt: Option<Timestamp>)

  /** A partial preferences record as a caller passes it. */
  datatype PreferencesPatch = PreferencesPatch(
    id: Option<string>, userId: Option<UserId>, currency: Option<string>, dateFormat: Option<string>,
    emailNotifications: Option<bool>, pushNotifications: Option<bool>,
    createdAt: Option<Timestamp>, updatedAt: Option<Timestamp>)

  const DefaultCurrency: string := "INR"
  const DefaultDateFormat: string := "DD/MM/YYYY"

  /** The preferences created for a user who has none: rupees, day-first dates, email on, push off. */
  function DefaultPreferences(id: string, userId: UserId, now: Timestamp): (p: Preferences)
    ensures p.userId == userId && p.currency == "INR" && p.dateFormat == "DD/MM/YYYY"
    ensures p.emailNotifications && !p.pushNotifications
  {
    Preferences(id, userId, DefaultCurrency, DefaultDateFormat, true, false, Some(now), Some(now))
  }

  /**
   * `getUserPreferences`: the cached preferences when they are the
   * caller's; otherwise fresh defaults, which replace whatever was cached.
   * It never fails and always leaves the caller's preferences cached.
   */
  function ResolvePreferences(cached: Option<Preferences>, userId: UserId, freshId: string, now: Timestamp): Lookup<Preferences> {
    if cached.Some? && cached.value.userId == userId then Lookup(cached, cached)
    else var d := DefaultPreferences(freshId, userId, now); Lookup(Some(d), Some(d))
  }

  /** The resolved preferences are the caller's, and they are what is cached afterwards. */
  lemma ResolvePreferencesOwned(cached: Option<Preferences>, userId: UserId, freshId: string, now: Timestamp)
    ensures var l := ResolvePreferences(cached, userId, freshId, now);
      l.result.Some? && l.result.value.userId == userId && l.stored == l.result
  {
  }

  /** Resolving is idempotent: a second call returns the same record and rewrites nothing, whatever id and time it is given. */
  lemma ResolvePreferencesIdempotent(cached: Option<Preferences>, userId: UserId, freshId: string, now: Timestamp,
                                     laterId: string, later: Timestamp)
    ensures var first := ResolvePreferences(cached, userId, freshId, now);
      ResolvePreferences(first.stored, userId, laterId, later) == first
  {
  }

  /**
   * `updateUserPreferences`: the patch laid over the cached record (whoever
   * owns it) or over fresh defaults when nothing is cached, then `user_id`
   * forced to the caller and `updated_at` set to now.
   */
  function MergePreferences(cached: Option<Preferences>, patch: PreferencesPatch, userId: UserId,
                            freshId: string, now: Timestamp): Preferences {
    var current := if cached.Some? then cached.value else DefaultPreferences(freshId, userId, now);
    Preferences(
      patch.id.GetOr(current.id), userId,
      patch.currency.GetOr(current.currency), patch.dateFormat.GetOr(current.dateFormat),
      patch.emailNotifications.GetOr(current.emailNotifications),
      patch.pushNotifications.GetOr(current.pushNotifications),
      Over(current.createdAt, patch.createdAt), Some(now))
  }

  /** Each setting is the patch's value when it carries one and the current one otherwise; the owner is always the caller. */
  lemma MergePreferencesFields(cached: Option<Preferences>, patch: PreferencesPatch, userId: UserId,
                               freshId: string, now: Timestamp)
    ensures var m := MergePreferences(cached, patch, userId, freshId, now);
      var current := if cached.Some? then cached.value else DefaultPreferences(freshId, userId, now);
      && m.userId == userId && m.updatedAt == Some(now)
      && m.currency == (if patch.currency.Some? then patch.currency.value else current.currency)
      && m.dateFormat == (if patch.dateFormat.Some? then patch.dateFormat.value else current.dateFormat)
      && m.emailNotifications == (if patch.emailNotifications.Some? then patch.emailNotifications.value else current.emailNotifications)
      && m.pushNotifications == (if patch.pushNotifications.Some? then patch.pushNotifications.value else current.pushNotifications)
      && m.id == (if patch.id.Some? then patch.id.value else current.id)
  {
  }

  /** After an update, the caller's next read returns exactly the updated record, with no new defaults. */
  lemma UpdateThenResolvePreferences(cached: Option<Preferences>, patch: PreferencesPatch, userId: UserId,
                                     freshId: string, now: Timestamp, laterId: string, later: Timestamp)
    ensures var m := MergePreferences(cached, patch, userId, freshId, now);
      ResolvePreferences(Some(m), userId, laterId, later) == Lookup(Some(m), Some(m))
  {
  }

  /**
   * An update with an empty patch made while another user's preferences
   * are cached carries that user's settings over to the caller: only the
   * owner and the update time change.
   */
  lemma UpdateAdoptsCachedSettings(other: Preferences, userId: UserId, freshId: string, now: Timestamp)
    requires other.userId != userId
    ensures var m := MergePreferences(Some(other), PreferencesPatch(None, None, None, None, None, None, None, None),
                                      userId, freshId, now);
      m == other.(userId := userId, updatedAt := Some(now))
  {
  }

  // ------------------------------------------------------------ the cache

  class SettingsCache {
    /** `finhive_user_profile` and `finhive_user_preferences`; `None` when the key is missing. */
    var profile: Option<Profile>
    var preferences: Option<Preferences>

    constructor ()
      ensures profile == None && preferences == None
    {
      profile, preferences := None, None;
    }

    /** `getUserProfile`. */
    method GetUserProfile(userId: UserId, remote: Single<Profile>) returns (r: Option<Profile>)
      modifies this`profile
      ensures r == ProfileLookup(old(profile), userId, remote).result
      ensures profile == ProfileLookup(old(profile), userId, remote).stored
    {
      if profile.Some? && profile.value.id == userId {
        return profile;
      }
      if remote.Row? {
        profile := Some(remote.value);
        return profile;
      }
      return None;
    }

    /** `updateUserProfile`: writes the merged profile and returns what was written; the remote upsert is ignored. */
    method UpdateUserProfile(userId: UserId, patch: ProfilePatch, now: Timestamp, mirror: Mirror) returns (r: Option<Profile>)
      modifies this`profile
      ensures profile == Some(MergeProfile(old(profile), patch, userId, now))
      ensures r == profile
    {
      profile := Some(MergeProfile(profile, patch, userId, now));
      return profile;
    }

    /** `getUserPreferences`. */
    method GetUserPreferences(userId: UserId, freshId: string, now: Timestamp) returns (r: Option<Preferences>)
      modifies this`preferences
      ensures r == ResolvePreferences(old(preferences), userId, freshId, now).result
      ensures preferences == ResolvePreferences(old(preferences), userId, freshId, now).stored
    {
      if preferences.Some? && preferences.value.userId == userId {
        return preferences;
      }
      var defaults := DefaultPreferences(freshId, userId, now);
      preferences := Some(defaults);
      return preferences;
    }

    /** `updateUserPreferences`: writes and returns the merged record. */
    method UpdateUserPreferences(userId: UserId, patch: PreferencesPatch, freshId: string, now: Timestamp)
      returns (r: Option<Preferences>)
      modifies this`preferences
      ensures preferences == Some(MergePreferences(old(preferences), patch, userId, freshId, now))
      ensures r == preferences
    {
      var updated := MergePreferences(preferences, patch, userId, freshId, now);
      preferences := Some(updated);
      return preferences;
    }
  }
}
