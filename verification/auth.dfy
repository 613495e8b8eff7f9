/** The auth store: the signed-in user, the profile document, the derived
    vendor flag, and one loading flag and one error per operation. */
module Auth {
  import opened Common

  /** An authenticated user of the auth provider, reduced to its uid. */
  datatype User = User(uid: string)

  /** The `users/{uid}` profile document. */
  datatype Profile = Profile(
    uid: string,
    email: Option<string>,
    displayName: Option<string>,
    photoURL: Option<string>,
    isVendor: Option<bool>)

  /** The six operations that own a loading flag and an error slot. */
  datatype Key = AuthKey | SignInKey | SignUpKey | SignOutKey | ProfileUpdateKey | ProfileFetchKey

  /** One value per `Key`: the shape of `loadingStates` and of `errors`. */
  datatype Slots<T> = Slots(auth: T, signIn: T, signUp: T, signOut: T, profileUpdate: T, profileFetch: T) {

    function Get(k: Key): T {
      match k
      case AuthKey => auth
      case SignInKey => signIn
      case SignUpKey => signUp
      case SignOutKey => signOut
      case ProfileUpdateKey => profileUpdate
      case ProfileFetchKey => profileFetch
    }

    /** `{ ...slots, [k]: v }`: slot `k` becomes `v`, the other five are kept. */
    function Set(k: Key, v: T): (r: Slots<T>)
      ensures r.Get(k) == v
      ensures forall j :: j != k ==> r.Get(j) == Get(j)
    {
      match k
      case AuthKey => this.(auth := v)
      case SignInKey => this.(signIn := v)
      case SignUpKey => this.(signUp := v)
      case SignOutKey => this.(signOut := v)
      case ProfileUpdateKey => this.(profileUpdate := v)
      case ProfileFetchKey => this.(profileFetch := v)
    }
  }

  /** All six slots holding `v`. */
  function Fill<T>(v: T): (r: Slots<T>)
    ensures forall k :: r.Get(k) == v
  {
    Slots(v, v, v, v, v, v)
  }

  datatype AuthState = AuthState(
    user: Option<User>,
    profile: Option<Profile>,
    isVendor: bool,
    loading: Slots<bool>,
    errors: Slots<Option<Error>>,
    initializing: bool)

  /** The store before the auth provider has answered: only `auth` is loading. */
  function Initial(): (s: AuthState)
    ensures s.user.None? && s.profile.None? && !s.isVendor && s.initializing
    ensures s.loading.Get(AuthKey) && forall k :: k != AuthKey ==> !s.loading.Get(k)
    ensures forall k :: s.errors.Get(k).None?
  {
    AuthState(None, None, false, Fill(false).Set(AuthKey, true), Fill(None), true)
  }

  /** The uid other stores act for: `user?.uid`, absent when there is no
      user or the uid is the (falsy) empty string. */
  function SignedInUid(user: Option<User>): (r: Option<string>)
    ensures r.Some? <==> user.Some? && user.value.uid != ""
    ensures r.Some? ==> r.value == user.value.uid
  {
    if user.Some? && user.value.uid != "" then Some(user.value.uid) else None
  }

  /** The vendor flag as `setUserAndProfile` derives it. */
  predicate VendorFlag(user: Option<User>, profile: Option<Profile>) {
    user.Some? && profile.Some? && profile.value.isVendor == Some(true)
  }

  /** `setUserAndProfile`: the profile is kept only with a user, the vendor
      flag is derived from both, and only the `auth` loading flag and
      `initializing` change besides. */
  function SetUserAndProfile(s: AuthState, user: Option<User>, profile: Option<Profile>): (s': AuthState)
    ensures s'.user == user
    ensures s'.profile == (if user.Some? then profile else None)
    ensures s'.isVendor <==> user.Some? && profile.Some? && profile.value.isVendor == Some(true)
    ensures !s'.initializing && !s'.loading.Get(AuthKey)
    ensures forall k :: k != AuthKey ==> s'.loading.Get(k) == s.loading.Get(k)
    ensures s'.errors == s.errors
  {
    AuthState(user, if user.Some? then profile else None, VendorFlag(user, profile),
              s.loading.Set(AuthKey, false), s.errors, false)
  }

  /** `clearAuthError(k)` nulls only `errors[k]`; `clearAuthError()` nulls all six. */
  function ClearAuthError(s: AuthState, k: Option<Key>): (s': AuthState)
    ensures k.Some? ==> s'.errors.Get(k.value).None?
                        && forall j :: j != k.value ==> s'.errors.Get(j) == s.errors.Get(j)
    ensures k.None? ==> forall j :: s'.errors.Get(j).None?
    ensures s' == s.(errors := s'.errors)
  {
    match k
    case Some(key) => s.(errors := s.errors.Set(key, None))
    case None => s.(errors := Fill(None))
  }

  /** Clearing the same error twice is clearing it once. */
  lemma ClearAuthErrorIdempotent(s: AuthState, k: Option<Key>)
    ensures ClearAuthError(ClearAuthError(s, k), k) == ClearAuthError(s, k)
  {
  }

  /** The start of every async operation: its own flag on, its own error cleared. */
  function Begin(s: AuthState, k: Key): (s': AuthState)
    ensures s'.loading.Get(k) && s'.errors.Get(k).None?
    ensures forall j :: j != k ==> s'.loading.Get(j) == s.loading.Get(j) && s'.errors.Get(j) == s.errors.Get(j)
    ensures s' == s.(loading := s'.loading, errors := s'.errors)
  {
    s.(loading := s.loading.Set(k, true), errors := s.errors.Set(k, None))
  }

  /** The end of an async operation: its own flag off, and on failure its own
      error recorded. */
  function Finish(s: AuthState, k: Key, failure: Option<Error>): (s': AuthState)
    ensures !s'.loading.Get(k)
    ensures failure.Some? ==> s'.errors.Get(k) == failure
    ensures failure.None? ==> s'.errors == s.errors
    ensures forall j :: j != k ==> s'.loading.Get(j) == s.loading.Get(j) && s'.errors.Get(j) == s.errors.Get(j)
    ensures s' == s.(loading := s'.loading, errors := s'.errors)
  {
    match failure
    case Some(e) => s.(loading := s.loading.Set(k, false), errors := s.errors.Set(k, Some(e)))
    case None => s.(loading := s.loading.Set(k, false))
  }

  /** `signInWithEmail`: `ok` says whether the provider accepted the
      credentials. The user itself arrives later through the listener. */
  function SignInWithEmail(s: AuthState, ok: bool): (s': AuthState)
    ensures !s'.loading.Get(SignInKey)
    ensures s'.errors.Get(SignInKey) == (if ok then None else Some(Storage))
    ensures forall j :: j != SignInKey ==> s'.loading.Get(j) == s.loading.Get(j) && s'.errors.Get(j) == s.errors.Get(j)
    ensures s'.user == s.user && s'.profile == s.profile && s'.isVendor == s.isVendor
  {
    Finish(Begin(s, SignInKey), SignInKey, if ok then None else Some(Storage))
  }

  /** The profile document `signUpWithEmail` writes for a new account; a new
      account has no photo. */
  function NewProfile(uid: string, email: string, displayName: string, isVendor: bool): Profile {
    Profile(uid, Some(email), Some(displayName), None, Some(isVendor))
  }

  /** `signUpWithEmail`: on success the new profile document is written with
      the requested vendor flag; `uid` is the one the provider assigns. */
  function SignUpWithEmail(s: AuthState, uid: string, email: string, displayName: string, isVendor: bool, ok: bool)
    : (r: (AuthState, Option<Profile>))
    ensures !r.0.loading.Get(SignUpKey)
    ensures ok ==> r.0.errors.Get(SignUpKey).None? && r.1 == Some(NewProfile(uid, email, displayName, isVendor))
    ensures ok ==> r.1.value.isVendor == Some(isVendor) && r.1.value.uid == uid
    ensures !ok ==> r.0.errors.Get(SignUpKey) == Some(Storage) && r.1.None?
    ensures forall j :: j != SignUpKey ==> r.0.loading.Get(j) == s.loading.Get(j) && r.0.errors.Get(j) == s.errors.Get(j)
  {
    if ok then (Finish(Begin(s, SignUpKey), SignUpKey, None), Some(NewProfile(uid, email, displayName, isVendor)))
    else (Finish(Begin(s, SignUpKey), SignUpKey, Some(Storage)), None)
  }

  /** `fetchUserProfile`: `doc` is the stored profile (absent when the
      document does not exist) and `ok` whether the read succeeded. */
  function FetchUserProfile(s: AuthState, doc: Option<Profile>, ok: bool): (r: (AuthState, Option<Profile>))
    ensures !r.0.loading.Get(ProfileFetchKey)
    ensures r.1 == (if ok then doc else None)
    ensures !ok ==> r.0.errors.Get(ProfileFetchKey) == Some(Storage)
    ensures ok ==> r.0.errors == s.errors
    ensures forall j :: j != ProfileFetchKey ==> r.0.loading.Get(j) == s.loading.Get(j) && r.0.errors.Get(j) == s.errors.Get(j)
    ensures r.0.user == s.user && r.0.profile == s.profile && r.0.isVendor == s.isVendor
  {
    var started := s.(loading := s.loading.Set(ProfileFetchKey, true));
    if ok then (Finish(started, ProfileFetchKey, None), doc)
    else (Finish(started, ProfileFetchKey, Some(Storage)), None)
  }

  /** The fields `updateUserProfile` accepts, each absent when not given.
      `displayName` may be given as null, hence the nested option. */
  datatype ProfilePatch = ProfilePatch(
    displayName: Option<Option<string>>,
    photoURL: Option<string>,
    isVendor: Option<bool>)

  /** `{ ...profile, ...patch }`: given fields replace, others are kept. */
  function ApplyPatch(p: Profile, patch: ProfilePatch): (r: Profile)
    ensures r.uid == p.uid && r.email == p.email
    ensures r.displayName == (if patch.displayName.Some? then patch.displayName.value else p.displayName)
    ensures r.photoURL == (if patch.photoURL.Some? then patch.photoURL else p.photoURL)
    ensures r.isVendor == (if patch.isVendor.Some? then patch.isVendor else p.isVendor)
  {
    Profile(p.uid, p.email,
            if patch.displayName.Some? then patch.displayName.value else p.displayName,
            if patch.photoURL.Some? then patch.photoURL else p.photoURL,
            if patch.isVendor.Some? then patch.isVendor else p.isVendor)
  }

  const ProfileMismatch := Message("User not authenticated or UID mismatch for profile update.")

  /** `updateUserProfile`: `doc` is the `users/{uid}` document and `ok` whether
      the remote store answers; an update of a missing document fails. */
  function UpdateUserProfile(s: AuthState, uid: string, patch: ProfilePatch, doc: Option<Profile>, ok: bool)
    : (r: (AuthState, Option<Profile>))
    ensures !r.0.loading.Get(ProfileUpdateKey)
    ensures forall j :: j != ProfileUpdateKey ==> r.0.loading.Get(j) == s.loading.Get(j) && r.0.errors.Get(j) == s.errors.Get(j)
    ensures r.0.user == s.user && r.0.isVendor == s.isVendor
    ensures (s.profile.None? || s.profile.value.uid != uid) ==>
              r.0.errors.Get(ProfileUpdateKey) == Some(ProfileMismatch) && r.0.profile == s.profile && r.1 == doc
    ensures s.profile.Some? && s.profile.value.uid == uid && ok && doc.Some? ==>
              r.0.errors.Get(ProfileUpdateKey).None?
              && r.0.profile == Some(ApplyPatch(s.profile.value, patch))
              && r.1 == Some(ApplyPatch(doc.value, patch))
    ensures s.profile.Some? && s.profile.value.uid == uid && !(ok && doc.Some?) ==>
              r.0.errors.Get(ProfileUpdateKey) == Some(Storage) && r.0.profile == s.profile && r.1 == doc
  {
    var started := Begin(s, ProfileUpdateKey);
    if s.profile.None? || s.profile.value.uid != uid then
      (Finish(started, ProfileUpdateKey, Some(ProfileMismatch)), doc)
    else if ok && doc.Some? then
      (Finish(started.(profile := Some(ApplyPatch(s.profile.value, patch))), ProfileUpdateKey, None),
       Some(ApplyPatch(doc.value, patch)))
    else
      (Finish(started, ProfileUpdateKey, Some(Storage)), doc)
  }

  /** `signOut`: on success nobody is signed in and nobody is a vendor; on
      failure only the sign-out flag and error change. */
  function SignOut(s: AuthState, ok: bool): (s': AuthState)
    ensures !s'.loading.Get(SignOutKey)
    ensures ok ==> s'.user.None? && s'.profile.None? && !s'.isVendor && !s'.loading.Get(AuthKey)
                   && s'.errors.Get(SignOutKey).None?
    ensures ok ==> forall j :: j != SignOutKey && j != AuthKey ==> s'.loading.Get(j) == s.loading.Get(j)
    ensures !ok ==> s'.errors.Get(SignOutKey) == Some(Storage) && s'.user == s.user && s'.profile == s.profile
                    && s'.isVendor == s.isVendor
    ensures forall j :: j != SignOutKey ==> s'.errors.Get(j) == s.errors.Get(j)
  {
    var started := Begin(s, SignOutKey);
    if ok then
      started.(user := None, profile := None, isVendor := false,
               loading := started.loading.Set(SignOutKey, false).Set(AuthKey, false))
    else
      Finish(started, SignOutKey, Some(Storage))
  }

  /** The listener registered by `initializeAuthListener`, on one event:
      `event` is the provider's user, `doc` and `ok` the profile read for it.
      An event for the uid already signed in is ignored. */
  function OnAuthStateChanged(s: AuthState, event: Option<User>, doc: Option<Profile>, ok: bool): (s': AuthState)
    ensures s.user.Some? && event.Some? && event.value.uid == s.user.value.uid ==> s' == s
    ensures !(s.user.Some? && event.Some? && event.value.uid == s.user.value.uid) ==>
              s'.user == event && !s'.initializing && !s'.loading.Get(AuthKey)
              && (s'.isVendor <==> event.Some? && ok && doc.Some? && doc.value.isVendor == Some(true))
  {
    if s.user.Some? && event.Some? && event.value.uid == s.user.value.uid then s
    else if event.Some? then
      var (fetched, profile) := FetchUserProfile(s, doc, ok);
      SetUserAndProfile(fetched, event, profile)
    else
      SetUserAndProfile(s, None, None)
  }

  /** How a change of the auth store looks to a store that follows the
      vendor role (both vendor stores use the same two tests). */
  datatype RoleChange = BecameVendor | LeftVendor | NoRoleChange

  function VendorRoleChange(prev: AuthState, cur: AuthState): (c: RoleChange)
    ensures c == BecameVendor <==> cur.user.Some? && cur.isVendor && (prev.user.None? || !prev.isVendor)
    ensures c == LeftVendor <==> (cur.user.None? || !cur.isVendor) && prev.user.Some? && prev.isVendor
  {
    if cur.user.Some? && cur.isVendor && (prev.user.None? || !prev.isVendor) then BecameVendor
    else if (cur.user.None? || !cur.isVendor) && prev.user.Some? && prev.isVendor then LeftVendor
    else NoRoleChange
  }

  /** How a change of the auth store looks to a store that follows sign-in
      and sign-out only (the cart and the customer's orders). */
  datatype SessionChange = LoggedIn(user: User) | LoggedOut | NoSessionChange

  function SessionChangeOf(prev: AuthState, cur: AuthState): (c: SessionChange)
    ensures c.LoggedIn? <==> cur.user.Some? && prev.user.None?
    ensures c.LoggedIn? ==> c.user == cur.user.value
    ensures c == LoggedOut <==> cur.user.None? && prev.user.Some?
  {
    if cur.user.Some? && prev.user.None? then LoggedIn(cur.user.value)
    else if cur.user.None? && prev.user.Some? then LoggedOut
    else NoSessionChange
  }

  /** A vendor's successful sign-out is seen by both vendor stores as losing
      the role, and by the session followers as a log-out. */
  lemma SignOutEndsVendorSession(s: AuthState)
    requires s.user.Some? && s.isVendor
    ensures VendorRoleChange(s, SignOut(s, true)) == LeftVendor
    ensures SessionChangeOf(s, SignOut(s, true)) == LoggedOut
  {
  }
}
