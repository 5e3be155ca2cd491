/**
 * The authentication session manager: it holds the current user profile,
 * the backend's session identity and a loading flag, reacts to the
 * backend's session notifications and offers sign-in, sign-up, sign-out,
 * profile update and password reset.
 *
 * Every backend call becomes a parameter carrying the backend's reply, and
 * each operation returns the requests it issued, in order. Each operation
 * is one atomic step.
 */
module Auth {
  import opened Js
  import opened Types

  /** The backend's session principal; only the fields this layer reads. */
  datatype Identity = Identity(id: string, email: Option<string>)

  /** An error the backend reports, with the message it may carry. */
  datatype BackendError = BackendError(message: Option<string>)

  /** The backend's answer to a read or an authentication call. */
  datatype Reply<+T> = Ok(data: T) | Failed(error: BackendError)

  /** The backend's answer to a write. */
  datatype WriteReply = Written | WriteFailed(error: BackendError)

  /**
   * A `users` row as the profile query returns it, joined with the user's
   * `trust_metrics` rows (`None` when the join yields nothing at all).
   */
  datatype ProfileRow = ProfileRow(
    id: string,
    email: string,
    name: string,
    avatarUrl: Option<string>,
    phone: Option<string>,
    walletBalance: real,
    totalSavings: real,
    trustScores: Option<seq<TrustScore>>,
    createdAt: string,
    updatedAt: string,
    lastLoginAt: Option<string>,
    isActive: bool,
    metadata: Option<map<string, Json>>)

  /** The `users` row sign-up inserts. */
  datatype NewUserRow = NewUserRow(
    id: string,
    email: Option<string>,
    name: string,
    walletBalance: real,
    totalSavings: real)

  /** The `trust_metrics` row sign-up inserts. */
  datatype NewTrustRow = NewTrustRow(
    userId: string,
    score: real,
    rating: TrustRating,
    onTimePaymentRate: real,
    yearsActive: real,
    poolsCompleted: real,
    defaultsCount: real)

  /** A partial profile: every key may be absent; a present key replaces the profile's value. */
  datatype UserPatch = UserPatch(
    id: Option<string>,
    email: Option<string>,
    name: Option<string>,
    avatarUrl: Option<string>,
    phone: Option<string>,
    walletBalance: Option<real>,
    totalSavings: Option<real>,
    trustScore: Option<TrustScore>,
    createdAt: Option<string>,
    updatedAt: Option<string>,
    lastLoginAt: Option<string>,
    isActive: Option<bool>,
    metadata: Option<map<string, Json>>)

  const NoChanges: UserPatch :=
    UserPatch(None, None, None, None, None, None, None, None, None, None, None, None, None)

  /** A request sent to the backend. */
  datatype Request =
    | GetSession
    | SignInWithPassword(email: string, password: string)
    | SignUpWithPassword(email: string, password: string, name: string)
    | SignOutRequest
    | ResetPasswordForEmail(email: string)
    | SelectProfile(userId: string)
    | InsertUser(row: NewUserRow)
    | InsertTrustMetrics(trustRow: NewTrustRow)
    | UpdateUser(userId: string, patch: UserPatch)
    | UpdateLastLogin(userId: string, at: string)

  /** The kinds of session notification the backend pushes. */
  datatype AuthEvent = SignedIn | SignedOut | TokenRefreshed | OtherEvent(name: string)

  /** How a public operation ends: normally, or by throwing an error with a message. */
  datatype Outcome = Returned | Thrown(message: string)

  /** `error.message || fallback`: the backend's message unless it is absent or empty. */
  function ErrorMessage(e: BackendError, fallback: string): (m: string)
    ensures Truthy(e.message) ==> m == e.message.value
    ensures !Truthy(e.message) ==> m == fallback
    ensures fallback != "" ==> m != ""
  {
    if Truthy(e.message) then e.message.value else fallback
  }

  /** The neutral trust score of a user without a trust record, stamped `now`. */
  function DefaultTrustScore(now: string): TrustScore {
    TrustScore(500.0, Fair, TrustMetrics(0.0, 0.0, 0.0, 0.0), now)
  }

  /**
   * The profile built from a fetched row: the row's fields, and its first
   * trust record, or the neutral default when there is none.
   */
  function ProfileFromRow(row: ProfileRow, now: string): (u: User)
    ensures u.id == row.id && u.email == row.email && u.name == row.name
    ensures u.walletBalance == row.walletBalance && u.totalSavings == row.totalSavings
    ensures u.avatarUrl == row.avatarUrl && u.phone == row.phone
    ensures u.createdAt == row.createdAt && u.updatedAt == row.updatedAt && u.lastLoginAt == row.lastLoginAt
    ensures u.isActive == row.isActive && u.metadata == row.metadata
    ensures row.trustScores.Some? && row.trustScores.value != [] ==> u.trustScore == row.trustScores.value[0]
    ensures row.trustScores.None? || row.trustScores == Some([]) ==>
              && u.trustScore.score == 500.0
              && u.trustScore.rating == Fair
              && u.trustScore.metrics == TrustMetrics(0.0, 0.0, 0.0, 0.0)
              && u.trustScore.updatedAt == now
  {
    var trust := if row.trustScores.Some? && row.trustScores.value != [] then row.trustScores.value[0]
                 else DefaultTrustScore(now);
    User(row.id, row.email, row.name, row.avatarUrl, row.phone, row.walletBalance, row.totalSavings,
         trust, row.createdAt, row.updatedAt, row.lastLoginAt, row.isActive, row.metadata)
  }

  /** `{ ...u, ...p }`: every key the patch gives overrides the profile's, the rest stay. */
  function Merge(u: User, p: UserPatch): (m: User)
    ensures m.id == p.id.GetOr(u.id)
    ensures m.email == p.email.GetOr(u.email)
    ensures m.name == p.name.GetOr(u.name)
    ensures m.avatarUrl == (if p.avatarUrl.Some? then p.avatarUrl else u.avatarUrl)
    ensures m.phone == (if p.phone.Some? then p.phone else u.phone)
    ensures m.walletBalance == p.walletBalance.GetOr(u.walletBalance)
    ensures m.totalSavings == p.totalSavings.GetOr(u.totalSavings)
    ensures m.trustScore == p.trustScore.GetOr(u.trustScore)
    ensures m.createdAt == p.createdAt.GetOr(u.createdAt)
    ensures m.updatedAt == p.updatedAt.GetOr(u.updatedAt)
    ensures m.lastLoginAt == (if p.lastLoginAt.Some? then p.lastLoginAt else u.lastLoginAt)
    ensures m.isActive == p.isActive.GetOr(u.isActive)
    ensures m.metadata == (if p.metadata.Some? then p.metadata else u.metadata)
  {
    User(p.id.GetOr(u.id), p.email.GetOr(u.email), p.name.GetOr(u.name),
         if p.avatarUrl.Some? then p.avatarUrl else u.avatarUrl,
         if p.phone.Some? then p.phone else u.phone,
         p.walletBalance.GetOr(u.walletBalance), p.totalSavings.GetOr(u.totalSavings),
         p.trustScore.GetOr(u.trustScore), p.createdAt.GetOr(u.createdAt), p.updatedAt.GetOr(u.updatedAt),
         if p.lastLoginAt.Some? then p.lastLoginAt else u.lastLoginAt,
         p.isActive.GetOr(u.isActive),
         if p.metadata.Some? then p.metadata else u.metadata)
  }

  /** An empty patch changes nothing, and applying a patch twice is applying it once. */
  lemma MergeLaws(u: User, p: UserPatch)
    ensures Merge(u, NoChanges) == u
    ensures Merge(Merge(u, p), p) == Merge(u, p)
  {
  }

  /** The patch that applies `p` and then `q`: wherever both give a key, `q`'s value wins. */
  function Compose(p: UserPatch, q: UserPatch): UserPatch {
    UserPatch(if q.id.Some? then q.id else p.id,
              if q.email.Some? then q.email else p.email,
              if q.name.Some? then q.name else p.name,
              if q.avatarUrl.Some? then q.avatarUrl else p.avatarUrl,
              if q.phone.Some? then q.phone else p.phone,
              if q.walletBalance.Some? then q.walletBalance else p.walletBalance,
              if q.totalSavings.Some? then q.totalSavings else p.totalSavings,
              if q.trustScore.Some? then q.trustScore else p.trustScore,
              if q.createdAt.Some? then q.createdAt else p.createdAt,
              if q.updatedAt.Some? then q.updatedAt else p.updatedAt,
              if q.lastLoginAt.Some? then q.lastLoginAt else p.lastLoginAt,
              if q.isActive.Some? then q.isActive else p.isActive,
              if q.metadata.Some? then q.metadata else p.metadata)
  }

  /** Two successive successful updates leave the profile one combined update would. */
  lemma MergeCompose(u: User, p: UserPatch, q: UserPatch)
    ensures Merge(Merge(u, p), q) == Merge(u, Compose(p, q))
  {
  }

  /** Updating only the name changes only the name. */
  lemma MergeName(u: User, x: string)
    ensures Merge(u, NoChanges.(name := Some(x))) == u.(name := x)
  {
  }

  /** The `users` row created at sign-up: the identity's id and email, the given name, zero balances. */
  function NewProfileRow(identity: Identity, name: string): NewUserRow {
    NewUserRow(identity.id, identity.email, name, 0.0, 0.0)
  }

  /** The `trust_metrics` row created at sign-up: score 500, rating fair, zero metrics. */
  function InitialTrustRow(userId: string): NewTrustRow {
    NewTrustRow(userId, 500.0, Fair, 0.0, 0.0, 0.0, 0.0)
  }

  /** The trust score a stored `trust_metrics` row stands for. */
  function StoredTrustScore(row: NewTrustRow, updatedAt: string): TrustScore {
    TrustScore(row.score, row.rating,
               TrustMetrics(row.onTimePaymentRate, row.yearsActive, row.poolsCompleted, row.defaultsCount),
               updatedAt)
  }

  /**
   * The record sign-up creates holds exactly the neutral score that a
   * profile read synthesises when the record is missing, so a new user's
   * score reads the same whether or not the record exists yet.
   */
  lemma InitialTrustIsDefault(userId: string, updatedAt: string)
    ensures StoredTrustScore(InitialTrustRow(userId), updatedAt) == DefaultTrustScore(updatedAt)
    ensures StoredTrustScore(InitialTrustRow(userId), updatedAt).score == 500.0
  {
  }

  class AuthProvider {
    /** The application profile of the signed-in user. */
    var user: Option<User>
    /** The backend's session identity. */
    var supabaseUser: Option<Identity>
    /** Whether an operation is under way; advisory only. */
    var isLoading: bool

    constructor ()
      ensures user == None && supabaseUser == None && isLoading
    {
      user := None;
      supabaseUser := None;
      isLoading := true;
    }

    /** Signed in exactly when a profile is held, whatever the session identity. */
    function IsAuthenticated(): (b: bool)
      reads this
    {
      user.Some?
    }

    /**
     * Fetch the profile of `userId`. On success the profile is replaced by
     * the fetched one; a failure is swallowed and leaves it as it was. The
     * loading flag is cleared either way.
     */
    method FetchUserProfile(userId: string, reply: Reply<ProfileRow>, now: string) returns (calls: seq<Request>)
      modifies this
      ensures calls == [SelectProfile(userId)]
      ensures reply.Ok? ==> user == Some(ProfileFromRow(reply.data, now))
      ensures reply.Failed? ==> user == old(user)
      ensures supabaseUser == old(supabaseUser)
      ensures !isLoading
    {
      calls := [SelectProfile(userId)];
      if reply.Ok? {
        user := Some(ProfileFromRow(reply.data, now));
      }
      isLoading := false;
    }

    /**
     * The check for a persisted session on start-up: with a session, adopt
     * its identity and fetch the profile; without one, stop loading.
     */
    method RestoreSession(session: Option<Identity>, profile: Reply<ProfileRow>, now: string)
      returns (calls: seq<Request>)
      modifies this
      ensures !isLoading
      ensures session.None? ==>
                calls == [GetSession] && user == old(user) && supabaseUser == old(supabaseUser)
      ensures session.Some? ==>
                && calls == [GetSession, SelectProfile(session.value.id)]
                && supabaseUser == session
                && (profile.Ok? ==> user == Some(ProfileFromRow(profile.data, now)))
                && (profile.Failed? ==> user == old(user))
      ensures session.Some? && profile.Failed? ==> IsAuthenticated() == old(IsAuthenticated())
      ensures session.Some? && profile.Ok? ==> IsAuthenticated()
    {
      calls := [GetSession];
      if session.Some? {
        supabaseUser := session;
        var fetched := FetchUserProfile(session.value.id, profile, now);
        calls := calls + fetched;
      } else {
        isLoading := false;
      }
    }

    /**
     * A session notification. Signed in with an identity: adopt it and
     * fetch its profile. Signed out: clear both. Anything else, the token
     * refresh included: no change.
     */
    method OnAuthStateChange(event: AuthEvent, session: Option<Identity>, profile: Reply<ProfileRow>, now: string)
      returns (calls: seq<Request>)
      modifies this
      ensures event == SignedIn && session.Some? ==>
                && calls == [SelectProfile(session.value.id)]
                && supabaseUser == session
                && (profile.Ok? ==> user == Some(ProfileFromRow(profile.data, now)))
                && (profile.Failed? ==> user == old(user))
                && !isLoading
      ensures event == SignedOut ==>
                calls == [] && user == None && supabaseUser == None && isLoading == old(isLoading)
      ensures event != SignedOut && !(event == SignedIn && session.Some?) ==>
                calls == [] && user == old(user) && supabaseUser == old(supabaseUser)
                && isLoading == old(isLoading)
      ensures event == SignedIn && session.Some? && profile.Failed? ==>
                supabaseUser.Some? && IsAuthenticated() == old(IsAuthenticated())
      ensures event == SignedIn && session.Some? && profile.Ok? ==> IsAuthenticated()
      ensures event == SignedOut ==> !IsAuthenticated()
    {
      calls := [];
      if event == SignedIn && session.Some? {
        supabaseUser := session;
        calls := FetchUserProfile(session.value.id, profile, now);
      } else if event == SignedOut {
        user := None;
        supabaseUser := None;
      }
    }

    /**
     * Sign in with a password. A backend error is thrown with its message
     * (or a fallback) and changes neither identity nor profile. On success
     * the identity is adopted, its profile fetched and the last-login time
     * written; the reply to that write is not looked at.
     */
    method SignIn(email: string, password: string, reply: Reply<Option<Identity>>,
                  profile: Reply<ProfileRow>, now: string, loginAt: string)
      returns (outcome: Outcome, calls: seq<Request>)
      modifies this
      ensures !isLoading
      ensures reply.Failed? ==>
                && outcome == Thrown(ErrorMessage(reply.error, "Failed to sign in"))
                && calls == [SignInWithPassword(email, password)]
                && user == old(user) && supabaseUser == old(supabaseUser)
      ensures reply == Ok(None) ==>
                && outcome == Returned
                && calls == [SignInWithPassword(email, password)]
                && user == old(user) && supabaseUser == old(supabaseUser)
      ensures reply.Ok? && reply.data.Some? ==>
                && outcome == Returned
                && calls == [SignInWithPassword(email, password), SelectProfile(reply.data.value.id),
                             UpdateLastLogin(reply.data.value.id, loginAt)]
                && supabaseUser == reply.data
                && (profile.Ok? ==> user == Some(ProfileFromRow(profile.data, now)))
                && (profile.Failed? ==> user == old(user))
      ensures reply.Ok? && reply.data.Some? && profile.Ok? && profile.data.id == reply.data.value.id ==>
                user.Some? && supabaseUser.Some? && user.value.id == supabaseUser.value.id
    {
      isLoading := true;
      calls := [SignInWithPassword(email, password)];
      if reply.Failed? {
        outcome := Thrown(ErrorMessage(reply.error, "Failed to sign in"));
      } else {
        if reply.data.Some? {
          var identity := reply.data.value;
          supabaseUser := Some(identity);
          var fetched := FetchUserProfile(identity.id, profile, now);
          calls := calls + fetched + [UpdateLastLogin(identity.id, loginAt)];
        }
        outcome := Returned;
      }
      isLoading := false;
    }

    /**
     * Sign up. After the account is created, the profile row and then the
     * trust row are inserted; a failed insert throws at once, so a failed
     * profile insert issues no trust insert, and neither failure adopts the
     * identity. When both succeed the identity is adopted and its profile
     * fetched.
     */
    method SignUp(email: string, password: string, name: string, reply: Reply<Option<Identity>>,
                  profileInsert: WriteReply, trustInsert: WriteReply, profile: Reply<ProfileRow>, now: string)
      returns (outcome: Outcome, calls: seq<Request>)
      modifies this
      ensures !isLoading
      ensures reply.Failed? ==>
                && outcome == Thrown(ErrorMessage(reply.error, "Failed to sign up"))
                && calls == [SignUpWithPassword(email, password, name)]
                && user == old(user) && supabaseUser == old(supabaseUser)
      ensures reply == Ok(None) ==>
                && outcome == Returned
                && calls == [SignUpWithPassword(email, password, name)]
                && user == old(user) && supabaseUser == old(supabaseUser)
      ensures reply.Ok? && reply.data.Some? && profileInsert.WriteFailed? ==>
                && outcome == Thrown(ErrorMessage(profileInsert.error, "Failed to sign up"))
                && calls == [SignUpWithPassword(email, password, name),
                             InsertUser(NewProfileRow(reply.data.value, name))]
                && user == old(user) && supabaseUser == old(supabaseUser)
      ensures reply.Ok? && reply.data.Some? && profileInsert.Written? && trustInsert.WriteFailed? ==>
                && outcome == Thrown(ErrorMessage(trustInsert.error, "Failed to sign up"))
                && calls == [SignUpWithPassword(email, password, name),
                             InsertUser(NewProfileRow(reply.data.value, name)),
                             InsertTrustMetrics(InitialTrustRow(reply.data.value.id))]
                && user == old(user) && supabaseUser == old(supabaseUser)
      ensures reply.Ok? && reply.data.Some? && profileInsert.Written? && trustInsert.Written? ==>
                && outcome == Returned
                && calls == [SignUpWithPassword(email, password, name),
                             InsertUser(NewProfileRow(reply.data.value, name)),
                             InsertTrustMetrics(InitialTrustRow(reply.data.value.id)),
                             SelectProfile(reply.data.value.id)]
                && supabaseUser == reply.data
                && (profile.Ok? ==> user == Some(ProfileFromRow(profile.data, now)))
                && (profile.Failed? ==> user == old(user))
    {
      isLoading := true;
      calls := [SignUpWithPassword(email, password, name)];
      outcome := Returned;
      if reply.Failed? {
        outcome := Thrown(ErrorMessage(reply.error, "Failed to sign up"));
      } else if reply.data.Some? {
        var identity := reply.data.value;
        calls := calls + [InsertUser(NewProfileRow(identity, name))];
        if profileInsert.WriteFailed? {
          outcome := Thrown(ErrorMessage(profileInsert.error, "Failed to sign up"));
        } else {
          calls := calls + [InsertTrustMetrics(InitialTrustRow(identity.id))];
          if trustInsert.WriteFailed? {
            outcome := Thrown(ErrorMessage(trustInsert.error, "Failed to sign up"));
          } else {
            supabaseUser := Some(identity);
            var fetched := FetchUserProfile(identity.id, profile, now);
            calls := calls + fetched;
          }
        }
      }
      isLoading := false;
    }

    /**
     * Sign out. On success identity and profile are both cleared at once;
     * a backend error is thrown and changes nothing. The loading flag is
     * not touched.
     */
    method SignOut(reply: WriteReply) returns (outcome: Outcome, calls: seq<Request>)
      modifies this
      ensures calls == [SignOutRequest]
      ensures isLoading == old(isLoading)
      ensures reply.Written? ==> outcome == Returned && user == None && supabaseUser == None
      ensures reply.WriteFailed? ==>
                && outcome == Thrown(ErrorMessage(reply.error, "Failed to sign out"))
                && user == old(user) && supabaseUser == old(supabaseUser)
    {
      calls := [SignOutRequest];
      if reply.WriteFailed? {
        outcome := Thrown(ErrorMessage(reply.error, "Failed to sign out"));
      } else {
        outcome := Returned;
        user := None;
        supabaseUser := None;
      }
    }

    /**
     * Update the profile. Without a profile it throws before any request.
     * Otherwise the patch is written under the profile's id; on success it
     * is merged into the profile, on failure a fixed message is thrown and
     * the profile kept. Identity and loading flag are not touched.
     */
    method UpdateProfile(patch: UserPatch, reply: WriteReply) returns (outcome: Outcome, calls: seq<Request>)
      modifies this
      ensures supabaseUser == old(supabaseUser) && isLoading == old(isLoading)
      ensures old(user).None? ==>
                outcome == Thrown("No user logged in") && calls == [] && user == None
      ensures old(user).Some? ==> calls == [UpdateUser(old(user).value.id, patch)]
      ensures old(user).Some? && reply.Written? ==>
                outcome == Returned && user == Some(Merge(old(user).value, patch))
      ensures old(user).Some? && reply.WriteFailed? ==>
                outcome == Thrown("Failed to update profile") && user == old(user)
    {
      if user.None? {
        outcome := Thrown("No user logged in");
        calls := [];
        return;
      }
      calls := [UpdateUser(user.value.id, patch)];
      if reply.WriteFailed? {
        outcome := Thrown("Failed to update profile");
      } else {
        outcome := Returned;
        user := Some(Merge(user.value, patch));
      }
    }

    /** Ask for a password-reset mail. Only a backend error is reported; no state changes. */
    method ResetPassword(email: string, reply: WriteReply) returns (outcome: Outcome, calls: seq<Request>)
      ensures calls == [ResetPasswordForEmail(email)]
      ensures reply.Written? ==> outcome == Returned
      ensures reply.WriteFailed? ==> outcome == Thrown(ErrorMessage(reply.error, "Failed to send reset email"))
    {
      calls := [ResetPasswordForEmail(email)];
      if reply.WriteFailed? {
        outcome := Thrown(ErrorMessage(reply.error, "Failed to send reset email"));
      } else {
        outcome := Returned;
      }
    }
  }

  // ---------------------------------------------------------------------------
  // Runs of a fresh manager, as a consumer sees them.
  // ---------------------------------------------------------------------------

  /** Start-up without a persisted session: loading ends, nobody is signed in. */
  method StartWithoutSession(profile: Reply<ProfileRow>, now: string)
    returns (loading: bool, authenticated: bool, identity: Option<Identity>)
    ensures !loading && !authenticated && identity == None
  {
    var auth := new AuthProvider();
    var _ := auth.RestoreSession(None, profile, now);
    loading, authenticated, identity := auth.isLoading, auth.IsAuthenticated(), auth.supabaseUser;
  }

  /**
   * Start-up with a session whose profile cannot be read: the identity is
   * adopted but the manager does not count as authenticated.
   */
  method StartWithUnreadableProfile(session: Identity, error: BackendError, now: string)
    returns (loading: bool, authenticated: bool, identity: Option<Identity>)
    ensures !loading && !authenticated && identity == Some(session)
  {
    var auth := new AuthProvider();
    var _ := auth.RestoreSession(Some(session), Failed(error), now);
    loading, authenticated, identity := auth.isLoading, auth.IsAuthenticated(), auth.supabaseUser;
  }

  /** Rejected credentials leave nobody signed in and report the failure. */
  method RejectedSignIn(email: string, password: string, error: BackendError, profile: Reply<ProfileRow>,
                        now: string, loginAt: string)
    returns (outcome: Outcome, profileHeld: Option<User>, identity: Option<Identity>)
    ensures outcome.Thrown? && outcome.message == ErrorMessage(error, "Failed to sign in")
    ensures profileHeld == None && identity == None
  {
    var auth := new AuthProvider();
    var _ := auth.RestoreSession(None, profile, now);
    var calls;
    outcome, calls := auth.SignIn(email, password, Failed(error), profile, now, loginAt);
    profileHeld, identity := auth.user, auth.supabaseUser;
  }

  /** A pushed sign-out clears a loaded profile without any call to sign out. */
  method PushedSignOut(session: Identity, row: ProfileRow, now: string)
    returns (before: Option<User>, after: Option<User>, identity: Option<Identity>)
    ensures before == Some(ProfileFromRow(row, now))
    ensures after == None && identity == None
  {
    var auth := new AuthProvider();
    var _ := auth.RestoreSession(Some(session), Ok(row), now);
    before := auth.user;
    var _ := auth.OnAuthStateChange(SignedOut, None, Failed(BackendError(None)), now);
    after, identity := auth.user, auth.supabaseUser;
  }

  /**
   * A sign-in notification for a second identity whose profile cannot be
   * read keeps the first identity's profile: profile and identity diverge.
   */
  method ProfileOutlivesIdentity(first: Identity, row: ProfileRow, second: Identity, error: BackendError,
                                 now: string)
    returns (profileId: string, identityId: string)
    requires row.id == first.id && first.id != second.id
    ensures profileId == first.id && identityId == second.id && profileId != identityId
  {
    var auth := new AuthProvider();
    var _ := auth.RestoreSession(Some(first), Ok(row), now);
    var _ := auth.OnAuthStateChange(SignedIn, Some(second), Failed(error), now);
    profileId, identityId := auth.user.value.id, auth.supabaseUser.value.id;
  }

  /** Renaming a loaded profile changes its name and nothing else. */
  method Rename(session: Identity, row: ProfileRow, x: string, now: string)
    returns (outcome: Outcome, renamed: Option<User>)
    ensures outcome == Returned
    ensures renamed == Some(ProfileFromRow(row, now).(name := x))
  {
    var auth := new AuthProvider();
    var _ := auth.RestoreSession(Some(session), Ok(row), now);
    var calls;
    outcome, calls := auth.UpdateProfile(NoChanges.(name := Some(x)), Written);
    MergeName(ProfileFromRow(row, now), x);
    renamed := auth.user;
  }

  /** Updating while nobody is signed in fails and changes nothing. */
  method UpdateWhileSignedOut(patch: UserPatch, reply: WriteReply, profile: Reply<ProfileRow>, now: string)
    returns (outcome: Outcome, calls: seq<Request>, profileHeld: Option<User>, identity: Option<Identity>)
    ensures outcome == Thrown("No user logged in") && calls == []
    ensures profileHeld == None && identity == None
  {
    var auth := new AuthProvider();
    var _ := auth.RestoreSession(None, profile, now);
    outcome, calls := auth.UpdateProfile(patch, reply);
    profileHeld, identity := auth.user, auth.supabaseUser;
  }
}
