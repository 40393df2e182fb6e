/**
 * The part of `src/hooks/useAuth.tsx` that decides authorisation: the profile record with
 * its three-valued role, the two role predicates, and the profile fetch's error mapping.
 */
module Auth {
  import opened Common

  datatype Role = Admin | Guest | User

  /** A row of the `profiles` table. */
  datatype Profile = Profile(
    id: string,
    userId: string,
    email: string,
    displayName: Option<string>,
    role: Role,
    createdAt: string,
    updatedAt: string)

  /** The answer of the single-row `profiles` query for one user id. */
  datatype ProfileReply = Row(profile: Profile) | QueryError(message: string)

  /** `fetchProfile`: an error answer gives no profile. */
  function FetchProfile(reply: ProfileReply): Option<Profile> {
    match reply
    case Row(p) => Some(p)
    case QueryError(_) => None
  }

  /** `isAdmin()`: `profile?.role === 'admin'`. */
  predicate IsAdmin(profile: Option<Profile>) {
    profile.Some? && profile.value.role == Admin
  }

  /** `isUser()`: `profile?.role === 'user'`. */
  predicate IsUser(profile: Option<Profile>) {
    profile.Some? && profile.value.role == User
  }

  /** With no profile loaded, neither role predicate holds. */
  lemma NoProfileNoRole()
    ensures !IsAdmin(None) && !IsUser(None)
  {
  }

  /** At most one role predicate holds, and a guest profile satisfies neither. */
  lemma RolesExclusive(profile: Option<Profile>)
    ensures !(IsAdmin(profile) && IsUser(profile))
    ensures profile.Some? && profile.value.role == Guest ==> !IsAdmin(profile) && !IsUser(profile)
    ensures IsAdmin(profile) || IsUser(profile) ==> profile.Some? && profile.value.role != Guest
  {
  }

  /** A failed profile fetch leaves the identity without a profile, hence not an admin. */
  lemma FailedFetchIsNotAdmin(message: string)
    ensures FetchProfile(QueryError(message)) == None
    ensures !IsAdmin(FetchProfile(QueryError(message))) && !IsUser(FetchProfile(QueryError(message)))
  {
  }

  /** The fetched profile is admin exactly when the query found a row whose role is admin. */
  lemma FetchedAdmin(reply: ProfileReply)
    ensures IsAdmin(FetchProfile(reply)) <==> reply.Row? && reply.profile.role == Admin
  {
  }
}
