/** `UserMapper`: the wire record and the entity carry the same six fields, so mapping is a bijection. */
module UserMapper {
  import opened Optional

  /** `UserResponse`; the wire names `avatar_url`, `created_at`, `updated_at` are camel-cased here. */
  datatype UserResponse = UserResponse(
    id: string,
    username: string,
    email: string,
    avatarUrl: Option<string>,
    createdAt: string,
    updatedAt: string
  )

  datatype User = User(
    id: string,
    username: string,
    email: string,
    avatarUrl: Option<string>,
    createdAt: string,
    updatedAt: string
  )

  function ToDomain(r: UserResponse): (u: User)
    ensures u.id == r.id && u.username == r.username && u.email == r.email
    ensures u.avatarUrl == r.avatarUrl
    ensures u.createdAt == r.createdAt && u.updatedAt == r.updatedAt
  {
    User(r.id, r.username, r.email, r.avatarUrl, r.createdAt, r.updatedAt)
  }

  function ToResponse(u: User): (r: UserResponse)
    ensures r.id == u.id && r.username == u.username && r.email == u.email
    ensures r.avatarUrl == u.avatarUrl
    ensures r.createdAt == u.createdAt && r.updatedAt == u.updatedAt
  {
    UserResponse(u.id, u.username, u.email, u.avatarUrl, u.createdAt, u.updatedAt)
  }

  /** Response to entity and back is the identity. */
  lemma ResponseRoundTrip(r: UserResponse)
    ensures ToResponse(ToDomain(r)) == r
  {
  }

  /** Entity to response and back is the identity. */
  lemma UserRoundTrip(u: User)
    ensures ToDomain(ToResponse(u)) == u
  {
  }

  /** Hence neither direction loses information: distinct inputs map to distinct outputs. */
  lemma MappingInjective(a: UserResponse, b: UserResponse)
    ensures ToDomain(a) == ToDomain(b) <==> a == b
  {
    ResponseRoundTrip(a);
    ResponseRoundTrip(b);
  }
}
