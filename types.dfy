/** The persisted shapes of the blogging backend (users, blogs, embedded
    comments) and the in-memory store that stands for the document database. */
module Types {

  /** Document identities (MongoDB ObjectIds); only compared for equality. */
  type Id = string

  datatype Option<+T> = None | Some(value: T)

  /** HTTP status codes the route handlers reply with. */
  const Ok: int := 200
  const Created: int := 201
  const BadRequest: int := 400
  const Unauthorized: int := 401
  const Forbidden: int := 403
  const NotFound: int := 404
  const ServerError: int := 500

  /** The two role names the backend knows about. */
  const UserRole: string := "user"
  const AdminRole: string := "admin"

  /** What the (unmodelled) token decoder puts in `req.user`: the id and the
      role carried by the signed token, not re-read from the store. */
  datatype Principal = Principal(id: Id, role: string)

  /** The payload a successful login signs: exactly the user's id and role. */
  datatype TokenPayload = TokenPayload(id: Id, role: string)

  datatype User = User(
    username: string,
    email: string,
    password: string,                 // the stored bcrypt hash
    role: string,
    isBlocked: bool,
    bio: string,
    profileImage: Option<string>,
    followers: seq<Id>,
    resetPasswordToken: Option<string>,
    resetPasswordExpires: Option<int>  // milliseconds since the epoch
  )

  /** A comment embedded in its blog; `id` is the sub-document's own `_id`. */
  datatype Comment = Comment(id: Id, user: Id, text: string, createdAt: int)

  datatype Blog = Blog(
    title: string,
    content: string,
    author: Id,
    comments: seq<Comment>,
    likes: seq<Id>
  )

  /** The outcome of a middleware: hand over to the next handler, or answer
      the request with an error status. */
  datatype Gate = Next | Reject(status: int)

  /** The document database: the `users` and `blogs` collections by id. */
  class Store {
    var users: map<Id, User>
    var blogs: map<Id, Blog>

    constructor ()
      ensures users == map[] && blogs == map[]
    {
      users := map[];
      blogs := map[];
    }
  }

  /** Some stored user has this email (`User.findOne({ email })` finds one). */
  predicate HasEmail(users: map<Id, User>, email: string)
  {
    exists id :: id in users && users[id].email == email
  }

  /** The schema's unique index on `email`. */
  ghost predicate EmailsUnique(users: map<Id, User>)
  {
    forall a, b :: a in users && b in users && users[a].email == users[b].email ==> a == b
  }
}
