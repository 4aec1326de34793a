/**
 * The records kept by the database (users and todos), the replies a route
 * handler sends back, and the consistency conditions the handlers keep.
 */
module Records {
  import opened Wrappers
  import opened Seqs

  /** Instants are milliseconds since the epoch, as a JavaScript `Date` holds them. */
  type Instant = int
  type UserId = string
  type TodoId = string

  /** A row of the `user` table. `subscriptionEndsAt` is nullable. */
  datatype User = User(id: UserId, email: string, isSubscribed: bool, subscriptionEndsAt: Option<Instant>)

  /** A row of the `todo` table; `userId` is the owner. */
  datatype Todo = Todo(id: TodoId, title: string, userId: UserId, createdAt: Instant)

  /** The whole database: users keyed by their identity-provider id, todos in insertion order. */
  datatype Db = Db(users: map<UserId, User>, todos: seq<Todo>)

  /** What a route handler answers: a JSON payload, or an error message, with the HTTP status. */
  datatype Reply<T> = Done(status: int, value: T) | Refused(status: int, message: string)

  /** The reply of a handler together with the database after it. */
  datatype Outcome<T> = Outcome(reply: Reply<T>, db: Db)

  const OK := 200
  const CREATED := 201
  const BAD_REQUEST := 400
  const UNAUTHORIZED := 401
  const FORBIDDEN := 403
  const INTERNAL_ERROR := 500

  /**
   * JavaScript truthiness of a `string | null`: `!s` holds for null and for
   * the empty string alike.
   */
  predicate Present(s: Option<string>) { s.Some? && s.value != "" }

  /** The todos a user owns, in store order (`user.todos` in an ORM `include`). */
  function OwnedBy(todos: seq<Todo>, uid: UserId): (r: seq<Todo>)
    ensures forall t :: t in r <==> t in todos && t.userId == uid
    ensures forall t :: multiset(r)[t] == if t.userId == uid then multiset(todos)[t] else 0
  {
    Filter(todos, (t: Todo) => t.userId == uid)
  }

  predicate TodoIdInUse(todos: seq<Todo>, id: TodoId) {
    exists i :: 0 <= i < |todos| && todos[i].id == id
  }

  predicate EmailInUse(users: map<UserId, User>, email: string) {
    exists id :: id in users && users[id].email == email
  }

  // ---- the consistency conditions every handler keeps ----

  /** Each user is stored under its own id. */
  ghost predicate KeysMatch(users: map<UserId, User>) {
    forall id :: id in users ==> users[id].id == id
  }

  /** Email is a unique column. */
  ghost predicate UniqueEmails(users: map<UserId, User>) {
    forall a, b :: a in users && b in users && users[a].email == users[b].email ==> a == b
  }

  /** Every write sets the flag and the end date together: a user is flagged exactly when an end date is stored. */
  ghost predicate FlagMatchesEndDate(users: map<UserId, User>) {
    forall id :: id in users ==> (users[id].isSubscribed <==> users[id].subscriptionEndsAt.Some?)
  }

  /** The todo id is the primary key. */
  ghost predicate UniqueTodoIds(todos: seq<Todo>) {
    forall i, j :: 0 <= i < |todos| && 0 <= j < |todos| && todos[i].id == todos[j].id ==> i == j
  }

  /** `todo.userId` is a foreign key into the user table. */
  ghost predicate OwnersExist(db: Db) {
    forall i :: 0 <= i < |db.todos| ==> db.todos[i].userId in db.users
  }

  ghost predicate Inv(db: Db) {
    && KeysMatch(db.users)
    && UniqueEmails(db.users)
    && FlagMatchesEndDate(db.users)
    && UniqueTodoIds(db.todos)
    && OwnersExist(db)
  }
}
