/**
 * The `/api/todos` route: listing a caller's todos with search and
 * pagination (GET), and creating a todo under the free-tier quota (POST).
 */
module TodosRoute {
  import opened Wrappers
  import opened Records
  import opened Seqs
  import opened TextSearch
  import opened Pagination
  import opened Ordering

  /** An unsubscribed user may not create a todo once they own this many. */
  const FreeQuota: nat := 3

  /** The GET filter: owned by `uid`, title containing `search` with case ignored. */
  function Matching(todos: seq<Todo>, uid: UserId, search: string): (r: seq<Todo>)
    ensures forall t :: t in r <==> t in todos && t.userId == uid && ContainsInsensitive(t.title, search)
    ensures forall t :: multiset(r)[t] ==
              if t.userId == uid && ContainsInsensitive(t.title, search) then multiset(todos)[t] else 0
  {
    Filter(todos, (t: Todo) => t.userId == uid && ContainsInsensitive(t.title, search))
  }

  /** The empty search term (the default when `search` is absent) matches every todo the caller owns. */
  lemma EmptySearchMatchesAllOwned(todos: seq<Todo>, uid: UserId)
    ensures Matching(todos, uid, "") == OwnedBy(todos, uid)
  {
    FilterAgrees(todos, (t: Todo) => t.userId == uid && ContainsInsensitive(t.title, ""), (t: Todo) => t.userId == uid);
  }

  /** The JSON body of a successful GET. */
  datatype TodoList = TodoList(todos: seq<Todo>, totalPages: nat, currentPage: int)

  /** What GET answers for caller `uid`, 1-based page `page` and search term `search`. */
  function ListTodos(todos: seq<Todo>, uid: UserId, page: int, search: string): (l: TodoList)
    requires page >= 1
    ensures l.currentPage == page
    ensures l.totalPages == TotalPages(|Matching(todos, uid, search)|)
    ensures |l.todos| <= PageSize
    ensures l.todos == PageOf(SortNewestFirst(Matching(todos, uid, search)), page)
  {
    var matching := Matching(todos, uid, search);
    TodoList(PageOf(SortNewestFirst(matching), page), TotalPages(|matching|), page)
  }

  /** GET returns only the caller's todos whose title matches, newest first. */
  lemma ListTodosOnlyMatchingNewestFirst(todos: seq<Todo>, uid: UserId, page: int, search: string)
    requires page >= 1
    ensures var l := ListTodos(todos, uid, page, search);
            && (forall t :: t in l.todos ==> t in todos && t.userId == uid && ContainsInsensitive(t.title, search))
            && NewestFirst(l.todos)
  {
    var matching := Matching(todos, uid, search);
    SortedKeepsElements(matching);
    PageOfSorted(SortNewestFirst(matching), page);
  }

  /** Sorting neither adds nor drops todos. */
  lemma SortedKeepsElements(s: seq<Todo>)
    ensures |SortNewestFirst(s)| == |s|
    ensures forall t :: t in SortNewestFirst(s) <==> t in s
  {
    var r := SortNewestFirst(s);
    assert |r| == |multiset(r)| == |multiset(s)| == |s|;
    forall t ensures t in r <==> t in s {
      assert t in r <==> t in multiset(r);
      assert t in s <==> t in multiset(s);
    }
  }

  /** A page of a newest-first sequence is newest first and drawn from it. */
  lemma PageOfSorted(s: seq<Todo>, page: int)
    requires page >= 1
    requires NewestFirst(s)
    ensures NewestFirst(PageOf(s, page))
    ensures forall t :: t in PageOf(s, page) ==> t in s
  {
    SliceNewestFirst(s, Min(Offset(page), |s|), Min(Offset(page) + PageSize, |s|));
  }

  /** The todos GET returns for each page number (no page precedes page 1). */
  function GetPages(todos: seq<Todo>, uid: UserId, search: string): nat -> seq<Todo> {
    (j: nat) => if j >= 1 then ListTodos(todos, uid, j, search).todos else []
  }

  /** The todos of GET pages 1 to `k`, one page after another. */
  function ListedPages(todos: seq<Todo>, uid: UserId, search: string, k: nat): seq<Todo> {
    PagesBy(GetPages(todos, uid, search), k)
  }

  /**
   * Requesting pages 1 to totalPages and concatenating them yields every
   * matching todo exactly once, newest first.
   */
  lemma ListedPagesGiveAllMatches(todos: seq<Todo>, uid: UserId, search: string)
    ensures var n := ListTodos(todos, uid, 1, search).totalPages;
            && ListedPages(todos, uid, search, n) == SortNewestFirst(Matching(todos, uid, search))
            && multiset(ListedPages(todos, uid, search, n)) == multiset(Matching(todos, uid, search))
  {
    var sorted := SortNewestFirst(Matching(todos, uid, search));
    SortedKeepsElements(Matching(todos, uid, search));
    ListedPagesArePages(todos, uid, search, TotalPages(|sorted|));
    AllPagesGiveEverything(sorted);
  }

  lemma ListedPagesArePages(todos: seq<Todo>, uid: UserId, search: string, k: nat)
    ensures ListedPages(todos, uid, search, k) == Pages(SortNewestFirst(Matching(todos, uid, search)), k)
  {
    var sorted := SortNewestFirst(Matching(todos, uid, search));
    forall j | 1 <= j <= k
      ensures GetPages(todos, uid, search)(j) == PageOf(sorted, j)
    {
      ListedPageIsPage(todos, uid, search, j);
    }
    PagesByAgree(GetPages(todos, uid, search), sorted, k);
  }

  lemma ListedPageIsPage(todos: seq<Todo>, uid: UserId, search: string, k: nat)
    requires k > 0
    ensures ListTodos(todos, uid, k, search).todos == PageOf(SortNewestFirst(Matching(todos, uid, search)), k)
  {
  }

  /** The POST handler over the database. `newId` and `now` are the id and timestamp the database assigns. */
  function Post(db: Db, caller: Option<UserId>, title: string, newId: TodoId, now: Instant): (o: Outcome<Todo>)
    ensures !Present(caller) ==> o == Outcome(Refused(UNAUTHORIZED, "Unauthorized"), db)
    ensures Present(caller) && caller.value !in db.users ==> o == Outcome(Refused(UNAUTHORIZED, "User not found"), db)
    ensures o.reply.status == FORBIDDEN <==>
              Present(caller) && caller.value in db.users && !db.users[caller.value].isSubscribed
              && |OwnedBy(db.todos, caller.value)| >= FreeQuota
    ensures o.reply.status == CREATED <==>
              Present(caller) && caller.value in db.users
              && (db.users[caller.value].isSubscribed || |OwnedBy(db.todos, caller.value)| < FreeQuota)
              && !TodoIdInUse(db.todos, newId)
    ensures o.reply.status == CREATED ==>
              o.reply == Done(CREATED, Todo(newId, title, caller.value, now))
              && o.db == db.(todos := db.todos + [o.reply.value])
    ensures o.reply.status != CREATED ==> o.db == db
  {
    if !Present(caller) then Outcome(Refused(UNAUTHORIZED, "Unauthorized"), db)
    else if caller.value !in db.users then Outcome(Refused(UNAUTHORIZED, "User not found"), db)
    else
      var user := db.users[caller.value];
      if !user.isSubscribed && |OwnedBy(db.todos, caller.value)| >= FreeQuota then
        Outcome(Refused(FORBIDDEN, "Upgrade your subscription to add more todos"), db)
      else if TodoIdInUse(db.todos, newId) then
        // the insert violates the primary key and the catch answers 500
        Outcome(Refused(INTERNAL_ERROR, "Internal Server Error"), db)
      else
        var created := Todo(newId, title, caller.value, now);
        Outcome(Done(CREATED, created), db.(todos := db.todos + [created]))
  }

  /** A successful POST gives the caller exactly one more todo and every other user the same number. */
  lemma PostAddsOneTodoToCaller(db: Db, caller: Option<UserId>, title: string, newId: TodoId, now: Instant, uid: UserId)
    requires Post(db, caller, title, newId, now).reply.status == CREATED
    ensures |OwnedBy(Post(db, caller, title, newId, now).db.todos, uid)| ==
            |OwnedBy(db.todos, uid)| + (if uid == caller.value then 1 else 0)
  {
    FilterAppend(db.todos, Todo(newId, title, caller.value, now), (t: Todo) => t.userId == uid);
  }

  /** POST never takes an unsubscribed user past the free quota. */
  lemma PostKeepsFreeUsersWithinQuota(db: Db, caller: Option<UserId>, title: string, newId: TodoId, now: Instant)
    requires Post(db, caller, title, newId, now).reply.status == CREATED
    requires !db.users[caller.value].isSubscribed
    ensures |OwnedBy(Post(db, caller, title, newId, now).db.todos, caller.value)| <= FreeQuota
  {
    PostAddsOneTodoToCaller(db, caller, title, newId, now, caller.value);
  }

  /** POST keeps the database consistent. */
  lemma PostPreservesInv(db: Db, caller: Option<UserId>, title: string, newId: TodoId, now: Instant)
    requires Inv(db)
    ensures Inv(Post(db, caller, title, newId, now).db)
  {
    var o := Post(db, caller, title, newId, now);
    if o.reply.status == CREATED {
      assert o.db.todos == db.todos + [Todo(newId, title, caller.value, now)];
    }
  }
}
