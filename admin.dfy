/** The `/admin` routes: every handler sits behind `requireRole("admin")`,
    and the three user mutations refuse to act on the caller's own account. */
module AdminRoutes {
  import opened Types
  import opened Lists
  import opened Middleware
  import opened Pagination

  /** `isSelf`: the caller's id is the target id; without a principal the
      optional chain yields undefined, which equals no id. */
  function IsSelf(caller: Option<Principal>, target: Id): (b: bool)
    ensures b <==> caller.Some? && caller.value.id == target
  {
    match caller
    case None => false
    case Some(p) => p.id == target
  }

  /** `["user", "admin"].includes(role)`: a missing role is not valid. */
  predicate ValidRole(role: Option<string>)
  {
    role == Some(UserRole) || role == Some(AdminRole)
  }

  /** The user filter: a non-empty `q` must match the username or the email
      (`matches(pattern, text)` is the case-insensitive regex test), a
      non-empty `role` must equal the role, and a given `isBlocked` string
      selects blocked users exactly when it is "true". */
  predicate UserMatches(u: User, q: string, role: Option<string>, isBlocked: Option<string>,
                        matches: (string, string) -> bool)
  {
    && (q != "" ==> matches(q, u.username) || matches(q, u.email))
    && (role.Some? && role.value != "" ==> u.role == role.value)
    && (isBlocked.Some? ==> u.isBlocked == (isBlocked.value == "true"))
  }

  /** The blog filter: a non-empty `q` must match the title and a non-empty
      `author` must equal the author id. */
  predicate BlogMatches(b: Blog, q: string, author: Option<Id>, matches: (string, string) -> bool)
  {
    && (q != "" ==> matches(q, b.title))
    && (author.Some? && author.value != "" ==> b.author == author.value)
  }

  /** `new RegExp(q, "i")` is only built for a non-empty `q`, and throws
      when `q` is not a valid pattern (`validPattern` is that syntax test). */
  predicate PatternThrows(q: string, validPattern: string -> bool)
  {
    q != "" && !validPattern(q)
  }

  /** The page number and page size after the defaults (1 and 10). */
  function PageOr(page: Option<int>): int { if page.Some? then page.value else 1 }
  function LimitOr(limit: Option<int>): int { if limit.Some? then limit.value else 10 }

  /** `Blog.deleteMany({ author })`: the blogs of every other author, as they were. */
  function WithoutAuthor(blogs: map<Id, Blog>, author: Id): (r: map<Id, Blog>)
    ensures forall b :: b in r <==> b in blogs && blogs[b].author != author
    ensures forall b :: b in r ==> r[b] == blogs[b]
  {
    map b | b in blogs && blogs[b].author != author :: blogs[b]
  }

  /** GET /admin/users: the matching users, their count, and the page
      arithmetic. An invalid pattern or a negative skip makes the lookup
      throw, answered with 500. Which items fall in the window is left to the
      store's sort. */
  method ListUsers(db: Store, caller: Option<Principal>, q: string, page: Option<int>,
                   limit: Option<int>, role: Option<string>, isBlocked: Option<string>,
                   matches: (string, string) -> bool, validPattern: string -> bool)
    returns (status: int, matched: set<Id>, total: nat, pageOut: int, skip: int, pages: Option<int>)
    ensures RequireRole(caller, AdminRole).Reject? ==>
              status == RequireRole(caller, AdminRole).status && matched == {}
    ensures RequireRole(caller, AdminRole).Next? &&
            (PatternThrows(q, validPattern) || Skip(PageOr(page), LimitOr(limit)) < 0) ==>
              status == ServerError && matched == {}
    ensures RequireRole(caller, AdminRole).Next? &&
            !PatternThrows(q, validPattern) && Skip(PageOr(page), LimitOr(limit)) >= 0 ==>
              && status == Ok
              && (forall id :: id in matched <==> id in db.users && UserMatches(db.users[id], q, role, isBlocked, matches))
              && total == |matched|
              && pageOut == PageOr(page)
              && skip == (PageOr(page) - 1) * LimitOr(limit)
              && pages == Pages(total, LimitOr(limit))
  {
    var gate := RequireRole(caller, AdminRole);
    if gate.Reject? {
      return gate.status, {}, 0, 0, 0, None;
    }
    if PatternThrows(q, validPattern) || Skip(PageOr(page), LimitOr(limit)) < 0 {
      return ServerError, {}, 0, 0, 0, None;
    }
    matched := set id | id in db.users && UserMatches(db.users[id], q, role, isBlocked, matches);
    total := |matched|;
    pageOut := PageOr(page);
    skip := Skip(pageOut, LimitOr(limit));
    pages := Pages(total, LimitOr(limit));
    status := Ok;
  }

  /** GET /admin/blogs: as ListUsers, over blogs. */
  method ListBlogs(db: Store, caller: Option<Principal>, q: string, page: Option<int>,
                   limit: Option<int>, author: Option<Id>, matches: (string, string) -> bool,
                   validPattern: string -> bool)
    returns (status: int, matched: set<Id>, total: nat, pageOut: int, skip: int, pages: Option<int>)
    ensures RequireRole(caller, AdminRole).Reject? ==>
              status == RequireRole(caller, AdminRole).status && matched == {}
    ensures RequireRole(caller, AdminRole).Next? &&
            (PatternThrows(q, validPattern) || Skip(PageOr(page), LimitOr(limit)) < 0) ==>
              status == ServerError && matched == {}
    ensures RequireRole(caller, AdminRole).Next? &&
            !PatternThrows(q, validPattern) && Skip(PageOr(page), LimitOr(limit)) >= 0 ==>
              && status == Ok
              && (forall id :: id in matched <==> id in db.blogs && BlogMatches(db.blogs[id], q, author, matches))
              && total == |matched|
              && pageOut == PageOr(page)
              && skip == (PageOr(page) - 1) * LimitOr(limit)
              && pages == Pages(total, LimitOr(limit))
  {
    var gate := RequireRole(caller, AdminRole);
    if gate.Reject? {
      return gate.status, {}, 0, 0, 0, None;
    }
    if PatternThrows(q, validPattern) || Skip(PageOr(page), LimitOr(limit)) < 0 {
      return ServerError, {}, 0, 0, 0, None;
    }
    matched := set id | id in db.blogs && BlogMatches(db.blogs[id], q, author, matches);
    total := |matched|;
    pageOut := PageOr(page);
    skip := Skip(pageOut, LimitOr(limit));
    pages := Pages(total, LimitOr(limit));
    status := Ok;
  }

  /** PUT /admin/users/:id/role: an invalid role is refused before the
      self check; an unknown id gives 404; otherwise only that user's role
      changes. */
  method ChangeRole(db: Store, caller: Option<Principal>, id: Id, role: Option<string>)
    returns (status: int)
    modifies db
    ensures db.blogs == old(db.blogs)
    ensures var gate := RequireRole(caller, AdminRole);
      if gate.Reject? then status == gate.status && db.users == old(db.users)
      else if !ValidRole(role) then status == BadRequest && db.users == old(db.users)
      else if IsSelf(caller, id) then status == BadRequest && db.users == old(db.users)
      else if id !in old(db.users) then status == NotFound && db.users == old(db.users)
      else status == Ok && db.users == old(db.users)[id := old(db.users)[id].(role := role.value)]
  {
    var gate := RequireRole(caller, AdminRole);
    if gate.Reject? {
      return gate.status;
    }
    if !ValidRole(role) {
      return BadRequest;
    }
    if IsSelf(caller, id) {
      return BadRequest;
    }
    if id !in db.users {
      return NotFound;
    }
    db.users := db.users[id := db.users[id].(role := role.value)];
    status := Ok;
  }

  /** PUT /admin/users/:id/block: flips `isBlocked` of exactly the target;
      `blocked` is the new flag, which chooses the reply message. */
  method ToggleBlock(db: Store, caller: Option<Principal>, id: Id)
    returns (status: int, blocked: bool)
    modifies db
    ensures db.blogs == old(db.blogs)
    ensures var gate := RequireRole(caller, AdminRole);
      if gate.Reject? then status == gate.status && db.users == old(db.users)
      else if IsSelf(caller, id) then status == BadRequest && db.users == old(db.users)
      else if id !in old(db.users) then status == NotFound && db.users == old(db.users)
      else
        && status == Ok
        && blocked == !old(db.users)[id].isBlocked
        && db.users == old(db.users)[id := old(db.users)[id].(isBlocked := blocked)]
  {
    var gate := RequireRole(caller, AdminRole);
    if gate.Reject? {
      return gate.status, false;
    }
    if IsSelf(caller, id) {
      return BadRequest, false;
    }
    if id !in db.users {
      return NotFound, false;
    }
    blocked := !db.users[id].isBlocked;
    db.users := db.users[id := db.users[id].(isBlocked := blocked)];
    status := Ok;
  }

  /** DELETE /admin/users/:id: removes the user and then every blog they
      authored; an unknown id gives 404 and deletes no blog. */
  method DeleteUser(db: Store, caller: Option<Principal>, id: Id)
    returns (status: int)
    modifies db
    ensures var gate := RequireRole(caller, AdminRole);
      if gate.Reject? then status == gate.status && db.users == old(db.users) && db.blogs == old(db.blogs)
      else if IsSelf(caller, id) then status == BadRequest && db.users == old(db.users) && db.blogs == old(db.blogs)
      else if id !in old(db.users) then status == NotFound && db.users == old(db.users) && db.blogs == old(db.blogs)
      else
        && status == Ok
        && db.users == old(db.users) - {id}
        && db.blogs == WithoutAuthor(old(db.blogs), id)
  {
    var gate := RequireRole(caller, AdminRole);
    if gate.Reject? {
      return gate.status;
    }
    if IsSelf(caller, id) {
      return BadRequest;
    }
    if id !in db.users {
      return NotFound;
    }
    db.users := db.users - {id};
    db.blogs := WithoutAuthor(db.blogs, id);
    status := Ok;
  }

  /** DELETE /admin/blogs/:id: removes only that blog; unknown id gives 404. */
  method DeleteBlog(db: Store, caller: Option<Principal>, id: Id)
    returns (status: int)
    modifies db
    ensures db.users == old(db.users)
    ensures var gate := RequireRole(caller, AdminRole);
      if gate.Reject? then status == gate.status && db.blogs == old(db.blogs)
      else if id !in old(db.blogs) then status == NotFound && db.blogs == old(db.blogs)
      else status == Ok && db.blogs == old(db.blogs) - {id}
  {
    var gate := RequireRole(caller, AdminRole);
    if gate.Reject? {
      return gate.status;
    }
    if id !in db.blogs {
      return NotFound;
    }
    db.blogs := db.blogs - {id};
    status := Ok;
  }

  /** DELETE /admin/blogs/:blogId/comments/:commentId: findIndex then
      splice, so exactly the first comment with that id goes, whoever wrote
      it, and the others keep their order. */
  method DeleteComment(db: Store, caller: Option<Principal>, blogId: Id, commentId: Id)
    returns (status: int)
    modifies db
    ensures db.users == old(db.users)
    ensures var gate := RequireRole(caller, AdminRole);
      if gate.Reject? then status == gate.status && db.blogs == old(db.blogs)
      else if blogId !in old(db.blogs) then status == NotFound && db.blogs == old(db.blogs)
      else
        var cs := old(db.blogs)[blogId].comments;
        if forall i :: 0 <= i < |cs| ==> cs[i].id != commentId then
          status == NotFound && db.blogs == old(db.blogs)
        else
          exists k :: 0 <= k < |cs| && cs[k].id == commentId
            && (forall i :: 0 <= i < k ==> cs[i].id != commentId)
            && status == Ok
            && db.blogs == old(db.blogs)[blogId := old(db.blogs)[blogId].(comments := RemoveAt(cs, k))]
  {
    var gate := RequireRole(caller, AdminRole);
    if gate.Reject? {
      return gate.status;
    }
    if blogId !in db.blogs {
      return NotFound;
    }
    var blog := db.blogs[blogId];
    var k := FindComment(blog.comments, commentId);
    if k == -1 {
      return NotFound;
    }
    db.blogs := db.blogs[blogId := blog.(comments := RemoveAt(blog.comments, k))];
    status := Ok;
  }
}
