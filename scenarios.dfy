/** Request sequences, proved from the handlers' contracts alone: what a
    client of the backend can rely on across several calls. */
module Scenarios {
  import opened Types
  import opened Lists
  import AdminRoutes
  import BlogRoutes
  import ProfileRoutes
  import AuthRoutes

  /** Two successful blocks of the same user restore the whole user table. */
  method BlockTwice(db: Store, admin: Principal, id: Id)
    returns (s1: int, s2: int)
    modifies db
    ensures s1 == Ok ==> s2 == Ok && db.users == old(db.users)
    ensures db.blogs == old(db.blogs)
  {
    var b1, b2;
    s1, b1 := AdminRoutes.ToggleBlock(db, Some(admin), id);
    s2, b2 := AdminRoutes.ToggleBlock(db, Some(admin), id);
    if s1 == Ok {
      assert db.users[id] == old(db.users)[id];
    }
  }

  /** Two successful follow toggles restore whether the actor's list holds
      the target; if it did not, the whole list comes back. The two reply
      messages alternate. */
  method FollowTwice(db: Store, actor: Principal, id: Id)
    returns (s1: int, f1: bool, s2: int, f2: bool)
    modifies db
    ensures s1 == Ok ==> s2 == Ok && f2 == !f1
    ensures s1 == Ok ==>
              actor.id in old(db.users) && actor.id in db.users
              && (id in db.users[actor.id].followers <==> id in old(db.users)[actor.id].followers)
    ensures s1 == Ok && actor.id in old(db.users) && id !in old(db.users)[actor.id].followers ==> db.users == old(db.users)
    ensures db.blogs == old(db.blogs)
  {
    s1, f1 := ProfileRoutes.ToggleFollow(db, actor, id);
    s2, f2 := ProfileRoutes.ToggleFollow(db, actor, id);
    if s1 == Ok {
      ToggleTwice(old(db.users)[actor.id].followers, id);
      if id !in old(db.users)[actor.id].followers {
        assert db.users[actor.id] == old(db.users)[actor.id];
      }
    }
  }

  /** Two successful like toggles restore whether the actor likes the blog. */
  method LikeTwice(db: Store, actor: Principal, id: Id)
    returns (s1: int, s2: int)
    modifies db
    ensures s1 == Ok ==>
              s2 == Ok && id in old(db.blogs) && id in db.blogs
              && (actor.id in db.blogs[id].likes <==> actor.id in old(db.blogs)[id].likes)
    ensures s1 == Ok && id in old(db.blogs) && actor.id !in old(db.blogs)[id].likes ==> db.blogs == old(db.blogs)
    ensures db.users == old(db.users)
  {
    s1 := BlogRoutes.ToggleLike(db, actor, id);
    s2 := BlogRoutes.ToggleLike(db, actor, id);
    if s1 == Ok {
      ToggleTwice(old(db.blogs)[id].likes, actor.id);
      if actor.id !in old(db.blogs)[id].likes {
        assert db.blogs[id] == old(db.blogs)[id];
      }
    }
  }

  /** An admin blocks a user who was not blocked; that user's next attempt
      to post is refused with 403 and creates nothing. */
  method BlockThenPost(db: Store, admin: Principal, alice: Principal, body: BlogRoutes.NewBlogBody, newId: Id)
    returns (blockStatus: int, postStatus: int)
    requires admin.role == AdminRole && admin.id != alice.id
    requires alice.id in db.users && !db.users[alice.id].isBlocked
    requires newId !in db.blogs
    modifies db
    ensures blockStatus == Ok && postStatus == Forbidden
    ensures db.blogs == old(db.blogs)
  {
    var blocked;
    blockStatus, blocked := AdminRoutes.ToggleBlock(db, Some(admin), alice.id);
    postStatus := BlogRoutes.CreateBlog(db, alice, body, newId);
  }

  /** Register, log in with the right password, post: the token names the
      new user with role "user", and the blog is owned by that user. */
  method RegisterLoginPost(db: Store, username: string, email: string, password: string,
                           uid: Id, blogId: Id, body: BlogRoutes.NewBlogBody,
                           hash: string -> string, compare: (string, string) -> bool)
    returns (regStatus: int, loginStatus: int, token: Option<TokenPayload>, postStatus: int)
    requires db.users == map[] && db.blogs == map[]
    requires compare(password, hash(password))
    modifies db
    ensures regStatus == Created && loginStatus == Ok && postStatus == Ok
    ensures token == Some(TokenPayload(uid, UserRole))
    ensures blogId in db.blogs && db.blogs[blogId].author == uid
  {
    regStatus := AuthRoutes.Register(db, username, email, password, None, uid, hash);
    assert db.users.Keys == {uid};
    loginStatus, token := AuthRoutes.Login(db, email, password, compare);
    postStatus := BlogRoutes.CreateBlog(db, Principal(uid, UserRole), body, blogId);
  }
}
