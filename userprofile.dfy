/** The `/users` routes: profile update and deletion, search, profile view
    with its follow flag, and the follow toggle. None of them is behind
    `notBlocked`. The follow toggle edits the ACTOR's own `followers` list,
    and the profile view reads the same list, so that list behaves as the
    set of users the actor follows. */
module ProfileRoutes {
  import opened Types
  import opened Lists

  /** The update built from the body and the optional upload. `bio` is
      `None` when the body has no `bio` key (the client's image-only upload);
      the undefined key is then dropped from the update and the stored bio
      kept. `profileImage` changes only with a file, named after the actor's
      id plus the uploaded file's extension `ext`. */
  function ProfileUpdate(u: User, actor: Id, bio: Option<string>, ext: Option<string>): (r: User)
    ensures bio.Some? ==> r.bio == bio.value
    ensures bio.None? ==> r.bio == u.bio
    ensures ext.None? ==> r.profileImage == u.profileImage
    ensures ext.Some? ==> r.profileImage == Some("/uploads/" + actor + ext.value)
    ensures r.(bio := u.bio, profileImage := u.profileImage) == u
    ensures bio.None? && ext.None? ==> r == u
  {
    u.(bio := if bio.Some? then bio.value else u.bio,
       profileImage := if ext.Some? then Some("/uploads/" + actor + ext.value) else u.profileImage)
  }

  /** PUT /users/me: updates the actor's own record; a missing record makes
      the update a no-op that replies 200 with null. */
  method UpdateProfile(db: Store, actor: Principal, bio: Option<string>, ext: Option<string>)
    returns (status: int, updated: Option<User>)
    modifies db
    ensures status == Ok && db.blogs == old(db.blogs)
    ensures actor.id in old(db.users) ==>
              && updated == Some(ProfileUpdate(old(db.users)[actor.id], actor.id, bio, ext))
              && db.users == old(db.users)[actor.id := updated.value]
    ensures actor.id !in old(db.users) ==> updated == None && db.users == old(db.users)
  {
    if actor.id in db.users {
      var u := ProfileUpdate(db.users[actor.id], actor.id, bio, ext);
      db.users := db.users[actor.id := u];
      updated := Some(u);
    } else {
      updated := None;
    }
    status := Ok;
  }

  /** DELETE /users/me: removes only the actor's user record; their blogs
      stay in the store. */
  method DeleteAccount(db: Store, actor: Principal)
    returns (status: int)
    modifies db
    ensures status == Ok
    ensures db.users == old(db.users) - {actor.id}
    ensures db.blogs == old(db.blogs)
  {
    db.users := db.users - {actor.id};
    status := Ok;
  }

  /** GET /users/search: a missing or empty `q` is refused with 400; a `q`
      that is not a valid pattern makes `new RegExp` throw, answered with 500
      (`validPattern` is that syntax test); otherwise the users whose username
      matches (`matches(pattern, text)` is the case-insensitive regex test). */
  method Search(db: Store, q: Option<string>, matches: (string, string) -> bool, validPattern: string -> bool)
    returns (status: int, found: set<Id>)
    ensures status == BadRequest <==> q.None? || q == Some("")
    ensures status == ServerError <==> q.Some? && q.value != "" && !validPattern(q.value)
    ensures status != Ok ==> found == {}
    ensures status == Ok <==> q.Some? && q.value != "" && validPattern(q.value)
    ensures status == Ok ==>
              forall id :: id in found <==> id in db.users && matches(q.value, db.users[id].username)
  {
    if q.None? || q.value == "" {
      return BadRequest, {};
    }
    if !validPattern(q.value) {
      return ServerError, {};
    }
    found := set id | id in db.users && matches(q.value, db.users[id].username);
    status := Ok;
  }

  /** GET /users/:id: 404 for an unknown profile; a current user without a
      record makes `currentUser.followers` throw (500); otherwise
      `isFollowing` says whether the viewed id is in the current user's
      `followers`. */
  method ViewProfile(db: Store, actor: Principal, id: Id)
    returns (status: int, isFollowing: bool)
    ensures id !in db.users ==> status == NotFound && !isFollowing
    ensures id in db.users && actor.id !in db.users ==> status == ServerError && !isFollowing
    ensures id in db.users && actor.id in db.users ==>
              status == Ok && (isFollowing <==> id in db.users[actor.id].followers)
  {
    if id !in db.users {
      return NotFound, false;
    }
    if actor.id !in db.users {
      return ServerError, false;
    }
    isFollowing := id in db.users[actor.id].followers;
    status := Ok;
  }

  /** PUT /users/:id/follow: 404 for an unknown target (checked first), 500
      when the actor has no record, 400 on oneself; otherwise toggles the
      target in the actor's own `followers`. `followed` picks the reply
      message and reflects the state before the toggle. */
  method ToggleFollow(db: Store, actor: Principal, id: Id)
    returns (status: int, followed: bool)
    modifies db
    ensures db.blogs == old(db.blogs)
    ensures
      if id !in old(db.users) then status == NotFound && db.users == old(db.users)
      else if actor.id !in old(db.users) then status == ServerError && db.users == old(db.users)
      else if actor.id == id then status == BadRequest && db.users == old(db.users)
      else
        var me := old(db.users)[actor.id];
        && status == Ok
        && followed == (id !in me.followers)
        && db.users == old(db.users)[actor.id := me.(followers := Toggle(me.followers, id))]
        && (id in db.users[actor.id].followers <==> followed)
  {
    if id !in db.users {
      return NotFound, false;
    }
    if actor.id !in db.users {
      return ServerError, false;
    }
    if actor.id == id {
      return BadRequest, false;
    }
    var me := db.users[actor.id];
    var isAlreadyFollowing := id in me.followers;
    var followers: seq<Id>;
    if isAlreadyFollowing {
      followers := Without(me.followers, id);
    } else {
      followers := me.followers + [id];
    }
    db.users := db.users[actor.id := me.(followers := followers)];
    followed := !isAlreadyFollowing;
    status := Ok;
  }
}
