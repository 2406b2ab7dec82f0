/** The `/blogs` routes that change state. Each sits behind `notBlocked`,
    so an actor without a record gets 401 and a blocked actor gets 403, in
    both cases with the store untouched. Ownership is enforced by the query
    filter `{ _id, author: actor }`, which makes a non-owner's update or
    delete a silent success that changes nothing. */
module BlogRoutes {
  import opened Types
  import opened Lists
  import opened Middleware

  /** The body of POST /blogs; a client-supplied `author` is ignored. */
  datatype NewBlogBody = NewBlogBody(title: string, content: string, author: Option<Id>)

  /** The body of PUT /blogs/:id, handed to the update as it is: every field
      present overwrites the stored one, `author` included. */
  datatype BlogPatch = BlogPatch(title: Option<string>, content: Option<string>, author: Option<Id>)

  function ApplyPatch(b: Blog, p: BlogPatch): (r: Blog)
    ensures r.comments == b.comments && r.likes == b.likes
    ensures p.title.None? ==> r.title == b.title
    ensures p.content.None? ==> r.content == b.content
    ensures p.author.None? ==> r.author == b.author
    ensures p.title.Some? ==> r.title == p.title.value
    ensures p.content.Some? ==> r.content == p.content.value
    ensures p.author.Some? ==> r.author == p.author.value
    ensures p == BlogPatch(None, None, None) ==> r == b
  {
    Blog(
      if p.title.Some? then p.title.value else b.title,
      if p.content.Some? then p.content.value else b.content,
      if p.author.Some? then p.author.value else b.author,
      b.comments,
      b.likes)
  }

  /** The ownership filter `{ _id: id, author: actor }`. */
  predicate OwnedBy(blogs: map<Id, Blog>, id: Id, actor: Id)
  {
    id in blogs && blogs[id].author == actor
  }

  /** POST /blogs: a new blog whose author is the actor, whatever the body
      says; `newId` is the fresh id the store assigns. */
  method CreateBlog(db: Store, actor: Principal, body: NewBlogBody, newId: Id)
    returns (status: int)
    requires newId !in db.blogs
    modifies db
    ensures db.users == old(db.users)
    ensures var gate := NotBlocked(old(db.users), actor);
      if gate.Reject? then status == gate.status && db.blogs == old(db.blogs)
      else
        && status == Ok
        && db.blogs == old(db.blogs)[newId := Blog(body.title, body.content, actor.id, [], [])]
        && db.blogs[newId].author == actor.id
  {
    var gate := NotBlocked(db.users, actor);
    if gate.Reject? {
      return gate.status;
    }
    db.blogs := db.blogs[newId := Blog(body.title, body.content, actor.id, [], [])];
    status := Ok;
  }

  /** PUT /blogs/:id: patches the blog only when it exists and the actor is
      its author; replies 200 either way, with the updated blog or null. */
  method UpdateBlog(db: Store, actor: Principal, id: Id, patch: BlogPatch)
    returns (status: int, updated: Option<Blog>)
    modifies db
    ensures db.users == old(db.users)
    ensures var gate := NotBlocked(old(db.users), actor);
      if gate.Reject? then status == gate.status && updated == None && db.blogs == old(db.blogs)
      else if OwnedBy(old(db.blogs), id, actor.id) then
        && status == Ok
        && updated == Some(ApplyPatch(old(db.blogs)[id], patch))
        && db.blogs == old(db.blogs)[id := updated.value]
      else status == Ok && updated == None && db.blogs == old(db.blogs)
  {
    var gate := NotBlocked(db.users, actor);
    if gate.Reject? {
      return gate.status, None;
    }
    if OwnedBy(db.blogs, id, actor.id) {
      var b := ApplyPatch(db.blogs[id], patch);
      db.blogs := db.blogs[id := b];
      updated := Some(b);
    } else {
      updated := None;
    }
    status := Ok;
  }

  /** DELETE /blogs/:id: removes the blog only when the actor is its author;
      replies 200 whether or not anything matched. */
  method DeleteBlog(db: Store, actor: Principal, id: Id)
    returns (status: int)
    modifies db
    ensures db.users == old(db.users)
    ensures var gate := NotBlocked(old(db.users), actor);
      if gate.Reject? then status == gate.status && db.blogs == old(db.blogs)
      else if OwnedBy(old(db.blogs), id, actor.id) then status == Ok && db.blogs == old(db.blogs) - {id}
      else status == Ok && db.blogs == old(db.blogs)
  {
    var gate := NotBlocked(db.users, actor);
    if gate.Reject? {
      return gate.status;
    }
    if OwnedBy(db.blogs, id, actor.id) {
      db.blogs := db.blogs - {id};
    }
    status := Ok;
  }

  /** POST /blogs/:id/comments: pushes one comment by the actor at the end;
      `commentId` and `now` are the sub-document id and the clock. */
  method AddComment(db: Store, actor: Principal, id: Id, text: string, commentId: Id, now: int)
    returns (status: int)
    modifies db
    ensures db.users == old(db.users)
    ensures var gate := NotBlocked(old(db.users), actor);
      if gate.Reject? then status == gate.status && db.blogs == old(db.blogs)
      else if id !in old(db.blogs) then status == NotFound && db.blogs == old(db.blogs)
      else
        var b := old(db.blogs)[id];
        && status == Ok
        && db.blogs == old(db.blogs)[id := b.(comments := b.comments + [Comment(commentId, actor.id, text, now)])]
        && |db.blogs[id].comments| == |b.comments| + 1
        && db.blogs[id].comments[..|b.comments|] == b.comments
        && db.blogs[id].comments[|b.comments|].user == actor.id
  {
    var gate := NotBlocked(db.users, actor);
    if gate.Reject? {
      return gate.status;
    }
    if id !in db.blogs {
      return NotFound;
    }
    var b := db.blogs[id];
    db.blogs := db.blogs[id := b.(comments := b.comments + [Comment(commentId, actor.id, text, now)])];
    status := Ok;
  }

  /** DELETE /blogs/:id/comments/:commentId: keeps every comment except those
      with that id written by the actor; a non-owner's request changes nothing
      and still replies 200. */
  method DeleteComment(db: Store, actor: Principal, id: Id, commentId: Id)
    returns (status: int)
    modifies db
    ensures db.users == old(db.users)
    ensures var gate := NotBlocked(old(db.users), actor);
      if gate.Reject? then status == gate.status && db.blogs == old(db.blogs)
      else if id !in old(db.blogs) then status == NotFound && db.blogs == old(db.blogs)
      else
        var b := old(db.blogs)[id];
        && status == Ok
        && db.blogs == old(db.blogs)[id := b.(comments := KeepComments(b.comments, commentId, actor.id))]
        && ((forall i :: 0 <= i < |b.comments| ==> b.comments[i].id != commentId || b.comments[i].user != actor.id)
            ==> db.blogs == old(db.blogs))
  {
    var gate := NotBlocked(db.users, actor);
    if gate.Reject? {
      return gate.status;
    }
    if id !in db.blogs {
      return NotFound;
    }
    var b := db.blogs[id];
    var kept := KeepComments(b.comments, commentId, actor.id);
    if forall i :: 0 <= i < |b.comments| ==> b.comments[i].id != commentId || b.comments[i].user != actor.id {
      KeepCommentsNonOwner(b.comments, commentId, actor.id);
      assert b.(comments := kept) == b;
    }
    db.blogs := db.blogs[id := b.(comments := kept)];
    status := Ok;
  }

  /** PUT /blogs/:id/like: toggles the actor in `likes`. */
  method ToggleLike(db: Store, actor: Principal, id: Id)
    returns (status: int)
    modifies db
    ensures db.users == old(db.users)
    ensures var gate := NotBlocked(old(db.users), actor);
      if gate.Reject? then status == gate.status && db.blogs == old(db.blogs)
      else if id !in old(db.blogs) then status == NotFound && db.blogs == old(db.blogs)
      else
        var b := old(db.blogs)[id];
        && status == Ok
        && db.blogs == old(db.blogs)[id := b.(likes := Toggle(b.likes, actor.id))]
        && (actor.id in db.blogs[id].likes <==> actor.id !in b.likes)
  {
    var gate := NotBlocked(db.users, actor);
    if gate.Reject? {
      return gate.status;
    }
    if id !in db.blogs {
      return NotFound;
    }
    var b := db.blogs[id];
    var likes: seq<Id>;
    if actor.id in b.likes {
      likes := Without(b.likes, actor.id);
    } else {
      likes := b.likes + [actor.id];
    }
    db.blogs := db.blogs[id := b.(likes := likes)];
    status := Ok;
  }
}
