/** The handlers of the post routes. Each loads the post it needs, checks
    the request against it, edits the loaded copy and writes it back, and
    answers with the JSON value or the error the route sends. The caller
    is the id the authentication middleware put on the request. */
module PostRoutes {
  import opened Api
  import opened Seqs
  import opened Posts
  import opened Store

  /** Create a post written by the caller, with the caller's current name
      and avatar, no likes and no comments. */
  method CreatePost(db: Database, caller: Id, text: Option<string>, newId: Id) returns (r: Response<Post>)
    requires db.Valid() && newId !in db.posts
    modifies db
    ensures db.Valid()
    ensures db.users == old(db.users) && db.profiles == old(db.profiles)
    ensures !Supplied(text) ==>
              r == Err(400, Invalid([FieldError("Text is required", "text")])) && db.posts == old(db.posts)
    ensures Supplied(text) && caller !in db.users ==>
              r == NotFound("User not found") && db.posts == old(db.posts)
    ensures Supplied(text) && caller in db.users ==>
              var u := db.users[caller];
              var p := Post(caller, text.value, u.name, u.avatar, [], []);
              r == Ok(p) && db.posts == old(db.posts)[newId := p]
  {
    SingleCheckErrors(TextChecks(text)[0]);
    var errs := ValidationErrors(TextChecks(text));
    if errs != [] {
      return Err(400, Invalid(errs));
    }
    if caller !in db.users {
      return NotFound("User not found");
    }
    var user := db.users[caller];
    var post := Post(caller, text.value, user.name, user.avatar, [], []);
    db.posts := db.posts[newId := post];
    return Ok(post);
  }

  /** Look a post up by id. */
  method GetPost(db: Database, postId: Id) returns (r: Response<Post>)
    ensures postId !in db.posts ==> r == NotFound("Post not found")
    ensures postId in db.posts ==> r == Ok(db.posts[postId])
  {
    if postId !in db.posts {
      return NotFound("Post not found");
    }
    return Ok(db.posts[postId]);
  }

  /** Delete a post: only its author may. Answers with the deleted post. */
  method DeletePost(db: Database, caller: Id, postId: Id) returns (r: Response<Post>)
    requires db.Valid()
    modifies db
    ensures db.Valid()
    ensures db.users == old(db.users) && db.profiles == old(db.profiles)
    ensures postId !in old(db.posts) ==> r == NotFound("Post not found") && db.posts == old(db.posts)
    ensures postId in old(db.posts) && old(db.posts)[postId].user != caller ==>
              r == Err(401, Message("Not authorized")) && db.posts == old(db.posts)
    ensures postId in old(db.posts) && old(db.posts)[postId].user == caller ==>
              r == Ok(old(db.posts)[postId]) && db.posts == old(db.posts) - {postId}
  {
    if postId !in db.posts {
      return NotFound("Post not found");
    }
    var post := db.posts[postId];
    if post.user != caller {
      return Err(401, Message("Not authorized"));
    }
    db.posts := db.posts - {postId};
    return Ok(post);
  }

  /** Like a post: the caller's like goes in front, unless they have
      already liked it. Answers with the new likes. */
  method LikePost(db: Database, caller: Id, postId: Id) returns (r: Response<seq<Like>>)
    requires db.Valid()
    modifies db
    ensures db.Valid()
    ensures db.users == old(db.users) && db.profiles == old(db.profiles)
    ensures postId !in old(db.posts) ==> r == NotFound("Post not found") && db.posts == old(db.posts)
    ensures postId in old(db.posts) && HasLiked(old(db.posts)[postId].likes, caller) ==>
              r == Err(400, Message("Post already liked")) && db.posts == old(db.posts)
    ensures postId in old(db.posts) && !HasLiked(old(db.posts)[postId].likes, caller) ==>
              var post := old(db.posts)[postId];
              var likes := [Like(caller)] + post.likes;
              r == Ok(likes) && db.posts == old(db.posts)[postId := post.(likes := likes)]
  {
    if postId !in db.posts {
      return NotFound("Post not found");
    }
    var post := db.posts[postId];
    if HasLiked(post.likes, caller) {
      return Err(400, Message("Post already liked"));
    }
    LikeKeepsOneLikePerUser(post.likes, caller);
    post := post.(likes := [Like(caller)] + post.likes);
    db.posts := db.posts[postId := post];
    return Ok(post.likes);
  }

  /** Unlike a post the caller has liked: rebuild the likes without the
      caller's. Answers with the new likes, exactly one shorter. */
  method UnlikePost(db: Database, caller: Id, postId: Id) returns (r: Response<seq<Like>>)
    requires db.Valid()
    modifies db
    ensures db.Valid()
    ensures db.users == old(db.users) && db.profiles == old(db.profiles)
    ensures postId !in old(db.posts) ==> r == NotFound("Post not found") && db.posts == old(db.posts)
    ensures postId in old(db.posts) && !HasLiked(old(db.posts)[postId].likes, caller) ==>
              r == Err(400, Message("Post has not yet been liked")) && db.posts == old(db.posts)
    ensures postId in old(db.posts) && HasLiked(old(db.posts)[postId].likes, caller) ==>
              var post := old(db.posts)[postId];
              var likes := LikesNotBy(post.likes, caller);
              && r == Ok(likes) && |likes| == |post.likes| - 1
              && db.posts == old(db.posts)[postId := post.(likes := likes)]
  {
    if postId !in db.posts {
      return NotFound("Post not found");
    }
    var post := db.posts[postId];
    if !HasLiked(post.likes, caller) {
      return Err(400, Message("Post has not yet been liked"));
    }
    UnlikeKeepsOneLikePerUser(post.likes, caller);
    UnlikeRemovesOneEntry(post.likes, caller);
    var likes := RemoveLikesOf(post.likes, caller);
    post := post.(likes := likes);
    db.posts := db.posts[postId := post];
    return Ok(likes);
  }

  /** Comment on a post: the new comment, with the caller's current name
      and avatar, goes in front. Answers with the new comments. */
  method AddComment(db: Database, caller: Id, postId: Id, text: Option<string>, commentId: Id)
    returns (r: Response<seq<Comment>>)
    requires db.Valid()
    requires postId in db.posts ==> forall c :: c in db.posts[postId].comments ==> c.id != commentId
    modifies db
    ensures db.Valid()
    ensures db.users == old(db.users) && db.profiles == old(db.profiles)
    ensures !Supplied(text) ==>
              r == Err(400, Invalid([FieldError("Text is required", "text")])) && db.posts == old(db.posts)
    ensures Supplied(text) && caller !in db.users ==>
              r == NotFound("User not found") && db.posts == old(db.posts)
    ensures Supplied(text) && caller in db.users && postId !in old(db.posts) ==>
              r == NotFound("Post not found") && db.posts == old(db.posts)
    ensures Supplied(text) && caller in db.users && postId in old(db.posts) ==>
              var u := db.users[caller];
              var post := old(db.posts)[postId];
              var comments := [Comment(commentId, caller, text.value, u.name, u.avatar)] + post.comments;
              r == Ok(comments) && db.posts == old(db.posts)[postId := post.(comments := comments)]
  {
    SingleCheckErrors(TextChecks(text)[0]);
    var errs := ValidationErrors(TextChecks(text));
    if errs != [] {
      return Err(400, Invalid(errs));
    }
    if caller !in db.users {
      return NotFound("User not found");
    }
    var user := db.users[caller];
    if postId !in db.posts {
      return NotFound("Post not found");
    }
    var post := db.posts[postId];
    var comment := Comment(commentId, caller, text.value, user.name, user.avatar);
    AddCommentKeepsDistinctIds(post.comments, comment);
    post := post.(comments := [comment] + post.comments);
    db.posts := db.posts[postId := post];
    return Ok(post.comments);
  }

  /** Delete a comment: it must exist with that id and be the caller's;
      the first comment with that id is removed. Answers with the new
      comments, which lack exactly the caller's comment. */
  method DeleteComment(db: Database, caller: Id, postId: Id, commentId: Id) returns (r: Response<seq<Comment>>)
    requires db.Valid()
    modifies db
    ensures db.Valid()
    ensures db.users == old(db.users) && db.profiles == old(db.profiles)
    ensures postId !in old(db.posts) ==> r == NotFound("Post not found") && db.posts == old(db.posts)
    ensures postId in old(db.posts) && FindComment(old(db.posts)[postId].comments, commentId, caller).None? ==>
              r == NotFound("Comment not found") && db.posts == old(db.posts)
    ensures postId in old(db.posts) && FindComment(old(db.posts)[postId].comments, commentId, caller).Some? ==>
              var post := old(db.posts)[postId];
              var found := FindComment(post.comments, commentId, caller).value;
              var comments := RemoveAt(post.comments, IndexOfId(post.comments, commentId));
              && r == Ok(comments)
              && multiset(comments) + multiset{found} == multiset(post.comments)
              && db.posts == old(db.posts)[postId := post.(comments := comments)]
  {
    if postId !in db.posts {
      return NotFound("Post not found");
    }
    var post := db.posts[postId];
    var found := FindComment(post.comments, commentId, caller);
    if found.None? {
      return NotFound("Comment not found");
    }
    DeleteCommentTargetsFoundComment(post.comments, commentId, caller);
    var removeIndex := IndexOfId(post.comments, commentId);
    RemoveCommentKeepsDistinctIds(post.comments, removeIndex);
    var comments := RemoveAt(post.comments, removeIndex);
    post := post.(comments := comments);
    db.posts := db.posts[postId := post];
    return Ok(comments);
  }
}
