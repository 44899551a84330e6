/** Post documents and the rules the post routes apply to the two arrays
    a post embeds: `likes` (at most one entry per user) and `comments`
    (newest first, removed by id). */
module Posts {
  import opened Api
  import opened Seqs

  datatype Like = Like(user: Id)

  /** The check declared on the create-post and comment routes. */
  function TextChecks(text: Option<string>): seq<Check>
  {
    [Check(text, FieldError("Text is required", "text"))]
  }

  /** A comment with its author's name and avatar copied in when it was
      written (the date stamp is not modelled). */
  datatype Comment = Comment(id: Id, user: Id, text: string, name: string, avatar: string)

  /** A post: its author, the author's name and avatar as they were when
      it was written, its text, its likes and its comments. */
  datatype Post = Post(user: Id, text: string, name: string, avatar: string,
                       likes: seq<Like>, comments: seq<Comment>)

  /** The invariant of a `likes` array. */
  predicate OneLikePerUser(likes: seq<Like>)
  {
    forall i, j :: 0 <= i < |likes| && 0 <= j < |likes| && likes[i].user == likes[j].user ==> i == j
  }

  /** The two tests the like handlers apply to each entry. */
  function ByUser(user: Id): Like -> bool
  {
    (l: Like) => l.user == user
  }

  function NotByUser(user: Id): Like -> bool
  {
    (l: Like) => l.user != user
  }

  /** `post.likes.filter(like => like.user === user)`. */
  function LikesBy(likes: seq<Like>, user: Id): (r: seq<Like>)
    ensures forall i :: 0 <= i < |r| ==> r[i] == Like(user)
    ensures Like(user) in r <==> Like(user) in likes
  {
    Filter(likes, ByUser(user))
  }

  /** `isAlreadyLiked`: the filter above is not empty. */
  function HasLiked(likes: seq<Like>, user: Id): (liked: bool)
    ensures liked <==> Like(user) in likes
  {
    var mine := LikesBy(likes, user);
    assert |mine| > 0 ==> mine[0] in mine;
    |mine| > 0
  }

  /** What unlike leaves: every entry of another user, in the original
      order. */
  function LikesNotBy(likes: seq<Like>, user: Id): (r: seq<Like>)
    ensures !HasLiked(r, user)
    ensures forall i :: 0 <= i < |likes| && likes[i].user != user ==> likes[i] in r
    ensures IsSubsequence(r, likes)
  {
    FilterIsSubsequence(likes, NotByUser(user));
    Filter(likes, NotByUser(user))
  }

  /** The `reduce` that rebuilds `likes` on unlike: walk the array and
      push every entry whose user is not the caller. */
  method RemoveLikesOf(likes: seq<Like>, user: Id) returns (kept: seq<Like>)
    ensures kept == LikesNotBy(likes, user)
  {
    kept := [];
    var i := 0;
    while i < |likes|
      invariant 0 <= i <= |likes|
      invariant kept == LikesNotBy(likes[..i], user)
    {
      assert likes[..i + 1][..i] == likes[..i];
      if likes[i].user != user {
        kept := kept + [likes[i]];
      }
      i := i + 1;
    }
    assert likes[..i] == likes;
  }

  lemma OneLikePerUserIsNoDuplicates(likes: seq<Like>)
    ensures OneLikePerUser(likes) <==> NoDuplicates(likes)
  {
    if NoDuplicates(likes) {
      forall i, j | 0 <= i < |likes| && 0 <= j < |likes| && likes[i].user == likes[j].user
        ensures i == j
      {
        assert likes[i] == Like(likes[i].user) && likes[j] == Like(likes[j].user);
      }
    }
  }

  /** Like: putting the caller in front of a list that does not hold them
      keeps one like per user. */
  lemma LikeKeepsOneLikePerUser(likes: seq<Like>, user: Id)
    requires OneLikePerUser(likes) && !HasLiked(likes, user)
    ensures OneLikePerUser([Like(user)] + likes)
  {
    var r := [Like(user)] + likes;
    forall i, j | 0 <= i < |r| && 0 <= j < |r| && r[i].user == r[j].user ensures i == j {
      if i != 0 && j != 0 {
        assert r[i] == likes[i - 1] && r[j] == likes[j - 1];
      }
    }
  }

  /** Unlike keeps one like per user. */
  lemma UnlikeKeepsOneLikePerUser(likes: seq<Like>, user: Id)
    requires OneLikePerUser(likes)
    ensures OneLikePerUser(LikesNotBy(likes, user))
  {
    OneLikePerUserIsNoDuplicates(likes);
    FilterNoDuplicates(likes, NotByUser(user));
    OneLikePerUserIsNoDuplicates(LikesNotBy(likes, user));
  }

  /** On a list that keeps the invariant, unlike by a user who has liked
      removes exactly one entry. */
  lemma UnlikeRemovesOneEntry(likes: seq<Like>, user: Id)
    requires OneLikePerUser(likes) && HasLiked(likes, user)
    ensures |LikesNotBy(likes, user)| == |likes| - 1
  {
    var mine := LikesBy(likes, user);
    OneLikePerUserIsNoDuplicates(likes);
    FilterNoDuplicates(likes, ByUser(user));
    SingleValueNoDuplicates(mine, Like(user));
    FilterComplementLength(likes, ByUser(user), NotByUser(user));
  }

  /** Liking and then unliking, from a state where the user has not liked,
      gives back the original list. */
  lemma LikeThenUnlike(likes: seq<Like>, user: Id)
    requires !HasLiked(likes, user)
    ensures LikesNotBy([Like(user)] + likes, user) == likes
  {
    var notMine := NotByUser(user);
    FilterAppend([Like(user)], likes, notMine);
    assert Filter([Like(user)], notMine) == [];
    forall i | 0 <= i < |likes| ensures notMine(likes[i]) {
      assert likes[i] in likes;
    }
    FilterKeepsAll(likes, notMine);
  }

  /** The two tests the comment handlers apply to each comment. */
  function IsCommentBy(id: Id, user: Id): Comment -> bool
  {
    (c: Comment) => c.id == id && c.user == user
  }

  function HasCommentId(id: Id): Comment -> bool
  {
    (c: Comment) => c.id == id
  }

  /** `comments.find(c => c.id === id && c.user === user)`: the first
      comment with that id written by that user. */
  function FindComment(comments: seq<Comment>, id: Id, user: Id): (found: Option<Comment>)
    ensures found.Some? <==> exists c :: c in comments && c.id == id && c.user == user
    ensures found.Some? ==> found.value in comments && found.value.id == id && found.value.user == user
    ensures found.Some? ==>
              exists j :: 0 <= j < |comments| && comments[j] == found.value
                          && forall k :: 0 <= k < j ==> !(comments[k].id == id && comments[k].user == user)
  {
    var i := FirstIndex(comments, IsCommentBy(id, user));
    if i < 0 then None
    else
      assert comments[i] in comments;
      Some(comments[i])
  }

  /** `comments.map(c => c.id).indexOf(id)`: the position of the first
      comment with that id, or -1. */
  function IndexOfId(comments: seq<Comment>, id: Id): (i: int)
    ensures -1 <= i < |comments|
    ensures i >= 0 ==> comments[i].id == id
    ensures forall k :: 0 <= k < |comments| && (i < 0 || k < i) ==> comments[k].id != id
  {
    FirstIndex(comments, HasCommentId(id))
  }

  /** Comment ids are distinct. */
  predicate DistinctCommentIds(comments: seq<Comment>)
  {
    forall i, j :: 0 <= i < |comments| && 0 <= j < |comments| && comments[i].id == comments[j].id ==> i == j
  }

  /** A comment with a new id in front keeps the ids distinct. */
  lemma AddCommentKeepsDistinctIds(comments: seq<Comment>, c: Comment)
    requires DistinctCommentIds(comments)
    requires forall k :: 0 <= k < |comments| ==> comments[k].id != c.id
    ensures DistinctCommentIds([c] + comments)
  {
    var r := [c] + comments;
    forall i, j | 0 <= i < |r| && 0 <= j < |r| && r[i].id == r[j].id ensures i == j {
      if i != 0 && j != 0 {
        assert r[i] == comments[i - 1] && r[j] == comments[j - 1];
      }
    }
  }

  /** Removing a comment keeps the ids distinct. */
  lemma RemoveCommentKeepsDistinctIds(comments: seq<Comment>, i: nat)
    requires i < |comments| && DistinctCommentIds(comments)
    ensures DistinctCommentIds(RemoveAt(comments, i))
  {
    var r := RemoveAt(comments, i);
    forall a, b | 0 <= a < |r| && 0 <= b < |r| && r[a].id == r[b].id ensures a == b {
      var a' := if a < i then a else a + 1;
      var b' := if b < i then b else b + 1;
      assert r[a] == comments[a'] && r[b] == comments[b'];
    }
  }

  /** Delete-comment looks the comment up by id and author but removes the
      first comment with that id. Whenever the lookup succeeds there is
      such a comment; when ids are distinct it is the caller's. */
  lemma DeleteCommentTargetsFoundComment(comments: seq<Comment>, id: Id, user: Id)
    requires FindComment(comments, id, user).Some?
    ensures 0 <= IndexOfId(comments, id) < |comments|
    ensures DistinctCommentIds(comments) ==>
              comments[IndexOfId(comments, id)] == FindComment(comments, id, user).value
  {
    var c := FindComment(comments, id, user).value;
    var k :| 0 <= k < |comments| && comments[k] == c;
    var i := IndexOfId(comments, id);
    assert i >= 0 && i <= k;
  }
}
