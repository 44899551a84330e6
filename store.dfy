/** The documents the route handlers read and write: users, posts and
    profiles, as one in-memory store. */
module Store {
  import opened Api
  import opened Posts
  import opened Profiles

  /** A registered user, as the handlers read it (the password is never
      read here). */
  datatype User = User(name: string, email: string, avatar: string)

  /** The three collections. Posts and users are found by id; profiles by
      their owner, in insertion order, with `findOne` taking the first. */
  class Database {
    var users: map<Id, User>
    var posts: map<Id, Post>
    var profiles: seq<Profile>

    /** What every handler keeps: one like per user on every post,
        distinct comment ids on every post, one profile per user. */
    ghost predicate Valid()
      reads this
    {
      && (forall id :: id in posts ==> OneLikePerUser(posts[id].likes))
      && (forall id :: id in posts ==> DistinctCommentIds(posts[id].comments))
      && OneProfilePerUser(profiles)
    }

    /** A store holding the given users and no posts or profiles. */
    constructor (users: map<Id, User>)
      ensures Valid()
      ensures this.users == users && posts == map[] && profiles == []
    {
      this.users := users;
      posts := map[];
      profiles := [];
    }
  }
}
