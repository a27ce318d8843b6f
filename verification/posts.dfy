/** The mutation handlers of the posts router: like, dislike, add comment,
    delete comment and delete post. A `Post` is a loaded document whose
    `likes` and `comments` arrays the handlers change in place before saving;
    the `PostStore` is the collection of saved posts, keyed by post id. */
module Posts {
  import opened Common
  import opened Seqs

  type PostId = string
  type CommentId = string

  /** An embedded comment; `name` and `avatar` are copied from the author's
      user record when the comment is made. */
  datatype Comment = Comment(id: CommentId, user: UserId, text: string, name: string, avatar: string)

  const AlreadyLiked := Rejected(400, "Post already liked")
  const NotYetLiked := Rejected(400, "Post has not yet been liked")
  const NoSuchComment := Rejected(404, "Comment does not exist")
  const NotCommentAuthor := Rejected(401, "User not authorized")
  const NoSuchPost := Rejected(404, "No Post Found")
  const NotPostOwner := Rejected(401, "User Not Authorized")
  /** The catch-all answer; reached when a handler dereferences a post that
      `findById` did not find. */
  const ServerError := Rejected(500, "Server Error")
  const TextRequired := "Text is required"

  /** The predicates the handlers pass to `some`, `filter` and `find`. */
  function IsUser(u: UserId): UserId -> bool { x => x == u }
  function IsNotUser(u: UserId): UserId -> bool { x => x != u }
  function HasId(id: CommentId): Comment -> bool { (c: Comment) => c.id == id }
  function LacksId(id: CommentId): Comment -> bool { (c: Comment) => c.id != id }

  /** The request validation of the add-comment route: the text must be non-empty. */
  function CommentErrors(text: string): (errors: seq<string>)
    ensures errors == [] <==> text != []
    ensures errors != [] ==> errors == [TextRequired]
  {
    if text == [] then [TextRequired] else []
  }

  /** Comment ids are unique within a post (they are generated object ids). */
  predicate UniqueCommentIds(comments: seq<Comment>)
  {
    forall i, j :: 0 <= i < j < |comments| ==> comments[i].id != comments[j].id
  }

  class Post {
    const id: PostId
    /** The author, the only user who may delete the post. */
    const user: UserId
    const text: string
    /** Users who like the post, most recent first. */
    var likes: seq<UserId>
    /** Comments, most recent first. */
    var comments: seq<Comment>

    constructor (id: PostId, user: UserId, text: string)
      ensures this.id == id && this.user == user && this.text == text
      ensures likes == [] && comments == []
    {
      this.id, this.user, this.text := id, user, text;
      likes, comments := [], [];
    }

    /** Like: refused when `actor` already likes the post, otherwise `actor`
        is put in front of the existing likes. */
    method Like(actor: UserId) returns (reply: Reply)
      modifies this`likes
      ensures actor in old(likes) ==> reply == AlreadyLiked && likes == old(likes)
      ensures actor !in old(likes) ==> reply == Done && likes == [actor] + old(likes)
      ensures actor in likes
      ensures Distinct(old(likes)) ==> Distinct(likes)
    {
      if Any(likes, IsUser(actor)) {
        reply := AlreadyLiked;
        return;
      }
      likes := [actor] + likes;
      reply := Done;
    }

    /** Dislike: refused when `actor` does not like the post, otherwise every
        like of `actor` is filtered out. */
    method Dislike(actor: UserId) returns (reply: Reply)
      modifies this`likes
      ensures actor !in old(likes) ==> reply == NotYetLiked && likes == old(likes)
      ensures actor in old(likes) ==> reply == Done && likes == Filter(IsNotUser(actor), old(likes))
      ensures actor !in likes
      ensures Distinct(old(likes)) ==> Distinct(likes)
    {
      if !Any(likes, IsUser(actor)) {
        reply := NotYetLiked;
        return;
      }
      ghost var before := likes;
      likes := Filter(IsNotUser(actor), likes);
      if Distinct(before) {
        FilterDistinct(IsNotUser(actor), before);
      }
      reply := Done;
    }

    /** Add comment: the new comment, written by `actor`, goes in front. */
    method AddComment(commentId: CommentId, actor: UserId, text: string, name: string, avatar: string)
      modifies this`comments
      ensures comments == [Comment(commentId, actor, text, name, avatar)] + old(comments)
      ensures comments[0].user == actor && comments[0].text == text
      ensures comments[1..] == old(comments)
    {
      comments := [Comment(commentId, actor, text, name, avatar)] + comments;
    }

    /** Delete comment: the first comment with the id is looked up; a missing
        comment is 404 and a comment by someone else 401; otherwise every
        comment with that id is filtered out. */
    method DeleteComment(commentId: CommentId, actor: UserId) returns (reply: Reply)
      modifies this`comments
      ensures Find(old(comments), HasId(commentId)).None? ==>
        reply == NoSuchComment && comments == old(comments)
      ensures Find(old(comments), HasId(commentId)).Some? && Find(old(comments), HasId(commentId)).value.user != actor ==>
        reply == NotCommentAuthor && comments == old(comments)
      ensures Find(old(comments), HasId(commentId)).Some? && Find(old(comments), HasId(commentId)).value.user == actor ==>
        reply == Done && comments == Filter(LacksId(commentId), old(comments))
      ensures reply == Done <==> exists c :: c in old(comments) && c.id == commentId && c !in comments
    {
      var found := Find(comments, HasId(commentId));
      if found.None? {
        reply := NoSuchComment;
        return;
      }
      if found.value.user != actor {
        reply := NotCommentAuthor;
        return;
      }
      ghost var before := comments;
      comments := Filter(LacksId(commentId), comments);
      assert found.value in before && found.value !in comments;
      reply := Done;
    }
  }

  /** The saved posts, keyed by id. */
  class PostStore {
    var posts: map<PostId, Post>

    /** Each post is stored under its own id (so distinct keys hold distinct posts). */
    predicate Valid()
      reads this
    {
      forall k :: k in posts ==> posts[k].id == k
    }

    constructor (initial: map<PostId, Post>)
      requires forall k :: k in initial ==> initial[k].id == k
      ensures Valid() && posts == initial
    {
      posts := initial;
    }

    /** Delete post: 404 when there is no such post, 401 when `actor` is not
        its author, otherwise exactly that post is removed. */
    method DeletePost(id: PostId, actor: UserId) returns (reply: Reply)
      requires Valid()
      modifies this
      ensures Valid()
      ensures id !in old(posts) ==> reply == NoSuchPost && posts == old(posts)
      ensures id in old(posts) && old(posts)[id].user != actor ==> reply == NotPostOwner && posts == old(posts)
      ensures id in old(posts) && old(posts)[id].user == actor ==> reply == Done && posts == old(posts) - {id}
      ensures forall k :: k in posts ==> k in old(posts) && posts[k] == old(posts)[k]
    {
      if id !in posts {
        reply := NoSuchPost;
        return;
      }
      if posts[id].user != actor {
        reply := NotPostOwner;
        return;
      }
      posts := posts - {id};
      reply := Done;
    }

    /** The like route: `findById`, then `Post.Like`; a missing post is
        dereferenced and ends in the 500 answer. */
    method Like(id: PostId, actor: UserId) returns (reply: Reply)
      requires Valid()
      modifies (if id in posts then {posts[id]} else {})`likes
      ensures posts == old(posts)
      ensures id !in posts ==> reply == ServerError
      ensures id in posts && actor in old(posts[id].likes) ==> reply == AlreadyLiked && posts[id].likes == old(posts[id].likes)
      ensures id in posts && actor !in old(posts[id].likes) ==> reply == Done && posts[id].likes == [actor] + old(posts[id].likes)
    {
      if id !in posts {
        reply := ServerError;
        return;
      }
      var post := posts[id];
      reply := post.Like(actor);
    }

    /** The dislike route: `findById`, then `Post.Dislike`. */
    method Dislike(id: PostId, actor: UserId) returns (reply: Reply)
      requires Valid()
      modifies (if id in posts then {posts[id]} else {})`likes
      ensures posts == old(posts)
      ensures id !in posts ==> reply == ServerError
      ensures id in posts && actor !in old(posts[id].likes) ==> reply == NotYetLiked && posts[id].likes == old(posts[id].likes)
      ensures id in posts && actor in old(posts[id].likes) ==>
        reply == Done && posts[id].likes == Filter(IsNotUser(actor), old(posts[id].likes))
    {
      if id !in posts {
        reply := ServerError;
        return;
      }
      var post := posts[id];
      reply := post.Dislike(actor);
    }

    /** The add-comment route: validation first, then `findById`, then
        `Post.AddComment`. `commentId` is the id the database assigns. */
    method AddComment(id: PostId, commentId: CommentId, actor: UserId, text: string, name: string, avatar: string)
      returns (reply: Reply)
      requires Valid()
      modifies (if id in posts then {posts[id]} else {})`comments
      ensures posts == old(posts)
      ensures text == [] ==> reply == Invalid([TextRequired])
      ensures text != [] && id !in posts ==> reply == ServerError
      ensures id in posts && reply == Done ==>
        posts[id].comments == [Comment(commentId, actor, text, name, avatar)] + old(posts[id].comments)
      ensures id in posts && reply != Done ==> posts[id].comments == old(posts[id].comments)
      ensures reply == Done <==> text != [] && id in posts
    {
      var errors := CommentErrors(text);
      if errors != [] {
        reply := Invalid(errors);
        return;
      }
      if id !in posts {
        reply := ServerError;
        return;
      }
      var post := posts[id];
      post.AddComment(commentId, actor, text, name, avatar);
      reply := Done;
    }

    /** The delete-comment route: `findById`, then `Post.DeleteComment`. */
    method DeleteComment(id: PostId, commentId: CommentId, actor: UserId) returns (reply: Reply)
      requires Valid()
      modifies (if id in posts then {posts[id]} else {})`comments
      ensures posts == old(posts)
      ensures id !in posts ==> reply == ServerError
      ensures id in posts ==>
        var found := Find(old(posts[id].comments), HasId(commentId));
        && (found.None? ==> reply == NoSuchComment && posts[id].comments == old(posts[id].comments))
        && (found.Some? && found.value.user != actor ==>
              reply == NotCommentAuthor && posts[id].comments == old(posts[id].comments))
        && (found.Some? && found.value.user == actor ==>
              reply == Done && posts[id].comments == Filter(LacksId(commentId), old(posts[id].comments)))
    {
      if id !in posts {
        reply := ServerError;
        return;
      }
      var post := posts[id];
      reply := post.DeleteComment(commentId, actor);
    }
  }

  /** Liking and then disliking, by a user who did not like the post before,
      gives back the original likes. */
  lemma {:induction false} LikeThenDislikeRestores(likes: seq<UserId>, u: UserId)
    requires u !in likes
    ensures Filter(IsNotUser(u), [u] + likes) == likes
  {
    assert ([u] + likes)[1..] == likes;
    FilterKeepsAll(IsNotUser(u), likes);
  }

  /** A successful dislike keeps every other user's likes, in their order and
      with their multiplicity, and drops all of `u`'s. */
  lemma {:induction false} DislikeKeepsOthers(likes: seq<UserId>, u: UserId, v: UserId)
    ensures Subsequence(Filter(IsNotUser(u), likes), likes)
    ensures multiset(Filter(IsNotUser(u), likes))[v] == if v == u then 0 else multiset(likes)[v]
  {
    FilterIsSubsequence(IsNotUser(u), likes);
    FilterMultiset(IsNotUser(u), likes, v);
  }

  /** With unique comment ids, deleting an existing comment removes exactly one
      comment, and keeps every other one. */
  lemma {:induction false} DeleteCommentRemovesOne(comments: seq<Comment>, id: CommentId)
    requires UniqueCommentIds(comments)
    requires Find(comments, HasId(id)).Some?
    ensures |Filter(LacksId(id), comments)| == |comments| - 1
    ensures forall c :: c in comments && c.id != id ==> c in Filter(LacksId(id), comments)
  {
    if comments[0].id == id {
      assert forall k :: 0 <= k < |comments[1..]| ==> comments[1..][k] == comments[k + 1];
      assert forall c :: c in comments[1..] ==> LacksId(id)(c);
      FilterKeepsAll(LacksId(id), comments[1..]);
    } else {
      assert UniqueCommentIds(comments[1..]) by {
        forall i, j | 0 <= i < j < |comments[1..]| ensures comments[1..][i].id != comments[1..][j].id {
          assert comments[1..][i] == comments[i + 1] && comments[1..][j] == comments[j + 1];
        }
      }
      DeleteCommentRemovesOne(comments[1..], id);
    }
  }

  /** The request sequence "B likes, B likes again, B dislikes, A deletes the
      post, B likes again" on a post by A. */
  method LikeScenario(a: UserId, b: UserId, id: PostId)
  {
    var post := new Post(id, a, "hello");
    var r := post.Like(b);
    assert r == Done && post.likes == [b];
    r := post.Like(b);
    assert r == AlreadyLiked && post.likes == [b];
    r := post.Dislike(b);
    assert r == Done && post.likes == [];
    var store := new PostStore(map[id := post]);
    r := store.DeletePost(id, a);
    assert r == Done && id !in store.posts;
    r := store.Like(id, b);
    assert r == ServerError;
  }
}
