/** The post routes: liking, unliking, commenting on and deleting a post.
    Each handler works on the post document it fetched, edits the embedded
    `likes` and `comments` lists in place, and answers with a status. */
module Posts {
  import opened Wrappers
  import opened Http
  import opened JsArray

  type PostId = string
  type CommentId = string

  /** An entry of `post.likes`: the user who liked the post. */
  datatype LikeRecord = LikeRecord(user: UserId)

  /** An entry of `post.comments`. `id` is the identifier the database gives
      the embedded comment; `name` and `avatar` are copied from the author's
      account. */
  datatype Comment = Comment(id: CommentId, user: UserId, text: string, name: string, avatar: string)

  /** `post.likes.map(like => like.user.toString())`. */
  function Likers(likes: seq<LikeRecord>): (r: seq<UserId>)
    ensures |r| == |likes|
    ensures forall i :: 0 <= i < |likes| ==> r[i] == likes[i].user
  {
    seq(|likes|, i requires 0 <= i < |likes| => likes[i].user)
  }

  /** `post.comments.map(comment => comment.user.toString())`. */
  function Authors(comments: seq<Comment>): (r: seq<UserId>)
    ensures |r| == |comments|
    ensures forall i :: 0 <= i < |comments| ==> r[i] == comments[i].user
  {
    seq(|comments|, i requires 0 <= i < |comments| => comments[i].user)
  }

  /** The identifiers of the comments, in order. */
  function CommentIds(comments: seq<Comment>): (r: seq<CommentId>)
    ensures |r| == |comments|
    ensures forall i :: 0 <= i < |comments| ==> r[i] == comments[i].id
  {
    seq(|comments|, i requires 0 <= i < |comments| => comments[i].id)
  }

  /** `post.likes.filter(like => like.user.toString() === u)`: as many entries
      as `u` has likes, each of them a like by `u`; so it is empty exactly
      when `u` has not liked the post. */
  function LikesBy(likes: seq<LikeRecord>, u: UserId): (r: seq<LikeRecord>)
    ensures |r| == multiset(Likers(likes))[u]
    ensures forall l :: l in r ==> l == LikeRecord(u)
    ensures |r| == 0 <==> u !in Likers(likes)
  {
    if |likes| == 0 then []
    else
      assert Likers(likes) == [likes[0].user] + Likers(likes[1..]);
      (if likes[0].user == u then [likes[0]] else []) + LikesBy(likes[1..], u)
  }

  /** `post.comments.find(comment => comment.id === id)`: the first comment
      with that identifier, if any. */
  function FindComment(comments: seq<Comment>, id: CommentId): (r: Option<Comment>)
    ensures r.Some? <==> id in CommentIds(comments)
    ensures r.Some? ==> r.value == comments[IndexOf(CommentIds(comments), id)]
  {
    if |comments| == 0 then None
    else if comments[0].id == id then Some(comments[0])
    else
      var ids := CommentIds(comments);
      assert ids[1..] == CommentIds(comments[1..]);
      assert IndexOf(ids, id) == var k := IndexOf(ids[1..], id); if k == -1 then -1 else k + 1;
      FindComment(comments[1..], id)
  }

  /** A like list in which every user appears once turns, after the first
      like of a new user is put in front, into one that still has every user
      once. */
  lemma PrependLikeDistinct(likes: seq<LikeRecord>, u: UserId)
    requires Distinct(Likers(likes)) && u !in Likers(likes)
    ensures Distinct(Likers([LikeRecord(u)] + likes))
  {
    assert Likers([LikeRecord(u)] + likes) == [u] + Likers(likes);
    PrependDistinct(Likers(likes), u);
  }

  /** Removing the like at `i` from a list in which every user appears once
      leaves no like by that user, and still every other user once. */
  lemma RemoveLikeDistinct(likes: seq<LikeRecord>, i: int)
    requires Distinct(Likers(likes)) && 0 <= i < |likes|
    ensures Distinct(Likers(likes[..i] + likes[i + 1..]))
    ensures likes[i].user !in Likers(likes[..i] + likes[i + 1..])
  {
    var ls := Likers(likes);
    assert Likers(likes[..i] + likes[i + 1..]) == ls[..i] + ls[i + 1..];
    RemoveAtDistinct(ls, i);
  }

  /** The comment removed by the delete handler on its success path: the
      requester's earliest comment comes no later than the looked-up one. */
  lemma FirstAuthoredNotAfterFound(comments: seq<Comment>, u: UserId, id: CommentId)
    requires FindComment(comments, id).Some? && FindComment(comments, id).value.user == u
    ensures 0 <= IndexOf(Authors(comments), u) <= IndexOf(CommentIds(comments), id)
  {
    var k := IndexOf(CommentIds(comments), id);
    assert Authors(comments)[k] == u;
  }

  /** What the unlike handler's removal does to a list in which `u` has a
      like: it takes out `u`'s first like and keeps the others in order; with
      every user once, `u` is then gone and the others still appear once. */
  lemma UnlikeRemovesFirstLike(likes: seq<LikeRecord>, u: UserId)
    requires u in Likers(likes)
    ensures var i := IndexOf(Likers(likes), u);
      && 0 <= i < |likes| && likes[i].user == u
      && (forall j :: 0 <= j < i ==> likes[j].user != u)
      && Splice1(likes, i) == likes[..i] + likes[i + 1..]
      && |Splice1(likes, i)| == |likes| - 1
    ensures Distinct(Likers(likes)) ==>
      var rest := Splice1(likes, IndexOf(Likers(likes), u));
      u !in Likers(rest) && Distinct(Likers(rest))
  {
    var i := IndexOf(Likers(likes), u);
    SpliceAt(likes, i);
    if Distinct(Likers(likes)) {
      RemoveLikeDistinct(likes, i);
    }
  }

  /** What the comment-delete handler's removal does when the looked-up
      comment is `u`'s: it takes out `u`'s earliest comment, which sits at or
      before the looked-up one, and keeps the others in order. */
  lemma DropFirstAuthoredShape(comments: seq<Comment>, u: UserId, id: CommentId)
    requires FindComment(comments, id).Some? && FindComment(comments, id).value.user == u
    ensures var i := IndexOf(Authors(comments), u);
      && 0 <= i <= IndexOf(CommentIds(comments), id)
      && comments[i].user == u
      && (forall j :: 0 <= j < i ==> comments[j].user != u)
      && DropFirstAuthored(comments, u) == comments[..i] + comments[i + 1..]
  {
    FirstAuthoredNotAfterFound(comments, u, id);
    SpliceAt(comments, IndexOf(Authors(comments), u));
  }

  /** A post document. `user` is its author, fixed at creation; `likes` and
      `comments` are the embedded lists the handlers edit, newest first. */
  class Post {
    const user: UserId
    const text: string
    var likes: seq<LikeRecord>
    var comments: seq<Comment>

    /** `new Post({ text, name, avatar, user })`: no likes and no comments yet. */
    constructor (user: UserId, text: string)
      ensures this.user == user && this.text == text
      ensures likes == [] && comments == []
    {
      this.user := user;
      this.text := text;
      likes := [];
      comments := [];
    }

    /** `PUT /api/posts/like/:post_id`. A second like by the same user is
        refused with 400 and the list stays as it was; otherwise the like is
        put in front of the list. Either way, a list with every user once
        keeps every user once. */
    method Like(requester: UserId) returns (r: Reply)
      modifies this`likes
      ensures requester in Likers(old(likes)) ==>
        r == Fail(400, "Post already liked") && likes == old(likes)
      ensures requester !in Likers(old(likes)) ==>
        r == Ok && likes == [LikeRecord(requester)] + old(likes)
      ensures Distinct(Likers(old(likes))) ==> Distinct(Likers(likes))
    {
      if |LikesBy(likes, requester)| > 0 {
        return Fail(400, "Post already liked");
      }
      if Distinct(Likers(likes)) {
        PrependLikeDistinct(likes, requester);
      }
      likes := [LikeRecord(requester)] + likes;
      r := Ok;
    }

    /** `PUT /api/posts/unlike/:post_id`. Unliking a post the requester has
        not liked is refused with 400 and the list stays as it was; otherwise
        the first like by the requester is removed and the other likes keep
        their order. With every user once before, the requester no longer
        appears after. */
    method Unlike(requester: UserId) returns (r: Reply)
      modifies this`likes
      ensures requester !in Likers(old(likes)) ==>
        r == Fail(400, "Post has not yet been liked") && likes == old(likes)
      ensures requester in Likers(old(likes)) ==>
        var i := IndexOf(Likers(old(likes)), requester);
        && r == Ok
        && 0 <= i < |old(likes)| && old(likes)[i].user == requester
        && (forall j :: 0 <= j < i ==> old(likes)[j].user != requester)
        && likes == old(likes)[..i] + old(likes)[i + 1..]
        && |likes| == |old(likes)| - 1
      ensures Distinct(Likers(old(likes))) ==>
        requester !in Likers(likes) && Distinct(Likers(likes))
    {
      if |LikesBy(likes, requester)| == 0 {
        return Fail(400, "Post has not yet been liked");
      }
      UnlikeRemovesFirstLike(likes, requester);
      var removeIndex := IndexOf(Likers(likes), requester);
      likes := Splice1(likes, removeIndex);
      r := Ok;
    }

    /** `POST /api/posts/comment/:post_id`. A missing or empty text is
        refused with the validation error; otherwise the new comment, by the
        requester, goes in front and the earlier comments follow unchanged.
        `name` and `avatar` come from the requester's account, `id` is the
        identifier the database gives the new comment. */
    method AddComment(requester: UserId, name: string, avatar: string, text: Option<string>, id: CommentId)
      returns (r: Reply)
      modifies this`comments
      ensures !Present(text) ==> r == Invalid(["Text is required"]) && comments == old(comments)
      ensures Present(text) ==>
        && r == Ok
        && comments == [Comment(id, requester, text.value, name, avatar)] + old(comments)
        && comments[0].user == requester && comments[1..] == old(comments)
    {
      var invalid := Validate([Check(text, "Text is required")]);
      if invalid.Some? {
        return invalid.value;
      }
      var newComment := Comment(id, requester, text.value, name, avatar);
      comments := [newComment] + comments;
      r := Ok;
    }

    /** `DELETE /api/posts/comment/:post_id/:comment_id`. An unknown comment
        is answered with 404 and a comment by someone else with 401, and in
        both cases nothing changes. Otherwise the handler removes the
        requester's EARLIEST comment, found by author and not by identifier:
        it sits at or before the comment asked for and need not be it. */
    method DeleteComment(requester: UserId, commentId: CommentId) returns (r: Reply)
      modifies this`comments
      ensures commentId !in CommentIds(old(comments)) ==>
        r == Fail(404, "Comment does not exist") && comments == old(comments)
      ensures (commentId in CommentIds(old(comments))
        && FindComment(old(comments), commentId).value.user != requester) ==>
        r == Fail(401, "User not authorized") && comments == old(comments)
      ensures (commentId in CommentIds(old(comments))
        && FindComment(old(comments), commentId).value.user == requester) ==>
        var i := IndexOf(Authors(old(comments)), requester);
        && r == Ok && comments == DropFirstAuthored(old(comments), requester)
        && 0 <= i <= IndexOf(CommentIds(old(comments)), commentId)
        && old(comments)[i].user == requester
        && (forall j :: 0 <= j < i ==> old(comments)[j].user != requester)
        && comments == old(comments)[..i] + old(comments)[i + 1..]
    {
      var comment := FindComment(comments, commentId);
      if comment.None? {
        return Fail(404, "Comment does not exist");
      }
      if comment.value.user != requester {
        return Fail(401, "User not authorized");
      }
      DropFirstAuthoredShape(comments, requester, commentId);
      comments := DropFirstAuthored(comments, requester);
      r := Ok;
    }
  }

  /** The post collection, keyed by post identifier. */
  class PostStore {
    var posts: map<PostId, Post>

    constructor ()
      ensures posts == map[]
    {
      posts := map[];
    }

    /** `POST /api/posts`. A missing or empty text is refused with the
        validation error and nothing is stored; otherwise a new post by the
        requester, without likes or comments, is filed under `id`, the
        identifier the database gives it. */
    method CreatePost(id: PostId, requester: UserId, text: Option<string>) returns (r: Reply)
      requires id !in posts
      modifies this
      ensures !Present(text) ==> r == Invalid(["Text is required"]) && posts == old(posts)
      ensures Present(text) ==>
        && r == Ok && posts.Keys == old(posts).Keys + {id}
        && fresh(posts[id]) && posts[id].user == requester && posts[id].text == text.value
        && posts[id].likes == [] && posts[id].comments == []
        && forall p :: p in old(posts) ==> posts[p] == old(posts)[p]
    {
      var invalid := Validate([Check(text, "Text is required")]);
      if invalid.Some? {
        return invalid.value;
      }
      var post := new Post(requester, text.value);
      posts := posts[id := post];
      r := Ok;
    }

    /** `GET /api/posts/:post_id`: 404 for an unknown post. */
    method GetPost(id: PostId) returns (r: Reply)
      ensures id in posts <==> r == Ok
      ensures id !in posts ==> r == Fail(404, "Post not found")
    {
      if id !in posts {
        return Fail(404, "Post not found");
      }
      r := Ok;
    }

    /** `DELETE /api/posts/:post_id`. An unknown post is answered with 404; a
        post written by someone else with 401, and it stays; the author's own
        post is removed and every other post stays. */
    method DeletePost(id: PostId, requester: UserId) returns (r: Reply)
      modifies this
      ensures id !in old(posts) ==> r == Fail(404, "Post not found") && posts == old(posts)
      ensures id in old(posts) && old(posts)[id].user != requester ==>
        r == Fail(401, "User not authorized") && posts == old(posts)
      ensures id in old(posts) && old(posts)[id].user == requester ==>
        r == Ok && posts == old(posts) - {id}
    {
      if id !in posts {
        return Fail(404, "Post not found");
      }
      if posts[id].user != requester {
        return Fail(401, "User not authorized");
      }
      posts := posts - {id};
      r := Ok;
    }
  }

  /** The comment-delete handler's effect on the list, as written: it removes
      the first comment whose author is the requester. */
  function DropFirstAuthored(comments: seq<Comment>, u: UserId): (r: seq<Comment>)
    ensures u in Authors(comments) ==> |r| == |comments| - 1
    ensures u !in Authors(comments) && |comments| > 0 ==> r == comments[..|comments| - 1]
    ensures multiset(r) <= multiset(comments)
  {
    SpliceIndexOf(comments, Authors(comments), u);
    Splice1(comments, IndexOf(Authors(comments), u))
  }

  /** The effect intended by the comment-delete route: remove the comment
      whose identifier was asked for, and nothing else. */
  function RemoveCommentById(comments: seq<Comment>, id: CommentId): (r: seq<Comment>)
    ensures id !in CommentIds(comments) ==> r == comments
    ensures id in CommentIds(comments) ==>
      var i := IndexOf(CommentIds(comments), id);
      |r| == |comments| - 1 && comments[i].id == id && r == comments[..i] + comments[i + 1..]
  {
    var i := IndexOf(CommentIds(comments), id);
    if i < 0 then comments else comments[..i] + comments[i + 1..]
  }

  /** With distinct identifiers, the intended removal leaves no comment with
      the identifier asked for and keeps every other comment. */
  lemma RemoveCommentByIdRemovesTarget(comments: seq<Comment>, id: CommentId)
    requires Distinct(CommentIds(comments)) && id in CommentIds(comments)
    ensures id !in CommentIds(RemoveCommentById(comments, id))
    ensures forall c :: c in comments && c.id != id ==> c in RemoveCommentById(comments, id)
  {
    var i := IndexOf(CommentIds(comments), id);
    var ids := CommentIds(comments);
    assert CommentIds(comments[..i] + comments[i + 1..]) == ids[..i] + ids[i + 1..];
    RemoveAtDistinct(ids, i);
    forall c | c in comments && c.id != id
      ensures c in RemoveCommentById(comments, id)
    {
      var k :| 0 <= k < |comments| && comments[k] == c;
      assert k != i;
      assert c == (comments[..i] + comments[i + 1..])[if k < i then k else k - 1];
    }
  }

  /** The handler as written removes the wrong comment: user "u" asks to
      delete comment "b" and comment "a", also by "u", is removed instead. */
  lemma DeleteCommentRemovesAnother()
    ensures var a := Comment("a", "u", "first", "U", "");
      var b := Comment("b", "u", "second", "U", "");
      && FindComment([a, b], "b") == Some(b)
      && DropFirstAuthored([a, b], "u") == [b]
      && RemoveCommentById([a, b], "b") == [a]
  {
    var a := Comment("a", "u", "first", "U", "");
    var b := Comment("b", "u", "second", "U", "");
    FindSecondOfPair(a, b);
    DropFirstOfPair(a, b);
    RemoveSecondOfPair(a, b);
  }

  /** Looking up the second of two comments with different identifiers finds
      it. */
  lemma FindSecondOfPair(a: Comment, b: Comment)
    requires a.id != b.id
    ensures FindComment([a, b], b.id) == Some(b)
  {
    assert CommentIds([a, b]) == [a.id, b.id];
    assert IndexOf(CommentIds([a, b]), b.id) == 1;
  }

  /** The removal as written, on two comments by one author, takes the first. */
  lemma DropFirstOfPair(a: Comment, b: Comment)
    requires a.user == b.user
    ensures DropFirstAuthored([a, b], b.user) == [b]
  {
    assert Authors([a, b])[0] == b.user;
    assert IndexOf(Authors([a, b]), b.user) == 0;
    SpliceAt([a, b], 0);
    assert [a, b][..0] + [a, b][1..] == [b];
  }

  /** The intended removal of the second of two comments with different
      identifiers keeps the first. */
  lemma RemoveSecondOfPair(a: Comment, b: Comment)
    requires a.id != b.id
    ensures RemoveCommentById([a, b], b.id) == [a]
  {
    assert CommentIds([a, b]) == [a.id, b.id];
    assert IndexOf(CommentIds([a, b]), b.id) == 1;
    assert [a, b][..1] + [a, b][2..] == [a];
  }
}
