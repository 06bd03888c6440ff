/** src/controllers/comment.controller.js: a video's comments (newest
    first) and adding, editing and deleting one comment. */
module CommentController {
  import opened Store
  import opened Order
  import opened Streams

  // ---------------------------------------------------------------------
  // getVideoComments

  /** A comment as the pipeline returns it: its owner replaced by the owner's
      profile (absent when no user matches). */
  datatype CommentView = CommentView(id: Id, content: string, video: Id, owner: Option<Profile>, createdAt: int)

  function ViewId(c: CommentView): int {
    c.id
  }

  /** `$sort: { createdAt: -1 }` as an ascending sort on the negated time. */
  function NewestFirst(c: CommentView): int {
    -c.createdAt
  }

  function ViewOf(comments: map<Id, Comment>, users: map<Id, User>, k: Id): CommentView
    requires k in comments
  {
    var c := comments[k];
    CommentView(k, c.content, c.video, ProfileOf(users, c.owner), c.createdAt)
  }

  /** `$match: { video }`: the video's comments, in natural order. */
  function CommentsOn(comments: map<Id, Comment>, video: Id): (r: seq<Id>)
    ensures Increasing(r)
    ensures forall k :: k in r <==> k in comments && comments[k].video == video
  {
    FindIds(comments, (c: Comment) => c.video == video)
  }

  /** The `$lookup` and `$first` of each comment's owner. */
  function Views(comments: map<Id, Comment>, users: map<Id, User>, ks: seq<Id>): seq<CommentView>
    requires forall k :: k in ks ==> k in comments
  {
    Map(ks, (k: Id) requires k in comments => ViewOf(comments, users, k))
  }

  lemma ViewsFacts(comments: map<Id, Comment>, users: map<Id, User>, video: Id, ks: seq<Id>)
    requires Increasing(ks) && forall k :: k in ks <==> k in comments && comments[k].video == video
    ensures var r := Views(comments, users, ks);
      && IncreasingOn(r, ViewId)
      && forall c :: c in r <==> c.id in comments && comments[c.id].video == video && c == ViewOf(comments, users, c.id)
  {
    var r := Views(comments, users, ks);
    forall i, j | 0 <= i < j < |r| ensures ViewId(r[i]) < ViewId(r[j]) {
      assert r[i].id == ks[i] && r[j].id == ks[j];
    }
    forall c | c in r ensures c.id in comments && comments[c.id].video == video && c == ViewOf(comments, users, c.id) {
      var i :| 0 <= i < |r| && r[i] == c;
      assert ks[i] in ks;
    }
    forall k | k in comments && comments[k].video == video ensures ViewOf(comments, users, k) in r {
      var i :| 0 <= i < |ks| && ks[i] == k;
      assert r[i] == ViewOf(comments, users, k);
    }
  }

  /** getVideoComments without pagination: exactly the video's comments, each
      once, with their owners' profiles, newest first. */
  function GetVideoComments(comments: map<Id, Comment>, users: map<Id, User>, videoId: IdParam)
    : (r: Result<seq<CommentView>>)
    ensures videoId.NotObjectId? <==> r == Failure(BadRequest)
    ensures r.Success? ==> forall c :: c in r.value <==>
              c.id in comments && comments[c.id].video == videoId.id && c == ViewOf(comments, users, c.id)
    ensures r.Success? ==> DistinctOn(r.value, ViewId)
    ensures r.Success? ==> forall i, j :: 0 <= i < j < |r.value| ==> r.value[i].createdAt >= r.value[j].createdAt
  {
    if videoId.NotObjectId? then Failure(BadRequest)
    else
      var ks := CommentsOn(comments, videoId.id);
      var matched := Views(comments, users, ks);
      ViewsFacts(comments, users, videoId.id, ks);
      var sorted := SortOn(matched, NewestFirst);
      SortedComments(matched, sorted);
      Success(sorted)
  }

  lemma SortedComments(matched: seq<CommentView>, sorted: seq<CommentView>)
    requires IncreasingOn(matched, ViewId) && sorted == SortOn(matched, NewestFirst)
    ensures forall c :: c in sorted <==> c in matched
    ensures DistinctOn(sorted, ViewId)
    ensures forall i, j :: 0 <= i < j < |sorted| ==> sorted[i].createdAt >= sorted[j].createdAt
  {
    SortKeepsDocuments(matched, NewestFirst, ViewId);
    forall i, j | 0 <= i < j < |sorted| ensures sorted[i].createdAt >= sorted[j].createdAt {
      assert NewestFirst(sorted[i]) <= NewestFirst(sorted[j]);
    }
  }

  // ---------------------------------------------------------------------
  // Adding, editing and deleting

  /** addComment: check the video id, then the content, then that the video
      exists; store the content as sent (untrimmed). */
  method AddComment(db: Db, videoId: IdParam, content: Option<string>, caller: Id, now: int)
    returns (status: Status, message: string, data: Option<Comment>)
    requires db.Valid()
    modifies db`comments, db`nextId
    ensures db.Valid()
    ensures videoId.NotObjectId? ==> status == BadRequest && message == "Invalid video id"
    ensures videoId.ObjectId? && BlankContent(content) ==>
              status == BadRequest && message == "Comment content is required"
    ensures videoId.ObjectId? && !BlankContent(content) && videoId.id !in db.videos ==>
              status == NotFound && message == "Video not found"
    ensures status != Ok ==> data == None && db.comments == old(db.comments) && db.nextId == old(db.nextId)
    ensures status == Ok <==> videoId.ObjectId? && !BlankContent(content) && videoId.id in db.videos
    ensures status == Ok ==>
      && message == "Comment added successfully"
      && old(db.nextId) !in old(db.comments)
      && data == Some(Comment(content.value, videoId.id, caller, now))
      && db.comments == old(db.comments)[old(db.nextId) := data.value]
  {
    if videoId.NotObjectId? {
      return BadRequest, "Invalid video id", None;
    }
    if BlankContent(content) {
      return BadRequest, "Comment content is required", None;
    }
    if videoId.id !in db.videos {
      return NotFound, "Video not found", None;
    }
    var comment := Comment(content.value, videoId.id, caller, now);
    var id := db.Mint();
    db.comments := db.comments[id := comment];
    status, message, data := Ok, "Comment added successfully", Some(comment);
  }

  /** A comment added to a video is listed among that video's comments, with
      its author's profile. */
  lemma AddedCommentListed(comments: map<Id, Comment>, users: map<Id, User>, id: Id, c: Comment)
    requires id !in comments
    ensures var after := comments[id := c];
      var r := GetVideoComments(after, users, ObjectId(c.video));
      r.Success? && CommentView(id, c.content, c.video, ProfileOf(users, c.owner), c.createdAt) in r.value
  {
    var after := comments[id := c];
    assert ViewOf(after, users, id) == CommentView(id, c.content, c.video, ProfileOf(users, c.owner), c.createdAt);
  }

  /** updateComment: check the id, then the content, then existence, then
      ownership; only the content changes. */
  method UpdateComment(db: Db, commentId: IdParam, content: Option<string>, caller: Id)
    returns (status: Status, message: string, data: Option<Comment>)
    requires db.Valid()
    modifies db`comments
    ensures db.Valid()
    ensures commentId.NotObjectId? ==> status == BadRequest && message == "Invalid comment id"
    ensures commentId.ObjectId? && BlankContent(content) ==>
              status == BadRequest && message == "Comment content is required"
    ensures commentId.ObjectId? && !BlankContent(content) && commentId.id !in old(db.comments) ==>
              status == NotFound && message == "Comment not found"
    ensures commentId.ObjectId? && !BlankContent(content) && commentId.id in old(db.comments)
            && old(db.comments)[commentId.id].owner != caller ==>
              status == Forbidden && message == "You cannot edit this comment"
    ensures status != Ok ==> data == None && db.comments == old(db.comments)
    ensures status == Ok <==> commentId.ObjectId? && !BlankContent(content) && commentId.id in old(db.comments)
                              && old(db.comments)[commentId.id].owner == caller
    ensures status == Ok ==>
      var k := commentId.id;
      && message == "Comment updated successfully"
      && db.comments == old(db.comments)[k := old(db.comments)[k].(content := content.value)]
      && data == Some(db.comments[k])
  {
    if commentId.NotObjectId? {
      return BadRequest, "Invalid comment id", None;
    }
    if BlankContent(content) {
      return BadRequest, "Comment content is required", None;
    }
    if commentId.id !in db.comments {
      return NotFound, "Comment not found", None;
    }
    var comment := db.comments[commentId.id];
    if comment.owner != caller {
      return Forbidden, "You cannot edit this comment", None;
    }
    comment := comment.(content := content.value);
    db.comments := db.comments[commentId.id := comment];
    status, message, data := Ok, "Comment updated successfully", Some(comment);
  }

  /** deleteComment: check the id, then existence, then ownership. */
  method DeleteComment(db: Db, commentId: IdParam, caller: Id) returns (status: Status, message: string)
    requires db.Valid()
    modifies db`comments
    ensures db.Valid()
    ensures commentId.NotObjectId? ==> status == BadRequest && message == "Invalid comment id"
    ensures commentId.ObjectId? && commentId.id !in old(db.comments) ==>
              status == NotFound && message == "Comment not found"
    ensures commentId.ObjectId? && commentId.id in old(db.comments) && old(db.comments)[commentId.id].owner != caller ==>
              status == Forbidden && message == "You cannot delete this comment"
    ensures status != Ok ==> db.comments == old(db.comments)
    ensures status == Ok <==> commentId.ObjectId? && commentId.id in old(db.comments)
                              && old(db.comments)[commentId.id].owner == caller
    ensures status == Ok ==> db.comments == old(db.comments) - {commentId.id} && message == "Comment deleted successfully"
  {
    if commentId.NotObjectId? {
      return BadRequest, "Invalid comment id";
    }
    if commentId.id !in db.comments {
      return NotFound, "Comment not found";
    }
    if db.comments[commentId.id].owner != caller {
      return Forbidden, "You cannot delete this comment";
    }
    db.comments := db.comments - {commentId.id};
    status, message := Ok, "Comment deleted successfully";
  }

  /** A deleted comment no longer appears in any video's comment list. */
  lemma DeletedCommentUnlisted(comments: map<Id, Comment>, users: map<Id, User>, id: Id, video: Id)
    ensures var r := GetVideoComments(comments - {id}, users, ObjectId(video));
      r.Success? && forall c :: c in r.value ==> c.id != id
  {
  }
}
