/** The document store the controllers work on: one collection per model
    (users, videos, comments, playlists, subscriptions, likes), each a map
    from ObjectId to record, and the request-side values the controllers
    receive (validated id parameters, optional body fields, upload results). */
module Store {

  datatype Option<T> = None | Some(value: T) {
    function GetOr(default: T): T {
      if Some? then value else default
    }
  }

  /** A MongoDB ObjectId. The store mints them in increasing order, so the
      natural (insertion) order of a collection is the order of its ids. */
  type Id = nat

  /** A route or query parameter after `isValidObjectId`: a parameter that is
      absent, empty, or that the check rejects arrives as NotObjectId. */
  datatype IdParam = NotObjectId | ObjectId(id: Id)

  /** The HTTP status codes the controllers answer with. InternalError is an
      error the database raises rather than an `ApiError` the controller
      throws; `asyncHandler` passes it on to the error handler, which is not
      part of this model, and Express answers such an error with 500. */
  datatype Status = Ok | Created | BadRequest | Unauthorized | Forbidden | NotFound | InternalError {
    function Code(): int {
      match this
      case Ok => 200
      case Created => 201
      case BadRequest => 400
      case Unauthorized => 401
      case Forbidden => 403
      case NotFound => 404
      case InternalError => 500
    }
  }

  /** What a read-only controller answers: its data, or the error status it throws. */
  datatype Result<T> = Success(value: T) | Failure(status: Status)

  // ---------------------------------------------------------------------
  // Records

  datatype User = User(username: string, email: string, fullName: string, avatar: string)

  /** The projection { username, fullName, avatar } every owner lookup
      applies; like every inclusion projection it keeps the user's `_id`. */
  datatype Profile = Profile(id: Id, username: string, fullName: string, avatar: string)

  datatype Video = Video(videoFile: string, thumbnail: string, title: string, description: string,
                         duration: nat, views: nat, isPublished: bool, owner: Id, createdAt: int)

  datatype Comment = Comment(content: string, video: Id, owner: Id, createdAt: int)

  datatype Playlist = Playlist(name: string, description: string, owner: Id, videos: seq<Id>)

  datatype Subscription = Subscription(subscriber: Id, channel: Id)

  /** A like; `video` is absent on likes of other content (comments), which no
      controller of this model creates. */
  datatype Like = Like(video: Option<Id>, likedBy: Id)

  /** Defaults the video schema gives a new document. */
  const DefaultViews: nat := 0
  const DefaultPublished: bool := true

  /** `$lookup` of a user id followed by `$first`: the matching user's profile,
      or absent when no user has that id. */
  function ProfileOf(users: map<Id, User>, id: Id): (p: Option<Profile>)
    ensures p.Some? <==> id in users
    ensures p.Some? ==> p.value.id == id && p.value.username == users[id].username && p.value.fullName == users[id].fullName
                        && p.value.avatar == users[id].avatar
  {
    if id in users then
      var u := users[id];
      Some(Profile(id, u.username, u.fullName, u.avatar))
    else None
  }

  /** The owner field of a video document as it moves through an aggregation:
      the stored reference, the array a `$lookup` leaves, or the value
      `$first` (or `populate`) leaves. */
  datatype OwnerField = OwnerRef(ref: Id) | OwnerArray(profiles: seq<Profile>) | OwnerFlat(profile: Option<Profile>)

  /** A video document as a query returns it. */
  datatype VideoDoc = VideoDoc(id: Id, video: Video, owner: OwnerField)

  /** A video with its owner populated (or null when the owner is gone). */
  function Populated(users: map<Id, User>, id: Id, v: Video): VideoDoc {
    VideoDoc(id, v, OwnerFlat(ProfileOf(users, v.owner)))
  }

  // ---------------------------------------------------------------------
  // Request values

  /** JavaScript truthiness of an optional body string: present and non-empty. */
  predicate Truthy(s: Option<string>) {
    s.Some? && s.value != ""
  }

  /** The characters `String.prototype.trim` removes: white space and line terminators. */
  predicate IsTrimmed(c: char) {
    c == '\t' || c == '\n' || c == '\U{000B}' || c == '\U{000C}' || c == '\r' || c == ' '
    || c == '\U{00A0}' || c == '\U{1680}' || ('\U{2000}' <= c <= '\U{200A}')
    || c == '\U{2028}' || c == '\U{2029}' || c == '\U{202F}' || c == '\U{205F}'
    || c == '\U{3000}' || c == '\U{FEFF}'
  }

  function TrimStart(s: string): (r: string)
    ensures |r| <= |s| && r == s[|s| - |r|..]
    ensures r == [] || !IsTrimmed(r[0])
  {
    if s != [] && IsTrimmed(s[0]) then TrimStart(s[1..]) else s
  }

  function TrimEnd(s: string): (r: string)
    ensures |r| <= |s| && r == s[..|r|]
    ensures r == [] || !IsTrimmed(r[|r| - 1])
  {
    if s != [] && IsTrimmed(s[|s| - 1]) then TrimEnd(s[..|s| - 1]) else s
  }

  /** `String.prototype.trim`. */
  function Trim(s: string): string {
    TrimEnd(TrimStart(s))
  }

  /** Every character is one that trim removes. */
  predicate IsBlank(s: string) {
    forall i :: 0 <= i < |s| ==> IsTrimmed(s[i])
  }

  /** `!content?.trim()`: the field is absent, or every character is one trim
      removes (so nothing is left once it is trimmed: BlankContentIsEmptyTrim). */
  predicate BlankContent(s: Option<string>) {
    s.None? || IsBlank(s.value)
  }

  lemma BlankContentIsEmptyTrim(s: Option<string>)
    ensures BlankContent(s) <==> s.None? || Trim(s.value) == ""
  {
    if s.Some? { TrimEmptyIffBlank(s.value); }
  }

  lemma {:induction false} TrimStartBlank(s: string)
    ensures TrimStart(s) == [] <==> IsBlank(s)
    decreases |s|
  {
    if s != [] && IsTrimmed(s[0]) {
      TrimStartBlank(s[1..]);
      var rest := s[1..];
      assert IsBlank(s) ==> IsBlank(rest) by {
        if IsBlank(s) {
          forall i | 0 <= i < |rest| ensures IsTrimmed(rest[i]) {
            assert rest[i] == s[i + 1];
          }
        }
      }
      assert IsBlank(rest) ==> IsBlank(s) by {
        if IsBlank(rest) {
          forall i | 0 <= i < |s| ensures IsTrimmed(s[i]) {
            if i > 0 { assert s[i] == rest[i - 1]; }
          }
        }
      }
    }
  }

  /** trim() leaves nothing exactly when every character is one it removes. */
  lemma TrimEmptyIffBlank(s: string)
    ensures Trim(s) == [] <==> IsBlank(s)
  {
    TrimStartBlank(s);
    var t := TrimStart(s);
    if t != [] {
      assert !IsTrimmed(t[0]);
      assert TrimEnd(t) != [] by {
        if TrimEnd(t) == [] { TrimEndShrinks(t); }
      }
    }
  }

  lemma {:induction false} TrimEndShrinks(t: string)
    requires t != [] && !IsTrimmed(t[0])
    ensures TrimEnd(t) != []
    decreases |t|
  {
    if IsTrimmed(t[|t| - 1]) {
      assert |t| > 1;
      TrimEndShrinks(t[..|t| - 1]);
    }
  }

  /** Outcome of uploading one file to the media store: a failure (no URL),
      or the stored asset's URL and, for media, its duration. */
  datatype UploadResult = UploadFailed | Uploaded(url: string, duration: Option<nat>)

  /** A multipart file field: absent, or present together with what uploading it gave. */
  datatype FileField = NoFile | File(upload: UploadResult)

  /** `upload?.url` is truthy. */
  predicate UploadOk(u: UploadResult) {
    u.Uploaded? && u.url != ""
  }

  // ---------------------------------------------------------------------
  // The store

  /** At most one subscription record per (subscriber, channel) pair. */
  ghost predicate UniqueSubscriptions(m: map<Id, Subscription>) {
    forall a, b :: a in m && b in m && m[a] == m[b] ==> a == b
  }

  /** At most one like record per (video, user) pair. */
  ghost predicate UniqueVideoLikes(m: map<Id, Like>) {
    forall a, b :: a in m && b in m && m[a] == m[b] && m[a].video.Some? ==> a == b
  }

  class Db {
    var users: map<Id, User>
    var videos: map<Id, Video>
    var comments: map<Id, Comment>
    var playlists: map<Id, Playlist>
    var subscriptions: map<Id, Subscription>
    var likes: map<Id, Like>
    var nextId: Id

    ghost predicate Valid()
      reads this
    {
      && (forall k :: k in users ==> k < nextId)
      && (forall k :: k in videos ==> k < nextId)
      && (forall k :: k in comments ==> k < nextId)
      && (forall k :: k in playlists ==> k < nextId)
      && (forall k :: k in subscriptions ==> k < nextId)
      && (forall k :: k in likes ==> k < nextId)
      && UniqueSubscriptions(subscriptions)
      && UniqueVideoLikes(likes)
    }

    constructor ()
      ensures Valid() && nextId == 0
      ensures users == map[] && videos == map[] && comments == map[]
      ensures playlists == map[] && subscriptions == map[] && likes == map[]
    {
      users, videos, comments := map[], map[], map[];
      playlists, subscriptions, likes := map[], map[], map[];
      nextId := 0;
    }

    /** A fresh ObjectId, unused in every collection. */
    method Mint() returns (id: Id)
      requires Valid()
      modifies this`nextId
      ensures id == old(nextId) && nextId == id + 1 && Valid()
      ensures id !in users && id !in videos && id !in comments
      ensures id !in playlists && id !in subscriptions && id !in likes
    {
      id := nextId;
      nextId := nextId + 1;
    }
  }
}
