/** src/controllers/video.controller.js: listing, publishing, reading,
    editing, deleting and (un)publishing videos. */
module VideoController {
  import opened Store
  import opened Order
  import opened Streams

  // ---------------------------------------------------------------------
  // getAllVideos: the aggregation pipeline and what it returns

  /** The case-insensitive `$regex` test: does the pattern (second argument)
      match somewhere in the text (first argument). Left uninterpreted. */
  type Regex = (string, string) -> bool

  /** The stages getAllVideos may push onto its pipeline. */
  datatype Stage =
    | MatchOwner(owner: Id)
    | MatchText(query: string)
    | MatchPublished
    | LookupOwner
    | FlattenOwner
    | SortBy(field: string, ascending: bool)

  predicate IsMatch(st: Stage) {
    st.MatchOwner? || st.MatchText? || st.MatchPublished?
  }

  function DocId(d: VideoDoc): int {
    d.id
  }

  /** The number a `$sort` on `field` compares. Fields this model does not
      order on compare equal. */
  function FieldKey(field: string, v: Video): int {
    if field == "createdAt" then v.createdAt
    else if field == "views" then v.views
    else if field == "duration" then v.duration
    else 0
  }

  /** Whether a `$match` stage lets document d through. */
  predicate Keep(regex: Regex, st: Stage, d: VideoDoc) {
    match st
    case MatchOwner(o) => d.owner == OwnerRef(o)
    case MatchText(q) => regex(d.video.title, q) || regex(d.video.description, q)
    case MatchPublished => d.video.isPublished
    case _ => true
  }

  /** `$lookup` of the owner reference into an array of at most one profile. */
  function LookupField(users: map<Id, User>, o: OwnerField): OwnerField {
    if o.OwnerRef? && o.ref in users then OwnerArray([ProfileOf(users, o.ref).value])
    else OwnerArray([])
  }

  /** `$addFields: { owner: { $first: "$owner" } }`. */
  function FirstField(o: OwnerField): OwnerField {
    if o.OwnerArray? then OwnerFlat(if o.profiles == [] then None else Some(o.profiles[0])) else o
  }

  /** The aggregation's owner join (`$lookup`, then `$first`) leaves the same
      owner field as `populate("owner")`: the owner's profile, with its id,
      or null exactly when no user has the id. */
  lemma LookupThenFirstIsPopulate(users: map<Id, User>, id: Id, v: Video)
    ensures VideoDoc(id, v, FirstField(LookupField(users, OwnerRef(v.owner)))) == Populated(users, id, v)
    ensures FirstField(LookupField(users, OwnerRef(v.owner))) == OwnerFlat(None) <==> v.owner !in users
    ensures v.owner in users ==> FirstField(LookupField(users, OwnerRef(v.owner))).profile.value.id == v.owner
  {
  }

  function SortKey(field: string, ascending: bool): VideoDoc -> int {
    (d: VideoDoc) => if ascending then FieldKey(field, d.video) else -FieldKey(field, d.video)
  }

  /** One stage applied to the documents reaching it. */
  function Apply(users: map<Id, User>, regex: Regex, st: Stage, ds: seq<VideoDoc>): seq<VideoDoc> {
    match st
    case LookupOwner => Map(ds, (d: VideoDoc) => d.(owner := LookupField(users, d.owner)))
    case FlattenOwner => Map(ds, (d: VideoDoc) => d.(owner := FirstField(d.owner)))
    case SortBy(field, ascending) => SortOn(ds, SortKey(field, ascending))
    case _ => Filter(ds, (d: VideoDoc) => Keep(regex, st, d))
  }

  /** A pipeline run over the collection: each pushed stage applies to what the
      earlier stages left. */
  function Run(users: map<Id, User>, regex: Regex, pipeline: seq<Stage>, ds: seq<VideoDoc>): seq<VideoDoc>
    decreases |pipeline|
  {
    if pipeline == [] then ds
    else Apply(users, regex, pipeline[|pipeline| - 1], Run(users, regex, pipeline[..|pipeline| - 1], ds))
  }

  lemma RunPush(users: map<Id, User>, regex: Regex, pipeline: seq<Stage>, st: Stage, ds: seq<VideoDoc>)
    ensures Run(users, regex, pipeline + [st], ds) == Apply(users, regex, st, Run(users, regex, pipeline, ds))
  {
    assert (pipeline + [st])[..|pipeline|] == pipeline;
  }

  /** A stored video as the aggregation first sees it. */
  function StoredDoc(videos: map<Id, Video>, k: Id): VideoDoc
    requires k in videos
  {
    VideoDoc(k, videos[k], OwnerRef(videos[k].owner))
  }

  /** The video collection in natural order. */
  function Stored(videos: map<Id, Video>): (r: seq<VideoDoc>)
    ensures IncreasingOn(r, DocId)
    ensures forall d :: d in r <==> d.id in videos && d == StoredDoc(videos, d.id)
  {
    var ks := KeysInOrder(videos.Keys);
    var r := StoredAt(videos, ks);
    StoredAtFacts(videos, ks);
    r
  }

  function StoredAt(videos: map<Id, Video>, ks: seq<Id>): seq<VideoDoc>
    requires forall k :: k in ks ==> k in videos
  {
    Map(ks, (k: Id) requires k in videos => StoredDoc(videos, k))
  }

  lemma StoredAtFacts(videos: map<Id, Video>, ks: seq<Id>)
    requires Increasing(ks) && forall k :: k in ks <==> k in videos
    ensures IncreasingOn(StoredAt(videos, ks), DocId)
    ensures forall d :: d in StoredAt(videos, ks) <==> d.id in videos && d == StoredDoc(videos, d.id)
  {
    var r := StoredAt(videos, ks);
    forall i, j | 0 <= i < j < |r| ensures DocId(r[i]) < DocId(r[j]) {
      assert r[i].id == ks[i] && r[j].id == ks[j];
    }
    forall d | d in r ensures d.id in videos && d == StoredDoc(videos, d.id) {
      var i :| 0 <= i < |r| && r[i] == d;
      assert ks[i] in ks;
    }
    forall k | k in videos ensures StoredDoc(videos, k) in r {
      var i :| 0 <= i < |ks| && ks[i] == k;
      assert r[i] == StoredDoc(videos, k);
    }
  }

  /** A run of `$match` stages keeps the documents every one of them lets
      through, in natural order. */
  lemma {:induction false} RunMatches(users: map<Id, User>, regex: Regex, pipeline: seq<Stage>, ds: seq<VideoDoc>)
    requires forall st :: st in pipeline ==> IsMatch(st)
    requires IncreasingOn(ds, DocId)
    ensures forall d :: d in Run(users, regex, pipeline, ds) <==>
                        d in ds && forall st :: st in pipeline ==> Keep(regex, st, d)
    ensures IncreasingOn(Run(users, regex, pipeline, ds), DocId)
    decreases |pipeline|
  {
    if pipeline != [] {
      var init, last := pipeline[..|pipeline| - 1], pipeline[|pipeline| - 1];
      assert forall st :: st in pipeline <==> st in init || st == last by {
        assert pipeline == init + [last];
      }
      RunMatches(users, regex, init, ds);
      var before := Run(users, regex, init, ds);
      var keep := (d: VideoDoc) => Keep(regex, last, d);
      assert Run(users, regex, pipeline, ds) == Filter(before, keep) by {
        FilterStage(users, regex, last, before);
      }
      FilterKeepsIncreasing(before, keep, DocId);
      forall d ensures d in Filter(before, keep) <==> d in ds && forall st :: st in pipeline ==> Keep(regex, st, d) {
        assert d in Filter(before, keep) <==> d in before && Keep(regex, last, d);
      }
    }
  }

  lemma FilterStage(users: map<Id, User>, regex: Regex, st: Stage, ds: seq<VideoDoc>)
    requires IsMatch(st)
    ensures Apply(users, regex, st, ds) == Filter(ds, (d: VideoDoc) => Keep(regex, st, d))
  {
  }

  /** The stages getAllVideos would push for this request. */
  function Selected(regex: Regex, userId: IdParam, query: Option<string>, v: Video): bool {
    && v.isPublished
    && (userId.ObjectId? ==> v.owner == userId.id)
    && (Truthy(query) ==> regex(v.title, query.value) || regex(v.description, query.value))
  }

  /** A document getAllVideos lists: a stored video the request selects, with its owner's profile. */
  predicate Listed(videos: map<Id, Video>, users: map<Id, User>, regex: Regex, userId: IdParam,
                   query: Option<string>, d: VideoDoc) {
    d.id in videos && d == Populated(users, d.id, videos[d.id]) && Selected(regex, userId, query, videos[d.id])
  }

  /** After the `$lookup` and `$first` stages every stored document carries its owner's profile. */
  lemma EnrichStored(users: map<Id, User>, regex: Regex, videos: map<Id, Video>, pre: seq<VideoDoc>,
                     keep: VideoDoc -> bool)
    requires IncreasingOn(pre, DocId)
    requires forall d :: d in pre <==> d.id in videos && d == StoredDoc(videos, d.id) && keep(d)
    ensures var out := Apply(users, regex, FlattenOwner, Apply(users, regex, LookupOwner, pre));
      && IncreasingOn(out, DocId)
      && forall d :: d in out <==> d.id in videos && d == Populated(users, d.id, videos[d.id])
                                   && keep(StoredDoc(videos, d.id))
  {
    var mid := Apply(users, regex, LookupOwner, pre);
    var out := Apply(users, regex, FlattenOwner, mid);
    assert forall i :: 0 <= i < |pre| ==> out[i] == Populated(users, pre[i].id, pre[i].video) by {
      forall i | 0 <= i < |pre| ensures out[i] == Populated(users, pre[i].id, pre[i].video) {
        assert pre[i] in pre;
        LookupThenFirstIsPopulate(users, pre[i].id, pre[i].video);
      }
    }
    forall d ensures d in out <==> d.id in videos && d == Populated(users, d.id, videos[d.id])
                                   && keep(StoredDoc(videos, d.id)) {
      if d in out {
        var i :| 0 <= i < |out| && out[i] == d;
        assert pre[i] in pre;
      }
      if d.id in videos && d == Populated(users, d.id, videos[d.id]) && keep(StoredDoc(videos, d.id)) {
        var i :| 0 <= i < |pre| && pre[i] == StoredDoc(videos, d.id);
        assert out[i] == d;
      }
    }
  }

  /** The `$match` stages getAllVideos pushes for a request: the owner filter
      for a valid userId, the text filter for a non-empty query, and always
      the published filter. */
  function Matches(userId: IdParam, query: Option<string>): (r: seq<Stage>)
    ensures forall st :: st in r ==> IsMatch(st)
  {
    (if userId.ObjectId? then [MatchOwner(userId.id)] else [])
    + (if Truthy(query) then [MatchText(query.value)] else [])
    + [MatchPublished]
  }

  /** A stored video passes those stages exactly when the request selects it. */
  lemma MatchesSelect(regex: Regex, videos: map<Id, Video>, userId: IdParam, query: Option<string>, k: Id)
    requires k in videos
    ensures (forall st :: st in Matches(userId, query) ==> Keep(regex, st, StoredDoc(videos, k)))
            <==> Selected(regex, userId, query, videos[k])
  {
    var m := Matches(userId, query);
    var d := StoredDoc(videos, k);
    assert MatchPublished in m;
    if userId.ObjectId? { assert MatchOwner(userId.id) in m; }
    if Truthy(query) { assert MatchText(query.value) in m; }
    forall st | st in m ensures st == MatchPublished || (userId.ObjectId? && st == MatchOwner(userId.id))
                                || (Truthy(query) && st == MatchText(query.value)) {
    }
  }

  /** The full pipeline is the sort of the enriched matches. */
  lemma RunStages(users: map<Id, User>, regex: Regex, matches: seq<Stage>, field: string, ascending: bool,
                  ds: seq<VideoDoc>)
    ensures Run(users, regex, matches + [LookupOwner] + [FlattenOwner] + [SortBy(field, ascending)], ds)
         == SortOn(Enrich(users, regex, Run(users, regex, matches, ds)), SortKey(field, ascending))
  {
    var pre := Run(users, regex, matches, ds);
    RunPush(users, regex, matches, LookupOwner, ds);
    RunPush(users, regex, matches + [LookupOwner], FlattenOwner, ds);
    RunPush(users, regex, matches + [LookupOwner] + [FlattenOwner], SortBy(field, ascending), ds);
    ApplySort(users, regex, field, ascending, Enrich(users, regex, pre));
  }

  /** The `$lookup` and `$first` stages. */
  function Enrich(users: map<Id, User>, regex: Regex, ds: seq<VideoDoc>): seq<VideoDoc> {
    Apply(users, regex, FlattenOwner, Apply(users, regex, LookupOwner, ds))
  }

  /** Before the `$sort`: each selected video once, with its owner's profile, in natural order. */
  lemma MatchedAndEnriched(users: map<Id, User>, regex: Regex, videos: map<Id, Video>, userId: IdParam,
                           query: Option<string>)
    ensures var e := Enrich(users, regex, Run(users, regex, Matches(userId, query), Stored(videos)));
      && IncreasingOn(e, DocId)
      && forall d :: d in e <==> Listed(videos, users, regex, userId, query, d)
  {
    var matches := Matches(userId, query);
    var keep := (d: VideoDoc) => forall st :: st in matches ==> Keep(regex, st, d);
    var pre := Run(users, regex, matches, Stored(videos));
    RunMatches(users, regex, matches, Stored(videos));
    EnrichStored(users, regex, videos, pre, keep);
    forall k | k in videos ensures keep(StoredDoc(videos, k)) <==> Selected(regex, userId, query, videos[k]) {
      MatchesSelect(regex, videos, userId, query, k);
    }
  }

  /** The `$sort` keeps the documents, keeps their ids distinct and orders them on the key. */
  lemma SortSelection(e: seq<VideoDoc>, field: string, ascending: bool)
    requires IncreasingOn(e, DocId)
    ensures var docs := SortOn(e, SortKey(field, ascending));
      && (forall d :: d in docs <==> d in e)
      && DistinctOn(docs, DocId)
      && SortedOn(docs, SortKey(field, ascending))
  {
    SortKeepsDocuments(e, SortKey(field, ascending), DocId);
  }

  lemma ApplySort(users: map<Id, User>, regex: Regex, field: string, ascending: bool, ds: seq<VideoDoc>)
    ensures Apply(users, regex, SortBy(field, ascending), ds) == SortOn(ds, SortKey(field, ascending))
  {
  }

  /** What the pipeline built for a request returns: each selected video
      once, with its owner's profile, ordered on the sort field. */
  lemma VideoPipelineResult(videos: map<Id, Video>, users: map<Id, User>, regex: Regex, userId: IdParam,
                            query: Option<string>, field: string, ascending: bool)
    ensures var docs := Run(users, regex, Matches(userId, query) + [LookupOwner] + [FlattenOwner]
                                          + [SortBy(field, ascending)], Stored(videos));
      && (forall d :: d in docs <==> Listed(videos, users, regex, userId, query, d))
      && DistinctOn(docs, DocId)
      && forall i, j :: 0 <= i < j < |docs| ==>
           if ascending then FieldKey(field, docs[i].video) <= FieldKey(field, docs[j].video)
           else FieldKey(field, docs[i].video) >= FieldKey(field, docs[j].video)
  {
    var matches := Matches(userId, query);
    RunStages(users, regex, matches, field, ascending, Stored(videos));
    MatchedAndEnriched(users, regex, videos, userId, query);
    var e := Enrich(users, regex, Run(users, regex, matches, Stored(videos)));
    SortSelection(e, field, ascending);
    var docs := SortOn(e, SortKey(field, ascending));
    forall i, j | 0 <= i < j < |docs|
      ensures if ascending then FieldKey(field, docs[i].video) <= FieldKey(field, docs[j].video)
              else FieldKey(field, docs[i].video) >= FieldKey(field, docs[j].video)
    {
      assert SortKey(field, ascending)(docs[i]) <= SortKey(field, ascending)(docs[j]);
    }
  }

  /** The field paths MongoDB accepts as a `$sort` key: not empty, no empty
      dot-separated part, no part starting with `$`, no NUL character. */
  predicate ValidFieldPath(f: string) {
    && f != [] && f[0] != '.' && f[0] != '$' && f[|f| - 1] != '.'
    && (forall i :: 0 <= i < |f| - 1 && f[i] == '.' ==> f[i + 1] != '.' && f[i + 1] != '$')
    && (forall i :: 0 <= i < |f| ==> f[i] != '\0')
  }

  /** getAllVideos without pagination: pushes the filter, lookup and sort
      stages the request asks for, then runs the pipeline over the collection.
      `sortBy` defaults to "createdAt" only when it is absent; the order is
      ascending exactly when `sortType` is "asc". The server refuses a
      pipeline whose sort key is not a valid field path (`sortBy=` or
      `sortBy=$views`), or whose search pattern it cannot compile as a
      regular expression (`compiles` is its verdict, for example `query=(`);
      that error reaches the error handler. */
  method GetAllVideos(videos: map<Id, Video>, users: map<Id, User>, regex: Regex, compiles: string -> bool,
                      userId: IdParam, query: Option<string>, sortBy: Option<string>, sortType: Option<string>)
    returns (status: Status, docs: seq<VideoDoc>)
    ensures status == Ok <==> ValidFieldPath(sortBy.GetOr("createdAt")) && (Truthy(query) ==> compiles(query.value))
    ensures status != Ok ==> status == InternalError && docs == []
    ensures status == Ok ==> forall d :: d in docs <==> Listed(videos, users, regex, userId, query, d)
    ensures DistinctOn(docs, DocId)
    ensures var field := sortBy.GetOr("createdAt");
      forall i, j :: 0 <= i < j < |docs| ==>
        if sortType == Some("asc") then FieldKey(field, docs[i].video) <= FieldKey(field, docs[j].video)
        else FieldKey(field, docs[i].video) >= FieldKey(field, docs[j].video)
  {
    var pipeline: seq<Stage> := [];
    if userId.ObjectId? {
      pipeline := pipeline + [MatchOwner(userId.id)];
    }
    if Truthy(query) {
      pipeline := pipeline + [MatchText(query.value)];
    }
    pipeline := pipeline + [MatchPublished];
    assert pipeline == Matches(userId, query);
    pipeline := pipeline + [LookupOwner];
    pipeline := pipeline + [FlattenOwner];
    var field := sortBy.GetOr("createdAt");
    var ascending := sortType == Some("asc");
    pipeline := pipeline + [SortBy(field, ascending)];
    if !ValidFieldPath(field) || (Truthy(query) && !compiles(query.value)) {
      return InternalError, [];
    }
    docs := Run(users, regex, pipeline, Stored(videos));
    VideoPipelineResult(videos, users, regex, userId, query, field, ascending);
    status := Ok;
  }

  /** An empty `sortBy` is not replaced by the default, and the server
      refuses the pipeline; the default key is accepted. */
  lemma EmptySortFieldFails()
    ensures !ValidFieldPath(Some("").GetOr("createdAt")) && !ValidFieldPath("$views")
    ensures ValidFieldPath(None.GetOr("createdAt"))
  {
    assert "$views"[0] == '$';
  }

  // ---------------------------------------------------------------------
  // publishAVideo

  /** The guard `[title, description].some(f => f?.trim() === "")` as
      written: an absent field gives `undefined`, which is not "", so only a
      present field that trims to "" (one made only of characters trim
      removes: GuardAsWrittenIsTrim) is rejected. */
  predicate BlankGuardAsWritten(title: Option<string>, description: Option<string>) {
    (title.Some? && IsBlank(title.value)) || (description.Some? && IsBlank(description.value))
  }

  lemma GuardAsWrittenIsTrim(title: Option<string>, description: Option<string>)
    ensures BlankGuardAsWritten(title, description) <==>
              (title.Some? && Trim(title.value) == "") || (description.Some? && Trim(description.value) == "")
  {
    if title.Some? { TrimEmptyIffBlank(title.value); }
    if description.Some? { TrimEmptyIffBlank(description.value); }
  }

  /** The guard as written lets a request without a title through, though
      the intended guard refuses it. */
  lemma MissingTitlePassesGuard()
    ensures !BlankGuardAsWritten(None, Some("a talk")) && MissingOrBlank(None, Some("a talk"))
  {
    assert !IsTrimmed("a talk"[0]);
  }

  /** The guard as its message ("All fields are required") intends: each
      field must be present and hold more than white space. */
  predicate MissingOrBlank(title: Option<string>, description: Option<string>) {
    BlankContent(title) || BlankContent(description)
  }

  /** The intended guard rejects what the written one rejects and, besides,
      exactly the requests that leave a field out; it accepts only fields
      with a character trim keeps. */
  lemma MissingOrBlankExtendsGuard(title: Option<string>, description: Option<string>)
    ensures MissingOrBlank(title, description) <==>
              BlankGuardAsWritten(title, description) || title.None? || description.None?
    ensures !MissingOrBlank(title, description) ==>
              title.Some? && Trim(title.value) != "" && description.Some? && Trim(description.value) != ""
  {
    if title.Some? { TrimEmptyIffBlank(title.value); }
    if description.Some? { TrimEmptyIffBlank(description.value); }
  }

  /** The upload checks of publishAVideo pass: the video file is present and
      uploaded, then the thumbnail is present and uploaded. */
  predicate FilesUploaded(videoFile: FileField, thumbnail: FileField) {
    videoFile.File? && UploadOk(videoFile.upload) && thumbnail.File? && UploadOk(thumbnail.upload)
  }

  /** publishAVideo as written: the guard rejects only a present blank field,
      then the video file (present, then uploaded) and the thumbnail
      (present, then uploaded) are checked, then the video is created. An
      absent title or description gets past the guard and the uploads, and
      `Video.create` refuses the document, whose schema requires both fields
      (a validation error, not an `ApiError`); nothing is written. So a video
      is created exactly when the intended guard (MissingOrBlank) passes.
      The media store is a parameter: each file field carries what uploading
      it gave. */
  method PublishAVideo(db: Db, title: Option<string>, description: Option<string>,
                       videoFile: FileField, thumbnail: FileField, caller: Id, now: int)
    returns (status: Status, message: string, created: Option<Id>)
    requires db.Valid()
    modifies db`videos, db`nextId
    ensures db.Valid()
    ensures BlankGuardAsWritten(title, description) ==> status == BadRequest && message == "All fields are required"
    ensures !BlankGuardAsWritten(title, description) && videoFile.NoFile? ==>
              status == BadRequest && message == "Video file is missing"
    ensures !BlankGuardAsWritten(title, description) && videoFile.File? && !UploadOk(videoFile.upload) ==>
              status == BadRequest && message == "Error while uploading video"
    ensures (!BlankGuardAsWritten(title, description) && videoFile.File? && UploadOk(videoFile.upload)
             && thumbnail.NoFile?) ==> status == BadRequest && message == "Thumbnail file is missing"
    ensures (!BlankGuardAsWritten(title, description) && videoFile.File? && UploadOk(videoFile.upload)
             && thumbnail.File? && !UploadOk(thumbnail.upload)) ==>
              status == BadRequest && message == "Error while uploading thumbnail"
    ensures (!BlankGuardAsWritten(title, description) && FilesUploaded(videoFile, thumbnail)
             && (title.None? || description.None?)) ==> status == InternalError
    ensures status != Created ==> created == None && db.videos == old(db.videos) && db.nextId == old(db.nextId)
    ensures status == Created <==> !MissingOrBlank(title, description) && FilesUploaded(videoFile, thumbnail)
    ensures status == Created ==>
      && message == "Video published successfully"
      && created == Some(old(db.nextId)) && old(db.nextId) !in old(db.videos)
      && db.videos == old(db.videos)[old(db.nextId) :=
           Video(videoFile.upload.url, thumbnail.upload.url, title.value, description.value,
                 videoFile.upload.duration.GetOr(0), DefaultViews, DefaultPublished, caller, now)]
  {
    if BlankGuardAsWritten(title, description) {
      return BadRequest, "All fields are required", None;
    }
    if videoFile.NoFile? {
      return BadRequest, "Video file is missing", None;
    }
    var video := videoFile.upload;
    if !UploadOk(video) {
      return BadRequest, "Error while uploading video", None;
    }
    if thumbnail.NoFile? {
      return BadRequest, "Thumbnail file is missing", None;
    }
    var thumb := thumbnail.upload;
    if !UploadOk(thumb) {
      return BadRequest, "Error while uploading thumbnail", None;
    }
    if title.None? || description.None? {
      // the schema's `required` validator refuses the document
      return InternalError, "Video validation failed", None;
    }
    var id := db.Mint();
    db.videos := db.videos[id := Video(video.url, thumb.url, title.value, description.value,
                                       video.duration.GetOr(0), DefaultViews, DefaultPublished, caller, now)];
    status, message, created := Created, "Video published successfully", Some(id);
  }

  // ---------------------------------------------------------------------
  // getVideoById

  /** Reading a video counts one view and answers with the owner populated. */
  method GetVideoById(db: Db, videoId: IdParam) returns (status: Status, message: string, data: Option<VideoDoc>)
    requires db.Valid()
    modifies db`videos
    ensures db.Valid()
    ensures videoId.NotObjectId? ==> status == BadRequest && message == "Invalid video ID"
    ensures videoId.ObjectId? && videoId.id !in old(db.videos) ==> status == NotFound && message == "Video not found"
    ensures status != Ok ==> db.videos == old(db.videos) && data == None
    ensures status == Ok <==> videoId.ObjectId? && videoId.id in old(db.videos)
    ensures status == Ok ==>
      var k := videoId.id;
      && db.videos == old(db.videos)[k := old(db.videos)[k].(views := old(db.videos)[k].views + 1)]
      && data == Some(Populated(db.users, k, db.videos[k]))
      && message == "Video fetched successfully"
  {
    if videoId.NotObjectId? {
      return BadRequest, "Invalid video ID", None;
    }
    if videoId.id !in db.videos {
      return NotFound, "Video not found", None;
    }
    var video := db.videos[videoId.id];
    video := video.(views := video.views + 1);
    db.videos := db.videos[videoId.id := video];
    status, message, data := Ok, "Video fetched successfully", Some(Populated(db.users, videoId.id, video));
  }

  // ---------------------------------------------------------------------
  // updateVideo

  /** The `updateData` object: the fields the `$set` will write. */
  datatype VideoFields = VideoFields(title: Option<string>, description: Option<string>,
                                     videoFile: Option<string>, thumbnail: Option<string>)

  /** updateVideo: collect the truthy text fields and the URLs of the files
      sent (a failed upload answers 400 before anything is written), then set
      them on the video, which must exist. There is no ownership check. */
  method UpdateVideo(db: Db, videoId: IdParam, title: Option<string>, description: Option<string>,
                     videoFile: FileField, thumbnail: FileField)
    returns (status: Status, message: string, data: Option<Video>)
    requires db.Valid()
    modifies db`videos
    ensures db.Valid()
    ensures videoId.NotObjectId? ==> status == BadRequest && message == "Invalid video id"
    ensures videoId.ObjectId? && videoFile.File? && !UploadOk(videoFile.upload) ==>
              status == BadRequest && message == "Error while uploading video"
    ensures videoId.ObjectId? && (videoFile.NoFile? || UploadOk(videoFile.upload))
            && thumbnail.File? && !UploadOk(thumbnail.upload) ==>
              status == BadRequest && message == "Error while uploading thumbnail"
    ensures status != Ok ==> db.videos == old(db.videos) && data == None
    ensures status == Ok <==> videoId.ObjectId? && videoId.id in old(db.videos)
                              && (videoFile.NoFile? || UploadOk(videoFile.upload))
                              && (thumbnail.NoFile? || UploadOk(thumbnail.upload))
    ensures videoId.ObjectId? && videoId.id !in old(db.videos)
            && (videoFile.NoFile? || UploadOk(videoFile.upload))
            && (thumbnail.NoFile? || UploadOk(thumbnail.upload)) ==>
              status == NotFound && message == "Video not found"
    ensures status == Ok ==>
      var k := videoId.id;
      var before := old(db.videos)[k];
      && message == "Video details updated successfully"
      && db.videos.Keys == old(db.videos).Keys
      && (forall j :: j in db.videos && j != k ==> db.videos[j] == old(db.videos)[j])
      && db.videos[k].title == (if Truthy(title) then title.value else before.title)
      && db.videos[k].description == (if Truthy(description) then description.value else before.description)
      && db.videos[k].videoFile == (if videoFile.File? then videoFile.upload.url else before.videoFile)
      && db.videos[k].thumbnail == (if thumbnail.File? then thumbnail.upload.url else before.thumbnail)
      && db.videos[k].owner == before.owner && db.videos[k].views == before.views
      && db.videos[k].isPublished == before.isPublished && db.videos[k].duration == before.duration
      && db.videos[k].createdAt == before.createdAt
      && data == Some(db.videos[k])
  {
    if videoId.NotObjectId? {
      return BadRequest, "Invalid video id", None;
    }
    var fields := VideoFields(None, None, None, None);
    if Truthy(title) {
      fields := fields.(title := title);
    }
    if Truthy(description) {
      fields := fields.(description := description);
    }
    if videoFile.File? {
      if !UploadOk(videoFile.upload) {
        return BadRequest, "Error while uploading video", None;
      }
      fields := fields.(videoFile := Some(videoFile.upload.url));
    }
    if thumbnail.File? {
      if !UploadOk(thumbnail.upload) {
        return BadRequest, "Error while uploading thumbnail", None;
      }
      fields := fields.(thumbnail := Some(thumbnail.upload.url));
    }
    if videoId.id !in db.videos {
      return NotFound, "Video not found", None;
    }
    var video := db.videos[videoId.id];
    video := video.(title := fields.title.GetOr(video.title),
                    description := fields.description.GetOr(video.description),
                    videoFile := fields.videoFile.GetOr(video.videoFile),
                    thumbnail := fields.thumbnail.GetOr(video.thumbnail));
    db.videos := db.videos[videoId.id := video];
    status, message, data := Ok, "Video details updated successfully", Some(video);
  }

  // ---------------------------------------------------------------------
  // deleteVideo and togglePublishStatus: existence before ownership

  method DeleteVideo(db: Db, videoId: IdParam, caller: Id) returns (status: Status, message: string)
    requires db.Valid()
    modifies db`videos
    ensures db.Valid()
    ensures videoId.NotObjectId? ==> status == BadRequest && message == "Invalid video ID"
    ensures videoId.ObjectId? && videoId.id !in old(db.videos) ==> status == NotFound && message == "Video not found"
    ensures videoId.ObjectId? && videoId.id in old(db.videos) && old(db.videos)[videoId.id].owner != caller ==>
              status == Forbidden && message == "You are not authorized to delete this video"
    ensures status != Ok ==> db.videos == old(db.videos)
    ensures status == Ok <==> videoId.ObjectId? && videoId.id in old(db.videos)
                              && old(db.videos)[videoId.id].owner == caller
    ensures status == Ok ==> db.videos == old(db.videos) - {videoId.id} && message == "Video deleted successfully"
  {
    if videoId.NotObjectId? {
      return BadRequest, "Invalid video ID";
    }
    if videoId.id !in db.videos {
      return NotFound, "Video not found";
    }
    if db.videos[videoId.id].owner != caller {
      return Forbidden, "You are not authorized to delete this video";
    }
    db.videos := db.videos - {videoId.id};
    status, message := Ok, "Video deleted successfully";
  }

  method TogglePublishStatus(db: Db, videoId: IdParam, caller: Id)
    returns (status: Status, message: string, data: Option<Video>)
    requires db.Valid()
    modifies db`videos
    ensures db.Valid()
    ensures videoId.NotObjectId? ==> status == BadRequest && message == "Invalid video ID"
    ensures videoId.ObjectId? && videoId.id !in old(db.videos) ==> status == NotFound && message == "Video not found"
    ensures videoId.ObjectId? && videoId.id in old(db.videos) && old(db.videos)[videoId.id].owner != caller ==>
              status == Forbidden && message == "You are not authorized to change this video's publish status"
    ensures status != Ok ==> db.videos == old(db.videos) && data == None
    ensures status == Ok <==> videoId.ObjectId? && videoId.id in old(db.videos)
                              && old(db.videos)[videoId.id].owner == caller
    ensures status == Ok ==>
      var k := videoId.id;
      var before := old(db.videos)[k];
      && db.videos == old(db.videos)[k := before.(isPublished := !before.isPublished)]
      && data == Some(db.videos[k])
      && message == if db.videos[k].isPublished then "Video published successfully"
                    else "Video unpublished successfully"
  {
    if videoId.NotObjectId? {
      return BadRequest, "Invalid video ID", None;
    }
    if videoId.id !in db.videos {
      return NotFound, "Video not found", None;
    }
    var video := db.videos[videoId.id];
    if video.owner != caller {
      return Forbidden, "You are not authorized to change this video's publish status", None;
    }
    video := video.(isPublished := !video.isPublished);
    db.videos := db.videos[videoId.id := video];
    status, data := Ok, Some(video);
    message := if video.isPublished then "Video published successfully" else "Video unpublished successfully";
  }

  /** The owner toggling twice leaves the video collection as it was. */
  method ToggleTwice(db: Db, videoId: Id, caller: Id)
    requires db.Valid() && videoId in db.videos && db.videos[videoId].owner == caller
    modifies db`videos
    ensures db.Valid() && db.videos == old(db.videos)
  {
    var s1, m1, d1 := TogglePublishStatus(db, ObjectId(videoId), caller);
    var s2, m2, d2 := TogglePublishStatus(db, ObjectId(videoId), caller);
    assert db.videos[videoId] == old(db.videos)[videoId];
  }
}
