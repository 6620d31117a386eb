/**
  The catalogue record (VideoData.java): a video or a live room, with the
  fields the browse screens and players read. Setters are modelled as
  functions returning the updated record; field access goes through one
  getter per field kind so that "a setter changes only its own field" can be
  stated once for all fields.
 */
module Video {
  import opened JavaLang

  /** A Java String field: null until something is stored. */
  type Str = Nullable<string>

  datatype VideoData = VideoData(
    id: Str,
    title: Str,
    description: Str,
    coverUrl: Str,
    videoUrl: Str,
    danmakuUrl: Str,
    duration: Str,
    viewCount: int,
    uploader: Str,
    isLiveStream: bool,
    is4K: bool,
    quality: Str,
    aid: Str,
    bvid: Str,
    cid: Str,
    tid: Str,
    tname: Str,
    publishTime: int,
    likeCount: int,
    coinCount: int,
    favoriteCount: int,
    danmakuCount: int,
    area: Str,
    areaName: Str,
    tags: Str,
    liveStatus: Str,
    roomUrl: Str)

  datatype StrField =
    | Id | Title | Description | CoverUrl | VideoUrl | DanmakuUrl | Duration
    | Uploader | Quality | Aid | Bvid | Cid | Tid | Tname | Area | AreaName
    | Tags | LiveStatus | RoomUrl

  datatype IntField = ViewCount | PublishTime | LikeCount | CoinCount | FavoriteCount | DanmakuCount

  datatype BoolField = LiveStream | FourK

  const Q4K: string := "4K"
  const Q1080P: string := "1080P"
  const LIVE: string := "LIVE"
  const LIVE_TITLE_PREFIX: string := "【直播】"

  // ---------------------------------------------------------------------
  // Getters
  // ---------------------------------------------------------------------

  function GetStr(v: VideoData, f: StrField): Str {
    match f
    case Id => v.id
    case Title => v.title
    case Description => v.description
    case CoverUrl => v.coverUrl
    case VideoUrl => v.videoUrl
    case DanmakuUrl => v.danmakuUrl
    case Duration => v.duration
    case Uploader => v.uploader
    case Quality => v.quality
    case Aid => v.aid
    case Bvid => v.bvid
    case Cid => v.cid
    case Tid => v.tid
    case Tname => v.tname
    case Area => v.area
    case AreaName => v.areaName
    case Tags => v.tags
    case LiveStatus => v.liveStatus
    case RoomUrl => v.roomUrl
  }

  function GetInt(v: VideoData, f: IntField): int {
    match f
    case ViewCount => v.viewCount
    case PublishTime => v.publishTime
    case LikeCount => v.likeCount
    case CoinCount => v.coinCount
    case FavoriteCount => v.favoriteCount
    case DanmakuCount => v.danmakuCount
  }

  function GetBool(v: VideoData, f: BoolField): bool {
    match f
    case LiveStream => v.isLiveStream
    case FourK => v.is4K
  }

  /** The counters of two records agree. */
  predicate SameNumbers(a: VideoData, b: VideoData) {
    && a.viewCount == b.viewCount && a.publishTime == b.publishTime && a.likeCount == b.likeCount
    && a.coinCount == b.coinCount && a.favoriteCount == b.favoriteCount && a.danmakuCount == b.danmakuCount
  }

  /** The two flags of two records agree. */
  predicate SameFlags(a: VideoData, b: VideoData) {
    a.isLiveStream == b.isLiveStream && a.is4K == b.is4K
  }

  /** Two records agree on every field outside the given string field. */
  predicate SameExceptStr(a: VideoData, b: VideoData, f: StrField) {
    && (forall g :: g != f ==> GetStr(a, g) == GetStr(b, g))
    && SameNumbers(a, b) && SameFlags(a, b)
  }

  predicate SameExceptInt(a: VideoData, b: VideoData, f: IntField) {
    && (forall g :: GetStr(a, g) == GetStr(b, g))
    && (forall g :: g != f ==> GetInt(a, g) == GetInt(b, g))
    && SameFlags(a, b)
  }

  predicate SameExceptBool(a: VideoData, b: VideoData, f: BoolField) {
    && (forall g :: GetStr(a, g) == GetStr(b, g))
    && SameNumbers(a, b)
    && (forall g :: g != f ==> GetBool(a, g) == GetBool(b, g))
  }

  // ---------------------------------------------------------------------
  // Setters
  // ---------------------------------------------------------------------

  /** `setId`, `setTitle`, ... : each stores its argument in its own field. */
  function SetStr(v: VideoData, f: StrField, x: Str): (r: VideoData)
    ensures GetStr(r, f) == x
    ensures SameExceptStr(r, v, f)
  {
    match f
    case Id => v.(id := x)
    case Title => v.(title := x)
    case Description => v.(description := x)
    case CoverUrl => v.(coverUrl := x)
    case VideoUrl => v.(videoUrl := x)
    case DanmakuUrl => v.(danmakuUrl := x)
    case Duration => v.(duration := x)
    case Uploader => v.(uploader := x)
    case Quality => v.(quality := x)
    case Aid => v.(aid := x)
    case Bvid => v.(bvid := x)
    case Cid => v.(cid := x)
    case Tid => v.(tid := x)
    case Tname => v.(tname := x)
    case Area => v.(area := x)
    case AreaName => v.(areaName := x)
    case Tags => v.(tags := x)
    case LiveStatus => v.(liveStatus := x)
    case RoomUrl => v.(roomUrl := x)
  }

  /** `setViewCount`, `setPublishTime`, `setLikeCount`, ... */
  function SetInt(v: VideoData, f: IntField, x: int): (r: VideoData)
    ensures GetInt(r, f) == x
    ensures SameExceptInt(r, v, f)
  {
    match f
    case ViewCount => v.(viewCount := x)
    case PublishTime => v.(publishTime := x)
    case LikeCount => v.(likeCount := x)
    case CoinCount => v.(coinCount := x)
    case FavoriteCount => v.(favoriteCount := x)
    case DanmakuCount => v.(danmakuCount := x)
  }

  /** `setLiveStream` and `set4K` as written. `set4K` assigns its parameter
      to itself, so the record is returned unchanged. */
  function SetBool(v: VideoData, f: BoolField, b: bool): (r: VideoData)
    ensures f == LiveStream ==> GetBool(r, f) == b && SameExceptBool(r, v, f)
    ensures f == FourK ==> r == v
  {
    match f
    case LiveStream => v.(isLiveStream := b)
    case FourK => v
  }

  /** What `set4K` evidently means (the field assignment `this.is4K = is4K`). */
  function SetBoolIntended(v: VideoData, f: BoolField, b: bool): (r: VideoData)
    ensures GetBool(r, f) == b
    ensures SameExceptBool(r, v, f)
  {
    match f
    case LiveStream => v.(isLiveStream := b)
    case FourK => v.(is4K := b)
  }

  /** The record's own test sets 4K on a fresh record and expects `is4K()`
      to be true; as written it stays false. */
  lemma Set4KLeavesFlagFalse()
    ensures !GetBool(SetBool(Empty(), FourK, true), FourK)
    ensures GetBool(SetBoolIntended(Empty(), FourK, true), FourK)
  {
  }

  // ---------------------------------------------------------------------
  // Constructors and factories
  // ---------------------------------------------------------------------

  /** `new VideoData()`: every reference field null, every number zero,
      every flag false. */
  function Empty(): (r: VideoData)
    ensures forall f :: GetStr(r, f) == Null
    ensures forall f :: GetInt(r, f) == 0
    ensures forall f :: !GetBool(r, f)
  {
    VideoData(Null, Null, Null, Null, Null, Null, Null, 0, Null, false, false, Null,
              Null, Null, Null, Null, Null, 0, 0, 0, 0, 0, Null, Null, Null, Null, Null)
  }

  /** The eleven-argument constructor. */
  function NewVideoData(id: Str, title: Str, description: Str, coverUrl: Str,
                        videoUrl: Str, danmakuUrl: Str, duration: Str,
                        viewCount: int, uploader: Str, isLiveStream: bool, is4K: bool): (r: VideoData)
    ensures r.id == id && r.title == title && r.description == description
    ensures r.coverUrl == coverUrl && r.videoUrl == videoUrl && r.danmakuUrl == danmakuUrl
    ensures r.duration == duration && r.viewCount == viewCount && r.uploader == uploader
    ensures r.isLiveStream == isLiveStream && r.is4K == is4K
    ensures r.quality == NonNull(Q4K) <==> is4K
    ensures !is4K ==> r.quality == NonNull(Q1080P)
    ensures forall f :: f !in {Id, Title, Description, CoverUrl, VideoUrl, DanmakuUrl, Duration, Uploader, Quality} ==> GetStr(r, f) == Null
    ensures forall f :: f != ViewCount ==> GetInt(r, f) == 0
  {
    Empty().(id := id, title := title, description := description, coverUrl := coverUrl,
             videoUrl := videoUrl, danmakuUrl := danmakuUrl, duration := duration,
             viewCount := viewCount, uploader := uploader, isLiveStream := isLiveStream,
             is4K := is4K, quality := NonNull(if is4K then Q4K else Q1080P))
  }

  /** `VideoData.createVideo`: a fresh record filled through the setters, in
      the source's order. The `set4K` call is the no-op SetBool(_, FourK, _),
      so `is4K()` stays false while the quality label still says "4K". */
  function CreateVideo(bvid: Str, title: Str, description: Str, coverUrl: Str,
                       videoUrl: Str, danmakuUrl: Str, duration: Str,
                       viewCount: int, uploader: Str, is4K: bool): (r: VideoData)
    ensures r.id == bvid && r.bvid == bvid
    ensures r.title == title && r.description == description && r.coverUrl == coverUrl
    ensures r.videoUrl == videoUrl && r.danmakuUrl == danmakuUrl && r.duration == duration
    ensures r.viewCount == viewCount && r.uploader == uploader
    ensures !r.isLiveStream && !r.is4K
    ensures r.quality == NonNull(Q4K) <==> is4K
    ensures !is4K ==> r.quality == NonNull(Q1080P)
    ensures forall f :: f in {Aid, Cid, Tid, Tname, Area, AreaName, Tags, LiveStatus, RoomUrl} ==> GetStr(r, f) == Null
    ensures forall f :: f != ViewCount ==> GetInt(r, f) == 0
  {
    var v := Empty().(id := bvid, bvid := bvid, title := title, description := description,
                      coverUrl := coverUrl, videoUrl := videoUrl, danmakuUrl := danmakuUrl,
                      duration := duration, viewCount := viewCount, uploader := uploader,
                      isLiveStream := false);
    var v := SetBool(v, FourK, is4K);
    v.(quality := NonNull(if is4K then Q4K else Q1080P))
  }

  /** `VideoData.createLive`: a live room whose player and comment URLs are
      both the room URL. */
  function CreateLive(roomId: Str, title: Str, description: Str, coverUrl: Str,
                      liveUrl: Str, viewerCount: int, uploader: Str, areaName: Str): (r: VideoData)
    ensures r.id == roomId && r.bvid == Null
    ensures r.title == NonNull(LIVE_TITLE_PREFIX + Render(title))
    ensures r.description == description && r.coverUrl == coverUrl
    ensures r.videoUrl == liveUrl && r.danmakuUrl == liveUrl
    ensures r.duration == NonNull(LIVE) && r.quality == NonNull(LIVE)
    ensures r.viewCount == viewerCount && r.uploader == uploader && r.areaName == areaName
    ensures r.isLiveStream && !r.is4K
    ensures r.liveStatus == NonNull("1")
    ensures forall f :: f in {Bvid, Aid, Cid, Tid, Tname, Area, Tags, RoomUrl} ==> GetStr(r, f) == Null
    ensures forall f :: f != ViewCount ==> GetInt(r, f) == 0
  {
    var v := Empty().(id := roomId, title := NonNull(LIVE_TITLE_PREFIX + Render(title)),
                      description := description, coverUrl := coverUrl, videoUrl := liveUrl,
                      danmakuUrl := liveUrl, duration := NonNull(LIVE), viewCount := viewerCount,
                      uploader := uploader, isLiveStream := true);
    var v := SetBool(v, FourK, false);
    v.(quality := NonNull(LIVE), areaName := areaName, liveStatus := NonNull("1"))
  }

  /** Of the three ways to build a record, only the eleven-argument
      constructor can produce one whose `is4K()` is true. */
  lemma OnlyConstructorSets4K(bvid: Str, title: Str, description: Str, coverUrl: Str,
                              videoUrl: Str, danmakuUrl: Str, duration: Str,
                              viewCount: int, uploader: Str, is4K: bool)
    ensures !CreateVideo(bvid, title, description, coverUrl, videoUrl, danmakuUrl, duration, viewCount, uploader, is4K).is4K
    ensures !CreateLive(bvid, title, description, coverUrl, videoUrl, viewCount, uploader, Null).is4K
    ensures NewVideoData(bvid, title, description, coverUrl, videoUrl, danmakuUrl, duration, viewCount, uploader, false, is4K).is4K == is4K
  {
  }
}
