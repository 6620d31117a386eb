/**
  The catalogue facade (VideoDataFactory.java): four cached lists in front of
  the API client, a switch that bypasses the API for built-in mock data, and
  fallbacks to that mock data when the API yields nothing.

  The Java class keeps its state in static fields; here the state is a
  Factory value and every getter returns the next state with its result. The
  API is an oracle: each getter receives what the client call would return
  (`fetched`), and uses it only when the code actually calls the client.
 */
module Catalogue {
  import opened JavaLang
  import opened Video
  import ApiClient
  import Json

  /** The four lists the factory caches. */
  datatype Category = Recommended | FourKVideos | LiveStreams | Popular

  datatype Factory = Factory(
    useMockData: bool,
    clientReady: bool,
    cachedRecommended: Nullable<seq<VideoData>>,
    cached4K: Nullable<seq<VideoData>>,
    cachedLive: Nullable<seq<VideoData>>,
    cachedPopular: Nullable<seq<VideoData>>)

  /** A getter's result together with the factory state after the call. */
  datatype Got<+T> = Got(next: Factory, result: T)

  function Cache(f: Factory, c: Category): Nullable<seq<VideoData>> {
    match c
    case Recommended => f.cachedRecommended
    case FourKVideos => f.cached4K
    case LiveStreams => f.cachedLive
    case Popular => f.cachedPopular
  }

  function WithCache(f: Factory, c: Category, list: seq<VideoData>): (r: Factory)
    ensures Cache(r, c) == NonNull(list)
    ensures forall d :: d != c ==> Cache(r, d) == Cache(f, d)
    ensures r.useMockData == f.useMockData && r.clientReady == f.clientReady
  {
    match c
    case Recommended => f.(cachedRecommended := NonNull(list))
    case FourKVideos => f.(cached4K := NonNull(list))
    case LiveStreams => f.(cachedLive := NonNull(list))
    case Popular => f.(cachedPopular := NonNull(list))
  }

  /** A cache, once filled, holds a non-empty list. */
  predicate CachesNonEmpty(f: Factory) {
    forall c :: Cache(f, c).NonNull? ==> |Cache(f, c).value| > 0
  }

  /** The static initial state: API mode, no client yet, nothing cached. */
  function Initial(): (f: Factory)
    ensures !f.useMockData && !f.clientReady
    ensures forall c :: Cache(f, c) == Null
  {
    Factory(false, false, Null, Null, Null, Null)
  }

  /** `init()`: creates the client once; nothing else changes. */
  function Init(f: Factory): (r: Factory)
    ensures r.clientReady
    ensures r.useMockData == f.useMockData
    ensures forall c :: Cache(r, c) == Cache(f, c)
  {
    if f.clientReady then f else f.(clientReady := true)
  }

  /** `setUseMockData(b)`. */
  function SetUseMockData(f: Factory, b: bool): (r: Factory)
    ensures r.useMockData == b && r.clientReady == f.clientReady
    ensures forall c :: Cache(r, c) == Cache(f, c)
  {
    f.(useMockData := b)
  }

  /** `clearCache()`: all four caches emptied, the mode and client kept. */
  function ClearCache(f: Factory): (r: Factory)
    ensures forall c :: Cache(r, c) == Null
    ensures r.useMockData == f.useMockData && r.clientReady == f.clientReady
  {
    f.(cachedRecommended := Null, cached4K := Null, cachedLive := Null, cachedPopular := Null)
  }

  // ---------------------------------------------------------------------
  // Mock data
  // ---------------------------------------------------------------------

  // The mock records' URLs share their prefixes; each is written below as
  // prefix + distinctive part, which spells the same string.
  const COVER_PREFIX: string := "https://i0.hdslb.com/bfs/archive/"
  const COVER_SUFFIX: string := ".jpg"
  const DEMO_MP4: string := "https://sf1-hscdn-tos.pstatp.com/obj/media-fe/xgplayer_doc_video/mp4/xgplayer-demo-720p.mp4"

  function MockVideo(bvid: string, title: string, description: string, coverHash: string,
                     duration: string, views: int, uploader: string, is4K: bool): VideoData {
    CreateVideo(NonNull(bvid), NonNull(title), NonNull(description),
                NonNull(COVER_PREFIX + coverHash + COVER_SUFFIX), NonNull(DEMO_MP4),
                NonNull(ApiClient.COMMENT_PREFIX + bvid + ApiClient.COMMENT_SUFFIX),
                NonNull(duration), views, NonNull(uploader), is4K)
  }

  function MockLive(roomId: string, title: string, description: string, coverHash: string,
                    viewers: int, uploader: string, areaName: string): VideoData {
    CreateLive(NonNull(roomId), NonNull(title), NonNull(description),
               NonNull(COVER_PREFIX + coverHash + COVER_SUFFIX),
               NonNull(ApiClient.LIVE_ROOM_PREFIX + roomId), viewers, NonNull(uploader), NonNull(areaName))
  }

  /** `getMockRecommendedVideos()`. */
  function MockRecommended(): (r: seq<VideoData>)
    ensures |r| == 4
  {
    [ MockVideo("BV1GJ411x7h7", "【4K】Bilibili官方宣传片",
                "Bilibili 2024年度宣传片，记录UP主们的精彩瞬间",
                "5a3c2d1e4f5a6b7c8d9e0f1a2b3c4d5e6", "04:35", 1250000, "Bilibili官方", true),
      MockVideo("BV1GJ411x7h8", "【1080P】2024年热门科技产品盘点",
                "这一年都有哪些黑科技产品改变了我们的生活",
                "6e1c2d3e4f5a6b7c8d9e0f1a2b3c4d5e7", "12:28", 890000, "科技UP主", false),
      MockVideo("BV1GJ411x7h9", "【4K】绝美自然风光·阿尔卑斯山脉",
                "航拍阿尔卑斯山脉的壮丽景色",
                "7e1c2d3e4f5a6b7c8d9e0f1a2b3c4d5e8", "08:15", 1560000, "旅游UP主", true),
      MockVideo("BV1GJ411x7hA", "【1080P】轻松学编程系列 - 第一期",
                "零基础入门编程，从HelloWorld开始",
                "8e1c2d3e4f5a6b7c8d9e0f1a2b3c4d5e9", "15:42", 234000, "编程老师", false) ]
  }

  /** `getMock4KVideos()`. */
  function Mock4K(): (r: seq<VideoData>)
    ensures |r| == 4
  {
    [ MockVideo("BV1GJ411x7hB", "【4K HDR】城市夜景延时摄影",
                "上海、北京、深圳等大城市的璀璨夜景",
                "9e1c2d3e4f5a6b7c8d9e0f1a2b3c4d5ea", "10:22", 890000, "摄影UP主", true),
      MockVideo("BV1GJ411x7hC", "【4K】野生动物纪录片片段",
                "非洲大草原上的动物生活",
                "ae1c2d3e4f5a6b7c8d9e0f1a2b3c4d5eb", "25:18", 1200000, "纪录片频道", true),
      MockVideo("BV1GJ411x7hD", "【4K】美食制作 - 米其林餐厅",
                "顶级厨师的精湛厨艺展示",
                "be1c2d3e4f5a6b7c8d9e0f1a2b3c4d5ec", "18:35", 567000, "美食UP主", true),
      MockVideo("BV1GJ411x7hE", "【4K】音乐现场演出",
                "顶级交响乐团的精彩演出",
                "ce1c2d3e4f5a6b7c8d9e0f1a2b3c4d5ed", "45:12", 789000, "音乐频道", true) ]
  }

  /** `getMockLiveStreams()`. */
  function MockLiveStreams(): (r: seq<VideoData>)
    ensures |r| == 4
  {
    [ MockLive("22477958", "游戏大作战", "正在直播：热门游戏最新版本",
               "de1c2d3e4f5a6b7c8d9e0f1a2b3c4d5ee", 12500, "游戏主播", "游戏"),
      MockLive("22477959", "音乐教学", "正在直播：吉他入门教学",
               "ee1c2d3e4f5a6b7c8d9e0f1a2b3c4d5ef", 8900, "音乐老师", "音乐"),
      MockLive("22477960", "编程直播", "正在直播：开发一款Android应用",
               "fe1c2d3e4f5a6b7c8d9e0f1a2b3c4d5f0", 6700, "程序员", "编程"),
      MockLive("22477961", "美食制作", "正在直播：制作家常菜",
               "0f1c2d3e4f5a6b7c8d9e0f1a2b3c4d5f1", 15200, "美食主播", "美食") ]
  }

  /** `getMockPopularVideos()`. */
  function MockPopular(): (r: seq<VideoData>)
    ensures |r| == 4
  {
    [ MockVideo("BV1GJ411x7hF", "【1080P】搞笑视频合集2024",
                "年度最佳搞笑视频精选",
                "1f1c2d3e4f5a6b7c8d9e0f1a2b3c4d5f2", "20:15", 5670000, "搞笑UP主", false),
      MockVideo("BV1GJ411x7hG", "【4K】电影解说 - 经典科幻片",
                "深度解析经典科幻电影",
                "2f1c2d3e4f5a6b7c8d9e0f1a2b3c4d5f3", "35:28", 3400000, "电影解说", true),
      MockVideo("BV1GJ411x7hH", "【1080P】健身教程 - 腹肌训练",
                "专业教练带你练出完美腹肌",
                "3f1c2d3e4f5a6b7c8d9e0f1a2b3c4d5f4", "25:10", 1200000, "健身教练", false),
      MockVideo("BV1GJ411x7hI", "【4K】旅游攻略 - 日本深度游",
                "带你深度游览日本各地",
                "4f1c2d3e4f5a6b7c8d9e0f1a2b3c4d5f5", "55:35", 890000, "旅游UP主", true) ]
  }

  /** The twelve bvids the mock lookup answers, in list order. */
  const MOCK_BVIDS: seq<string> := [
    "BV1GJ411x7h7", "BV1GJ411x7h8", "BV1GJ411x7h9", "BV1GJ411x7hA",
    "BV1GJ411x7hB", "BV1GJ411x7hC", "BV1GJ411x7hD", "BV1GJ411x7hE",
    "BV1GJ411x7hF", "BV1GJ411x7hG", "BV1GJ411x7hH", "BV1GJ411x7hI"]

  /** The four room ids the mock lookup answers. */
  const MOCK_ROOM_IDS: seq<string> := ["22477958", "22477959", "22477960", "22477961"]

  /** The twelve bvids are distinct, so the lookup's branches do not overlap. */
  lemma MockBvidsDistinct()
    ensures |MOCK_BVIDS| == 12
    ensures forall i, j :: 0 <= i < j < |MOCK_BVIDS| ==> MOCK_BVIDS[i] != MOCK_BVIDS[j]
  {
  }

  /** The mock recommended list: the first four bvids, in order. The quality
      label alternates "4K", "1080P" with the `is4K` arguments, while
      `is4K()` itself is false throughout (the `set4K` call does nothing). */
  lemma MockRecommendedShape()
    ensures |MockRecommended()| == 4
    ensures forall i :: 0 <= i < 4 ==>
      && MockRecommended()[i].id == NonNull(MOCK_BVIDS[i])
      && !MockRecommended()[i].is4K && !MockRecommended()[i].isLiveStream
      && (MockRecommended()[i].quality == NonNull(Q4K) <==> i % 2 == 0)
  {
  }

  /** The mock 4K list: the next four bvids, all labelled "4K", none with
      `is4K()` true. */
  lemma Mock4KShape()
    ensures |Mock4K()| == 4
    ensures forall i :: 0 <= i < 4 ==>
      && Mock4K()[i].id == NonNull(MOCK_BVIDS[4 + i])
      && Mock4K()[i].quality == NonNull(Q4K)
      && !Mock4K()[i].is4K && !Mock4K()[i].isLiveStream
  {
  }

  /** The mock popular list: the last four bvids, labelled "1080P", "4K",
      "1080P", "4K". */
  lemma MockPopularShape()
    ensures |MockPopular()| == 4
    ensures forall i :: 0 <= i < 4 ==>
      && MockPopular()[i].id == NonNull(MOCK_BVIDS[8 + i])
      && !MockPopular()[i].is4K && !MockPopular()[i].isLiveStream
      && (MockPopular()[i].quality == NonNull(Q4K) <==> i % 2 == 1)
  {
  }

  /** The mock live list: the four rooms, each a live record whose player and
      comment URLs are the room's page. */
  lemma MockLiveShape()
    ensures |MockLiveStreams()| == 4
    ensures forall i :: 0 <= i < 4 ==>
      && MockLiveStreams()[i].id == NonNull(MOCK_ROOM_IDS[i])
      && MockLiveStreams()[i].isLiveStream
      && MockLiveStreams()[i].quality == NonNull(LIVE)
      && MockLiveStreams()[i].videoUrl == NonNull(ApiClient.LIVE_ROOM_PREFIX + MOCK_ROOM_IDS[i])
      && MockLiveStreams()[i].danmakuUrl == MockLiveStreams()[i].videoUrl
  {
  }

  /** The four mock lists the factory falls back to. The getters take them
      as a parameter; the factory's own are `BuiltInMocks()`. */
  datatype MockData = MockData(
    recommended: seq<VideoData>,
    fourK: seq<VideoData>,
    live: seq<VideoData>,
    popular: seq<VideoData>)

  function BuiltInMocks(): MockData {
    MockData(MockRecommended(), Mock4K(), MockLiveStreams(), MockPopular())
  }

  /** Each mock list has the four entries the lookups index. */
  predicate MocksSized(m: MockData) {
    |m.recommended| == 4 && |m.fourK| == 4 && |m.live| == 4 && |m.popular| == 4
  }

  lemma BuiltInMocksSized()
    ensures MocksSized(BuiltInMocks())
  {
  }

  /** The three video lists `getMockVideoInfo` indexes, in bvid order. */
  function MockVideoTable(m: MockData): seq<VideoData> {
    m.recommended + m.fourK + m.popular
  }

  /** `getMockVideoInfo(bvid)`: the i-th mock bvid is answered with the i-th
      entry of the recommended, 4K and popular lists taken in turn; any other
      bvid with null; a null query throws a NullPointerException. */
  function MockVideoInfo(m: MockData, bvid: Nullable<string>): (r: Try<Nullable<VideoData>>)
    requires MocksSized(m)
    ensures bvid.Null? <==> r.Thrown?
    ensures r.Ok? ==> (r.value.NonNull? <==> bvid.value in MOCK_BVIDS)
    ensures forall i :: 0 <= i < |MOCK_BVIDS| && bvid == NonNull(MOCK_BVIDS[i]) ==>
      r == Ok(NonNull(MockVideoTable(m)[i]))
  {
    match bvid
    case Null => Thrown
    case NonNull(q) =>
      if q == "BV1GJ411x7h7" then Ok(NonNull(m.recommended[0]))
      else if q == "BV1GJ411x7h8" then Ok(NonNull(m.recommended[1]))
      else if q == "BV1GJ411x7h9" then Ok(NonNull(m.recommended[2]))
      else if q == "BV1GJ411x7hA" then Ok(NonNull(m.recommended[3]))
      else if q == "BV1GJ411x7hB" then Ok(NonNull(m.fourK[0]))
      else if q == "BV1GJ411x7hC" then Ok(NonNull(m.fourK[1]))
      else if q == "BV1GJ411x7hD" then Ok(NonNull(m.fourK[2]))
      else if q == "BV1GJ411x7hE" then Ok(NonNull(m.fourK[3]))
      else if q == "BV1GJ411x7hF" then Ok(NonNull(m.popular[0]))
      else if q == "BV1GJ411x7hG" then Ok(NonNull(m.popular[1]))
      else if q == "BV1GJ411x7hH" then Ok(NonNull(m.popular[2]))
      else if q == "BV1GJ411x7hI" then Ok(NonNull(m.popular[3]))
      else Ok(Null)
  }

  /** `getMockLiveRoomInfo(roomId)`: the i-th mock room id is answered with
      the i-th mock live record, any other id with null, a null query with a
      NullPointerException. */
  function MockLiveRoomInfo(m: MockData, roomId: Nullable<string>): (r: Try<Nullable<VideoData>>)
    requires MocksSized(m)
    ensures roomId.Null? <==> r.Thrown?
    ensures r.Ok? ==> (r.value.NonNull? <==> roomId.value in MOCK_ROOM_IDS)
    ensures forall i :: 0 <= i < |MOCK_ROOM_IDS| && roomId == NonNull(MOCK_ROOM_IDS[i]) ==>
      r == Ok(NonNull(m.live[i]))
  {
    match roomId
    case Null => Thrown
    case NonNull(q) =>
      if q == "22477958" then Ok(NonNull(m.live[0]))
      else if q == "22477959" then Ok(NonNull(m.live[1]))
      else if q == "22477960" then Ok(NonNull(m.live[2]))
      else if q == "22477961" then Ok(NonNull(m.live[3]))
      else Ok(Null)
  }

  /** With the built-in recommended list, the mock lookup of each of its
      bvids returns a record carrying that bvid (and likewise below for the
      4K, popular and live lists). */
  lemma MockVideoInfoFindsRecommended(m: MockData, i: nat)
    requires MocksSized(m) && m.recommended == MockRecommended() && i < 4
    ensures MockVideoInfo(m, NonNull(MOCK_BVIDS[i])) == Ok(NonNull(m.recommended[i]))
    ensures m.recommended[i].id == NonNull(MOCK_BVIDS[i])
  {
    MockRecommendedShape();
    assert MockVideoTable(m)[i] == m.recommended[i];
  }

  lemma MockVideoInfoFinds4K(m: MockData, i: nat)
    requires MocksSized(m) && m.fourK == Mock4K() && i < 4
    ensures MockVideoInfo(m, NonNull(MOCK_BVIDS[4 + i])) == Ok(NonNull(m.fourK[i]))
    ensures m.fourK[i].id == NonNull(MOCK_BVIDS[4 + i])
  {
    Mock4KShape();
    assert MockVideoTable(m)[4 + i] == m.fourK[i];
  }

  lemma MockVideoInfoFindsPopular(m: MockData, i: nat)
    requires MocksSized(m) && m.popular == MockPopular() && i < 4
    ensures MockVideoInfo(m, NonNull(MOCK_BVIDS[8 + i])) == Ok(NonNull(m.popular[i]))
    ensures m.popular[i].id == NonNull(MOCK_BVIDS[8 + i])
  {
    MockPopularShape();
    assert MockVideoTable(m)[8 + i] == m.popular[i];
  }

  lemma MockLiveRoomInfoFindsRoom(m: MockData, i: nat)
    requires MocksSized(m) && m.live == MockLiveStreams() && i < 4
    ensures MockLiveRoomInfo(m, NonNull(MOCK_ROOM_IDS[i])) == Ok(NonNull(m.live[i]))
    ensures m.live[i].id == NonNull(MOCK_ROOM_IDS[i]) && m.live[i].isLiveStream
  {
    MockLiveShape();
  }

  // ---------------------------------------------------------------------
  // The list getters
  // ---------------------------------------------------------------------

  /** The shared shape of `getRecommendedVideos`, `getLiveStreams` and
      `getPopularVideos`: mock mode returns the mock list; a filled cache is
      returned as is; otherwise the client is asked, an empty answer is
      replaced by the mock list, and the result is cached. */
  function GetCached(f: Factory, c: Category, fetched: seq<VideoData>, mock: seq<VideoData>): (r: Got<seq<VideoData>>)
    requires c != FourKVideos
    ensures f.useMockData ==> r == Got(f, mock)
    ensures !f.useMockData && Cache(f, c).NonNull? ==> r == Got(f, Cache(f, c).value)
    ensures !f.useMockData && Cache(f, c).Null? ==>
      && r.result == (if |fetched| == 0 then mock else fetched)
      && Cache(r.next, c) == NonNull(r.result)
      && r.next.clientReady
    ensures r.next.useMockData == f.useMockData
    ensures forall d :: d != c ==> Cache(r.next, d) == Cache(f, d)
    ensures CachesNonEmpty(f) && |mock| > 0 ==> CachesNonEmpty(r.next) && |r.result| > 0
  {
    if f.useMockData then Got(f, mock)
    else if Cache(f, c).NonNull? then Got(f, Cache(f, c).value)
    else
      var f1 := Init(f);
      var videos := if |fetched| == 0 then mock else fetched;
      Got(WithCache(f1, c, videos), videos)
  }

  /** `getRecommendedVideos()`. */
  function GetRecommendedVideos(f: Factory, m: MockData, fetched: seq<VideoData>): (r: Got<seq<VideoData>>)
    ensures f.useMockData ==> r == Got(f, m.recommended)
    ensures !f.useMockData && f.cachedRecommended.NonNull? ==> r == Got(f, f.cachedRecommended.value)
    ensures !f.useMockData ==> r.next.cachedRecommended == NonNull(r.result)
    ensures !f.useMockData && f.cachedRecommended.Null? ==>
      r.result == (if |fetched| == 0 then m.recommended else fetched) && r.next.clientReady
    ensures r.next.useMockData == f.useMockData
    ensures r.next.cached4K == f.cached4K && r.next.cachedLive == f.cachedLive
    ensures r.next.cachedPopular == f.cachedPopular
    ensures CachesNonEmpty(f) && |m.recommended| > 0 ==> CachesNonEmpty(r.next) && |r.result| > 0
  {
    GetCached(f, Recommended, fetched, m.recommended)
  }

  /** `getLiveStreams()`. */
  function GetLiveStreams(f: Factory, m: MockData, fetched: seq<VideoData>): (r: Got<seq<VideoData>>)
    ensures f.useMockData ==> r == Got(f, m.live)
    ensures !f.useMockData && f.cachedLive.NonNull? ==> r == Got(f, f.cachedLive.value)
    ensures !f.useMockData ==> r.next.cachedLive == NonNull(r.result)
    ensures !f.useMockData && f.cachedLive.Null? ==>
      r.result == (if |fetched| == 0 then m.live else fetched) && r.next.clientReady
    ensures r.next.useMockData == f.useMockData
    ensures r.next.cachedRecommended == f.cachedRecommended && r.next.cached4K == f.cached4K
    ensures r.next.cachedPopular == f.cachedPopular
    ensures CachesNonEmpty(f) && |m.live| > 0 ==> CachesNonEmpty(r.next) && |r.result| > 0
  {
    GetCached(f, LiveStreams, fetched, m.live)
  }

  /** `getPopularVideos()`. */
  function GetPopularVideos(f: Factory, m: MockData, fetched: seq<VideoData>): (r: Got<seq<VideoData>>)
    ensures f.useMockData ==> r == Got(f, m.popular)
    ensures !f.useMockData && f.cachedPopular.NonNull? ==> r == Got(f, f.cachedPopular.value)
    ensures !f.useMockData ==> r.next.cachedPopular == NonNull(r.result)
    ensures !f.useMockData && f.cachedPopular.Null? ==>
      r.result == (if |fetched| == 0 then m.popular else fetched) && r.next.clientReady
    ensures r.next.useMockData == f.useMockData
    ensures r.next.cachedRecommended == f.cachedRecommended && r.next.cached4K == f.cached4K
    ensures r.next.cachedLive == f.cachedLive
    ensures CachesNonEmpty(f) && |m.popular| > 0 ==> CachesNonEmpty(r.next) && |r.result| > 0
  {
    GetCached(f, Popular, fetched, m.popular)
  }

  /** The elements of a list whose `is4K()` is true, in order. */
  function Filter4K(s: seq<VideoData>): (r: seq<VideoData>)
    ensures |r| <= |s|
    ensures forall v :: v in r <==> v in s && v.is4K
  {
    if |s| == 0 then []
    else (if s[0].is4K then [s[0]] else []) + Filter4K(s[1..])
  }

  /** Filtering commutes with concatenation, so the filter keeps order. */
  lemma {:induction false} Filter4KAppend(a: seq<VideoData>, b: seq<VideoData>)
    ensures Filter4K(a + b) == Filter4K(a) + Filter4K(b)
    decreases |a|
  {
    if |a| == 0 {
      assert a + b == b;
    } else {
      assert (a + b)[0] == a[0];
      assert (a + b)[1..] == a[1..] + b;
      Filter4KAppend(a[1..], b);
    }
  }

  /** `get4KVideos()`: the 4K entries of the recommended list (filling that
      cache on the way), or the mock 4K list when there are none. */
  function Get4KVideos(f: Factory, m: MockData, fetchedRecommended: seq<VideoData>): (r: Got<seq<VideoData>>)
    ensures f.useMockData ==> r == Got(f, m.fourK)
    ensures !f.useMockData && f.cached4K.NonNull? ==> r == Got(f, f.cached4K.value)
    ensures !f.useMockData && f.cached4K.Null? ==>
      var recommended := GetRecommendedVideos(f, m, fetchedRecommended).result;
      && r.next.cachedRecommended == NonNull(recommended)
      && r.next.cached4K == NonNull(r.result)
      && r.next == WithCache(GetRecommendedVideos(f, m, fetchedRecommended).next, FourKVideos, r.result)
      && (f.cachedRecommended.Null? ==> r.next.clientReady)
      && (|Filter4K(recommended)| > 0 ==> r.result == Filter4K(recommended))
      && (|Filter4K(recommended)| == 0 ==> r.result == m.fourK)
      && ((forall v :: v in recommended ==> !v.is4K) ==> r.result == m.fourK)
    ensures r.next.cachedLive == f.cachedLive && r.next.cachedPopular == f.cachedPopular
    ensures r.next.useMockData == f.useMockData
    ensures CachesNonEmpty(f) && |m.recommended| > 0 && |m.fourK| > 0 ==>
      CachesNonEmpty(r.next) && |r.result| > 0
  {
    if f.useMockData then Got(f, m.fourK)
    else if f.cached4K.NonNull? then
      assert Cache(f, FourKVideos) == f.cached4K;
      Got(f, f.cached4K.value)
    else
      var g := GetRecommendedVideos(f, m, fetchedRecommended);
      var filtered := Filter4K(g.result);
      var videos := if |filtered| == 0 then m.fourK else filtered;
      assert (forall v :: v in g.result ==> !v.is4K) ==> |filtered| == 0 by {
        if |filtered| > 0 {
          assert filtered[0] in filtered;
        }
      }
      Got(WithCache(g.next, FourKVideos, videos), videos)
  }

  // ---------------------------------------------------------------------
  // The single-record getters
  // ---------------------------------------------------------------------

  /** Neither cache nor mode is touched. */
  predicate SameCaches(a: Factory, b: Factory) {
    a.useMockData == b.useMockData && forall c :: Cache(a, c) == Cache(b, c)
  }

  /** `getVideoInfo(bvid)`: never cached; in mock mode, or when the client
      returns null, the mock lookup answers. */
  function GetVideoInfo(f: Factory, m: MockData, bvid: Nullable<string>, fetched: Nullable<VideoData>): (r: Got<Try<Nullable<VideoData>>>)
    requires MocksSized(m)
    ensures SameCaches(r.next, f)
    ensures f.useMockData ==> r == Got(f, MockVideoInfo(m, bvid))
    ensures !f.useMockData ==> r.next.clientReady
    ensures !f.useMockData && fetched.NonNull? ==> r.result == Ok(fetched)
    ensures !f.useMockData && fetched.Null? ==> r.result == MockVideoInfo(m, bvid)
  {
    if f.useMockData then Got(f, MockVideoInfo(m, bvid))
    else
      var f1 := Init(f);
      if fetched.NonNull? then Got(f1, Ok(fetched)) else Got(f1, MockVideoInfo(m, bvid))
  }

  /** `getLiveRoomInfo(roomId)`: as `getVideoInfo`, with the room lookup. */
  function GetLiveRoomInfo(f: Factory, m: MockData, roomId: Nullable<string>, fetched: Nullable<VideoData>): (r: Got<Try<Nullable<VideoData>>>)
    requires MocksSized(m)
    ensures SameCaches(r.next, f)
    ensures f.useMockData ==> r == Got(f, MockLiveRoomInfo(m, roomId))
    ensures !f.useMockData ==> r.next.clientReady
    ensures !f.useMockData && fetched.NonNull? ==> r.result == Ok(fetched)
    ensures !f.useMockData && fetched.Null? ==> r.result == MockLiveRoomInfo(m, roomId)
  {
    if f.useMockData then Got(f, MockLiveRoomInfo(m, roomId))
    else
      var f1 := Init(f);
      if fetched.NonNull? then Got(f1, Ok(fetched)) else Got(f1, MockLiveRoomInfo(m, roomId))
  }

  // ---------------------------------------------------------------------
  // Properties across calls
  // ---------------------------------------------------------------------

  /** Once a list is cached, asking again returns the same list and state,
      whatever the API would say now. */
  lemma CachedGetterIsIdempotent(f: Factory, c: Category, mock: seq<VideoData>,
                                 first: seq<VideoData>, later: seq<VideoData>)
    requires c != FourKVideos && !f.useMockData
    ensures var g := GetCached(f, c, first, mock);
      GetCached(g.next, c, later, mock) == Got(g.next, g.result)
  {
  }

  /** The three public list getters inherit that: once `getRecommendedVideos`,
      `getLiveStreams` or `getPopularVideos` has answered, asking again
      returns the same list and changes nothing. */
  lemma ListGettersAreIdempotent(f: Factory, m: MockData, first: seq<VideoData>, later: seq<VideoData>)
    ensures var g := GetRecommendedVideos(f, m, first);
      GetRecommendedVideos(g.next, m, later) == Got(g.next, g.result)
    ensures var g := GetLiveStreams(f, m, first);
      GetLiveStreams(g.next, m, later) == Got(g.next, g.result)
    ensures var g := GetPopularVideos(f, m, first);
      GetPopularVideos(g.next, m, later) == Got(g.next, g.result)
  {
  }

  /** `get4KVideos()` caches too: a second call ignores the API. */
  lemma FourKGetterIsIdempotent(f: Factory, m: MockData, first: seq<VideoData>, later: seq<VideoData>)
    requires !f.useMockData
    ensures var g := Get4KVideos(f, m, first);
      Get4KVideos(g.next, m, later) == Got(g.next, g.result)
  {
  }

  /** After `clearCache()` the API is asked again and a non-empty answer is
      what the getter returns. */
  lemma ClearCacheRefetches(f: Factory, c: Category, mock: seq<VideoData>, fetched: seq<VideoData>)
    requires c != FourKVideos && !f.useMockData && |fetched| > 0
    ensures GetCached(ClearCache(f), c, fetched, mock).result == fetched
  {
  }

  /** When no recommended record has `is4K()` true (and no record the app
      builds does: see Video.OnlyConstructorSets4K), the 4K row is the mock
      4K list. */
  lemma FourKRowFallsBackToMock(f: Factory, m: MockData, fetched: seq<VideoData>)
    requires !f.useMockData && f.cached4K.Null? && f.cachedRecommended.Null?
    requires forall i :: 0 <= i < |fetched| ==> !fetched[i].is4K
    requires forall i :: 0 <= i < |m.recommended| ==> !m.recommended[i].is4K
    ensures Get4KVideos(f, m, fetched).result == m.fourK
  {
    var recommended := GetRecommendedVideos(f, m, fetched).result;
    assert forall v :: v in recommended ==> !v.is4K;
  }

  /** The built-in recommended list qualifies: every entry has `is4K()`
      false, so with the built-in data the 4K row is never taken from it. */
  lemma BuiltInRecommendedHasNo4K()
    ensures forall i :: 0 <= i < |MockRecommended()| ==> !MockRecommended()[i].is4K
  {
    MockRecommendedShape();
  }

  /** The client's recommended list comes from `parsePopularVideoList`,
      whose records never have `is4K()` true; so with a mock recommended list
      like the built-in one, a fresh 4K row is the mock 4K list whatever the
      API answers. */
  lemma FourKRowFromApiIsMock(f: Factory, m: MockData, response: Json.Json)
    requires !f.useMockData && f.cached4K.Null? && f.cachedRecommended.Null?
    requires forall i :: 0 <= i < |m.recommended| ==> !m.recommended[i].is4K
    ensures Get4KVideos(f, m, ApiClient.ParsePopularVideoList(response)).result == m.fourK
  {
    var fetched := ApiClient.ParsePopularVideoList(response);
    assert forall i :: 0 <= i < |fetched| ==> !fetched[i].is4K by {
      forall i | 0 <= i < |fetched| ensures !fetched[i].is4K {
        assert fetched[i] in fetched;
      }
    }
    FourKRowFallsBackToMock(f, m, fetched);
  }

  /** A call on the factory, with what the API would answer to it. */
  datatype FactoryCall =
    | CallInit
    | CallSetUseMockData(b: bool)
    | CallRecommended(fetched: seq<VideoData>)
    | Call4K(fetched: seq<VideoData>)
    | CallLive(fetched: seq<VideoData>)
    | CallPopular(fetched: seq<VideoData>)
    | CallVideoInfo(bvid: Nullable<string>, info: Nullable<VideoData>)
    | CallLiveRoomInfo(roomId: Nullable<string>, info: Nullable<VideoData>)
    | CallClearCache

  /** The state after one call. */
  function Step(f: Factory, m: MockData, call: FactoryCall): Factory
    requires MocksSized(m)
  {
    match call
    case CallInit => Init(f)
    case CallSetUseMockData(b) => SetUseMockData(f, b)
    case CallRecommended(fetched) => GetRecommendedVideos(f, m, fetched).next
    case Call4K(fetched) => Get4KVideos(f, m, fetched).next
    case CallLive(fetched) => GetLiveStreams(f, m, fetched).next
    case CallPopular(fetched) => GetPopularVideos(f, m, fetched).next
    case CallVideoInfo(bvid, info) => GetVideoInfo(f, m, bvid, info).next
    case CallLiveRoomInfo(roomId, info) => GetLiveRoomInfo(f, m, roomId, info).next
    case CallClearCache => ClearCache(f)
  }

  /** The state after a sequence of calls. */
  function Run(f: Factory, m: MockData, calls: seq<FactoryCall>): Factory
    requires MocksSized(m)
    decreases |calls|
  {
    if |calls| == 0 then f else Run(Step(f, m, calls[0]), m, calls[1..])
  }

  /** No call ever caches an empty list. */
  lemma StepKeepsCachesNonEmpty(f: Factory, m: MockData, call: FactoryCall)
    requires MocksSized(m) && CachesNonEmpty(f)
    ensures CachesNonEmpty(Step(f, m, call))
  {
  }

  lemma {:induction false} RunKeepsCachesNonEmpty(f: Factory, m: MockData, calls: seq<FactoryCall>)
    requires MocksSized(m) && CachesNonEmpty(f)
    ensures CachesNonEmpty(Run(f, m, calls))
    decreases |calls|
  {
    if |calls| > 0 {
      StepKeepsCachesNonEmpty(f, m, calls[0]);
      RunKeepsCachesNonEmpty(Step(f, m, calls[0]), m, calls[1..]);
    }
  }

  /** Whatever calls came before, from the initial state every list getter
      answers with a non-empty list: the browse rows are never empty. */
  lemma {:induction false} ListGettersNeverEmpty(m: MockData, calls: seq<FactoryCall>, fetched: seq<VideoData>)
    requires MocksSized(m)
    ensures var f := Run(Initial(), m, calls);
      && |GetRecommendedVideos(f, m, fetched).result| > 0
      && |Get4KVideos(f, m, fetched).result| > 0
      && |GetLiveStreams(f, m, fetched).result| > 0
      && |GetPopularVideos(f, m, fetched).result| > 0
  {
    RunKeepsCachesNonEmpty(Initial(), m, calls);
  }
}
