/**
  The parsing half of the platform API client (BilibiliApiClient.java): from
  the JSON tree of a response to catalogue records. HTTP is not modelled;
  every function starts from the tree Gson produced.

  The Java parsers wrap their work in try/catch. Inside a parser a failed
  read is `Thrown`; at the parser's boundary that becomes `null` (single
  records) or the list built so far (list responses).
 */
module ApiClient {
  import opened JavaLang
  import opened Json
  import opened Video

  const VIDEO_PAGE_PREFIX: string := "https://www.bilibili.com/video/"
  const COMMENT_PREFIX: string := "https://comment.bilibili.com/"
  const COMMENT_SUFFIX: string := ".xml"
  const LIVE_ROOM_PREFIX: string := "https://live.bilibili.com/"

  // ---------------------------------------------------------------------
  // formatDuration
  // ---------------------------------------------------------------------

  /** `formatDuration`: seconds as `MM:SS` (minutes are not capped at 99),
      and "00:00" for anything not positive. */
  function FormatDuration(seconds: int): (r: string)
    ensures seconds <= 0 ==> r == "00:00"
    ensures 5 <= |r| && r[|r| - 3] == ':'
    ensures AllDigits(r[..|r| - 3]) && AllDigits(r[|r| - 2..])
    ensures seconds < 6000 <==> |r| == 5
    ensures r[0] == '0' <==> seconds < 600
  {
    if seconds <= 0 then "00:00"
    else
      var m := Pad2(seconds / 60);
      var s := Pad2(seconds % 60);
      var r := m + ":" + s;
      assert r[..|r| - 3] == m && r[|r| - 2..] == s;
      r
  }

  /** Reads an `MM:SS` text back into seconds: the inverse of FormatDuration. */
  function ParseDuration(t: string): Nullable<int> {
    if |t| >= 5 && t[|t| - 3] == ':' && AllDigits(t[..|t| - 3]) && AllDigits(t[|t| - 2..]) then
      var total: int := ParseNat(t[..|t| - 3]) * 60 + ParseNat(t[|t| - 2..]);
      NonNull(total)
    else Null
  }

  /** The minutes field holds `seconds / 60`, the seconds field holds
      `seconds % 60` (always below 60), and reading both back recovers the
      duration exactly. */
  lemma FormatDurationRoundTrip(seconds: int)
    requires seconds >= 0
    ensures var r := FormatDuration(seconds);
      && ParseNat(r[..|r| - 3]) == seconds / 60
      && ParseNat(r[|r| - 2..]) == seconds % 60 < 60
      && ParseDuration(r) == NonNull(seconds)
  {
    var minutes, secs := seconds / 60, seconds % 60;
    var m, s := Pad2(minutes), Pad2(secs);
    var r := FormatDuration(seconds);
    assert r == m + ":" + s by {
      if seconds == 0 {
        assert m == "00" && s == "00";
      }
    }
    assert |s| == 2;
    assert r[..|r| - 3] == m;
    assert r[|r| - 2..] == s;
    Pad2RoundTrip(minutes);
    Pad2RoundTrip(secs);
    assert minutes * 60 + secs == seconds;
  }

  // ---------------------------------------------------------------------
  // parseVideoData
  // ---------------------------------------------------------------------

  datatype Stat = Stat(view: int, danmaku: int, like: int, coin: int, favorite: int)

  /** The `stat` block, all five counters required once the block is there. */
  function ReadStat(o: Nullable<JsonObject>): (r: Try<Nullable<Stat>>)
    ensures o.Null? ==> r == Ok(Null)
    ensures o.NonNull? ==>
      var st := o.value;
      && (r.Ok? <==> HasInt(st, "view") && HasInt(st, "danmaku") && HasInt(st, "like")
                     && HasInt(st, "coin") && HasInt(st, "favorite"))
      && (r.Ok? ==> r.value == NonNull(Stat(IntAt(st, "view"), IntAt(st, "danmaku"),
                     IntAt(st, "like"), IntAt(st, "coin"), IntAt(st, "favorite"))))
  {
    match o
    case Null => Ok(Null)
    case NonNull(st) =>
      var view :- GetAsInt(st, "view");
      var danmaku :- GetAsInt(st, "danmaku");
      var like :- GetAsInt(st, "like");
      var coin :- GetAsInt(st, "coin");
      var favorite :- GetAsInt(st, "favorite");
      Ok(NonNull(Stat(view, danmaku, like, coin, favorite)))
  }

  /** The `owner` block's `name`, required once the block is there. */
  function ReadOwnerName(o: Nullable<JsonObject>): (r: Try<Str>)
    ensures o.Null? ==> r == Ok(Null)
    ensures o.NonNull? ==> (r.Ok? <==> HasStr(o.value, "name"))
    ensures o.NonNull? && r.Ok? ==> r.value == NonNull(StrAt(o.value, "name"))
  {
    match o
    case Null => Ok(Null)
    case NonNull(ow) =>
      var name :- GetAsString(ow, "name");
      Ok(NonNull(name))
  }

  function VideoPageUrl(id: string): string {
    VIDEO_PAGE_PREFIX + id
  }

  function CommentUrl(id: string): string {
    COMMENT_PREFIX + id + COMMENT_SUFFIX
  }

  function LiveRoomUrl(id: string): string {
    LIVE_ROOM_PREFIX + id
  }

  /** The five members every video entry starts with. */
  datatype VideoHead = VideoHead(bvid: string, aid: int, title: string, desc: string, pic: string)

  /** The first reads of `parseVideoData`: `bvid`, `aid` as a long, `title`,
      `desc` and `pic`. */
  function ReadVideoHead(item: JsonObject): (r: Try<VideoHead>)
    ensures r.Ok? <==> HasStr(item, "bvid") && HasLong(item, "aid") && HasStr(item, "title")
                       && HasStr(item, "desc") && HasStr(item, "pic")
    ensures r.Ok? ==> r.value == VideoHead(StrAt(item, "bvid"), LongAt(item, "aid"),
                                           StrAt(item, "title"), StrAt(item, "desc"), StrAt(item, "pic"))
  {
    var bvid :- GetAsString(item, "bvid");
    var aid :- GetAsLong(item, "aid");
    var title :- GetAsString(item, "title");
    var desc :- GetAsString(item, "desc");
    var pic :- GetAsString(item, "pic");
    Ok(VideoHead(bvid, aid, title, desc, pic))
  }

  /** The `stat` member: absent, or an object with all five counters
      readable as ints, which is exactly when its reads succeed. */
  predicate OptionalStat(item: JsonObject)
    ensures OptionalStat(item) <==>
      GetAsJsonObject(item, "stat").Ok? && ReadStat(GetAsJsonObject(item, "stat").value).Ok?
  {
    "stat" in item ==>
      && item["stat"].JObj?
      && var st := item["stat"].fields;
      HasInt(st, "view") && HasInt(st, "danmaku") && HasInt(st, "like")
      && HasInt(st, "coin") && HasInt(st, "favorite")
  }

  /** The `owner` member: absent, or an object with a readable `name`,
      which is exactly when its reads succeed. */
  predicate OptionalOwner(item: JsonObject)
    ensures OptionalOwner(item) <==>
      GetAsJsonObject(item, "owner").Ok? && ReadOwnerName(GetAsJsonObject(item, "owner").value).Ok?
  {
    "owner" in item ==> item["owner"].JObj? && HasStr(item["owner"].fields, "name")
  }

  /** The optional scalar members of a video entry: each absent, or
      present (even as JSON null) and readable at its type. */
  predicate OptionalScalars(item: JsonObject) {
    && ("tid" in item ==> HasInt(item, "tid"))
    && ("tname" in item ==> HasStr(item, "tname"))
    && ("pubdate" in item ==> HasLong(item, "pubdate"))
  }

  /** When a video entry parses: six required members, and every optional
      member that is present readable at its type. */
  predicate VideoItemReadable(item: JsonObject) {
    && HasStr(item, "bvid") && HasLong(item, "aid") && HasStr(item, "title")
    && HasStr(item, "desc") && HasStr(item, "pic") && HasInt(item, "duration")
    && OptionalScalars(item) && OptionalStat(item) && OptionalOwner(item)
  }

  /** The five counters come from the `stat` block when it is there, and
      are 0 otherwise. */
  predicate StatCounters(item: JsonObject, v: VideoData)
    requires OptionalStat(item)
  {
    if "stat" in item then
      var st := item["stat"].fields;
      && v.viewCount == IntAt(st, "view") && v.danmakuCount == IntAt(st, "danmaku")
      && v.likeCount == IntAt(st, "like") && v.coinCount == IntAt(st, "coin")
      && v.favoriteCount == IntAt(st, "favorite")
    else
      && v.viewCount == 0 && v.danmakuCount == 0 && v.likeCount == 0
      && v.coinCount == 0 && v.favoriteCount == 0
  }

  /** The record `parseVideoData` builds from a readable entry, field by
      field: what the head, `tid`, `tname`, `pubdate`, `duration`, `stat`
      and `owner` members give, the URLs derived from the bvid, and null or
      0 in every field the parser never sets. */
  predicate IsVideoRecord(item: JsonObject, v: VideoData)
    requires VideoItemReadable(item)
  {
    var bvid := StrAt(item, "bvid");
    && v.id == NonNull(bvid) && v.bvid == NonNull(bvid)
    && v.aid == NonNull(ValueOf(LongAt(item, "aid")))
    && v.title == NonNull(StrAt(item, "title"))
    && v.description == NonNull(StrAt(item, "desc"))
    && v.coverUrl == NonNull(StrAt(item, "pic"))
    && v.tid == (if "tid" in item then NonNull(ValueOf(IntAt(item, "tid"))) else Null)
    && v.tname == (if "tname" in item then NonNull(StrAt(item, "tname")) else Null)
    && v.publishTime == (if "pubdate" in item then LongAt(item, "pubdate") else 0)
    && v.duration == NonNull(FormatDuration(IntAt(item, "duration")))
    && StatCounters(item, v)
    && v.uploader == (if "owner" in item then NonNull(StrAt(item["owner"].fields, "name")) else Null)
    && v.videoUrl == NonNull(VIDEO_PAGE_PREFIX + bvid)
    && v.danmakuUrl == NonNull(COMMENT_PREFIX + bvid + COMMENT_SUFFIX)
    && v.quality == NonNull(Q1080P) && !v.isLiveStream && !v.is4K
    && v.cid == Null && v.area == Null && v.areaName == Null && v.tags == Null
    && v.liveStatus == Null && v.roomUrl == Null
  }

  /** `tid`, `tname` and `pubdate` (each only when present) and `duration`,
      as the setters receive them. */
  datatype VideoTail = VideoTail(tid: Str, tname: Str, publishTime: int, duration: int)

  /** The reads of `parseVideoData` between the head and the blocks. */
  function ReadVideoTail(item: JsonObject): (r: Try<VideoTail>)
    ensures r.Ok? <==> OptionalScalars(item) && HasInt(item, "duration")
    ensures r.Ok? ==> r.value == VideoTail(
      if "tid" in item then NonNull(ValueOf(IntAt(item, "tid"))) else Null,
      if "tname" in item then NonNull(StrAt(item, "tname")) else Null,
      if "pubdate" in item then LongAt(item, "pubdate") else 0,
      IntAt(item, "duration"))
  {
    var tid :- OptInt(item, "tid");
    var tname :- OptString(item, "tname");
    var pubdate :- OptLong(item, "pubdate");
    var duration :- GetAsInt(item, "duration");
    Ok(VideoTail(if tid.NonNull? then NonNull(ValueOf(tid.value)) else Null, tname,
                 if pubdate.NonNull? then pubdate.value else 0, duration))
  }

  /** The `stat` and `owner` blocks of a video entry. */
  function ReadVideoBlocks(item: JsonObject): (r: Try<(Nullable<Stat>, Str)>)
    ensures r.Ok? <==> OptionalStat(item) && OptionalOwner(item)
    ensures r.Ok? && "stat" in item ==>
      var st := item["stat"].fields;
      r.value.0 == NonNull(Stat(IntAt(st, "view"), IntAt(st, "danmaku"), IntAt(st, "like"),
                                IntAt(st, "coin"), IntAt(st, "favorite")))
    ensures r.Ok? && "stat" !in item ==> r.value.0 == Null
    ensures r.Ok? ==> r.value.1 == (if "owner" in item then NonNull(StrAt(item["owner"].fields, "name")) else Null)
  {
    var statBlock :- GetAsJsonObject(item, "stat");
    var stat :- ReadStat(statBlock);
    var ownerBlock :- GetAsJsonObject(item, "owner");
    var uploader :- ReadOwnerName(ownerBlock);
    Ok((stat, uploader))
  }

  /** The body of `parseVideoData`'s try block. */
  function ReadVideo(item: JsonObject): (r: Try<VideoData>)
    ensures r.Ok? <==> VideoItemReadable(item)
    ensures r.Ok? ==> IsVideoRecord(item, r.value)
  {
    var head :- ReadVideoHead(item);
    var tail :- ReadVideoTail(item);
    var blocks :- ReadVideoBlocks(item);
    var (stat, uploader) := blocks;
    var counters := if stat.NonNull? then stat.value else Stat(0, 0, 0, 0, 0);
    var bvid := head.bvid;
    var v := VideoData(
      NonNull(bvid), NonNull(head.title), NonNull(head.desc), NonNull(head.pic),
      NonNull(VideoPageUrl(bvid)), NonNull(CommentUrl(bvid)), NonNull(FormatDuration(tail.duration)),
      counters.view, uploader, false, false, Null,
      NonNull(ValueOf(head.aid)), NonNull(bvid), Null, tail.tid, tail.tname,
      tail.publishTime, counters.like, counters.coin, counters.favorite, counters.danmaku,
      Null, Null, Null, Null, Null);
    var v' := SetBool(v, FourK, false);
    assert v' == v;
    Ok(v'.(quality := NonNull(Q1080P)))
  }

  /** `parseVideoData`: null exactly when the entry is unreadable; otherwise
      the record IsVideoRecord spells out. */
  function ParseVideoData(item: JsonObject): (r: Nullable<VideoData>)
    ensures r.NonNull? <==> VideoItemReadable(item)
    ensures r.NonNull? ==> IsVideoRecord(item, r.value)
  {
    match ReadVideo(item)
    case Ok(v) => NonNull(v)
    case Thrown => Null
  }

  /** The six members without which no video entry parses. */
  const REQUIRED_VIDEO_KEYS: set<string> := {"bvid", "aid", "title", "desc", "pic", "duration"}

  lemma MissingVideoKeyGivesNull(item: JsonObject, k: string)
    requires k in REQUIRED_VIDEO_KEYS && k !in item
    ensures ParseVideoData(item) == Null
  {
    assert !VideoItemReadable(item);
  }

  // ---------------------------------------------------------------------
  // parseLiveData
  // ---------------------------------------------------------------------

  predicate LiveItemReadable(item: JsonObject) {
    && HasLong(item, "roomid") && HasStr(item, "title") && HasStr(item, "area_v2_name")
    && HasStr(item, "cover") && HasInt(item, "online") && HasStr(item, "uname")
    && ("area_v2_id" in item ==> HasInt(item, "area_v2_id"))
    && ("area_v2_parent_name" in item ==> HasStr(item, "area_v2_parent_name"))
  }

  /** The record `parseLiveData` builds from a readable entry, field by
      field, with null or 0 in every field the parser never sets. */
  predicate IsLiveRecord(item: JsonObject, v: VideoData)
    requires LiveItemReadable(item)
  {
    var id := ValueOf(LongAt(item, "roomid"));
    && v.id == NonNull(id)
    && v.title == NonNull(LIVE_TITLE_PREFIX + StrAt(item, "title"))
    && v.description == NonNull(StrAt(item, "area_v2_name"))
    && v.coverUrl == NonNull(StrAt(item, "cover"))
    && v.area == (if "area_v2_id" in item then NonNull(ValueOf(IntAt(item, "area_v2_id"))) else Null)
    && v.areaName == NonNull(StrAt(item, "area_v2_name"))
    && v.tags == (if "area_v2_parent_name" in item then NonNull(StrAt(item, "area_v2_parent_name")) else Null)
    && v.duration == NonNull(LIVE) && v.viewCount == IntAt(item, "online")
    && v.uploader == NonNull(StrAt(item, "uname"))
    && v.videoUrl == NonNull(LIVE_ROOM_PREFIX + id) && v.danmakuUrl == v.videoUrl
    && v.isLiveStream && !v.is4K && v.quality == NonNull(LIVE) && v.liveStatus == NonNull("1")
    && v.bvid == Null && v.aid == Null && v.cid == Null && v.tid == Null && v.tname == Null
    && v.roomUrl == Null
    && v.publishTime == 0 && v.likeCount == 0 && v.coinCount == 0 && v.favoriteCount == 0
    && v.danmakuCount == 0
  }

  /** The body of `parseLiveData`'s try block. */
  function ReadLive(item: JsonObject): (r: Try<VideoData>)
    ensures r.Ok? <==> LiveItemReadable(item)
    ensures r.Ok? ==> IsLiveRecord(item, r.value)
  {
    var roomid :- GetAsLong(item, "roomid");
    var title :- GetAsString(item, "title");
    var areaLabel :- GetAsString(item, "area_v2_name");
    var cover :- GetAsString(item, "cover");
    var areaId :- OptInt(item, "area_v2_id");
    // `has("area_v2_name")` is certain here: the description read it already.
    var areaName := NonNull(areaLabel);
    var parentArea :- OptString(item, "area_v2_parent_name");
    var online :- GetAsInt(item, "online");
    var uname :- GetAsString(item, "uname");
    var id := ValueOf(roomid);
    var area := if areaId.NonNull? then NonNull(ValueOf(areaId.value)) else Null;
    var v := VideoData(
      NonNull(id), NonNull(LIVE_TITLE_PREFIX + title), NonNull(areaLabel), NonNull(cover),
      NonNull(LiveRoomUrl(id)), NonNull(LiveRoomUrl(id)), NonNull(LIVE),
      online, NonNull(uname), true, false, Null,
      Null, Null, Null, Null, Null, 0, 0, 0, 0, 0,
      area, areaName, parentArea, Null, Null);
    var v' := SetBool(v, FourK, false);
    assert v' == v;
    Ok(v'.(quality := NonNull(LIVE), liveStatus := NonNull("1")))
  }

  /** `parseLiveData`: null exactly when the entry is unreadable; otherwise a
      live record whose player and comment URLs are both the room page. */
  function ParseLiveData(item: JsonObject): (r: Nullable<VideoData>)
    ensures r.NonNull? <==> LiveItemReadable(item)
    ensures r.NonNull? ==> IsLiveRecord(item, r.value)
  {
    match ReadLive(item)
    case Ok(v) => NonNull(v)
    case Thrown => Null
  }

  // ---------------------------------------------------------------------
  // List responses
  // ---------------------------------------------------------------------

  /** A per-entry parser: `parseVideoData` or `parseLiveData`. */
  type ItemParser = JsonObject -> Nullable<VideoData>

  /** What one object element contributes to the list: its record, or
      nothing when its parse returns null. */
  function Kept(parse: ItemParser, o: JsonObject): (r: seq<VideoData>)
    ensures |r| <= 1
    ensures |r| == 1 <==> parse(o).NonNull?
    ensures |r| == 1 ==> parse(o) == NonNull(r[0])
  {
    match parse(o)
    case NonNull(v) => [v]
    case Null => []
  }

  /** The length of the longest prefix of the array made of JSON objects. */
  function ObjectPrefix(items: seq<Json>): (n: nat)
    ensures n <= |items|
    ensures forall i :: 0 <= i < n ==> items[i].JObj?
    ensures n < |items| ==> !items[n].JObj?
  {
    if |items| == 0 || !items[0].JObj? then 0 else 1 + ObjectPrefix(items[1..])
  }

  /** The loop over the array: a non-object element makes `getAsJsonObject`
      throw, which ends the loop with the records collected so far; an entry
      whose own parse returns null is skipped. */
  function ParseItems(parse: ItemParser, items: seq<Json>): (r: seq<VideoData>)
    ensures |r| <= ObjectPrefix(items) <= |items|
  {
    if |items| == 0 then []
    else match items[0]
      case JObj(o) => Kept(parse, o) + ParseItems(parse, items[1..])
      case _ => []
  }

  /** Every record in the result is the parse of an object element that
      precedes the first non-object element. */
  lemma {:induction false} ParseItemsOrigin(parse: ItemParser, items: seq<Json>)
    ensures forall j :: 0 <= j < |ParseItems(parse, items)| ==>
      exists i :: 0 <= i < ObjectPrefix(items) && parse(items[i].fields) == NonNull(ParseItems(parse, items)[j])
    decreases |items|
  {
    if |items| > 0 && items[0].JObj? {
      var r := ParseItems(parse, items);
      var rest := ParseItems(parse, items[1..]);
      var head := Kept(parse, items[0].fields);
      assert r == head + rest;
      assert ObjectPrefix(items) == 1 + ObjectPrefix(items[1..]);
      ParseItemsOrigin(parse, items[1..]);
      forall j | 0 <= j < |r|
        ensures exists i :: 0 <= i < ObjectPrefix(items) && parse(items[i].fields) == NonNull(r[j])
      {
        if j < |head| {
          assert parse(items[0].fields) == NonNull(r[j]);
          assert 0 < ObjectPrefix(items);
        } else {
          assert r[j] == rest[j - |head|];
          var i :| 0 <= i < ObjectPrefix(items[1..]) && parse(items[1..][i].fields) == NonNull(rest[j - |head|]);
          assert items[1..][i] == items[i + 1];
          assert 0 <= i + 1 < ObjectPrefix(items);
        }
      }
    } else {
      assert ParseItems(parse, items) == [];
    }
  }

  /** One turn of the loop on an object element. */
  lemma ParseItemsCons(parse: ItemParser, items: seq<Json>)
    requires |items| > 0 && items[0].JObj?
    ensures ParseItems(parse, items) == Kept(parse, items[0].fields) + ParseItems(parse, items[1..])
  {
  }

  /** The loop keeps array order: entries of an all-object prefix come out
      before those of whatever follows. */
  lemma {:induction false} ParseItemsAppend(parse: ItemParser, a: seq<Json>, b: seq<Json>)
    requires forall i :: 0 <= i < |a| ==> a[i].JObj?
    ensures ParseItems(parse, a + b) == ParseItems(parse, a) + ParseItems(parse, b)
    decreases |a|
  {
    if |a| > 0 {
      var ab := a + b;
      assert ab[0] == a[0];
      assert ab[1..] == a[1..] + b;
      ParseItemsCons(parse, ab);
      ParseItemsCons(parse, a);
      ParseItemsAppend(parse, a[1..], b);
    } else {
      assert a + b == b;
    }
  }

  /** Nothing after the first non-object element contributes. */
  lemma {:induction false} ParseItemsStopsAtNonObject(parse: ItemParser, items: seq<Json>)
    ensures ParseItems(parse, items) == ParseItems(parse, items[..ObjectPrefix(items)])
    decreases |items|
  {
    if |items| > 0 && items[0].JObj? {
      ParseItemsStopsAtNonObject(parse, items[1..]);
      assert items[..ObjectPrefix(items)][1..] == items[1..][..ObjectPrefix(items[1..])];
    }
  }

  /** When every element is an object that parses, the result is the
      element-wise parse, one record per element, in order. */
  lemma {:induction false} ParseItemsKeepsAll(parse: ItemParser, items: seq<Json>)
    requires forall i :: 0 <= i < |items| ==> items[i].JObj? && parse(items[i].fields).NonNull?
    ensures |ParseItems(parse, items)| == |items|
    ensures forall i :: 0 <= i < |items| ==> NonNull(ParseItems(parse, items)[i]) == parse(items[i].fields)
    decreases |items|
  {
    if |items| > 0 {
      ParseItemsKeepsAll(parse, items[1..]);
      var r := ParseItems(parse, items);
      var rest := ParseItems(parse, items[1..]);
      assert r == Kept(parse, items[0].fields) + rest;
      forall i | 0 <= i < |items|
        ensures NonNull(r[i]) == parse(items[i].fields)
      {
        if i > 0 {
          assert r[i] == rest[i - 1];
          assert items[1..][i - 1] == items[i];
        }
      }
    }
  }

  /** The response envelope reports success: an object whose `code` is 0. */
  predicate CodeOk(root: Json) {
    root.JObj? && "code" in root.fields && HasInt(root.fields, "code") && IntAt(root.fields, "code") == 0
  }

  /** The array under `key` in the response's `data` object, when there is one. */
  predicate HasItemArray(root: Json, key: string) {
    && CodeOk(root)
    && "data" in root.fields && root.fields["data"].JObj?
    && key in root.fields["data"].fields
    && root.fields["data"].fields[key].JArr?
  }

  /** The shared shape of `parsePopularVideoList` and `parseLiveRecommendList`. */
  function ParseList(root: Json, key: string, parse: ItemParser): (r: seq<VideoData>)
    ensures !HasItemArray(root, key) ==> r == []
    ensures HasItemArray(root, key) ==>
      r == ParseItems(parse, root.fields["data"].fields[key].items)
  {
    match root
    case JObj(o) =>
      (match CodeIsZero(o)
       case Ok(true) =>
         (match GetAsJsonObject(o, "data")
          case Ok(NonNull(data)) =>
            if key in data && data[key].JArr? then ParseItems(parse, data[key].items) else []
          case _ => [])
       case _ => [])
    case _ => []
  }

  /** `parsePopularVideoList`: the video entries under `data.list`, or the
      empty list when the envelope or its shape is wrong. */
  function ParsePopularVideoList(root: Json): (r: seq<VideoData>)
    ensures !HasItemArray(root, "list") ==> r == []
    ensures HasItemArray(root, "list") ==>
      r == ParseItems(ParseVideoData, root.fields["data"].fields["list"].items)
    ensures forall v :: v in r ==> !v.isLiveStream && !v.is4K && v.quality == NonNull(Q1080P)
  {
    var r := ParseList(root, "list", ParseVideoData);
    assert forall v :: v in r ==> !v.isLiveStream && !v.is4K && v.quality == NonNull(Q1080P) by {
      if HasItemArray(root, "list") {
        var items := root.fields["data"].fields["list"].items;
        ParseItemsOrigin(ParseVideoData, items);
        forall v | v in r ensures !v.isLiveStream && !v.is4K && v.quality == NonNull(Q1080P) {
          var j :| 0 <= j < |r| && r[j] == v;
          var i :| 0 <= i < ObjectPrefix(items) && ParseVideoData(items[i].fields) == NonNull(r[j]);
        }
      }
    }
    r
  }

  /** `parseLiveRecommendList`: the live entries under
      `data.recommend_room_list`, or the empty list. */
  function ParseLiveRecommendList(root: Json): (r: seq<VideoData>)
    ensures !HasItemArray(root, "recommend_room_list") ==> r == []
    ensures HasItemArray(root, "recommend_room_list") ==>
      r == ParseItems(ParseLiveData, root.fields["data"].fields["recommend_room_list"].items)
    ensures forall v :: v in r ==> v.isLiveStream && v.quality == NonNull(LIVE)
  {
    var r := ParseList(root, "recommend_room_list", ParseLiveData);
    assert forall v :: v in r ==> v.isLiveStream && v.quality == NonNull(LIVE) by {
      if HasItemArray(root, "recommend_room_list") {
        var items := root.fields["data"].fields["recommend_room_list"].items;
        ParseItemsOrigin(ParseLiveData, items);
        forall v | v in r ensures v.isLiveStream && v.quality == NonNull(LIVE) {
          var j :| 0 <= j < |r| && r[j] == v;
          var i :| 0 <= i < ObjectPrefix(items) && ParseLiveData(items[i].fields) == NonNull(r[j]);
        }
      }
    }
    r
  }

  // ---------------------------------------------------------------------
  // Single-record responses
  // ---------------------------------------------------------------------

  /** The response's `data` member, when it is an object. */
  predicate HasDataObject(root: Json) {
    CodeOk(root) && "data" in root.fields && root.fields["data"].JObj?
  }

  /** `parseVideoInfo`: the `data` object parsed as one video entry; null on
      a failed envelope, a missing or non-object `data`, or an unreadable entry. */
  function ParseVideoInfo(root: Json): (r: Nullable<VideoData>)
    ensures !CodeOk(root) ==> r == Null
    ensures r.NonNull? <==> HasDataObject(root) && VideoItemReadable(root.fields["data"].fields)
    ensures HasDataObject(root) ==> r == ParseVideoData(root.fields["data"].fields)
  {
    match root
    case JObj(o) =>
      (match CodeIsZero(o)
       case Ok(true) =>
         (match GetAsJsonObject(o, "data")
          case Ok(NonNull(data)) => ParseVideoData(data)
          case _ => Null)
       case _ => Null)
    case _ => Null
  }

  predicate LiveRoomReadable(data: JsonObject) {
    && HasLong(data, "room_id") && HasStr(data, "title") && HasStr(data, "description")
    && HasStr(data, "user_cover") && HasInt(data, "online") && HasStr(data, "uid")
    && HasInt(data, "live_status")
    && ("area_name" in data ==> HasStr(data, "area_name"))
    && ("parent_area_name" in data ==> HasStr(data, "parent_area_name"))
  }

  /** The record `parseLiveRoomInfo` builds from a readable room, field by
      field, with null or 0 in every field the parser never sets. */
  predicate IsLiveRoomRecord(data: JsonObject, v: VideoData)
    requires LiveRoomReadable(data)
  {
    var id := ValueOf(LongAt(data, "room_id"));
    && v.id == NonNull(id)
    && v.title == NonNull(LIVE_TITLE_PREFIX + StrAt(data, "title"))
    && v.description == NonNull(StrAt(data, "description"))
    && v.coverUrl == NonNull(StrAt(data, "user_cover"))
    && v.areaName == (if "area_name" in data then NonNull(StrAt(data, "area_name")) else Null)
    && v.tags == (if "parent_area_name" in data then NonNull(StrAt(data, "parent_area_name")) else Null)
    && v.duration == NonNull(LIVE) && v.viewCount == IntAt(data, "online")
    && v.uploader == NonNull(StrAt(data, "uid"))
    && v.videoUrl == NonNull(LIVE_ROOM_PREFIX + id) && v.danmakuUrl == v.videoUrl
    && v.isLiveStream && !v.is4K && v.quality == NonNull(LIVE)
    && v.liveStatus == NonNull(ValueOf(IntAt(data, "live_status")))
    && v.bvid == Null && v.aid == Null && v.cid == Null && v.tid == Null && v.tname == Null
    && v.area == Null && v.roomUrl == Null
    && v.publishTime == 0 && v.likeCount == 0 && v.coinCount == 0 && v.favoriteCount == 0
    && v.danmakuCount == 0
  }

  /** The body of `parseLiveRoomInfo`'s try block once the code check passed. */
  function ReadLiveRoom(data: JsonObject): (r: Try<VideoData>)
    ensures r.Ok? <==> LiveRoomReadable(data)
    ensures r.Ok? ==> IsLiveRoomRecord(data, r.value)
  {
    var roomId :- GetAsLong(data, "room_id");
    var title :- GetAsString(data, "title");
    var description :- GetAsString(data, "description");
    var cover :- GetAsString(data, "user_cover");
    var areaName :- OptString(data, "area_name");
    var parentArea :- OptString(data, "parent_area_name");
    var online :- GetAsInt(data, "online");
    var uid :- GetAsString(data, "uid");
    var liveStatus :- GetAsInt(data, "live_status");
    var id := ValueOf(roomId);
    var v := VideoData(
      NonNull(id), NonNull(LIVE_TITLE_PREFIX + title), NonNull(description), NonNull(cover),
      NonNull(LiveRoomUrl(id)), NonNull(LiveRoomUrl(id)), NonNull(LIVE),
      online, NonNull(uid), true, false, Null,
      Null, Null, Null, Null, Null, 0, 0, 0, 0, 0,
      Null, areaName, parentArea, Null, Null);
    var v' := SetBool(v, FourK, false);
    assert v' == v;
    Ok(v'.(quality := NonNull(LIVE), liveStatus := NonNull(ValueOf(liveStatus))))
  }

  /** `parseLiveRoomInfo`: a live record built from the room's `data` object,
      its live status taken from `live_status`; null on any failure. */
  function ParseLiveRoomInfo(root: Json): (r: Nullable<VideoData>)
    ensures !CodeOk(root) ==> r == Null
    ensures r.NonNull? <==> HasDataObject(root) && LiveRoomReadable(root.fields["data"].fields)
    ensures r.NonNull? ==> IsLiveRoomRecord(root.fields["data"].fields, r.value)
  {
    match root
    case JObj(o) =>
      (match CodeIsZero(o)
       case Ok(true) =>
         (match GetAsJsonObject(o, "data")
          case Ok(NonNull(data)) =>
            (match ReadLiveRoom(data)
             case Ok(v) => NonNull(v)
             case Thrown => Null)
          case _ => Null)
       case _ => Null)
    case _ => Null
  }
}
