# bilitv core, modelled in Dafny

bilitv is an Android TV client for Bilibili. This project models the parts of
it that hold logic rather than UI:

- **VideoData** (`video_data.dfy`, module `Video`): the catalogue record.
  It has 27 fields, one setter per field, the no-argument and eleven-argument
  constructors, and the `createVideo`/`createLive` factories.
- **The response parsers of BilibiliApiClient** (`api_client.dfy`, module
  `ApiClient`):
  - `parseVideoData` and `parseLiveData` for single entries;
  - `parsePopularVideoList` and `parseLiveRecommendList` for lists;
  - `parseVideoInfo` and `parseLiveRoomInfo` for single records;
  - `formatDuration`.

  They work on a JSON tree (`json.dfy`, module `Json`). Its accessors follow
  Gson's conversions:
  - a number read as a string gives its digits;
  - a number read as an int or a long is narrowed with wrap-around;
  - a string read as a number goes through `Integer.parseInt`/`Long.parseLong`;
  - a missing member, JSON null or an object read as a scalar throws.
- **VideoDataFactory** (`catalogue.dfy`, module `Catalogue`): the facade the
  browse screens call. It has four cached lists, a mock-data switch, the
  built-in mock catalogue, the mock lookups by bvid and room id, and the
  fallbacks to mock data.
- **DanmakuManager** (`danmaku.dfy`, module `Danmaku`): the scrolling-comment
  overlay. It covers the admission guard, the lane and speed of a new comment,
  its removal when its animation ends, and the lifecycle calls `start`,
  `pause`, `stop`, `clear` and `release`.

`java_lang.dfy` (module `JavaLang`) holds the Java semantics the rest relies
on:
- null references (`Nullable`) and thrown exceptions (`Try`, used with `:-`);
- the int and long ranges and the narrowing casts;
- `String.valueOf`, `Integer.parseInt` syntax and `%02d`.

State is immutable. Each setter or call returns the next record, manager or
factory. Randomness, text measurement and the HTTP answers are parameters:
- a `Draw` holds the two `nextInt` results and the measured width;
- the factory getters take what the client call would return (`fetched`).

## Model

Source paths are relative to the repository root.

| member | source | states |
|---|---|---|
| JavaLang.NarrowToInt | app/src/main/java/com/flashfinger/bilitv/data/BilibiliApiClient.java:262 | an int read of a JSON number keeps the low 32 bits: the result is in int range and congruent to the number modulo 2^32 |
| JavaLang.NarrowToIntKeepsAndWraps | app/src/main/java/com/flashfinger/bilitv/data/BilibiliApiClient.java:262 | narrowing leaves an in-range value unchanged, and values 2^32 apart narrow to the same int |
| JavaLang.NarrowToLong | app/src/main/java/com/flashfinger/bilitv/data/BilibiliApiClient.java:243 | a long read of a JSON number keeps the low 64 bits: the result is in long range and congruent to the number modulo 2^64 |
| JavaLang.ValueOf | app/src/main/java/com/flashfinger/bilitv/data/BilibiliApiClient.java:243 | `String.valueOf` of an int or long: digits only exactly when the value is not negative, a leading '-' exactly when it is, "0" for zero, and no leading zero on any other value |
| JavaLang.ParseJavaInteger | app/src/main/java/com/flashfinger/bilitv/data/BilibiliApiClient.java:187 | the text `Integer.parseInt` accepts: without a leading '+' it reads exactly what ParseDecimal, the inverse of ValueOf, reads; with a leading '+' it reads the digits after it, and nothing when they are missing or not all digits; the empty text reads as nothing |
| JavaLang.ValueOfRoundTrip | app/src/main/java/com/flashfinger/bilitv/data/BilibiliApiClient.java:243 | the text `String.valueOf` writes for an id reads back as the same number |
| JavaLang.Pad2RoundTrip | app/src/main/java/com/flashfinger/bilitv/data/BilibiliApiClient.java:422-427 | a `%02d` field reads back as the number it renders |
| JavaLang.Pad2 | app/src/main/java/com/flashfinger/bilitv/data/BilibiliApiClient.java:426 | `%02d` of a non-negative number: at least two digits, exactly two below 100, and a leading '0' exactly for a single-digit value |
| Json.IntTextReadsBack | app/src/main/java/com/flashfinger/bilitv/data/BilibiliApiClient.java:394 | an int rendered as text by `getAsString` reads back with `getAsInt` as the same int, as the number itself does |
| Json.AsString | app/src/main/java/com/flashfinger/bilitv/data/BilibiliApiClient.java:241 | `getAsString`: a JSON string as it is, a number as its `String.valueOf` text, a boolean as "true"/"false"; a one-element array answers for its element and any other array throws; JSON null and objects throw |
| Json.AsInt | app/src/main/java/com/flashfinger/bilitv/data/BilibiliApiClient.java:262 | `getAsInt`: a number is narrowed to its low 32 bits and never throws; a string is read as `Integer.parseInt` reads it and throws unless that gives an int in range; a one-element array answers for its element and any other array throws; JSON null, booleans and objects throw |
| Json.AsLong | app/src/main/java/com/flashfinger/bilitv/data/BilibiliApiClient.java:243 | `getAsLong`: the same with 64 bits and `Long.parseLong` |
| Json.GetAsJsonObject | app/src/main/java/com/flashfinger/bilitv/data/BilibiliApiClient.java:266 | `getAsJsonObject(k)`: null exactly when the member is absent, a throw exactly when it is present but not an object (JSON null included), and otherwise that object |
| Json.GetAsString | app/src/main/java/com/flashfinger/bilitv/data/BilibiliApiClient.java:241-246 | `o.get(k).getAsString()` succeeds exactly when the member is present and readable as a string, and yields its text |
| Json.GetAsInt | app/src/main/java/com/flashfinger/bilitv/data/BilibiliApiClient.java:262 | `o.get(k).getAsInt()` succeeds exactly when the member is present and readable as an int, and yields an int in range |
| Json.GetAsLong | app/src/main/java/com/flashfinger/bilitv/data/BilibiliApiClient.java:243 | `o.get(k).getAsLong()` succeeds exactly when the member is present and readable as a long, and yields a long in range |
| Json.IntReadWraps | app/src/main/java/com/flashfinger/bilitv/data/BilibiliApiClient.java:262 | `getAsInt` on a number never throws and wraps around modulo 2^32 |
| Json.OptString | app/src/main/java/com/flashfinger/bilitv/data/BilibiliApiClient.java:252-254 | an optional member read: absent gives no value, present and unreadable (JSON null included) throws, otherwise the member's text |
| Json.OptInt | app/src/main/java/com/flashfinger/bilitv/data/BilibiliApiClient.java:249-251 | `if (o.has(k)) x = o.get(k).getAsInt()`: absent gives no value, present and unreadable (JSON null included) throws, otherwise the int |
| Json.OptLong | app/src/main/java/com/flashfinger/bilitv/data/BilibiliApiClient.java:257-259 | the same read as a long |
| Json.CodeIsZero | app/src/main/java/com/flashfinger/bilitv/data/BilibiliApiClient.java:187 | the envelope test is true exactly when `code` reads as the int 0, and throws exactly when `code` is present but not readable as an int |
| Json.CodeIsZeroAcceptsText | app/src/main/java/com/flashfinger/bilitv/data/BilibiliApiClient.java:187 | a `code` written as the string "0" passes the envelope test |
| Json.CodeIsZeroAcceptsWrappedZero | app/src/main/java/com/flashfinger/bilitv/data/BilibiliApiClient.java:187 | any multiple of 2^32 as `code` passes the envelope test too |
| Video.SetStr | app/src/main/java/com/flashfinger/bilitv/data/VideoData.java:113-329 | a string setter stores its argument in its own field and leaves every other field unchanged |
| Video.SetInt | app/src/main/java/com/flashfinger/bilitv/data/VideoData.java:113-329 | a counter setter stores its argument and leaves every other field unchanged |
| Video.SetBool | app/src/main/java/com/flashfinger/bilitv/data/VideoData.java:189-199 | `setLiveStream` stores its flag and changes nothing else; `set4K` as written returns the record unchanged |
| Video.SetBoolIntended | app/src/main/java/com/flashfinger/bilitv/data/VideoData.java:197-199 | the corrected `set4K` stores its flag and changes nothing else |
| Video.Set4KLeavesFlagFalse | app/src/androidTest/java/com/flashfinger/bilitv/VideoDataTest.java:127-135 | on a fresh record, `set4K(true)` leaves `is4K()` false as written; the corrected setter makes it true |
| Video.Empty | app/src/main/java/com/flashfinger/bilitv/data/VideoData.java:47-48 | a fresh record has every string null, every counter 0 and both flags false |
| Video.NewVideoData | app/src/main/java/com/flashfinger/bilitv/data/VideoData.java:50-65 | the eleven-argument constructor stores its arguments; the quality is "4K" exactly when `is4K`, else "1080P"; all other fields stay null or 0 |
| Video.CreateVideo | app/src/main/java/com/flashfinger/bilitv/data/VideoData.java:70-88 | id and bvid are both the bvid, and the other nine arguments land in their fields; the record is not live; `is4K()` is false whatever is asked, while the quality label is "4K" exactly when 4K was asked; aid, cid, tid, tname, area, areaName, tags, liveStatus and roomUrl stay null and every counter but the view count stays 0 |
| Video.CreateLive | app/src/main/java/com/flashfinger/bilitv/data/VideoData.java:93-111 | a live record: title prefixed with 【直播】, player and comment URLs both the live URL, duration and quality "LIVE", live status "1", the given area name, not 4K; bvid, aid, cid, tid, tname, area, tags and roomUrl stay null and every counter but the viewer count stays 0 |
| Video.OnlyConstructorSets4K | app/src/main/java/com/flashfinger/bilitv/data/VideoData.java:50-111 | of the three ways to build a record, only the eleven-argument constructor can make `is4K()` true |
| ApiClient.FormatDuration | app/src/main/java/com/flashfinger/bilitv/data/BilibiliApiClient.java:422-427 | "00:00" for a duration that is not positive; otherwise at least two minute digits, a colon and exactly two second digits; five characters exactly below 100 minutes; the text starts with '0' exactly below 10 minutes, so minutes are padded to two digits and never beyond |
| ApiClient.FormatDurationRoundTrip | app/src/main/java/com/flashfinger/bilitv/data/BilibiliApiClient.java:422-427 | the minutes field reads back as seconds/60 and the seconds field as seconds%60; the whole text reads back as the duration |
| ApiClient.ReadVideoHead | app/src/main/java/com/flashfinger/bilitv/data/BilibiliApiClient.java:241-246 | the first five reads succeed exactly when bvid, title, desc and pic read as strings and aid as a long, and yield those values |
| ApiClient.ReadStat | app/src/main/java/com/flashfinger/bilitv/data/BilibiliApiClient.java:266-273 | an absent stat block gives no counters; a present one needs all five counters readable as ints and yields them |
| ApiClient.ReadOwnerName | app/src/main/java/com/flashfinger/bilitv/data/BilibiliApiClient.java:276-279 | an absent owner block gives a null uploader; a present one needs a readable name and yields it |
| ApiClient.OptionalStat | app/src/main/java/com/flashfinger/bilitv/data/BilibiliApiClient.java:266-273 | an entry's `stat` member is absent or an object with all five counters readable, exactly when the `getAsJsonObject` cast and the counter reads succeed |
| ApiClient.OptionalOwner | app/src/main/java/com/flashfinger/bilitv/data/BilibiliApiClient.java:276-279 | an entry's `owner` member is absent or an object with a readable `name`, exactly when the cast and the name read succeed |
| ApiClient.ReadVideoTail | app/src/main/java/com/flashfinger/bilitv/data/BilibiliApiClient.java:249-263 | the `tid`, `tname`, `pubdate` and `duration` reads succeed exactly when each optional member present is readable and `duration` reads as an int, and yield tid as text, tname, pubdate (null/0 when absent) and the duration |
| ApiClient.ReadVideoBlocks | app/src/main/java/com/flashfinger/bilitv/data/BilibiliApiClient.java:266-279 | the `stat` and `owner` reads succeed exactly when both blocks are well-formed, and yield the five counters (or none) and the owner's name (or null) |
| ApiClient.ReadVideo | app/src/main/java/com/flashfinger/bilitv/data/BilibiliApiClient.java:237-293 | the try block succeeds exactly when the entry is readable, and then yields the record IsVideoRecord spells out (see ParseVideoData) |
| ApiClient.ParseVideoData | app/src/main/java/com/flashfinger/bilitv/data/BilibiliApiClient.java:236-299 | null exactly when a required member or a present optional member is unreadable; otherwise (IsVideoRecord) id and bvid from `bvid`, aid as `String.valueOf` of the long, title, desc and pic; tid as text, tname and pubdate when present and null/0 when absent; the formatted duration; all five stat counters when the block is present and 0 otherwise; the owner's name or null; page and comment URLs built from the bvid; non-live 1080P, not 4K; cid, area, areaName, tags, liveStatus and roomUrl null |
| ApiClient.MissingVideoKeyGivesNull | app/src/main/java/com/flashfinger/bilitv/data/BilibiliApiClient.java:241-262 | an entry without bvid, aid, title, desc, pic or duration parses to null |
| ApiClient.ReadLive | app/src/main/java/com/flashfinger/bilitv/data/BilibiliApiClient.java:305-342 | the try block of `parseLiveData` succeeds exactly when the entry is readable, and then yields the record IsLiveRecord spells out |
| ApiClient.ParseLiveData | app/src/main/java/com/flashfinger/bilitv/data/BilibiliApiClient.java:304-347 | null exactly when the entry is unreadable; otherwise (IsLiveRecord) a live record keyed by `roomid`, with the 【直播】 title, `area_v2_name` as description and area name, `area_v2_id` as text and `area_v2_parent_name` as tags when present (null when absent), the online count, the uploader's name, the room page as player and comment URL, quality "LIVE", live status "1"; every video-only field null or 0 |
| ApiClient.ParseItems | app/src/main/java/com/flashfinger/bilitv/data/BilibiliApiClient.java:191-197 | the loop keeps at most one record per element, and only from the leading run of object elements (ObjectPrefix); the lemmas below say which records and in which order |
| ApiClient.Kept | app/src/main/java/com/flashfinger/bilitv/data/BilibiliApiClient.java:193-196 | one element contributes its parsed record, or nothing when the parse returns null |
| ApiClient.ObjectPrefix | app/src/main/java/com/flashfinger/bilitv/data/BilibiliApiClient.java:191-192 | the loop reaches exactly the leading run of object elements: all before the bound are objects, and the one at the bound is not |
| ApiClient.ParseItemsOrigin | app/src/main/java/com/flashfinger/bilitv/data/BilibiliApiClient.java:191-197 | every listed record is the parse of an object element before the first non-object element |
| ApiClient.ParseItemsAppend | app/src/main/java/com/flashfinger/bilitv/data/BilibiliApiClient.java:191-197 | the loop keeps array order: an all-object prefix contributes its records before those of what follows |
| ApiClient.ParseItemsStopsAtNonObject | app/src/main/java/com/flashfinger/bilitv/data/BilibiliApiClient.java:191-200 | nothing after the first non-object element contributes, since the exception ends the loop |
| ApiClient.ParseItemsKeepsAll | app/src/main/java/com/flashfinger/bilitv/data/BilibiliApiClient.java:191-197 | when every element is an object that parses, there is one record per element, in order |
| ApiClient.ParseList | app/src/main/java/com/flashfinger/bilitv/data/BilibiliApiClient.java:183-204 | the empty list unless the code is 0 and `data` holds an array under the key; otherwise the loop's result over that array |
| ApiClient.ParsePopularVideoList | app/src/main/java/com/flashfinger/bilitv/data/BilibiliApiClient.java:183-204 | the empty list on a failed envelope or missing `data.list`; otherwise the loop over `data.list`; every record is a non-live 1080P video with `is4K()` false |
| ApiClient.ParseLiveRecommendList | app/src/main/java/com/flashfinger/bilitv/data/BilibiliApiClient.java:210-231 | the empty list on a failed envelope or missing `data.recommend_room_list`; otherwise the loop over it; every record is live with quality "LIVE" |
| ApiClient.ParseVideoInfo | app/src/main/java/com/flashfinger/bilitv/data/BilibiliApiClient.java:353-364 | null unless the code is 0 and `data` is an object that parses as a video entry, and then exactly that entry's parse |
| ApiClient.ReadLiveRoom | app/src/main/java/com/flashfinger/bilitv/data/BilibiliApiClient.java:375-411 | the reads of `parseLiveRoomInfo` after the code check succeed exactly when the room object is readable, and then yield the record IsLiveRoomRecord spells out |
| ApiClient.ParseLiveRoomInfo | app/src/main/java/com/flashfinger/bilitv/data/BilibiliApiClient.java:370-417 | null unless the code is 0 and `data` is a readable room object; otherwise (IsLiveRoomRecord) a live record keyed by `room_id`, with title, description and cover, `area_name` as area name and `parent_area_name` as tags when present (null when absent), the uploader taken from `uid` as text, the live status taken from `live_status`; area and every video-only field null or 0 |
| Danmaku.MaxRow | app/src/main/java/com/flashfinger/bilitv/danmaku/DanmakuManager.java:100 | the lane count is the number of whole 80-pixel bands in the height (60% of the height in 48-pixel lanes), and is at least 1 exactly when the height is at least 80 |
| Danmaku.New | app/src/main/java/com/flashfinger/bilitv/danmaku/DanmakuManager.java:39-47 | a new manager is running and not paused, with an empty buffer and no views |
| Danmaku.DemoDanmakuShape | app/src/main/java/com/flashfinger/bilitv/danmaku/DanmakuManager.java:59-86 | the demo buffer holds 26 comments, none of them empty |
| Danmaku.LoadDanmaku | app/src/main/java/com/flashfinger/bilitv/danmaku/DanmakuManager.java:52-57 | the demo comments are appended to the buffer, whatever the url; after release the buffer is null and the call throws; views, flags, screen size and the view counter are untouched |
| Danmaku.NewElement | app/src/main/java/com/flashfinger/bilitv/danmaku/DanmakuManager.java:100-121 | the new view's lane is the drawn `nextInt(maxRow)` value, so below the lane count; its top margin is lane*48+8; its duration is 10 seconds plus the drawn jitter, so 10 to 15 seconds; it starts at the right edge and moves to minus its width |
| Danmaku.AddDanmaku | app/src/main/java/com/flashfinger/bilitv/danmaku/DanmakuManager.java:91-124 | paused, null or empty text changes nothing; with fewer than 80 pixels of height `nextInt` throws; otherwise exactly one new view is added, all existing views stay, the view counter advances by one, flags, buffer and screen size are kept, and the container never holds a view twice |
| Danmaku.AnimationEnd | app/src/main/java/com/flashfinger/bilitv/danmaku/DanmakuManager.java:149-151 | the finished view leaves the container and every other view stays, with flags, buffer, screen size and view counter kept; a view no longer there leaves the manager unchanged |
| Danmaku.Start | app/src/main/java/com/flashfinger/bilitv/danmaku/DanmakuManager.java:159-163 | running and not paused afterwards; views, buffer, screen size and view counter untouched |
| Danmaku.Pause | app/src/main/java/com/flashfinger/bilitv/danmaku/DanmakuManager.java:168-171 | paused afterwards with the running flag kept; views in flight, buffer, screen size and view counter stay |
| Danmaku.Stop | app/src/main/java/com/flashfinger/bilitv/danmaku/DanmakuManager.java:176-180 | neither running nor paused afterwards; views in flight, buffer, screen size and view counter stay |
| Danmaku.Clear | app/src/main/java/com/flashfinger/bilitv/danmaku/DanmakuManager.java:185-189 | no views afterwards; flags, buffer, screen size and view counter untouched |
| Danmaku.Release | app/src/main/java/com/flashfinger/bilitv/danmaku/DanmakuManager.java:194-201 | no views, not running and the buffer null afterwards; the paused flag, screen size and view counter are kept |
| Danmaku.ReleaseIdempotent | app/src/main/java/com/flashfinger/bilitv/danmaku/DanmakuManager.java:194-201 | releasing twice is the same as releasing once |
| Danmaku.ReleaseStillAdmits | app/src/main/java/com/flashfinger/bilitv/danmaku/DanmakuManager.java:92-94 | an unpaused manager still admits a comment after release, which is then the only view |
| Danmaku.LoadAfterReleaseThrows | app/src/main/java/com/flashfinger/bilitv/danmaku/DanmakuManager.java:52-60 | once released, loading comments throws |
| Danmaku.LoadTwiceAppendsTwice | app/src/main/java/com/flashfinger/bilitv/danmaku/DanmakuManager.java:52-86 | two loads append the demo comments twice |
| Danmaku.PauseBlocksUntilStartOrStop | app/src/main/java/com/flashfinger/bilitv/danmaku/DanmakuManager.java:92-94 | while paused, a comment is rejected with no change; after `start()` or `stop()` it adds one view |
| Danmaku.LateAnimationEndIsNoOp | app/src/main/java/com/flashfinger/bilitv/danmaku/DanmakuManager.java:149-151 | an animation that ends after `clear()` changes nothing |
| Danmaku.AdmissionScenario | app/src/androidTest/java/com/flashfinger/bilitv/DanmakuManagerTest.java:87-112 | on 1920x1080 there are 13 lanes; "Test" is admitted as the one view; "" and null are rejected; `clear()` empties the container |
| Danmaku.RunPreservesWellFormed | app/src/main/java/com/flashfinger/bilitv/danmaku/DanmakuManager.java:91-201 | over any sequence of calls, every view in the container is there once and was handed out by this manager |
| Catalogue.Initial | app/src/main/java/com/flashfinger/bilitv/data/VideoDataFactory.java:15-22 | the static state starts in API mode with no client and all four caches null |
| Catalogue.Init | app/src/main/java/com/flashfinger/bilitv/data/VideoDataFactory.java:27-31 | afterwards the client exists; mode and caches are unchanged |
| Catalogue.SetUseMockData | app/src/main/java/com/flashfinger/bilitv/data/VideoDataFactory.java:36-38 | sets the mode; client and caches are unchanged |
| Catalogue.ClearCache | app/src/main/java/com/flashfinger/bilitv/data/VideoDataFactory.java:184-189 | all four caches null afterwards; mode and client are kept |
| Catalogue.MockBvidsDistinct | app/src/main/java/com/flashfinger/bilitv/data/VideoDataFactory.java:413-441 | the twelve bvids the mock lookup answers are distinct |
| Catalogue.MockRecommendedShape | app/src/main/java/com/flashfinger/bilitv/data/VideoDataFactory.java:193-248 | four videos with the first four bvids; the quality label alternates "4K"/"1080P"; `is4K()` is false for all of them |
| Catalogue.Mock4KShape | app/src/main/java/com/flashfinger/bilitv/data/VideoDataFactory.java:250-305 | four videos with the next four bvids, all labelled "4K", none with `is4K()` true |
| Catalogue.MockLiveShape | app/src/main/java/com/flashfinger/bilitv/data/VideoDataFactory.java:307-354 | four live rooms with the four mock room ids, quality "LIVE", and the room page as player and comment URL |
| Catalogue.MockPopularShape | app/src/main/java/com/flashfinger/bilitv/data/VideoDataFactory.java:356-411 | four videos with the last four bvids, labelled "1080P", "4K", "1080P", "4K", none with `is4K()` true |
| Catalogue.BuiltInMocksSized | app/src/main/java/com/flashfinger/bilitv/data/VideoDataFactory.java:193-411 | each built-in mock list has the four entries the lookups index |
| Catalogue.MockVideoInfo | app/src/main/java/com/flashfinger/bilitv/data/VideoDataFactory.java:413-441 | a null bvid throws; the i-th mock bvid gives the i-th record of the recommended, 4K and popular lists taken in turn; any other bvid gives null |
| Catalogue.MockLiveRoomInfo | app/src/main/java/com/flashfinger/bilitv/data/VideoDataFactory.java:443-455 | a null room id throws; the i-th mock room id gives the i-th mock live record; any other id gives null |
| Catalogue.MockVideoInfoFindsRecommended | app/src/main/java/com/flashfinger/bilitv/data/VideoDataFactory.java:413-422 | with the built-in recommended list, looking up each of its bvids returns the record that carries that bvid |
| Catalogue.MockVideoInfoFinds4K | app/src/main/java/com/flashfinger/bilitv/data/VideoDataFactory.java:423-430 | the same for the built-in 4K list |
| Catalogue.MockVideoInfoFindsPopular | app/src/main/java/com/flashfinger/bilitv/data/VideoDataFactory.java:431-441 | the same for the built-in popular list |
| Catalogue.MockLiveRoomInfoFindsRoom | app/src/main/java/com/flashfinger/bilitv/data/VideoDataFactory.java:443-455 | looking up each built-in room id returns the live record with that id |
| Catalogue.GetCached | app/src/main/java/com/flashfinger/bilitv/data/VideoDataFactory.java:43-62 | mock mode returns the mock list with no state change; a filled cache is returned as is; otherwise the client is created, an empty answer is replaced by the mock list, and the result is cached; other caches are untouched; no empty list is ever cached |
| Catalogue.GetRecommendedVideos | app/src/main/java/com/flashfinger/bilitv/data/VideoDataFactory.java:43-62 | mock mode returns the mock list with no state change; a filled cache is returned as is with no state change; otherwise the client is created, an empty answer is replaced by the mock list and the result is cached; the mode and the other caches are untouched |
| Catalogue.GetLiveStreams | app/src/main/java/com/flashfinger/bilitv/data/VideoDataFactory.java:98-117 | the same for the live row |
| Catalogue.GetPopularVideos | app/src/main/java/com/flashfinger/bilitv/data/VideoDataFactory.java:122-141 | the same for the popular row |
| Catalogue.Filter4K | app/src/main/java/com/flashfinger/bilitv/data/VideoDataFactory.java:80-84 | the kept records are exactly the list's records with `is4K()` true |
| Catalogue.Filter4KAppend | app/src/main/java/com/flashfinger/bilitv/data/VideoDataFactory.java:80-84 | filtering distributes over concatenation, so the filter keeps order |
| Catalogue.Get4KVideos | app/src/main/java/com/flashfinger/bilitv/data/VideoDataFactory.java:67-93 | mock mode returns the mock 4K list; a filled cache is returned as is; otherwise the recommended row is fetched and cached, and the result is its 4K records in list order (Filter4K), or the mock 4K list when it has none; the next state is the recommended getter's next state with the 4K cache filled, so the client exists whenever the recommended row was fetched; the mode and the live and popular caches are untouched |
| Catalogue.GetVideoInfo | app/src/main/java/com/flashfinger/bilitv/data/VideoDataFactory.java:146-160 | never touches the caches; mock mode and a null client answer give the mock lookup, otherwise the client's record |
| Catalogue.GetLiveRoomInfo | app/src/main/java/com/flashfinger/bilitv/data/VideoDataFactory.java:165-179 | the same for live rooms |
| Catalogue.CachedGetterIsIdempotent | app/src/main/java/com/flashfinger/bilitv/data/VideoDataFactory.java:48-61 | once a row is cached, asking again returns the same list and state whatever the API now says |
| Catalogue.ListGettersAreIdempotent | app/src/main/java/com/flashfinger/bilitv/data/VideoDataFactory.java:43-141 | for the three public list getters, asking a second time returns the first answer and changes nothing, in either mode |
| Catalogue.FourKGetterIsIdempotent | app/src/main/java/com/flashfinger/bilitv/data/VideoDataFactory.java:72-91 | the same for the 4K row |
| Catalogue.ClearCacheRefetches | app/src/main/java/com/flashfinger/bilitv/data/VideoDataFactory.java:184-189 | after `clearCache()` a non-empty API answer is what the getter returns |
| Catalogue.FourKRowFallsBackToMock | app/src/main/java/com/flashfinger/bilitv/data/VideoDataFactory.java:76-89 | when no recommended record has `is4K()` true, a fresh 4K row is the mock 4K list |
| Catalogue.BuiltInRecommendedHasNo4K | app/src/main/java/com/flashfinger/bilitv/data/VideoDataFactory.java:193-248 | no built-in recommended record has `is4K()` true |
| Catalogue.FourKRowFromApiIsMock | app/src/main/java/com/flashfinger/bilitv/data/VideoDataFactory.java:76-89 | whatever the API response, a fresh 4K row built from `parsePopularVideoList` is the mock 4K list |
| Catalogue.StepKeepsCachesNonEmpty | app/src/main/java/com/flashfinger/bilitv/data/VideoDataFactory.java:27-189 | no factory call caches an empty list |
| Catalogue.RunKeepsCachesNonEmpty | app/src/main/java/com/flashfinger/bilitv/data/VideoDataFactory.java:27-189 | no sequence of factory calls caches an empty list |
| Catalogue.ListGettersNeverEmpty | app/src/main/java/com/flashfinger/bilitv/data/VideoDataFactory.java:43-141 | after any calls from the initial state, all four list getters answer with a non-empty list |

## Left out

- HTTP: the OkHttp requests, URLs, headers and threading of BilibiliApiClient are not modelled. The parsers start from a JSON tree, and the factory getters take the client's answer as a parameter (`fetched`).
- JSON text: parsing with `JsonParser.parseString` is not modelled. Text that is not JSON, and a root that is not an object, both give the empty list or null; the model covers only the second.
- JSON numbers are integers. Fractional and exponent literals are not modelled; no field the parsers read carries one. A `-0` literal would read as text "-0" in Gson but "0" here.
- Duplicate keys in a JSON object are not modelled: an object is a map.
- ApiClient.FormatDuration: `String.format` uses the default locale, whose digits are taken to be the ASCII ones. A locale with other digits (Arabic, for one) writes those instead.
- Json.AsInt: a JSON string is parsed with ASCII digits only. `Integer.parseInt` also accepts other Unicode decimal digits.
- Danmaku.MaxRow: `(int) (screenHeight * 0.6 / 48)` is computed in doubles in the source. The model takes it as the exact value `screenHeight / 80`, truncated toward zero.
- Danmaku: per-frame updates of the animation's left margin, view styling, the Android view tree and `Log` calls are not modelled. The measured width comes from the `Draw` input. The `context`, `random` and `danmakuIndex` fields play no role; `danmakuIndex` is never read.
- Danmaku: the container is taken to be non-null. Only `clear()` null-checks it.
- Danmaku.Clear: does not cancel running animators. Their end listeners later remove views that are already gone, which LateAnimationEndIsNoOp covers.
- Danmaku: the loaded comment buffer is never shown on screen by the manager, so only its contents are modelled.
- Video: the getters are modelled as `GetStr`, `GetInt` and `GetBool`, one per field kind. `publishTime` is a Java long and the counters are ints; both are unbounded integers here, because the setters store their argument without arithmetic.
- Catalogue: the Java class keeps its state in static fields. Here the state is a `Factory` value threaded through the calls. The getters take the mock lists as a parameter, and the factory's own are `BuiltInMocks()`.
- Catalogue: the mock records' URLs are written as a shared prefix followed by the distinct part, which spells the same strings as the source.
- Activities, fragments, presenters, settings and the players are not part of this model.

## Findings

| source | as written | input that shows it | evidently intended | confidence | as-written member | corrected member |
|---|---|---|---|---|---|---|
| app/src/main/java/com/flashfinger/bilitv/data/VideoData.java:197-199 | `set4K` assigns its parameter to itself, so the field is never written | `new VideoData()` then `set4K(true)`: `is4K()` is still false, while the record's own test expects true | store the flag in the field (`this.is4K = is4K`) | high; not executed | Video.SetBool (with Video.Set4KLeavesFlagFalse) | Video.SetBoolIntended |

Every record built by `createVideo`, `createLive` or the parsers therefore
has `is4K()` false. `get4KVideos` filters the recommended row on `is4K()`, so
the 4K row always falls back to the mock 4K list (Catalogue.FourKRowFromApiIsMock).
The rest of the model keeps the as-written setter, because that fallback is how
the app actually behaves. Even the corrected setter would not satisfy the test's
second expectation, that the quality becomes "4K": `set4K` never touched
`quality`.

Three other places where the code differs from what its comments and
documentation suggest are modelled as written:
- `stop()` clears the paused flag, so a stopped manager admits comments.
- `release()` leaves admission open, and a later `loadDanmaku` throws because the buffer is null.
- `clear()` removes the views but leaves their animators running.
