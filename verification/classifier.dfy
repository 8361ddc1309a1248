/** `TryFrom<RawMessage> for LiveMessage`: dispatch on the `cmd` tag of a raw notification
    to one variant of `LiveMessage`, or to a failure naming what was missing. */
module Classifier {
  import opened Wrappers
  import opened Ints
  import opened Errors
  import opened Json
  import opened Decimal
  import opened Timestamps
  import opened Users
  import opened Interact
  import opened LiveMessages

  /** A notification together with the room the session is connected to. */
  datatype RawMessage = RawMessage(roomId: string, data: Value)

  /** The decoders the classifier calls but that are not modelled here.
      - `decodeInteract`: standard base64 (section 4 of RFC 4648) followed by protobuf
        decoding of the `InteractWordV2` message; `None` when either step fails.
      - `parseJson`: `serde_json::from_str(..).ok()`.
      - `renderJson`: `serde_json::to_string` of a value, which cannot fail for a `Value`. */
  datatype Codecs = Codecs(
    decodeInteract: string -> Option<InteractWord>,
    parseJson: string -> Option<Value>,
    renderJson: Value -> string)

  /** `msg_type` reads the `cmd` field and panics when it is not a string; callers of the
      classifier must supply one. */
  predicate HasCommand(msg: RawMessage) {
    Index(msg.data, Key("cmd")).Str?
  }

  /** `RawMessage::msg_type`. */
  function MsgType(msg: RawMessage): (tag: string)
    requires HasCommand(msg)
    ensures Index(msg.data, Key("cmd")) == Str(tag)
  {
    Index(msg.data, Key("cmd")).s
  }

  const BATTLE_TAGS: set<string> :=
    {"PK_BATTLE_START_NEW", "PK_BATTLE_PROCESS_NEW", "PK_BATTLE_SETTLE_NEW"}

  /** Every tag with a dedicated variant. */
  const KNOWN_TAGS: set<string> :=
    {"LIVE", "PREPARING", "DANMU_MSG", "SUPER_CHAT_MESSAGE", "SEND_GIFT", "LIKE_INFO_V3_CLICK",
     "INTERACT_WORD_V2", "WATCHED_CHANGE"} + BATTLE_TAGS

  // ----- LIVE and PREPARING -----------------------------------------------------------

  /** `LIVE`: the stream went live at the server time `live_time`. */
  function ClassifyLive(data: Value): (r: Result<LiveMessage, Error>)
    ensures r.Success? <==> AsU64(Index(data, Key("live_time"))).Some?
    ensures r.Failure? ==> r.error == MissingField("timestamp")
    ensures r.Success? ==> r.value.StreamStart? && r.value.timestamp.fromServer
    ensures r.Success? ==> r.value.timestamp == NewServer(AsU64(Index(data, Key("live_time")))).value
  {
    var ts :- NewServer(AsU64(Index(data, Key("live_time"))));
    Success(StreamStart(ts))
  }

  /** `PREPARING`: the stream ended at the server time `send_time`. */
  function ClassifyPreparing(data: Value): (r: Result<LiveMessage, Error>)
    ensures r.Success? <==> AsU64(Index(data, Key("send_time"))).Some?
    ensures r.Failure? ==> r.error == MissingField("timestamp")
    ensures r.Success? ==> r.value.SteamEnd? && r.value.timestamp.fromServer
    ensures r.Success? ==> r.value.timestamp == NewServer(AsU64(Index(data, Key("send_time")))).value
  {
    var ts :- NewServer(AsU64(Index(data, Key("send_time"))));
    Success(SteamEnd(ts))
  }

  // ----- DANMU_MSG: a positional schema under `info` ------------------------------------

  /** `info[0][15]`, the common-data slot holding the sender and the `extra` blob. */
  function CommonData(data: Value): Value {
    At(data, [Key("info"), Idx(0), Idx(15)])
  }

  /** `info[0][4]`, the send time. */
  function DanmakuTime(data: Value): Value {
    At(data, [Key("info"), Idx(0), Idx(4)])
  }

  /** `info[1]`, the chat text. */
  function DanmakuText(data: Value): Value {
    At(data, [Key("info"), Idx(1)])
  }

  /** `info[16][0]`, the sender's wealth level. */
  function DanmakuWealth(data: Value): Value {
    At(data, [Key("info"), Idx(16), Idx(0)])
  }

  /** The common data's `extra` string, parsed as JSON; absent when it is not a string or
      does not parse. */
  function ExtraDocument(common: Value, codecs: Codecs): (r: Option<Value>)
    ensures AsStr(Index(common, Key("extra"))).Some? ==>
              r == codecs.parseJson(AsStr(Index(common, Key("extra"))).value)
    ensures AsStr(Index(common, Key("extra"))).None? ==> r.None?
  {
    match AsStr(Index(common, Key("extra")))
    case Some(s) => codecs.parseJson(s)
    case None => None
  }

  /** The `extra` map of a chat message: at most the one key "emots", present exactly when the
      `extra` blob parses and holds a non-null `emots`, whose serialised form it then holds. */
  function DanmakuExtra(common: Value, codecs: Codecs): (extra: map<string, string>)
    ensures extra.Keys <= {"emots"}
    ensures "emots" in extra <==>
              ExtraDocument(common, codecs).Some?
              && Index(ExtraDocument(common, codecs).value, Key("emots")) != Null
    ensures "emots" in extra ==>
              extra["emots"] == codecs.renderJson(Index(ExtraDocument(common, codecs).value, Key("emots")))
  {
    match ExtraDocument(common, codecs)
    case Some(doc) =>
      var emots := Index(doc, Key("emots"));
      if emots != Null then map["emots" := codecs.renderJson(emots)] else map[]
    case None => map[]
  }

  /** `DANMU_MSG`. A null common-data slot fails before any other field is read; after it the
      send time, the sender (from `common["user"]`, wealth from `info[16][0]`) and the text
      are required in that order. The `extra` map never causes a failure. */
  function ClassifyDanmaku(data: Value, codecs: Codecs): (r: Result<LiveMessage, Error>)
    ensures CommonData(data) == Null ==> r == Failure(MissingField("common data"))
    ensures CommonData(data) != Null && AsU64(DanmakuTime(data)).None?
            ==> r == Failure(MissingField("timestamp"))
    ensures CommonData(data) != Null && AsU64(DanmakuTime(data)).Some?
            && FromUinfo(Index(CommonData(data), Key("user")), AsI64(DanmakuWealth(data))).Failure?
            ==> r == Failure(FromUinfo(Index(CommonData(data), Key("user")), AsI64(DanmakuWealth(data))).error)
    ensures CommonData(data) != Null && AsU64(DanmakuTime(data)).Some?
            && FromUinfo(Index(CommonData(data), Key("user")), AsI64(DanmakuWealth(data))).Success?
            && AsStr(DanmakuText(data)).None?
            ==> r == Failure(MissingField("danmaku text"))
    ensures r.Success? <==>
              && CommonData(data) != Null
              && AsU64(DanmakuTime(data)).Some?
              && FromUinfo(Index(CommonData(data), Key("user")), AsI64(DanmakuWealth(data))).Success?
              && AsStr(DanmakuText(data)).Some?
    ensures r.Success? ==> r.value.Danmaku?
    ensures r.Success? ==> r.value.timestamp == NewServer(AsU64(DanmakuTime(data))).value
    ensures r.Success? ==>
              r.value.user == FromUinfo(Index(CommonData(data), Key("user")), AsI64(DanmakuWealth(data))).value
    ensures r.Success? ==> Str(r.value.text) == DanmakuText(data)
    ensures r.Success? ==> r.value.extra == DanmakuExtra(CommonData(data), codecs)
  {
    var common := CommonData(data);
    if common == Null then Failure(MissingField("common data"))
    else
      var extra := DanmakuExtra(common, codecs);
      var ts :- NewServer(AsU64(DanmakuTime(data)));
      var user :- FromUinfo(Index(common, Key("user")), AsI64(DanmakuWealth(data)));
      var text :- Required(AsStr(DanmakuText(data)), "danmaku text");
      Success(Danmaku(ts, user, text, extra))
  }

  // ----- SUPER_CHAT_MESSAGE and SEND_GIFT -----------------------------------------------

  /** `data[key]`. */
  function DataField(data: Value, key: string): Value {
    At(data, [Key("data"), Key(key)])
  }

  /** `SUPER_CHAT_MESSAGE`: time, sender (no wealth level in this shape), price and text,
      required in that order. */
  function ClassifySuperChat(data: Value): (r: Result<LiveMessage, Error>)
    ensures AsU64(DataField(data, "ts")).None? ==> r == Failure(MissingField("timestamp"))
    ensures AsU64(DataField(data, "ts")).Some? && FromUinfo(DataField(data, "uinfo"), None).Failure?
            ==> r == Failure(FromUinfo(DataField(data, "uinfo"), None).error)
    ensures AsU64(DataField(data, "ts")).Some? && FromUinfo(DataField(data, "uinfo"), None).Success?
            && AsI64(DataField(data, "price")).None?
            ==> r == Failure(MissingField("super chat price"))
    ensures AsU64(DataField(data, "ts")).Some? && FromUinfo(DataField(data, "uinfo"), None).Success?
            && AsI64(DataField(data, "price")).Some? && AsStr(DataField(data, "message")).None?
            ==> r == Failure(MissingField("super chat message"))
    ensures r.Success? <==>
              && AsU64(DataField(data, "ts")).Some?
              && FromUinfo(DataField(data, "uinfo"), None).Success?
              && AsI64(DataField(data, "price")).Some?
              && AsStr(DataField(data, "message")).Some?
    ensures r.Failure? ==>
              r.error in {MissingField("timestamp"), MissingField("uid"), MissingField("uname"),
                          MissingField("super chat price"), MissingField("super chat message")}
    ensures r.Success? ==> r.value.SuperChat? && r.value.timestamp.fromServer
    ensures r.Success? ==> r.value.timestamp == NewServer(AsU64(DataField(data, "ts"))).value
    ensures r.Success? ==> r.value.user == FromUinfo(DataField(data, "uinfo"), None).value
    ensures r.Success? ==> r.value.user.wealthLevel.None?
    ensures r.Success? ==> Num(r.value.price) == DataField(data, "price")
                           && Str(r.value.text) == DataField(data, "message")
  {
    var ts :- NewServer(AsU64(DataField(data, "ts")));
    var user :- FromUinfo(DataField(data, "uinfo"), None);
    var price :- Required(AsI64(DataField(data, "price")), "super chat price");
    var text :- Required(AsStr(DataField(data, "message")), "super chat message");
    Success(SuperChat(ts, user, price, text))
  }

  /** `data.gift_info[key]`, the optional gift pictures. */
  function GiftImage(data: Value, key: string): Value {
    At(data, [Key("data"), Key("gift_info"), Key(key)])
  }

  /** The gift's sender: `data.sender_uinfo`, with the wealth level from `data.wealth_level`. */
  function GiftSender(data: Value): Result<UserInfo, Error> {
    FromUinfo(DataField(data, "sender_uinfo"), AsI64(DataField(data, "wealth_level")))
  }

  /** `SEND_GIFT`: time, sender (wealth level from `data.wealth_level`), gift name, count,
      coin type and total, required in that order; the two pictures are optional and never
      cause a failure. */
  function ClassifyGift(data: Value): (r: Result<LiveMessage, Error>)
    ensures AsU64(DataField(data, "timestamp")).None? ==> r == Failure(MissingField("timestamp"))
    ensures AsU64(DataField(data, "timestamp")).Some? && GiftSender(data).Failure?
            ==> r == Failure(GiftSender(data).error)
    ensures AsU64(DataField(data, "timestamp")).Some? && GiftSender(data).Success?
            && AsStr(DataField(data, "giftName")).None?
            ==> r == Failure(MissingField("gift name"))
    ensures AsU64(DataField(data, "timestamp")).Some? && GiftSender(data).Success?
            && AsStr(DataField(data, "giftName")).Some? && AsI64(DataField(data, "num")).None?
            ==> r == Failure(MissingField("gift count"))
    ensures AsU64(DataField(data, "timestamp")).Some? && GiftSender(data).Success?
            && AsStr(DataField(data, "giftName")).Some? && AsI64(DataField(data, "num")).Some?
            && AsStr(DataField(data, "coin_type")).None?
            ==> r == Failure(MissingField("coin type"))
    ensures AsU64(DataField(data, "timestamp")).Some? && GiftSender(data).Success?
            && AsStr(DataField(data, "giftName")).Some? && AsI64(DataField(data, "num")).Some?
            && AsStr(DataField(data, "coin_type")).Some? && AsI64(DataField(data, "total_coin")).None?
            ==> r == Failure(MissingField("total coin"))
    ensures r.Success? <==>
              && AsU64(DataField(data, "timestamp")).Some?
              && GiftSender(data).Success?
              && AsStr(DataField(data, "giftName")).Some?
              && AsI64(DataField(data, "num")).Some?
              && AsStr(DataField(data, "coin_type")).Some?
              && AsI64(DataField(data, "total_coin")).Some?
    ensures r.Failure? ==>
              r.error in {MissingField("timestamp"), MissingField("uid"), MissingField("uname"),
                          MissingField("gift name"), MissingField("gift count"),
                          MissingField("coin type"), MissingField("total coin")}
    ensures r.Success? ==> r.value.Gift? && r.value.timestamp.fromServer
    ensures r.Success? ==> r.value.timestamp == NewServer(AsU64(DataField(data, "timestamp"))).value
    ensures r.Success? ==> r.value.user == GiftSender(data).value
    ensures r.Success? ==> Str(r.value.giftName) == DataField(data, "giftName")
                           && Num(r.value.giftCount) == DataField(data, "num")
                           && Str(r.value.coinType) == DataField(data, "coin_type")
                           && Num(r.value.totalCoin) == DataField(data, "total_coin")
    ensures r.Success? ==> r.value.imgBasic == AsStr(GiftImage(data, "img_basic"))
                           && r.value.imgWebp == AsStr(GiftImage(data, "webp"))
  {
    var ts :- NewServer(AsU64(DataField(data, "timestamp")));
    var user :- GiftSender(data);
    var name :- Required(AsStr(DataField(data, "giftName")), "gift name");
    var count :- Required(AsI64(DataField(data, "num")), "gift count");
    var coin :- Required(AsStr(DataField(data, "coin_type")), "coin type");
    var total :- Required(AsI64(DataField(data, "total_coin")), "total coin");
    Success(Gift(ts, user, name, count, coin, total,
                 AsStr(GiftImage(data, "img_basic")), AsStr(GiftImage(data, "webp"))))
  }

  // ----- LIKE_INFO_V3_CLICK and WATCHED_CHANGE: local time -------------------------------

  /** `LIKE_INFO_V3_CLICK`: the feed carries no time, so the local clock is used. */
  function ClassifyLike(data: Value, clockMillis: I64): (r: Result<LiveMessage, Error>)
    ensures r.Success? <==> FromUinfo(DataField(data, "uinfo"), None).Success?
    ensures r.Failure? ==> r.error in {MissingField("uid"), MissingField("uname")}
    ensures r.Failure? ==> r == Failure(FromUinfo(DataField(data, "uinfo"), None).error)
    ensures r.Success? ==> r.value.Like? && !r.value.timestamp.fromServer
    ensures r.Success? ==> r.value.timestamp == NewLocal(clockMillis)
                           && r.value.user == FromUinfo(DataField(data, "uinfo"), None).value
  {
    var user :- FromUinfo(DataField(data, "uinfo"), None);
    Success(Like(NewLocal(clockMillis), user))
  }

  /** `WATCHED_CHANGE`: the viewer count, stamped with the local clock. */
  function ClassifyWatched(data: Value, clockMillis: I64): (r: Result<LiveMessage, Error>)
    ensures r.Success? <==> AsI64(DataField(data, "num")).Some?
    ensures r.Failure? ==> r.error == MissingField("watched count")
    ensures r.Success? ==> r.value.WatchedChange? && !r.value.timestamp.fromServer
    ensures r.Success? ==> Num(r.value.count) == DataField(data, "num")
                           && r.value.timestamp == NewLocal(clockMillis)
  {
    var count :- Required(AsI64(DataField(data, "num")), "watched count");
    Success(WatchedChange(NewLocal(clockMillis), count))
  }

  // ----- PK battles -------------------------------------------------------------------

  /** The three battle tags in the order of the battle's life. */
  function BattleStatusOf(tag: string): (s: BattleStatus)
    requires tag in BATTLE_TAGS
    ensures tag == "PK_BATTLE_START_NEW" <==> s == Start
    ensures tag == "PK_BATTLE_PROCESS_NEW" <==> s == Process
    ensures tag == "PK_BATTLE_SETTLE_NEW" <==> s == End
  {
    if tag == "PK_BATTLE_START_NEW" then Start
    else if tag == "PK_BATTLE_PROCESS_NEW" then Process
    else End
  }

  /** The host's view of a battle: the other room and the two vote counts. */
  datatype Sides = Sides(opponentRoom: string, hostVotes: I64, opponentVotes: I64)

  /** The `init_info` side is the host exactly when its room id prints as the connected
      room's id. In every other case, including a connected room matching neither side or
      spelled other than as a canonical decimal, the `init_info` side is the opponent and the
      votes are swapped. Either way the two vote counts are only reordered. */
  function AssignSides(roomId: string, roomA: U64, voteA: I64, roomB: U64, voteB: I64): (s: Sides)
    ensures ParseDecimal(roomId) == Some(roomA) ==> s == Sides(ToDecimal(roomB), voteA, voteB)
    ensures ParseDecimal(roomId) != Some(roomA) ==> s == Sides(ToDecimal(roomA), voteB, voteA)
    ensures multiset{s.hostVotes, s.opponentVotes} == multiset{voteA, voteB}
  {
    PrintedIffParsed(roomA, roomId);
    if ToDecimal(roomA) == roomId then Sides(ToDecimal(roomB), voteA, voteB)
    else Sides(ToDecimal(roomA), voteB, voteA)
  }

  function InitRoom(data: Value): Value {
    At(data, [Key("data"), Key("init_info"), Key("room_id")])
  }

  function MatchRoom(data: Value): Value {
    At(data, [Key("data"), Key("match_info"), Key("room_id")])
  }

  function InitVotes(data: Value): Value {
    At(data, [Key("data"), Key("init_info"), Key("votes")])
  }

  function MatchVotes(data: Value): Value {
    At(data, [Key("data"), Key("match_info"), Key("votes")])
  }

  /** The three `PK_BATTLE_*_NEW` tags. Both room ids are required, `init_info` first; a
      missing vote count reads as 0; the top-level `timestamp` is read last. */
  function ClassifyBattle(tag: string, roomId: string, data: Value): (r: Result<LiveMessage, Error>)
    requires tag in BATTLE_TAGS
    ensures AsU64(InitRoom(data)).None? ==> r == Failure(MissingField("init_info room"))
    ensures AsU64(InitRoom(data)).Some? && AsU64(MatchRoom(data)).None?
            ==> r == Failure(MissingField("match_info room"))
    ensures AsU64(InitRoom(data)).Some? && AsU64(MatchRoom(data)).Some?
            && AsU64(Index(data, Key("timestamp"))).None?
            ==> r == Failure(MissingField("timestamp"))
    ensures r.Success? <==>
              AsU64(InitRoom(data)).Some? && AsU64(MatchRoom(data)).Some?
              && AsU64(Index(data, Key("timestamp"))).Some?
    ensures r.Success? ==> r.value.BattleInfo? && r.value.status == BattleStatusOf(tag)
    ensures r.Success? ==> r.value.timestamp == NewServer(AsU64(Index(data, Key("timestamp")))).value
    ensures r.Success? ==>
              Sides(r.value.opponentRoom, r.value.hostVotes, r.value.opponentVotes)
              == AssignSides(roomId, AsU64(InitRoom(data)).value, AsI64(InitVotes(data)).GetOr(0),
                             AsU64(MatchRoom(data)).value, AsI64(MatchVotes(data)).GetOr(0))
  {
    var status := BattleStatusOf(tag);
    var roomA :- Required(AsU64(InitRoom(data)), "init_info room");
    var roomB :- Required(AsU64(MatchRoom(data)), "match_info room");
    var voteA := AsI64(InitVotes(data)).GetOr(0);
    var voteB := AsI64(MatchVotes(data)).GetOr(0);
    var sides := AssignSides(roomId, roomA, voteA, roomB, voteB);
    var ts :- NewServer(AsU64(Index(data, Key("timestamp"))));
    Success(BattleInfo(ts, status, sides.opponentRoom, sides.hostVotes, sides.opponentVotes))
  }

  // ----- INTERACT_WORD_V2 -------------------------------------------------------------

  /** `INTERACT_WORD_V2`: `data.pb` is required, then decoded; the decoded record always
      yields a server timestamp and a user, and its sub-code selects the kind of
      interaction, an unknown code being a failure. */
  function ClassifyInteract(data: Value, codecs: Codecs): (r: Result<LiveMessage, Error>)
    ensures AsStr(DataField(data, "pb")).None? ==> r == Failure(MissingField("pb"))
    ensures AsStr(DataField(data, "pb")).Some?
            && codecs.decodeInteract(AsStr(DataField(data, "pb")).value).None?
            ==> r == Failure(DecodeFailure)
    ensures r.Success? <==>
              && AsStr(DataField(data, "pb")).Some?
              && codecs.decodeInteract(AsStr(DataField(data, "pb")).value).Some?
              && codecs.decodeInteract(AsStr(DataField(data, "pb")).value).value.msgType in {1, 2, 3}
    ensures AsStr(DataField(data, "pb")).Some?
            && codecs.decodeInteract(AsStr(DataField(data, "pb")).value).Some?
            && codecs.decodeInteract(AsStr(DataField(data, "pb")).value).value.msgType !in {1, 2, 3}
            ==> r == Failure(UnknownInteractType)
    ensures r.Failure? ==> r.error in {MissingField("pb"), DecodeFailure, UnknownInteractType}
    ensures r.Success? ==>
              var w := codecs.decodeInteract(AsStr(DataField(data, "pb")).value).value;
              && r.value.UserInteract?
              && KindCode(r.value.kind) == w.msgType
              && r.value.timestamp == NewServer(Some(w.timestamp)).value
              && r.value.user == InteractUser(w).value
  {
    var pb :- Required(AsStr(DataField(data, "pb")), "pb");
    var w :- match codecs.decodeInteract(pb)
             case Some(w) => Success(w)
             case None => Failure(DecodeFailure);
    var ts := NewServer(Some(w.timestamp)).value;
    var user := InteractUser(w).value;
    var kind :- KindOf(w.msgType);
    Success(UserInteract(ts, user, kind))
  }

  // ----- dispatch ---------------------------------------------------------------------

  /** Which variant each tag produces. */
  predicate Produces(tag: string, m: LiveMessage) {
    if tag == "LIVE" then m.StreamStart?
    else if tag == "PREPARING" then m.SteamEnd?
    else if tag == "DANMU_MSG" then m.Danmaku?
    else if tag == "SUPER_CHAT_MESSAGE" then m.SuperChat?
    else if tag == "SEND_GIFT" then m.Gift?
    else if tag == "LIKE_INFO_V3_CLICK" then m.Like?
    else if tag in BATTLE_TAGS then m.BattleInfo? && m.status == BattleStatusOf(tag)
    else if tag == "INTERACT_WORD_V2" then m.UserInteract?
    else if tag == "WATCHED_CHANGE" then m.WatchedChange?
    else m == Unsupported(tag)
  }

  /** The only failures each tag can give. */
  function FailuresOf(tag: string): set<Error> {
    if tag == "LIVE" || tag == "PREPARING" then {MissingField("timestamp")}
    else if tag == "DANMU_MSG" then
      {MissingField("common data"), MissingField("timestamp"), MissingField("uid"),
       MissingField("uname"), MissingField("danmaku text")}
    else if tag == "SUPER_CHAT_MESSAGE" then
      {MissingField("timestamp"), MissingField("uid"), MissingField("uname"),
       MissingField("super chat price"), MissingField("super chat message")}
    else if tag == "SEND_GIFT" then
      {MissingField("timestamp"), MissingField("uid"), MissingField("uname"),
       MissingField("gift name"), MissingField("gift count"), MissingField("coin type"),
       MissingField("total coin")}
    else if tag == "LIKE_INFO_V3_CLICK" then {MissingField("uid"), MissingField("uname")}
    else if tag in BATTLE_TAGS then
      {MissingField("init_info room"), MissingField("match_info room"), MissingField("timestamp")}
    else if tag == "INTERACT_WORD_V2" then {MissingField("pb"), DecodeFailure, UnknownInteractType}
    else if tag == "WATCHED_CHANGE" then {MissingField("watched count")}
    else {}
  }

  /** `LiveMessage::try_from`. A tag outside the table is `Unsupported` whatever the payload
      holds; a known tag yields its own variant or one of its own failures, never
      `Unsupported`. */
  function Classify(msg: RawMessage, clockMillis: I64, codecs: Codecs): (r: Result<LiveMessage, Error>)
    requires HasCommand(msg)
    ensures MsgType(msg) !in KNOWN_TAGS ==> r == Success(Unsupported(MsgType(msg)))
    ensures r.Success? ==> Produces(MsgType(msg), r.value)
    ensures r.Failure? ==> r.error in FailuresOf(MsgType(msg))
  {
    var tag := MsgType(msg);
    var data := msg.data;
    if tag == "LIVE" then ClassifyLive(data)
    else if tag == "PREPARING" then ClassifyPreparing(data)
    else if tag == "DANMU_MSG" then ClassifyDanmaku(data, codecs)
    else if tag == "SUPER_CHAT_MESSAGE" then ClassifySuperChat(data)
    else if tag == "SEND_GIFT" then ClassifyGift(data)
    else if tag == "LIKE_INFO_V3_CLICK" then ClassifyLike(data, clockMillis)
    else if tag in BATTLE_TAGS then ClassifyBattle(tag, msg.roomId, data)
    else if tag == "INTERACT_WORD_V2" then ClassifyInteract(data, codecs)
    else if tag == "WATCHED_CHANGE" then ClassifyWatched(data, clockMillis)
    else Success(Unsupported(tag))
  }

  /** Which operation a message is handed to, by its tag. */
  lemma DispatchLive(msg: RawMessage, clockMillis: I64, codecs: Codecs)
    requires HasCommand(msg) && MsgType(msg) == "LIVE"
    ensures Classify(msg, clockMillis, codecs) == ClassifyLive(msg.data)
  {
  }

  lemma DispatchPreparing(msg: RawMessage, clockMillis: I64, codecs: Codecs)
    requires HasCommand(msg) && MsgType(msg) == "PREPARING"
    ensures Classify(msg, clockMillis, codecs) == ClassifyPreparing(msg.data)
  {
  }

  lemma DispatchDanmaku(msg: RawMessage, clockMillis: I64, codecs: Codecs)
    requires HasCommand(msg) && MsgType(msg) == "DANMU_MSG"
    ensures Classify(msg, clockMillis, codecs) == ClassifyDanmaku(msg.data, codecs)
  {
  }

  lemma DispatchSuperChat(msg: RawMessage, clockMillis: I64, codecs: Codecs)
    requires HasCommand(msg) && MsgType(msg) == "SUPER_CHAT_MESSAGE"
    ensures Classify(msg, clockMillis, codecs) == ClassifySuperChat(msg.data)
  {
  }

  lemma DispatchGift(msg: RawMessage, clockMillis: I64, codecs: Codecs)
    requires HasCommand(msg) && MsgType(msg) == "SEND_GIFT"
    ensures Classify(msg, clockMillis, codecs) == ClassifyGift(msg.data)
  {
  }

  lemma DispatchLike(msg: RawMessage, clockMillis: I64, codecs: Codecs)
    requires HasCommand(msg) && MsgType(msg) == "LIKE_INFO_V3_CLICK"
    ensures Classify(msg, clockMillis, codecs) == ClassifyLike(msg.data, clockMillis)
  {
  }

  lemma DispatchBattle(msg: RawMessage, clockMillis: I64, codecs: Codecs)
    requires HasCommand(msg) && MsgType(msg) in BATTLE_TAGS
    ensures Classify(msg, clockMillis, codecs) == ClassifyBattle(MsgType(msg), msg.roomId, msg.data)
  {
  }

  lemma DispatchInteract(msg: RawMessage, clockMillis: I64, codecs: Codecs)
    requires HasCommand(msg) && MsgType(msg) == "INTERACT_WORD_V2"
    ensures Classify(msg, clockMillis, codecs) == ClassifyInteract(msg.data, codecs)
  {
  }

  lemma DispatchWatched(msg: RawMessage, clockMillis: I64, codecs: Codecs)
    requires HasCommand(msg) && MsgType(msg) == "WATCHED_CHANGE"
    ensures Classify(msg, clockMillis, codecs) == ClassifyWatched(msg.data, clockMillis)
  {
  }
}
