/** Writers of the notifications the platform sends for each event, and the round trips that
    tie the places the classifier reads to these independent descriptions of the payloads. */
module Payloads {
  import opened Wrappers
  import opened Ints
  import opened Errors
  import opened Json
  import opened Timestamps
  import opened Users
  import opened Interact
  import opened LiveMessages
  import opened Classifier

  /** `LIVE` with the time the stream went live. */
  function LiveDocument(time: U64): Value {
    Obj(map["cmd" := Str("LIVE"), "live_time" := Num(time)])
  }

  /** `PREPARING` with the time the stream ended. */
  function PreparingDocument(time: U64): Value {
    Obj(map["cmd" := Str("PREPARING"), "send_time" := Num(time)])
  }

  lemma LiveRoundTrip(roomId: string, time: U64, clock: I64, codecs: Codecs)
    ensures Classify(RawMessage(roomId, LiveDocument(time)), clock, codecs)
            == Success(StreamStart(NewServer(Some(time)).value))
  {
    var msg := RawMessage(roomId, LiveDocument(time));
    assert MsgType(msg) == "LIVE";
    DispatchLive(msg, clock, codecs);
  }

  lemma PreparingRoundTrip(roomId: string, time: U64, clock: I64, codecs: Codecs)
    ensures Classify(RawMessage(roomId, PreparingDocument(time)), clock, codecs)
            == Success(SteamEnd(NewServer(Some(time)).value))
  {
    var msg := RawMessage(roomId, PreparingDocument(time));
    assert MsgType(msg) == "PREPARING";
    DispatchPreparing(msg, clock, codecs);
  }

  /** `Some(v)` as `v`, absence as `Null`: both read back as absent. */
  function OrNull(v: Option<Value>): Value {
    if v.Some? then v.value else Null
  }

  /** The common-data object of a chat message: the sender and, when given, the `extra`
      string. */
  function CommonDocument(u: UserInfo, extra: Option<string>): Value {
    Obj(map["user" := UinfoDocument(u)] + OptionalEntry("extra", StrOrAbsent(extra)))
  }

  /** `info[0]`: sixteen slots, the send time in slot 4 and the common data in slot 15. */
  function InfoHead(time: U64, common: Value): Value {
    Arr(seq(16, i => if i == 4 then Num(time) else if i == 15 then common else Null))
  }

  /** The `info` array of a chat message: seventeen slots, `info[1]` the text and
      `info[16][0]` the sender's wealth level. */
  function InfoArray(time: U64, u: UserInfo, text: string, extra: Option<string>): Value {
    Arr(seq(17, i =>
      if i == 0 then InfoHead(time, CommonDocument(u, extra))
      else if i == 1 then Str(text)
      else if i == 16 then Arr([OrNull(NumOrAbsent(u.wealthLevel))])
      else Null))
  }

  /** `DANMU_MSG` from a sender, a text and an optional `extra` string. */
  function DanmakuDocument(time: U64, u: UserInfo, text: string, extra: Option<string>): Value {
    Obj(map["cmd" := Str("DANMU_MSG"), "info" := InfoArray(time, u, text, extra)])
  }

  /** What the `extra` string contributes, read from its parse alone. */
  function EmotsOf(parsed: Option<Value>, codecs: Codecs): map<string, string> {
    if parsed.Some? && parsed.value.Obj? && "emots" in parsed.value.fields
       && parsed.value.fields["emots"] != Null
    then map["emots" := codecs.renderJson(parsed.value.fields["emots"])]
    else map[]
  }

  lemma ReadDanmakuDocument(time: U64, u: UserInfo, text: string, extra: Option<string>)
    ensures var doc := DanmakuDocument(time, u, text, extra);
            && CommonData(doc) == CommonDocument(u, extra)
            && DanmakuTime(doc) == Num(time)
            && DanmakuText(doc) == Str(text)
            && AsI64(DanmakuWealth(doc)) == u.wealthLevel
  {
    var doc := DanmakuDocument(time, u, text, extra);
    var info := InfoArray(time, u, text, extra);
    assert Index(doc, Key("info")) == info;
    AtThree(doc, Key("info"), Idx(0), Idx(15));
    AtThree(doc, Key("info"), Idx(0), Idx(4));
    AtThree(doc, Key("info"), Idx(16), Idx(0));
    AtTwo(doc, Key("info"), Idx(1));
    assert Index(info, Idx(0)) == InfoHead(time, CommonDocument(u, extra));
    assert Index(info, Idx(16)) == Arr([OrNull(NumOrAbsent(u.wealthLevel))]);
  }

  /** The extra map of a written chat message depends on its `extra` string alone. */
  lemma ExtraOfDocument(u: UserInfo, extra: Option<string>, codecs: Codecs)
    ensures DanmakuExtra(CommonDocument(u, extra), codecs)
            == if extra.Some? then EmotsOf(codecs.parseJson(extra.value), codecs) else map[]
  {
    var common := CommonDocument(u, extra);
    if extra.Some? {
      assert Index(common, Key("extra")) == Str(extra.value);
    } else {
      assert Index(common, Key("extra")) == Null;
    }
  }

  /** A chat message reads back with its time, sender and text; without an `extra` string
      its extra map is empty, and with one it holds what the string's parse contributes. */
  lemma DanmakuRoundTrip(roomId: string, time: U64, u: UserInfo, text: string, extra: Option<string>,
                         clock: I64, codecs: Codecs)
    ensures Classify(RawMessage(roomId, DanmakuDocument(time, u, text, extra)), clock, codecs)
            == Success(Danmaku(NewServer(Some(time)).value, u, text,
                               if extra.Some? then EmotsOf(codecs.parseJson(extra.value), codecs) else map[]))
  {
    var doc := DanmakuDocument(time, u, text, extra);
    var msg := RawMessage(roomId, doc);
    assert MsgType(msg) == "DANMU_MSG";
    DispatchDanmaku(msg, clock, codecs);
    DanmakuBranch(time, u, text, extra, codecs);
  }

  lemma DanmakuBranch(time: U64, u: UserInfo, text: string, extra: Option<string>, codecs: Codecs)
    ensures ClassifyDanmaku(DanmakuDocument(time, u, text, extra), codecs)
            == Success(Danmaku(NewServer(Some(time)).value, u, text,
                               if extra.Some? then EmotsOf(codecs.parseJson(extra.value), codecs) else map[]))
  {
    ReadDanmakuDocument(time, u, text, extra);
    DanmakuOfFields(DanmakuDocument(time, u, text, extra), time, u, text, extra, codecs);
  }

  /** Any chat message whose common data, time, text and wealth slots hold a written sender,
      a time and a text classifies as that chat message, whatever else it contains. */
  lemma DanmakuOfFields(data: Value, time: U64, u: UserInfo, text: string, extra: Option<string>,
                        codecs: Codecs)
    requires CommonData(data) == CommonDocument(u, extra)
    requires DanmakuTime(data) == Num(time)
    requires DanmakuText(data) == Str(text)
    requires AsI64(DanmakuWealth(data)) == u.wealthLevel
    ensures ClassifyDanmaku(data, codecs)
            == Success(Danmaku(NewServer(Some(time)).value, u, text,
                               if extra.Some? then EmotsOf(codecs.parseJson(extra.value), codecs) else map[]))
  {
    SenderOfCommon(u, extra);
    ExtraOfDocument(u, extra, codecs);
    var r := ClassifyDanmaku(data, codecs);
    assert r.Success?;
  }

  /** The sender written into a chat message's common data reads back, wealth level and all. */
  lemma SenderOfCommon(u: UserInfo, extra: Option<string>)
    ensures FromUinfo(Index(CommonDocument(u, extra), Key("user")), u.wealthLevel) == Success(u)
  {
    UinfoRoundTrip(u);
    assert Index(CommonDocument(u, extra), Key("user")) == UinfoDocument(u);
  }

  /** `SUPER_CHAT_MESSAGE` from a sender, a price and a text. */
  function SuperChatDocument(time: U64, u: UserInfo, price: I64, text: string): Value {
    Obj(map["cmd" := Str("SUPER_CHAT_MESSAGE"), "data" := SuperChatData(time, u, price, text)])
  }

  /** The super chat's `data` object. */
  function SuperChatData(time: U64, u: UserInfo, price: I64, text: string): Value {
    Obj(map["ts" := Num(time), "uinfo" := UinfoDocument(u), "price" := Num(price), "message" := Str(text)])
  }

  /** Each field of a written super chat is where the classifier reads it. */
  lemma ReadSuperChatDocument(time: U64, u: UserInfo, price: I64, text: string)
    ensures At(SuperChatDocument(time, u, price, text), [Key("data"), Key("ts")]) == Num(time)
    ensures At(SuperChatDocument(time, u, price, text), [Key("data"), Key("uinfo")]) == UinfoDocument(u)
    ensures At(SuperChatDocument(time, u, price, text), [Key("data"), Key("price")]) == Num(price)
    ensures At(SuperChatDocument(time, u, price, text), [Key("data"), Key("message")]) == Str(text)
  {
    var doc := SuperChatDocument(time, u, price, text);
    AtTwo(doc, Key("data"), Key("ts"));
    AtTwo(doc, Key("data"), Key("uinfo"));
    AtTwo(doc, Key("data"), Key("price"));
    AtTwo(doc, Key("data"), Key("message"));
  }

  /** The super chat branch reads back a written super chat; the sender loses only the wealth
      level, which this event never carries. */
  lemma SuperChatBranch(time: U64, u: UserInfo, price: I64, text: string)
    ensures ClassifySuperChat(SuperChatDocument(time, u, price, text))
            == Success(SuperChat(NewServer(Some(time)).value, u.(wealthLevel := None), price, text))
  {
    ReadSuperChatDocument(time, u, price, text);
    UinfoRoundTrip(u.(wealthLevel := None));
    assert UinfoDocument(u.(wealthLevel := None)) == UinfoDocument(u);
  }

  /** A super chat reads back with its time, price and text; its sender loses only the wealth
      level, which this event never carries. */
  lemma SuperChatRoundTrip(roomId: string, time: U64, u: UserInfo, price: I64, text: string,
                           clock: I64, codecs: Codecs)
    ensures Classify(RawMessage(roomId, SuperChatDocument(time, u, price, text)), clock, codecs)
            == Success(SuperChat(NewServer(Some(time)).value, u.(wealthLevel := None), price, text))
  {
    var msg := RawMessage(roomId, SuperChatDocument(time, u, price, text));
    assert MsgType(msg) == "SUPER_CHAT_MESSAGE";
    DispatchSuperChat(msg, clock, codecs);
    SuperChatBranch(time, u, price, text);
  }

  /** `SEND_GIFT` from a sender and the gift's details; absent pictures are absent keys. */
  function GiftDocument(time: U64, u: UserInfo, name: string, count: I64, coin: string, total: I64,
                        imgBasic: Option<string>, imgWebp: Option<string>): Value {
    Obj(map[
      "cmd" := Str("SEND_GIFT"),
      "data" := GiftData(time, u, name, count, coin, total, GiftInfo(imgBasic, imgWebp))])
  }

  /** The gift's `data` object. */
  function GiftData(time: U64, u: UserInfo, name: string, count: I64, coin: string, total: I64,
                    info: Value): Value {
    Obj(map[
      "timestamp" := Num(time),
      "sender_uinfo" := UinfoDocument(u),
      "wealth_level" := OrNull(NumOrAbsent(u.wealthLevel)),
      "giftName" := Str(name),
      "num" := Num(count),
      "coin_type" := Str(coin),
      "total_coin" := Num(total),
      "gift_info" := info])
  }

  /** The gift's pictures. */
  function GiftInfo(imgBasic: Option<string>, imgWebp: Option<string>): Value {
    Obj(OptionalEntry("img_basic", StrOrAbsent(imgBasic)) + OptionalEntry("webp", StrOrAbsent(imgWebp)))
  }

  lemma ReadGiftData(time: U64, u: UserInfo, name: string, count: I64, coin: string, total: I64, info: Value)
    ensures var d := GiftData(time, u, name, count, coin, total, info);
            && Index(d, Key("timestamp")) == Num(time)
            && Index(d, Key("sender_uinfo")) == UinfoDocument(u)
            && AsI64(Index(d, Key("wealth_level"))) == u.wealthLevel
            && Index(d, Key("giftName")) == Str(name)
            && Index(d, Key("num")) == Num(count)
            && Index(d, Key("coin_type")) == Str(coin)
            && Index(d, Key("total_coin")) == Num(total)
            && Index(d, Key("gift_info")) == info
  {
  }

  lemma ReadGiftInfo(imgBasic: Option<string>, imgWebp: Option<string>)
    ensures AsStr(Index(GiftInfo(imgBasic, imgWebp), Key("img_basic"))) == imgBasic
    ensures AsStr(Index(GiftInfo(imgBasic, imgWebp), Key("webp"))) == imgWebp
  {
  }

  lemma ReadGiftDocument(time: U64, u: UserInfo, name: string, count: I64, coin: string, total: I64,
                         imgBasic: Option<string>, imgWebp: Option<string>)
    ensures var doc := GiftDocument(time, u, name, count, coin, total, imgBasic, imgWebp);
            && DataField(doc, "timestamp") == Num(time)
            && GiftSender(doc) == Success(u)
            && DataField(doc, "giftName") == Str(name)
            && DataField(doc, "num") == Num(count)
            && DataField(doc, "coin_type") == Str(coin)
            && DataField(doc, "total_coin") == Num(total)
            && AsStr(GiftImage(doc, "img_basic")) == imgBasic
            && AsStr(GiftImage(doc, "webp")) == imgWebp
  {
    var doc := GiftDocument(time, u, name, count, coin, total, imgBasic, imgWebp);
    var info := GiftInfo(imgBasic, imgWebp);
    assert Index(doc, Key("data")) == GiftData(time, u, name, count, coin, total, info);
    ReadGiftData(time, u, name, count, coin, total, info);
    ReadGiftInfo(imgBasic, imgWebp);
    AtTwo(doc, Key("data"), Key("timestamp"));
    AtTwo(doc, Key("data"), Key("sender_uinfo"));
    AtTwo(doc, Key("data"), Key("wealth_level"));
    AtTwo(doc, Key("data"), Key("giftName"));
    AtTwo(doc, Key("data"), Key("num"));
    AtTwo(doc, Key("data"), Key("coin_type"));
    AtTwo(doc, Key("data"), Key("total_coin"));
    AtThree(doc, Key("data"), Key("gift_info"), Key("img_basic"));
    AtThree(doc, Key("data"), Key("gift_info"), Key("webp"));
    UinfoRoundTrip(u);
  }

  /** The gift branch reads back a written gift exactly, pictures and all. */
  lemma GiftBranch(time: U64, u: UserInfo, name: string, count: I64, coin: string, total: I64,
                   imgBasic: Option<string>, imgWebp: Option<string>)
    ensures ClassifyGift(GiftDocument(time, u, name, count, coin, total, imgBasic, imgWebp))
            == Success(Gift(NewServer(Some(time)).value, u, name, count, coin, total, imgBasic, imgWebp))
  {
    ReadGiftDocument(time, u, name, count, coin, total, imgBasic, imgWebp);
  }

  /** A gift reads back exactly, pictures and all. */
  lemma GiftRoundTrip(roomId: string, time: U64, u: UserInfo, name: string, count: I64, coin: string,
                      total: I64, imgBasic: Option<string>, imgWebp: Option<string>, clock: I64, codecs: Codecs)
    ensures Classify(RawMessage(roomId, GiftDocument(time, u, name, count, coin, total, imgBasic, imgWebp)), clock, codecs)
            == Success(Gift(NewServer(Some(time)).value, u, name, count, coin, total, imgBasic, imgWebp))
  {
    var msg := RawMessage(roomId, GiftDocument(time, u, name, count, coin, total, imgBasic, imgWebp));
    assert MsgType(msg) == "SEND_GIFT";
    DispatchGift(msg, clock, codecs);
    GiftBranch(time, u, name, count, coin, total, imgBasic, imgWebp);
  }

  /** `LIKE_INFO_V3_CLICK` from the liking user. */
  function LikeDocument(u: UserInfo): Value {
    Obj(map["cmd" := Str("LIKE_INFO_V3_CLICK"), "data" := Obj(map["uinfo" := UinfoDocument(u)])])
  }

  /** A like reads back with its user, less the wealth level, stamped by the local clock. */
  lemma LikeRoundTrip(roomId: string, u: UserInfo, clock: I64, codecs: Codecs)
    ensures Classify(RawMessage(roomId, LikeDocument(u)), clock, codecs)
            == Success(Like(NewLocal(clock), u.(wealthLevel := None)))
  {
    var doc := LikeDocument(u);
    AtTwo(doc, Key("data"), Key("uinfo"));
    UinfoRoundTrip(u.(wealthLevel := None));
    assert UinfoDocument(u.(wealthLevel := None)) == UinfoDocument(u);
    var msg := RawMessage(roomId, doc);
    assert MsgType(msg) == "LIKE_INFO_V3_CLICK";
    DispatchLike(msg, clock, codecs);
  }

  /** `WATCHED_CHANGE` with the viewer count. */
  function WatchedDocument(count: I64): Value {
    Obj(map["cmd" := Str("WATCHED_CHANGE"), "data" := Obj(map["num" := Num(count)])])
  }

  /** A viewer count reads back, stamped by the local clock. */
  lemma WatchedRoundTrip(roomId: string, count: I64, clock: I64, codecs: Codecs)
    ensures Classify(RawMessage(roomId, WatchedDocument(count)), clock, codecs)
            == Success(WatchedChange(NewLocal(clock), count))
  {
    var doc := WatchedDocument(count);
    AtTwo(doc, Key("data"), Key("num"));
    var msg := RawMessage(roomId, doc);
    assert MsgType(msg) == "WATCHED_CHANGE";
    DispatchWatched(msg, clock, codecs);
  }

  /** A battle notification with the given sides and time. */
  function BattleDocument(tag: string, initRoom: U64, initVotes: I64, matchRoom: U64, matchVotes: I64, time: U64): Value {
    Obj(map[
      "cmd" := Str(tag),
      "timestamp" := Num(time),
      "data" := Obj(map[
        "init_info" := Obj(map["room_id" := Num(initRoom), "votes" := Num(initVotes)]),
        "match_info" := Obj(map["room_id" := Num(matchRoom), "votes" := Num(matchVotes)])])])
  }

  /** Reading a battle document: its tag, rooms, votes and time are where the classifier
      looks for them. */
  lemma ReadBattleDocument(tag: string, initRoom: U64, initVotes: I64, matchRoom: U64, matchVotes: I64, time: U64)
    ensures var doc := BattleDocument(tag, initRoom, initVotes, matchRoom, matchVotes, time);
            && Index(doc, Key("cmd")) == Str(tag)
            && InitRoom(doc) == Num(initRoom) && MatchRoom(doc) == Num(matchRoom)
            && InitVotes(doc) == Num(initVotes) && MatchVotes(doc) == Num(matchVotes)
            && Index(doc, Key("timestamp")) == Num(time)
  {
  }

  /** Classifying any battle document gives the status of its tag, its server time and the
      sides `AssignSides` picks for the connected room. */
  lemma BattleOfDocument(tag: string, roomId: string, initRoom: U64, initVotes: I64, matchRoom: U64,
                         matchVotes: I64, time: U64, clock: I64, codecs: Codecs)
    requires tag in BATTLE_TAGS
    ensures var sides := AssignSides(roomId, initRoom, initVotes, matchRoom, matchVotes);
            Classify(RawMessage(roomId, BattleDocument(tag, initRoom, initVotes, matchRoom, matchVotes, time)), clock, codecs)
            == Success(BattleInfo(NewServer(Some(time)).value, BattleStatusOf(tag),
                                  sides.opponentRoom, sides.hostVotes, sides.opponentVotes))
  {
    var doc := BattleDocument(tag, initRoom, initVotes, matchRoom, matchVotes, time);
    ReadBattleDocument(tag, initRoom, initVotes, matchRoom, matchVotes, time);
    var msg := RawMessage(roomId, doc);
    assert MsgType(msg) == tag;
    DispatchBattle(msg, clock, codecs);
    assert ClassifyBattle(tag, roomId, doc).Success?;
  }

  /** The document carrying an encoded interaction. */
  function InteractDocument(pb: string): Value {
    Obj(map["cmd" := Str("INTERACT_WORD_V2"), "data" := Obj(map["pb" := Str(pb)])])
  }

  /** An interaction whose encoded record decodes to a record written for any user, time and
      kind classifies as that interaction. */
  lemma InteractRoundTrip(roomId: string, pb: string, u: UserInfo, time: U64, k: InteractKind,
                          clock: I64, codecs: Codecs)
    requires u.medalLevel.Some? <==> u.medalScore.Some?
    requires codecs.decodeInteract(pb) == Some(InteractRecord(u, time, KindCode(k)))
    ensures Classify(RawMessage(roomId, InteractDocument(pb)), clock, codecs)
            == Success(UserInteract(NewServer(Some(time)).value, u, k))
  {
    var doc := InteractDocument(pb);
    var msg := RawMessage(roomId, doc);
    assert Index(doc, Key("cmd")) == Str("INTERACT_WORD_V2");
    assert MsgType(msg) == "INTERACT_WORD_V2";
    DispatchInteract(msg, clock, codecs);
    AtTwo(doc, Key("data"), Key("pb"));
    InteractUserRoundTrip(u, time, KindCode(k));
    KindCodeRoundTrip(KindCode(k), k);
  }
}
