# Live-broadcast event classifier, modelled in Dafny

This project models the event classifier of a client for a live-broadcast platform's realtime feed
(`src/live/message.rs`). Each notification from the platform is a loosely typed JSON document
tagged by its `cmd` field. The classifier turns it into one variant of the closed `LiveMessage`
union, or into an error that names what was missing:

- stream start and end
- chat (danmaku)
- super chat
- gift
- like
- PK battle
- user interaction (join, follow, share)
- watched-count change
- `Unsupported` for every other tag

The model is purely functional:

- `wrappers.dfy`: `Option` and `Result`. `:-` plays the part of Rust's `?`.
- `ints.dfy`: `u64` and `i64` as ranges of `int`, and the `i64 as u64` cast.
- `json.dfy`: the JSON document as a datatype. It has serde_json's total indexing (a missing key or
  position, or the wrong kind of container, reads as `Null`) and the accessors `as_u64`, `as_i64`
  and `as_str`, which give `None` on a type mismatch.
- `decimal.dfy`: how Rust prints an unsigned integer in decimal, with its inverse on canonical
  digit strings. The PK battle branch compares a printed room number with the connected room's id.
- `errors.dfy`: the failures (`MissingField`, `DecodeFailure`, `UnknownInteractType`) and
  `Option::required`.
- `timestamps.dfy`: `Timestamp::new_server`, `new_local` and `Display`, with a parser for the
  displayed form.
- `users.dfy`: `UserInfo::new` and `UserInfo::from_uinfo`, with a writer of `uinfo` documents.
- `interact.dfy`: the decoded `INTERACT_WORD_V2` record, the `nested_opt!` lookups and the
  sub-code table.
- `live_message.dfy`: the `LiveMessage` union and its timestamp selector.
- `classifier.dfy`: one function per tag and the dispatching `Classify`.
- `classifier_facts.dfy`: properties that relate several calls, and concrete cases.
- `payloads.dfy`: a writer of the notification the platform sends for every event kind (stream
  start and end, chat, super chat, gift, like, PK battle, interaction, viewer count), each with a
  round trip through the classifier.

`Classify` takes two things besides the `RawMessage`, which also carries the connected room's id:

- the local clock's reading in milliseconds, which replaces `Local::now()`;
- a `Codecs` value holding the three foreign decoders the classifier calls:
  - base64 followed by protobuf decoding of `InteractWordV2`;
  - `serde_json::from_str`;
  - `serde_json::to_string`.

These decoders are arbitrary functions. Every property proved holds for all of them.

Three details of the code are worth stating:

- The chat message's user is read directly as `info[0][15]["user"]`; only `extra` is a JSON
  string that is parsed.
- In a PK battle where neither side's room is the connected room, nothing is rejected: the
  `init_info` side is the opponent and the votes are swapped, as when the `match_info` side is
  the connected room.
- A null common-data slot in `DANMU_MSG` gives the text "failed to parse common data". This is
  the same message that `required("common data")` would produce, so the model reports it as
  `MissingField("common data")`.

## Model

| member | source | states |
|---|---|---|
| Json.Index | src/live/message.rs:277 | indexing a document yields the entry when the key or position is present; a missing key, an out-of-range position or the wrong kind of container yields `Null` |
| Json.NullAbsorbs | src/live/message.rs:150-153 | any chain of indexing steps applied to `Null` is `Null`, so a missing intermediate level is never an error |
| Json.AtAppend | src/live/message.rs:277-290 | a chain of lookups can be split anywhere: `v[p][q]` is `(v[p])[q]`, as `common_data["extra"]` is `message["info"][0][15]["extra"]` |
| Json.MissingPrefix | src/live/message.rs:277-290 | once a prefix of a lookup chain finds nothing, the whole chain finds nothing |
| Json.AsU64 | src/live/message.rs:149 | `as_u64` answers exactly for integers in `[0, 2^64)` and then returns the number itself; strings, floats, null and out-of-range integers give `None` |
| Json.AsI64 | src/live/message.rs:152-153 | `as_i64` answers exactly for integers in `[-2^63, 2^63)` and returns the number itself; anything else gives `None` |
| Json.AsStr | src/live/message.rs:150-151 | `as_str` answers exactly for strings, with their text |
| Json.IntegerAccessorsAgree | src/live/message.rs:149-153 | `as_u64` and `as_i64` agree wherever both answer, and both answer exactly on `[0, 2^63)` |
| Ints.I64AsU64 | src/live/message.rs:101 | `as u64` on an `i64` keeps the value modulo 2^64 and leaves non-negative values unchanged |
| Decimal.ToDecimal | src/live/message.rs:357-365 | `u64::to_string` yields a non-empty string of digits with no leading zero unless the number is 0 |
| Decimal.PrintedIffParsed | src/live/message.rs:372 | a string equals the printed form of `n` exactly when it is a canonical decimal spelling `n` |
| Decimal.ParseAfterPrint | src/live/message.rs:357-365 | reading back the printed form of a room number gives the number |
| Decimal.PrintInjective | src/live/message.rs:372 | distinct room numbers print differently, so the room comparison tells rooms apart |
| Errors.Required | src/live/message.rs:70-74 | `required` succeeds exactly when the value is present, keeps it, and otherwise fails naming the field |
| Timestamps.NewServer | src/live/message.rs:83-97 | an absent reading fails naming "timestamp"; a reading below 10^12 is seconds and becomes `t*1000`; one at or above is kept; the result is tagged as from the server and never overflows `u64` |
| Timestamps.SecondsAndMillisAgree | src/live/message.rs:84-91 | from 2001-09-09 on, the same instant given in seconds or in milliseconds normalises to the same timestamp |
| Timestamps.NormaliseIdempotent | src/live/message.rs:84-91 | for readings from 2001-09-09 on, normalising the normalised value changes nothing |
| Timestamps.NewLocal | src/live/message.rs:99-104 | a local timestamp is tagged as local and holds the clock's millisecond reading cast to `u64` |
| Timestamps.Show | src/live/message.rs:107-116 | the display is the decimal millisecond value followed by `S` for server or `C` for local |
| Timestamps.ShowRoundTrip | src/live/message.rs:107-116 | the display can be read back into the timestamp it came from |
| Timestamps.ShowInjective | src/live/message.rs:107-116 | two timestamps display alike only when they are equal |
| Users.NewUserInfo | src/live/message.rs:129-145 | `uid` is checked before `uname`, and a missing `uid` is reported even when `uname` is also missing; it succeeds exactly when both are present; avatar, badge level, badge score and wealth level pass through unchanged, so absent stays absent |
| Users.RebuildUser | src/live/message.rs:137-144 | every user is rebuilt exactly from its own fields |
| Users.FromUinfo | src/live/message.rs:147-156 | a `uinfo` document gives `uid` from `uid`, the name and avatar from `base`, and badge level and score from `medal`, with the caller's wealth level; it fails on `uid` first, then on `name` |
| Users.UinfoRoundTrip | src/live/message.rs:147-156 | reading a user out of the `uinfo` document written for it gives the same user |
| Interact.Face | src/live/message.rs:254-263 | the avatar of an interaction is present exactly when both `uinfo` and `uinfo.base` are |
| Interact.WealthLevel | src/live/message.rs:401 | the wealth level is present exactly when both `uinfo` and `uinfo.wealth` are |
| Interact.MedalLevel | src/live/message.rs:399 | the badge level is present exactly when `fans_medal` is |
| Interact.MedalScore | src/live/message.rs:400 | the badge score is present exactly when `fans_medal` is |
| Interact.InteractUser | src/live/message.rs:395-402 | a decoded interaction always yields a user, whatever nested parts are missing, with its own `uid` and `uname` |
| Interact.InteractUserRoundTrip | src/live/message.rs:395-402 | the user read out of the interaction record written for any user (fan badge level and score together) is that user |
| Interact.KindOf | src/live/message.rs:403-410 | sub-codes 1, 2 and 3 succeed and every other code fails with the unknown-type error |
| Interact.KindCodeRoundTrip | src/live/message.rs:403-410 | a sub-code decodes to a kind exactly when it is that kind's code (1 join, 2 subscribe, 3 share) |
| LiveMessages.EventTimestamp | src/live/message.rs:236-248 | every event except `Unsupported` carries a timestamp |
| Classifier.MsgType | src/live/message.rs:41-43 | the tag is the text of the document's `cmd` string |
| Classifier.ClassifyLive | src/live/message.rs:270-272 | `LIVE` gives a stream start stamped by the server's `live_time`, or fails naming "timestamp" exactly when that is not a `u64` |
| Classifier.ClassifyPreparing | src/live/message.rs:273-275 | `PREPARING` gives a stream end stamped by the server's `send_time`, or fails naming "timestamp" exactly when that is absent |
| Classifier.ExtraDocument | src/live/message.rs:283-285 | a string `extra` always gives its parse (present exactly when it parses), and an `extra` that is not a string gives nothing |
| Classifier.DanmakuExtra | src/live/message.rs:287-295 | the `extra` map has no key but "emots"; it has "emots" exactly when the blob parses and its `emots` is non-null, and then holds that value serialised |
| Classifier.ClassifyDanmaku | src/live/message.rs:276-306 | a null `info[0][15]` fails on the common data before any other field is read; next the time at `info[0][4]` is required, then the user from the common data with wealth from `info[16][0]` (its own error wins), then the text at `info[1]`; the first missing one is the error reported; success holds these values and the extra map |
| Classifier.ClassifySuperChat | src/live/message.rs:307-317 | requires the time, then the user, then the price, then the message, and reports the first one missing (the user's own error for the user); only those five failures can occur; the user never has a wealth level; a success carries the normalised server time read from `data.ts` |
| Classifier.ClassifyGift | src/live/message.rs:318-342 | requires the time, then the user, then the gift name, count, coin type and total, and reports the first one missing (the user's own error for the user); the two pictures are copied when they are strings and otherwise absent, never a failure; a success carries the normalised server time read from `data.timestamp` |
| Classifier.ClassifyLike | src/live/message.rs:343-348 | a like succeeds exactly when its user does, and fails with the user's own error (`uid` before `uname`); it is stamped by the local clock |
| Classifier.ClassifyWatched | src/live/message.rs:413-416 | a watched-count change succeeds exactly when `data.num` is an `i64`; it is stamped by the local clock |
| Classifier.BattleStatusOf | src/live/message.rs:349-355 | the start, process and settle tags map to `Start`, `Process` and `End`, one to one |
| Classifier.AssignSides | src/live/message.rs:367-377 | when the connected room id is the canonical decimal of the `init_info` room, the opponent is the `match_info` room and the votes are `(init, match)`; otherwise, including when neither room matches, the opponent is the `init_info` room and the votes are swapped; the two counts are only reordered |
| Classifier.ClassifyBattle | src/live/message.rs:349-386 | the `init_info` room is required, then the `match_info` room, then the top-level timestamp; missing votes read as 0 and never fail; success holds the tag's status and the sides chosen by `AssignSides` |
| Classifier.ClassifyInteract | src/live/message.rs:387-412 | a missing `pb` fails first and an undecodable one fails next; a decoded record with a sub-code other than 1, 2 or 3 fails with the unknown-type error; otherwise it succeeds and holds the kind with that code, the record's server timestamp and user; the only failures are these three |
| Classifier.Classify | src/live/message.rs:268-419 | a tag outside the table gives `Unsupported(tag)` and never an error, whatever the payload; a known tag gives its own variant (the battle tags with their own status) or one of that tag's listed failures, never `Unsupported` |
| ClassifierFacts.UnknownTagIgnoresPayload | src/live/message.rs:417 | two notifications with the same unknown tag classify alike, whatever their payload, room, clock or decoders |
| ClassifierFacts.KnownTagNeverUnsupported | src/live/message.rs:269-416 | a tag in the table is never classified as `Unsupported` |
| ClassifierFacts.LocalTimeEvents | src/live/message.rs:343-348 | likes and watched-count changes carry the local clock's timestamp |
| ClassifierFacts.DanmakuWithoutInfo | src/live/message.rs:277-281 | a chat notification without any `info` fails on the common data |
| ClassifierFacts.SidesOrderIrrelevant | src/live/message.rs:371-377 | when the connected room is one of the two sides, swapping which side is listed as `init_info` does not change the host's view |
| ClassifierFacts.StrangerRoomDependsOnOrder | src/live/message.rs:371-377 | when the connected room is neither side, the two listing orders name different opponents |
| ClassifierFacts.NonCanonicalRoomAlwaysSwaps | src/live/message.rs:372-376 | a connected room id that is not a canonical decimal (such as "0100") never matches, so the init room is always the opponent |
| Payloads.ReadBattleDocument | src/live/message.rs:357-380 | the rooms, votes and time of a battle document are found on the paths the classifier reads |
| Payloads.BattleOfDocument | src/live/message.rs:349-386 | for every battle tag, rooms, votes, connected room and time, classifying the battle document gives the tag's status, the normalised server time and the sides `AssignSides` picks |
| ClassifierFacts.BattleSeenFromMatchRoom | src/live/message.rs:371-377 | rooms 100 (5 votes, listed first) and 200 (9 votes) seen from room 200 give opponent "100", host votes 9 and opponent votes 5 |
| ClassifierFacts.BattleSeenFromInitRoom | src/live/message.rs:371-377 | the same battle seen from room 100 gives opponent "200", host votes 5 and opponent votes 9 |
| ClassifierFacts.BattleVotesDefault | src/live/message.rs:367-369 | a battle with both rooms and a time but no vote counts succeeds with both counts 0 |
| ClassifierFacts.InteractExample | src/live/message.rs:394-410 | a decoded interaction with sub-code 2 is a subscription with the record's server time and a user without optional parts; sub-code 9 fails with the unknown-type error, not `Unsupported` |
| Payloads.LiveRoundTrip | src/live/message.rs:270-272 | a `LIVE` notification written with any time classifies as a stream start at that time, normalised |
| Payloads.PreparingRoundTrip | src/live/message.rs:273-275 | a `PREPARING` notification written with any time classifies as a stream end at that time, normalised |
| Payloads.ReadDanmakuDocument | src/live/message.rs:277-303 | the positional slots of a written chat message hold its common data, time, text and wealth level |
| Payloads.ExtraOfDocument | src/live/message.rs:283-295 | the extra map of a written chat message is empty without an `extra` string and otherwise holds the non-null `emots` of its parse |
| Payloads.SenderOfCommon | src/live/message.rs:299-302 | the sender written into a chat message's common data reads back, wealth level and all |
| Payloads.DanmakuOfFields | src/live/message.rs:276-306 | any chat message whose common data, time, text and wealth slots hold written values classifies as that chat message, whatever its other slots hold |
| Payloads.DanmakuBranch | src/live/message.rs:276-306 | the chat branch reads back every written chat message: time, sender, text and extra map |
| Payloads.DanmakuRoundTrip | src/live/message.rs:276-306 | a `DANMU_MSG` notification written with any time, sender, text and `extra` string classifies as that chat message |
| Payloads.ReadSuperChatDocument | src/live/message.rs:307-317 | each field of a written super chat sits on the path the classifier reads |
| Payloads.SuperChatBranch | src/live/message.rs:307-317 | the super chat branch reads back any written super chat, the sender without a wealth level |
| Payloads.SuperChatRoundTrip | src/live/message.rs:307-317 | a super chat written with any time, sender, price and text classifies back to them, the sender without a wealth level |
| Payloads.ReadGiftData | src/live/message.rs:318-342 | each field of a written gift's `data` object is where the gift branch reads it |
| Payloads.ReadGiftInfo | src/live/message.rs:336-341 | the written pictures read back, absent ones as absent |
| Payloads.ReadGiftDocument | src/live/message.rs:318-342 | a written gift document holds its time, sender, name, count, coin type, total and pictures on the paths the classifier reads |
| Payloads.GiftBranch | src/live/message.rs:318-342 | the gift branch reads back any written gift exactly, pictures and all |
| Payloads.GiftRoundTrip | src/live/message.rs:318-342 | a gift written with any time, sender, details and optional pictures classifies back to exactly those values |
| Payloads.LikeRoundTrip | src/live/message.rs:343-348 | a like written for any user classifies back to that user, without a wealth level, at the local clock's time |
| Payloads.InteractRoundTrip | src/live/message.rs:387-412 | an `INTERACT_WORD_V2` notification whose `pb` decodes to the record written for any user, time and kind classifies as that interaction, at the normalised server time |
| Payloads.WatchedRoundTrip | src/live/message.rs:413-416 | a viewer count written with any value classifies back to it, at the local clock's time |

## Left out

- `RawMessage::new`, `data`, `display`, `Display`, `Deref` and `Into` (src/live/message.rs:21-64) construct, print or expose the raw document and hold no logic; the model uses the `RawMessage` datatype directly.
- `msg_type` panics when `cmd` is not a string. The model makes "`cmd` is a string" a precondition of `Classify` and does not model the panic.
- `Local::now()` in `new_local` is a clock read; the reading is a parameter.
- Base64 (section 4 of RFC 4648) and protobuf decoding of `INTERACT_WORD_V2` are not modelled. They are one arbitrary function returning `None` on any failure. The text of their errors is not modelled.
- The schema `src/live/proto/INTERACT_WORD_V2.proto` is not part of this model. The record's field types follow from how the classifier uses them. `uid`, `uname`, `timestamp` and `msg_type` are plain scalars, always present. `uinfo`, `uinfo.base`, `uinfo.wealth` and `fans_medal` are nested messages that may be absent.
- `serde_json::from_str` and `serde_json::to_string` of the chat `extra` blob are arbitrary functions. The error path of `to_string` at src/live/message.rs:293 is not modelled: serialising a `Value` with string keys cannot fail.
- JSON numbers that serde_json holds as `f64` are `Float(real)`. No floating-point arithmetic is modelled, because the classifier only asks whether a number is an integer in range.
- `unreachable!()` at src/live/message.rs:354 cannot be reached: `BattleStatusOf` is only defined on the three battle tags.
- The conversion at src/live/message.rs:250 is not modelled; `LiveMessages.EventTimestamp` models only the choice of timestamp before it. This line passes the millisecond value to chrono's `timestamp_micros`, which reads it as microseconds. Chrono's calendar and time-zone handling is outside the model.
- Error values are a datatype, not anyhow's context chains; only the field or reason each failure names is kept.
- The session orchestration in `src/live.rs` (two polling loops on a shared lock, a stop flag and a bounded channel), logging and persistence (`src/data`), process start-up (`src/main.rs`), the build script and the credential formatter are not modelled. They are concurrency, I/O or one-line formatting.
