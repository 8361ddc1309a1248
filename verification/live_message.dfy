/** `LiveMessage`: the closed set of typed events the classifier produces. */
module LiveMessages {
  import opened Wrappers
  import opened Ints
  import opened Timestamps
  import opened Users
  import opened Interact

  datatype BattleStatus = Start | Process | End

  /** One variant per supported notification, plus `Unsupported` carrying the unknown tag.
      `SteamEnd` keeps the source's spelling of the stream-ended variant. */
  datatype LiveMessage =
    | StreamStart(timestamp: Timestamp)
    | SteamEnd(timestamp: Timestamp)
    | Danmaku(timestamp: Timestamp, user: UserInfo, text: string, extra: map<string, string>)
    | SuperChat(timestamp: Timestamp, user: UserInfo, price: I64, text: string)
    | Gift(
        timestamp: Timestamp,
        user: UserInfo,
        giftName: string,
        giftCount: I64,
        coinType: string,
        totalCoin: I64,
        imgBasic: Option<string>,
        imgWebp: Option<string>)
    | Like(timestamp: Timestamp, user: UserInfo)
    | BattleInfo(
        timestamp: Timestamp,
        status: BattleStatus,
        opponentRoom: string,
        hostVotes: I64,
        opponentVotes: I64)
    | UserInteract(timestamp: Timestamp, user: UserInfo, kind: InteractKind)
    | WatchedChange(timestamp: Timestamp, count: I64)
    | Unsupported(tag: string)

  /** The timestamp selection of `LiveMessage::timestamp`: every event but `Unsupported`
      carries one. */
  function EventTimestamp(m: LiveMessage): (r: Option<Timestamp>)
    ensures r.None? <==> m.Unsupported?
    ensures r.Some? ==> r.value == m.timestamp
  {
    if m.Unsupported? then None else Some(m.timestamp)
  }
}
