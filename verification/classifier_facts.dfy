/** Properties of the classifier that relate several calls or pin down concrete cases. */
module ClassifierFacts {
  import opened Wrappers
  import opened Ints
  import opened Errors
  import opened Json
  import opened Decimal
  import opened Timestamps
  import opened Users
  import opened Interact
  import opened LiveMessages
  import opened Classifier
  import opened Payloads

  /** The tag alone decides an unsupported notification's fate: two notifications with the
      same unknown tag classify alike whatever their payloads, rooms, clocks and decoders. */
  lemma UnknownTagIgnoresPayload(m1: RawMessage, m2: RawMessage, c1: I64, c2: I64, k1: Codecs, k2: Codecs)
    requires HasCommand(m1) && HasCommand(m2)
    requires MsgType(m1) == MsgType(m2) && MsgType(m1) !in KNOWN_TAGS
    ensures Classify(m1, c1, k1) == Classify(m2, c2, k2)
    ensures Classify(m1, c1, k1).Success?
  {
  }

  /** A known tag is never reported as unsupported, whether it succeeds or fails. */
  lemma KnownTagNeverUnsupported(m: RawMessage, clock: I64, codecs: Codecs)
    requires HasCommand(m) && MsgType(m) in KNOWN_TAGS
    ensures Classify(m, clock, codecs).Success? ==> !Classify(m, clock, codecs).value.Unsupported?
  {
  }

  /** The two events that the feed sends without a time are stamped by the local clock. */
  lemma LocalTimeEvents(m: RawMessage, clock: I64, codecs: Codecs)
    requires HasCommand(m)
    requires MsgType(m) in {"LIKE_INFO_V3_CLICK", "WATCHED_CHANGE"}
    ensures Classify(m, clock, codecs).Success? ==>
              EventTimestamp(Classify(m, clock, codecs).value) == Some(NewLocal(clock))
  {
  }

  /** A notification with no `info` array at all fails on the common-data slot. */
  lemma DanmakuWithoutInfo(data: Value, codecs: Codecs)
    requires Index(data, Key("info")) == Null
    ensures ClassifyDanmaku(data, codecs) == Failure(MissingField("common data"))
  {
  }

  /** When the connected room is one of the two sides, the host's view does not depend on
      which side the platform lists as `init_info`. */
  lemma SidesOrderIrrelevant(roomId: string, roomA: U64, voteA: I64, roomB: U64, voteB: I64)
    requires ParseDecimal(roomId) == Some(roomA) && roomA != roomB
    ensures AssignSides(roomId, roomA, voteA, roomB, voteB) == AssignSides(roomId, roomB, voteB, roomA, voteA)
  {
  }

  /** When the connected room is neither side, the listing order does matter: each order
      names the other room as the opponent. */
  lemma StrangerRoomDependsOnOrder(roomId: string, roomA: U64, voteA: I64, roomB: U64, voteB: I64)
    requires ParseDecimal(roomId) != Some(roomA) && ParseDecimal(roomId) != Some(roomB)
    requires roomA != roomB
    ensures AssignSides(roomId, roomA, voteA, roomB, voteB).opponentRoom
            != AssignSides(roomId, roomB, voteB, roomA, voteA).opponentRoom
  {
    PrintInjective(roomA, roomB);
  }

  /** A connected room id that is not a canonical decimal (a leading zero, a sign, blank
      space) never equals a printed room number, so it always takes the swapping branch. */
  lemma NonCanonicalRoomAlwaysSwaps(roomId: string, roomA: U64, voteA: I64, roomB: U64, voteB: I64)
    requires !Canonical(roomId)
    ensures AssignSides(roomId, roomA, voteA, roomB, voteB) == Sides(ToDecimal(roomA), voteB, voteA)
  {
  }

  /** Rooms 100 (5 votes, listed first) and 200 (9 votes), seen from room 200: the opponent
      is room 100 and the votes are swapped. */
  lemma BattleSeenFromMatchRoom(clock: I64, codecs: Codecs)
    ensures Classify(RawMessage("200", BattleDocument("PK_BATTLE_PROCESS_NEW", 100, 5, 200, 9, 1_700_000_000)), clock, codecs)
            == Success(BattleInfo(Timestamp(1_700_000_000_000, true), Process, "100", 9, 5))
  {
    RoomNames();
    PrintedIffParsed(100, "200");
    assert AssignSides("200", 100, 5, 200, 9) == Sides("100", 9, 5);
    BattleOfDocument("PK_BATTLE_PROCESS_NEW", "200", 100, 5, 200, 9, 1_700_000_000, clock, codecs);
  }

  /** The same battle seen from room 100: the opponent is room 200 and the votes keep their
      order. */
  lemma BattleSeenFromInitRoom(clock: I64, codecs: Codecs)
    ensures Classify(RawMessage("100", BattleDocument("PK_BATTLE_PROCESS_NEW", 100, 5, 200, 9, 1_700_000_000)), clock, codecs)
            == Success(BattleInfo(Timestamp(1_700_000_000_000, true), Process, "200", 5, 9))
  {
    RoomNames();
    PrintedIffParsed(100, "100");
    assert AssignSides("100", 100, 5, 200, 9) == Sides("200", 5, 9);
    BattleOfDocument("PK_BATTLE_PROCESS_NEW", "100", 100, 5, 200, 9, 1_700_000_000, clock, codecs);
  }

  /** The printed ids of the two example rooms. */
  lemma RoomNames()
    ensures ToDecimal(100) == "100" && ToDecimal(200) == "200"
  {
  }

  /** A battle notification missing its vote counts still classifies, each count reading
      as 0. */
  lemma BattleVotesDefault(tag: string, roomId: string, initRoom: U64, matchRoom: U64, time: U64)
    requires tag in BATTLE_TAGS
    ensures
      var doc := Obj(map[
        "timestamp" := Num(time),
        "data" := Obj(map[
          "init_info" := Obj(map["room_id" := Num(initRoom)]),
          "match_info" := Obj(map["room_id" := Num(matchRoom)])])]);
      var r := ClassifyBattle(tag, roomId, doc);
      r.Success? && r.value.hostVotes == 0 && r.value.opponentVotes == 0
  {
  }

  /** An interaction record the decoder might produce, with sub-code `code`. */
  function Interaction(code: int): InteractWord {
    InteractWord(42, "viewer", 1_700_000_000, code, None, None)
  }

  /** Sub-code 2 is a subscription; sub-code 9 is a failure, never `Unsupported`. The user
      built from a record without nested parts has no avatar, badge or wealth level. */
  lemma InteractExample(roomId: string, pb: string, code: int, clock: I64, codecs: Codecs)
    requires code == 2 || code == 9
    requires codecs.decodeInteract(pb) == Some(Interaction(code))
    ensures code == 2 ==>
              Classify(RawMessage(roomId, InteractDocument(pb)), clock, codecs)
              == Success(UserInteract(Timestamp(1_700_000_000_000, true),
                                      UserInfo(42, "viewer", None, None, None, None), Subscribe))
    ensures code == 9 ==>
              Classify(RawMessage(roomId, InteractDocument(pb)), clock, codecs) == Failure(UnknownInteractType)
  {
    var doc := InteractDocument(pb);
    assert Index(doc, Key("cmd")) == Str("INTERACT_WORD_V2");
    assert DataField(doc, "pb") == Str(pb) by {
      AtTwo(doc, Key("data"), Key("pb"));
    }
  }
}
