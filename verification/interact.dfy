/** The decoded `INTERACT_WORD_V2` sub-message and how a user and an interaction kind are
    read out of it. The record's shape follows the generated protobuf type as the classifier
    uses it: scalar fields are always present, nested messages may be absent. */
module Interact {
  import opened Wrappers
  import opened Ints
  import opened Errors
  import opened Users

  datatype Base = Base(face: string)
  datatype Wealth = Wealth(level: I64)
  datatype Uinfo = Uinfo(base: Option<Base>, wealth: Option<Wealth>)
  datatype FansMedal = FansMedal(medalLevel: I64, score: I64)

  datatype InteractWord = InteractWord(
    uid: U64,
    uname: string,
    timestamp: U64,
    msgType: int,
    uinfo: Option<Uinfo>,
    fansMedal: Option<FansMedal>)

  datatype InteractKind = JoinRoom | Subscribe | Share

  /** `nested_opt!(iw2; uinfo, base; face)`: absent when either nested level is. */
  function Face(w: InteractWord): (r: Option<string>)
    ensures r.Some? <==> w.uinfo.Some? && w.uinfo.value.base.Some?
    ensures r.Some? ==> r.value == w.uinfo.value.base.value.face
  {
    match w.uinfo
    case Some(u) => (match u.base case Some(b) => Some(b.face) case None => None)
    case None => None
  }

  /** `nested_opt!(iw2; uinfo, wealth; level)`. */
  function WealthLevel(w: InteractWord): (r: Option<I64>)
    ensures r.Some? <==> w.uinfo.Some? && w.uinfo.value.wealth.Some?
    ensures r.Some? ==> r.value == w.uinfo.value.wealth.value.level
  {
    match w.uinfo
    case Some(u) => (match u.wealth case Some(x) => Some(x.level) case None => None)
    case None => None
  }

  /** `nested_opt!(iw2; fans_medal; medal_level)`. */
  function MedalLevel(w: InteractWord): (r: Option<I64>)
    ensures r.Some? <==> w.fansMedal.Some?
    ensures r.Some? ==> r.value == w.fansMedal.value.medalLevel
  {
    match w.fansMedal
    case Some(m) => Some(m.medalLevel)
    case None => None
  }

  /** `nested_opt!(iw2; fans_medal; score)`. */
  function MedalScore(w: InteractWord): (r: Option<I64>)
    ensures r.Some? <==> w.fansMedal.Some?
    ensures r.Some? ==> r.value == w.fansMedal.value.score
  {
    match w.fansMedal
    case Some(m) => Some(m.score)
    case None => None
  }

  /** The user of an interaction. `uid` and `uname` are plain protobuf scalars, always
      present, so `UserInfo::new` cannot fail here whatever nested parts are missing. */
  function InteractUser(w: InteractWord): (r: Result<UserInfo, Error>)
    ensures r.Success?
    ensures r.value.uid == w.uid && r.value.uname == w.uname
    ensures r.value.face == Face(w) && r.value.wealthLevel == WealthLevel(w)
    ensures r.value.medalLevel == MedalLevel(w) && r.value.medalScore == MedalScore(w)
  {
    NewUserInfo(Some(w.uid), Some(w.uname), Face(w), MedalLevel(w), MedalScore(w), WealthLevel(w))
  }

  /** The record the platform would encode for user `u`: the nested `uinfo` and its `base`
      and `wealth` parts appear only when something in them is present. A fan badge carries
      level and score together, so `u` must have both or neither. */
  function InteractRecord(u: UserInfo, timestamp: U64, code: int): InteractWord
    requires u.medalLevel.Some? <==> u.medalScore.Some?
  {
    var base := if u.face.Some? then Some(Base(u.face.value)) else None;
    var wealth := if u.wealthLevel.Some? then Some(Wealth(u.wealthLevel.value)) else None;
    var uinfo := if base.Some? || wealth.Some? then Some(Uinfo(base, wealth)) else None;
    var medal := if u.medalLevel.Some? then Some(FansMedal(u.medalLevel.value, u.medalScore.value)) else None;
    InteractWord(u.uid, u.uname, timestamp, code, uinfo, medal)
  }

  /** The user read out of the record written for it is that user. */
  lemma InteractUserRoundTrip(u: UserInfo, timestamp: U64, code: int)
    requires u.medalLevel.Some? <==> u.medalScore.Some?
    ensures InteractUser(InteractRecord(u, timestamp, code)) == Success(u)
  {
  }

  /** The sub-code the platform sends for each kind. */
  function KindCode(k: InteractKind): int {
    match k
    case JoinRoom => 1
    case Subscribe => 2
    case Share => 3
  }

  /** The `msg_type` match: 1, 2 and 3 are join, subscribe and share; every other code is
      a failure. */
  function KindOf(code: int): (r: Result<InteractKind, Error>)
    ensures r.Success? <==> code in {1, 2, 3}
    ensures r.Failure? ==> r.error == UnknownInteractType
  {
    match code
    case 1 => Success(JoinRoom)
    case 2 => Success(Subscribe)
    case 3 => Success(Share)
    case _ => Failure(UnknownInteractType)
  }

  /** `KindOf` decodes exactly the codes `KindCode` assigns, and only those. */
  lemma KindCodeRoundTrip(code: int, k: InteractKind)
    ensures KindOf(code) == Success(k) <==> code == KindCode(k)
  {
  }
}
