/** `UserInfo`: the participant attached to an event, built from five already-located values
    or from a `uinfo` sub-document. */
module Users {
  import opened Wrappers
  import opened Ints
  import opened Errors
  import opened Json

  datatype UserInfo = UserInfo(
    uid: U64,
    uname: string,
    face: Option<string>,
    medalLevel: Option<I64>,
    medalScore: Option<I64>,
    wealthLevel: Option<I64>)

  /** `UserInfo::new`: `uid` is checked before `uname`, and the first one absent is the one
      reported; the four optional values are copied as they are, so an absent one stays
      absent and never causes a failure. */
  function NewUserInfo(
    uid: Option<U64>,
    uname: Option<string>,
    face: Option<string>,
    medalLevel: Option<I64>,
    medalScore: Option<I64>,
    wealthLevel: Option<I64>): (r: Result<UserInfo, Error>)
    ensures uid.None? ==> r == Failure(MissingField("uid"))
    ensures uid.Some? && uname.None? ==> r == Failure(MissingField("uname"))
    ensures r.Success? <==> uid.Some? && uname.Some?
    ensures r.Success? ==> r.value.uid == uid.value && r.value.uname == uname.value
    ensures r.Success? ==> r.value.face == face && r.value.medalLevel == medalLevel
    ensures r.Success? ==> r.value.medalScore == medalScore && r.value.wealthLevel == wealthLevel
  {
    var id :- Required(uid, "uid");
    var name :- Required(uname, "uname");
    Success(UserInfo(id, name, face, medalLevel, medalScore, wealthLevel))
  }

  /** Every user is rebuilt exactly from its own fields. */
  lemma RebuildUser(u: UserInfo)
    ensures NewUserInfo(Some(u.uid), Some(u.uname), u.face, u.medalLevel, u.medalScore, u.wealthLevel)
            == Success(u)
  {
  }

  /** Where `UserInfo::from_uinfo` looks inside a `uinfo` document. */
  const UID_PATH: seq<Step> := [Key("uid")]
  const NAME_PATH: seq<Step> := [Key("base"), Key("name")]
  const FACE_PATH: seq<Step> := [Key("base"), Key("face")]
  const MEDAL_LEVEL_PATH: seq<Step> := [Key("medal"), Key("level")]
  const MEDAL_SCORE_PATH: seq<Step> := [Key("medal"), Key("score")]

  /** `UserInfo::from_uinfo`: `uid` from `uid`, the name and avatar from `base`, the badge
      level and score from `medal`; the wealth level is supplied by the caller. */
  function FromUinfo(uinfo: Value, wealthLevel: Option<I64>): (r: Result<UserInfo, Error>)
    ensures AsU64(At(uinfo, UID_PATH)).None? ==> r == Failure(MissingField("uid"))
    ensures AsU64(At(uinfo, UID_PATH)).Some? && AsStr(At(uinfo, NAME_PATH)).None?
            ==> r == Failure(MissingField("uname"))
    ensures r.Success? <==> AsU64(At(uinfo, UID_PATH)).Some? && AsStr(At(uinfo, NAME_PATH)).Some?
    ensures r.Success? ==> Num(r.value.uid) == At(uinfo, UID_PATH)
                           && Str(r.value.uname) == At(uinfo, NAME_PATH)
    ensures r.Success? ==> r.value.face == AsStr(At(uinfo, FACE_PATH))
                           && r.value.medalLevel == AsI64(At(uinfo, MEDAL_LEVEL_PATH))
                           && r.value.medalScore == AsI64(At(uinfo, MEDAL_SCORE_PATH))
                           && r.value.wealthLevel == wealthLevel
  {
    NewUserInfo(
      AsU64(At(uinfo, UID_PATH)),
      AsStr(At(uinfo, NAME_PATH)),
      AsStr(At(uinfo, FACE_PATH)),
      AsI64(At(uinfo, MEDAL_LEVEL_PATH)),
      AsI64(At(uinfo, MEDAL_SCORE_PATH)),
      wealthLevel)
  }

  /** A map holding `key` only when the value is present. */
  function OptionalEntry(key: string, v: Option<Value>): map<string, Value> {
    if v.Some? then map[key := v.value] else map[]
  }

  function StrOrAbsent(o: Option<string>): Option<Value> {
    if o.Some? then Some(Str(o.value)) else None
  }

  function NumOrAbsent(o: Option<I64>): Option<Value> {
    if o.Some? then Some(Num(o.value)) else None
  }

  /** The `uinfo` document the platform would send for `u`; absent optional values are
      absent keys. */
  function UinfoDocument(u: UserInfo): Value {
    Obj(map[
      "uid" := Num(u.uid),
      "base" := Obj(map["name" := Str(u.uname)] + OptionalEntry("face", StrOrAbsent(u.face))),
      "medal" := Obj(OptionalEntry("level", NumOrAbsent(u.medalLevel))
                     + OptionalEntry("score", NumOrAbsent(u.medalScore)))])
  }

  /** Reading a user out of the document written for it gives the user back. */
  lemma UinfoRoundTrip(u: UserInfo)
    ensures FromUinfo(UinfoDocument(u), u.wealthLevel) == Success(u)
  {
    var d := UinfoDocument(u);
    var base := Obj(map["name" := Str(u.uname)] + OptionalEntry("face", StrOrAbsent(u.face)));
    var medal := Obj(OptionalEntry("level", NumOrAbsent(u.medalLevel))
                     + OptionalEntry("score", NumOrAbsent(u.medalScore)));
    assert At(d, UID_PATH) == Num(u.uid);
    assert At(d, NAME_PATH) == Str(u.uname) by {
      assert Index(d, Key("base")) == base;
    }
    assert AsStr(At(d, FACE_PATH)) == u.face by {
      assert Index(d, Key("base")) == base;
    }
    assert AsI64(At(d, MEDAL_LEVEL_PATH)) == u.medalLevel by {
      assert Index(d, Key("medal")) == medal;
    }
    assert AsI64(At(d, MEDAL_SCORE_PATH)) == u.medalScore by {
      assert Index(d, Key("medal")) == medal;
    }
  }
}
