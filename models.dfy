/** The enums, rows and request payloads of the relational schema. */
module Models {
  import opened Wrappers
  import opened Text
  import opened Time
  import opened Responses

  datatype RoleEnum = User | Staff | Admin

  /** The stage of a product. `Sampled` is not declared by the enum in the
      source, but the handlers store and count it, so it is part of the model. */
  datatype StageEnum = Initialized | Submitted | Sampled | Finished

  /** The PascalCase spelling the store and JSON use for a role. */
  function RoleName(r: RoleEnum): string {
    match r
    case User => "User"
    case Staff => "Staff"
    case Admin => "Admin"
  }

  function StageName(s: StageEnum): string {
    match s
    case Initialized => "Initialized"
    case Submitted => "Submitted"
    case Sampled => "Sampled"
    case Finished => "Finished"
  }

  /** The names a path parameter is matched against after lower-casing. */
  function RoleKeyword(r: RoleEnum): string {
    match r
    case User => "user"
    case Staff => "staff"
    case Admin => "admin"
  }

  /** Parses a role from a path parameter, ignoring case. */
  function RoleFromParam(param: string): (r: Result<RoleEnum, GenericError>)
    ensures r.Ok? ==> ToLower(param) == RoleKeyword(r.value)
    ensures r.Err? ==> r.error == InvalidInputError
    ensures r.Err? ==> forall v: RoleEnum :: ToLower(param) != RoleKeyword(v)
  {
    match ToLower(param)
    case "admin" => Ok(Admin)
    case "user" => Ok(User)
    case "staff" => Ok(Staff)
    case _ => Err(InvalidInputError)
  }

  /** The names of the three stages the parameter parser knows. */
  function StageKeyword(s: StageEnum): Option<string> {
    match s
    case Initialized => Some("initialized")
    case Submitted => Some("submitted")
    case Sampled => None
    case Finished => Some("finished")
  }

  /** Parses a stage filter from a path parameter, ignoring case; `Sampled`
      has no keyword and is never produced. */
  function StageFromParam(param: string): (r: Result<StageEnum, GenericError>)
    ensures r.Ok? ==> StageKeyword(r.value) == Some(ToLower(param))
    ensures r.Err? ==> r.error == InvalidInputError
    ensures r.Err? ==> forall s: StageEnum :: StageKeyword(s) != Some(ToLower(param))
  {
    match ToLower(param)
    case "initialized" => Ok(Initialized)
    case "submitted" => Ok(Submitted)
    case "finished" => Ok(Finished)
    case _ => Err(InvalidInputError)
  }

  /** A string lower-cases to `kw` when each of its characters does. */
  lemma LowersTo(s: string, kw: string)
    requires |s| == |kw| && forall i :: 0 <= i < |s| ==> ToLowerChar(s[i]) == kw[i]
    ensures ToLower(s) == kw
  {
  }

  /** Every casing of a role's name parses to that role, the stored
      PascalCase spelling included. */
  lemma RoleFromAnyCasing(s: string, v: RoleEnum)
    requires |s| == |RoleKeyword(v)|
    requires forall i :: 0 <= i < |s| ==> ToLowerChar(s[i]) == RoleKeyword(v)[i]
    ensures RoleFromParam(s) == Ok(v)
  {
    LowersTo(s, RoleKeyword(v));
  }

  lemma RoleNameRoundTrip(v: RoleEnum)
    ensures RoleFromParam(RoleName(v)) == Ok(v)
  {
    RoleFromAnyCasing(RoleName(v), v);
  }

  /** Every casing of a declared stage's name parses to that stage. */
  lemma StageFromAnyCasing(s: string, v: StageEnum)
    requires StageKeyword(v).Some? && |s| == |StageKeyword(v).value|
    requires forall i :: 0 <= i < |s| ==> ToLowerChar(s[i]) == StageKeyword(v).value[i]
    ensures StageFromParam(s) == Ok(v)
  {
    LowersTo(s, StageKeyword(v).value);
  }

  /** No parameter selects `Sampled`: not even its own name. */
  lemma SampledNotParsable(param: string)
    ensures StageFromParam(param) != Ok(Sampled)
    ensures StageFromParam(StageName(Sampled)) == Err(InvalidInputError)
  {
    assert ToLower(StageName(Sampled)) == "sampled" by {
      LowersTo(StageName(Sampled), "sampled");
    }
  }

  // ---- rows ----

  /** The personal fields of a profile, carried through unchanged. */
  datatype PersonalInfo = PersonalInfo(
    name: string, idCardNumber: string, birthDate: Instant,
    profession: string, address: string, phone: string)

  datatype Product = Product(
    id: int, barcode: string, profileId: Option<int>, initTime: Instant,
    stage: StageEnum, reportId: Option<Uuid>)

  datatype Profile = Profile(
    id: int, userId: int, submitTime: Instant, info: PersonalInfo,
    sampleTime: Option<Instant>)

  /** A report id. The source keys reports by a 128-bit uuid but types
      `products.report_id` as a 32-bit integer; both are this one type here. */
  type Uuid = int

  datatype Report = Report(
    id: Uuid, uploaderId: int, filename: Option<string>, downloadUrl: string,
    uploadTime: Instant)

  /** A row of the users table (the source's `User` struct). */
  datatype UserRow = UserRow(
    id: int, username: Option<string>, wechatId: Option<string>, role: RoleEnum,
    passwordHashed: Option<string>, phoneNumber: Option<int>, signUpTime: Instant)

  /** What the login handlers answer with. */
  datatype UserLoggedInDigest = UserLoggedInDigest(username: Option<string>, role: RoleEnum)

  // ---- request payload decoding ----

  /** The outcome of deserializing a field: a value, a serde error (the request
      is refused), or a panic inside the conversion. */
  datatype Decoded<+T> = Decoded(value: T) | Invalid | Panics

  /** `deserialize_i64_to_naive_date_time`: a JSON integer of milliseconds
      becomes whole seconds, divided with Rust's truncation toward zero, and no
      nanoseconds; an integer beyond i64 is a serde error and a second count
      chrono cannot represent makes `from_timestamp` panic. */
  function MillisToDateTime(ms: int): (r: Decoded<Instant>)
    ensures r.Invalid? <==> !InI64(ms)
    ensures r.Decoded? <==> InI64(ms) && InChronoRange(TruncDiv(ms, 1000))
    ensures r.Panics? <==> InI64(ms) && !InChronoRange(TruncDiv(ms, 1000))
    ensures r.Decoded? ==> r.value == Instant(TruncDiv(ms, 1000), 0)
    ensures r.Decoded? ==> r.value.nanos == 0 && InChronoRange(r.value.secs)
    ensures r.Decoded? && ms >= 0 ==> r.value.secs * 1000 <= ms < r.value.secs * 1000 + 1000
    ensures r.Decoded? && ms < 0 ==> r.value.secs * 1000 - 1000 < ms <= r.value.secs * 1000
  {
    if !InI64(ms) then Invalid
    else
      var secs := TruncDiv(ms, 1000);
      if InChronoRange(secs) then Decoded(Instant(secs, 0)) else Panics
  }

  /** Non-negative times within the same 1000 ms block become the same instant. */
  lemma SameSecondSameInstant(a: int, b: int)
    requires 0 <= a <= I64Max && 0 <= b <= I64Max && a / 1000 == b / 1000
    ensures MillisToDateTime(a) == MillisToDateTime(b)
  {
    assert TruncDiv(a, 1000) == a / 1000 == b / 1000 == TruncDiv(b, 1000);
  }

  /** Negative times round toward zero, not down: -1 ms is the epoch itself. */
  lemma NegativeMillisTruncate()
    ensures MillisToDateTime(-1) == Decoded(Epoch)
    ensures MillisToDateTime(-1999) == Decoded(Instant(-1, 0))
  {
  }

  /** The JSON body of a new profile, as far as the decoder cares: optional
      `user_id` and `submit_time`, a millisecond `birth_date`. */
  datatype NewProfileJson = NewProfileJson(
    userId: Option<int>, submitTime: Option<Instant>,
    name: string, idCardNumber: string, birthDateMillis: int,
    profession: string, address: string, phone: string)

  datatype NewProfileData = NewProfileData(userId: int, submitTime: Instant, info: PersonalInfo)

  const DefaultUserId: int := 0
  const DefaultSubmitTime: Instant := Epoch

  /** Deserializes `NewProfileData`: a missing `user_id` is 0 and a missing
      `submit_time` is the epoch; the birth date goes through the
      millisecond conversion. */
  function DecodeNewProfile(j: NewProfileJson): (r: Decoded<NewProfileData>)
    ensures r.Decoded? ==> r.value.userId == j.userId.GetOr(DefaultUserId)
    ensures r.Decoded? ==> r.value.submitTime == j.submitTime.GetOr(DefaultSubmitTime)
    ensures r.Decoded? ==> MillisToDateTime(j.birthDateMillis) == Decoded(r.value.info.birthDate)
    ensures r.Decoded? <==> (j.userId.Some? ==> InI32(j.userId.value)) && MillisToDateTime(j.birthDateMillis).Decoded?
    ensures r.Panics? ==> MillisToDateTime(j.birthDateMillis).Panics?
    ensures r.Decoded? ==>
      r.value.info == PersonalInfo(j.name, j.idCardNumber, r.value.info.birthDate, j.profession, j.address, j.phone)
  {
    if j.userId.Some? && !InI32(j.userId.value) then Invalid
    else match MillisToDateTime(j.birthDateMillis)
      case Invalid => Invalid
      case Panics => Panics
      case Decoded(birth) =>
        Decoded(NewProfileData(
          j.userId.GetOr(DefaultUserId), j.submitTime.GetOr(DefaultSubmitTime),
          PersonalInfo(j.name, j.idCardNumber, birth, j.profession, j.address, j.phone)))
  }

  /** `SampleTimeData`: its one field uses the same millisecond conversion. */
  function DecodeSampleTime(ms: int): (r: Decoded<Instant>)
    ensures r == MillisToDateTime(ms)
    ensures r.Decoded? ==> r.value.nanos == 0 && (ms >= 0 ==> r.value.secs == ms / 1000)
    ensures r.Invalid? <==> !InI64(ms)
  {
    MillisToDateTime(ms)
  }
}
