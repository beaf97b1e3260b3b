/**
 * The Audience Manager state cache as a state machine on values.
 *
 * `State` is everything an `AudienceState` object holds (its four fields and
 * the contents of the key-value store it was built with, if any), and every
 * operation of the cache is a function from the state before the call to the
 * state after it (and, for the getters, the value returned). The class in
 * audience_state.dfy is proved to follow these functions step by step; the
 * lemmas in audience_properties.dfy state what the functions guarantee.
 */
module AudienceModel {

  datatype Option<T> = None | Some(value: T)

  /** The SDK-wide privacy status (`MobilePrivacyStatus`). */
  datatype PrivacyStatus = OptIn | OptOut | Unknown

  /** `AudienceConstants.DEFAULT_PRIVACY_STATUS`. */
  const DefaultPrivacyStatus: PrivacyStatus := OptIn

  /** Java's `long`, the type of the last-reset timestamp. */
  newtype int64 = x: int | -0x8000_0000_0000_0000 <= x < 0x8000_0000_0000_0000

  /** Store key of the Audience Manager user id (`uuid`). */
  const UserIdKey: string := "AAMUserId"
  /** Store key of the visitor profile. */
  const ProfileKey: string := "AAMUserProfile"
  /** Key of the `uuid` in the shared state data. */
  const UuidDataKey: string := "uuid"
  /** Key of the visitor profile in the shared state data. */
  const VisitorProfileDataKey: string := "aamprofile"

  type Profile = map<string, string>

  /** What a key of the named collection holds: a string or a string map. */
  datatype StoreValue = StrVal(s: string) | MapVal(m: Profile)

  type Entries = map<string, StoreValue>

  /**
   * `String.trim().isEmpty()`: `trim` drops every leading and trailing
   * character up to U+0020, so the trimmed string is empty exactly when
   * every character is at most U+0020.
   */
  predicate Blank(s: string) {
    forall i | 0 <= i < |s| :: s[i] <= ' '
  }

  /** `StringUtils.isNullOrEmpty`: null, empty or only whitespace. */
  predicate NullOrEmpty(s: Option<string>) {
    s.None? || Blank(s.value)
  }

  /** `map == null || map.isEmpty()`. */
  predicate NullOrEmptyProfile(p: Option<Profile>) {
    p.None? || |p.value| == 0
  }

  // ---------------------------------------------------------------------
  // Reads of the named collection
  // ---------------------------------------------------------------------

  /** `getString(key, default)`: the string under `key`, or `default`. */
  function StoredString(e: Entries, key: string, default: Option<string>): (r: Option<string>) {
    if key in e && e[key].StrVal? then Some(e[key].s) else default
  }

  /** `getMap(key)`: the map under `key`, or null. */
  function StoredMap(e: Entries, key: string): (r: Option<Profile>) {
    if key in e && e[key].MapVal? then Some(e[key].m) else None
  }

  // ---------------------------------------------------------------------
  // The cache
  // ---------------------------------------------------------------------

  /**
   * The fields of an `AudienceState` together with the store's contents;
   * `store` is `None` when the object was built without a named collection.
   */
  datatype State = State(
    uuid: Option<string>,
    visitorProfile: Option<Profile>,
    privacyStatus: PrivacyStatus,
    lastResetTimestampMillis: int64,
    store: Option<Entries>)

  /** A getter's outcome: the state after the call and the value returned. */
  datatype Observed<T> = Observed(after: State, result: T)

  /** What a value of the shared state data holds. */
  datatype SharedValue = UuidValue(uuid: string) | ProfileValue(profile: Profile)

  /** The keys other than `key` hold the same values in both states' stores. */
  predicate StoreAgreesExcept(st: State, r: State, key: string) {
    (st.store.Some? <==> r.store.Some?) &&
    (st.store.Some? ==> st.store.value - {key} == r.store.value - {key})
  }

  /** A freshly constructed cache over the given store. */
  function Init(store: Option<Entries>): (r: State)
    ensures r.uuid.None? && r.visitorProfile.None?
    ensures r.privacyStatus == DefaultPrivacyStatus && r.lastResetTimestampMillis == 0
    ensures r.store == store
  {
    State(None, None, DefaultPrivacyStatus, 0, store)
  }

  /** `setUuid`: memory and the user-id key, gated by the privacy status. */
  function SetUuid(st: State, uuid: Option<string>): (r: State)
    ensures r.visitorProfile == st.visitorProfile
    ensures r.privacyStatus == st.privacyStatus
    ensures r.lastResetTimestampMillis == st.lastResetTimestampMillis
    ensures StoreAgreesExcept(st, r, UserIdKey)
  {
    var memory := if NullOrEmpty(uuid) || st.privacyStatus != OptOut then uuid else st.uuid;
    var store :=
      match st.store
      case None => None
      case Some(e) =>
        if NullOrEmpty(uuid) then Some(e - {UserIdKey})
        else if st.privacyStatus != OptOut then Some(e[UserIdKey := StrVal(uuid.value)])
        else Some(e);
    st.(uuid := memory, store := store)
  }

  /** `setVisitorProfile`: memory and the profile key, gated by the privacy status. */
  function SetVisitorProfile(st: State, profile: Option<Profile>): (r: State)
    ensures r.uuid == st.uuid
    ensures r.privacyStatus == st.privacyStatus
    ensures r.lastResetTimestampMillis == st.lastResetTimestampMillis
    ensures StoreAgreesExcept(st, r, ProfileKey)
  {
    var memory :=
      if NullOrEmptyProfile(profile) || st.privacyStatus != OptOut then profile else st.visitorProfile;
    var store :=
      match st.store
      case None => None
      case Some(e) =>
        if NullOrEmptyProfile(profile) then Some(e - {ProfileKey})
        else if st.privacyStatus != OptOut then Some(e[ProfileKey := MapVal(profile.value)])
        else Some(e);
    st.(visitorProfile := memory, store := store)
  }

  /** `clearIdentifiers`: `setUuid(null)` followed by `setVisitorProfile(null)`. */
  function ClearIdentifiers(st: State): (r: State)
    ensures r.uuid.None? && r.visitorProfile.None?
    ensures r.store.Some? ==> UserIdKey !in r.store.value && ProfileKey !in r.store.value
    ensures r.store.Some? <==> st.store.Some?
    ensures r.store.Some? ==> r.store.value == st.store.value - {UserIdKey, ProfileKey}
    ensures r.privacyStatus == st.privacyStatus
    ensures r.lastResetTimestampMillis == st.lastResetTimestampMillis
  {
    SetVisitorProfile(SetUuid(st, None), None)
  }

  /** `setMobilePrivacyStatus`: an assignment, followed by a clear when opting out. */
  function SetMobilePrivacyStatus(st: State, status: PrivacyStatus): (r: State)
    ensures r.privacyStatus == status
    ensures r.lastResetTimestampMillis == st.lastResetTimestampMillis
    ensures r.store.Some? <==> st.store.Some?
  {
    var withStatus := st.(privacyStatus := status);
    if status == OptOut then ClearIdentifiers(withStatus) else withStatus
  }

  /**
   * `getUuid`: while memory is null or empty and a store exists, memory is
   * replaced by the store's user id (defaulting to memory itself); the
   * result is the new memory.
   */
  function GetUuid(st: State): (r: Observed<Option<string>>)
    ensures r.after == st.(uuid := r.result)
  {
    if !NullOrEmpty(st.uuid) || st.store.None? then Observed(st, st.uuid)
    else
      var loaded := StoredString(st.store.value, UserIdKey, st.uuid);
      Observed(st.(uuid := loaded), loaded)
  }

  /**
   * `getVisitorProfile`: while memory is null or empty, a store exists and it
   * contains the profile key, memory is replaced by the store's map; the
   * result is the new memory.
   */
  function GetVisitorProfile(st: State): (r: Observed<Option<Profile>>)
    ensures r.after == st.(visitorProfile := r.result)
  {
    if !NullOrEmptyProfile(st.visitorProfile) || st.store.None? || ProfileKey !in st.store.value then
      Observed(st, st.visitorProfile)
    else
      var loaded := StoredMap(st.store.value, ProfileKey);
      Observed(st.(visitorProfile := loaded), loaded)
  }

  /** `setLastResetTimestamp`: negative timestamps are ignored. */
  function SetLastResetTimestamp(st: State, timestampMillis: int64): (r: State)
    ensures r == st.(lastResetTimestampMillis := r.lastResetTimestampMillis)
    ensures timestampMillis >= 0 ==> r.lastResetTimestampMillis == timestampMillis
    ensures timestampMillis < 0 ==> r == st
  {
    if timestampMillis >= 0 then st.(lastResetTimestampMillis := timestampMillis) else st
  }

  /**
   * `getStateData`: empty while opted out; otherwise the rehydrated `uuid`
   * when it is not blank and the rehydrated profile when it is non-null.
   */
  function GetStateData(st: State): (r: Observed<map<string, SharedValue>>)
    ensures r.result.Keys <= {UuidDataKey, VisitorProfileDataKey}
    ensures r.after.privacyStatus == st.privacyStatus
    ensures r.after.lastResetTimestampMillis == st.lastResetTimestampMillis
    ensures r.after.store == st.store
  {
    if st.privacyStatus == OptOut then Observed(st, map[])
    else
      var u := GetUuid(st);
      var withUuid: map<string, SharedValue> :=
        if !NullOrEmpty(u.result) then map[UuidDataKey := UuidValue(u.result.value)] else map[];
      var p := GetVisitorProfile(u.after);
      var data :=
        if p.result.Some? then withUuid[VisitorProfileDataKey := ProfileValue(p.result.value)] else withUuid;
      Observed(p.after, data)
  }

  // ---------------------------------------------------------------------
  // Sequences of calls
  // ---------------------------------------------------------------------

  /** One call of the cache's API, with its arguments. */
  datatype Op =
    | SetUuidOp(uuid: Option<string>)
    | SetVisitorProfileOp(profile: Option<Profile>)
    | SetMobilePrivacyStatusOp(status: PrivacyStatus)
    | GetUuidOp
    | GetVisitorProfileOp
    | GetMobilePrivacyStatusOp
    | SetLastResetTimestampOp(timestampMillis: int64)
    | GetLastResetTimestampMillisOp
    | GetStateDataOp
    | ClearIdentifiersOp

  /** The state after one call; pure reads leave the state as it was. */
  function Step(st: State, op: Op): (r: State) {
    match op
    case SetUuidOp(u) => SetUuid(st, u)
    case SetVisitorProfileOp(p) => SetVisitorProfile(st, p)
    case SetMobilePrivacyStatusOp(s) => SetMobilePrivacyStatus(st, s)
    case GetUuidOp => GetUuid(st).after
    case GetVisitorProfileOp => GetVisitorProfile(st).after
    case GetMobilePrivacyStatusOp => st
    case SetLastResetTimestampOp(t) => SetLastResetTimestamp(st, t)
    case GetLastResetTimestampMillisOp => st
    case GetStateDataOp => GetStateData(st).after
    case ClearIdentifiersOp => ClearIdentifiers(st)
  }

  /** The state after a sequence of calls, made one after the other. */
  function Run(st: State, ops: seq<Op>): (r: State)
    decreases |ops|
  {
    if ops == [] then st else Run(Step(st, ops[0]), ops[1..])
  }

  /** True of every call except one that sets a status other than opt-out. */
  predicate KeepsOptOut(op: Op) {
    op.SetMobilePrivacyStatusOp? ==> op.status == OptOut
  }

  /**
   * The privacy invariant: while opted out, no identity is held in memory
   * and neither identity key is in the store.
   */
  predicate OptOutClean(st: State) {
    st.privacyStatus == OptOut ==>
      NullOrEmpty(st.uuid) && NullOrEmptyProfile(st.visitorProfile) &&
      (st.store.Some? ==> UserIdKey !in st.store.value && ProfileKey !in st.store.value)
  }
}
