/**
 * What the Audience Manager state cache guarantees, stated on the functions
 * of `AudienceModel` that the `AudienceState` methods are proved to follow.
 */
module AudienceProperties {
  import opened AudienceModel

  // ---------------------------------------------------------------------
  // Round trips
  // ---------------------------------------------------------------------

  /**
   * Outside opt-out, a non-blank uuid is kept in memory and under the
   * user-id key, and the next `getUuid` returns it without a store read.
   */
  lemma UuidRoundTrip(st: State, s: string)
    requires st.privacyStatus != OptOut && !Blank(s)
    ensures var r := SetUuid(st, Some(s));
      r.uuid == Some(s) &&
      (r.store.Some? ==> UserIdKey in r.store.value && r.store.value[UserIdKey] == StrVal(s)) &&
      GetUuid(r) == Observed(r, Some(s))
  {
  }

  /** A persisted uuid is what a new cache over the same store loads. */
  lemma UuidSurvivesRestart(st: State, s: string)
    requires st.store.Some? && st.privacyStatus != OptOut && !Blank(s)
    ensures GetUuid(Init(SetUuid(st, Some(s)).store)).result == Some(s)
  {
  }

  /**
   * Outside opt-out, a non-empty profile is kept in memory and under the
   * profile key, and the next `getVisitorProfile` returns it unchanged.
   */
  lemma VisitorProfileRoundTrip(st: State, p: Profile)
    requires st.privacyStatus != OptOut && |p| > 0
    ensures var r := SetVisitorProfile(st, Some(p));
      r.visitorProfile == Some(p) &&
      (r.store.Some? ==> ProfileKey in r.store.value && r.store.value[ProfileKey] == MapVal(p)) &&
      GetVisitorProfile(r) == Observed(r, Some(p))
  {
  }

  /** A persisted profile is what a new cache over the same store loads. */
  lemma VisitorProfileSurvivesRestart(st: State, p: Profile)
    requires st.store.Some? && st.privacyStatus != OptOut && |p| > 0
    ensures GetVisitorProfile(Init(SetVisitorProfile(st, Some(p)).store)).result == Some(p)
  {
  }

  /** Setting the same uuid twice is the same as setting it once. */
  lemma SetUuidIsIdempotent(st: State, uuid: Option<string>)
    ensures SetUuid(SetUuid(st, uuid), uuid) == SetUuid(st, uuid)
  {
    var once := SetUuid(st, uuid);
    if st.store.Some? {
      var e := once.store.value;
      if NullOrEmpty(uuid) {
        assert e - {UserIdKey} == e;
      } else if st.privacyStatus != OptOut {
        assert e[UserIdKey := StrVal(uuid.value)] == e;
      }
    }
  }

  /** Setting the same profile twice is the same as setting it once. */
  lemma SetVisitorProfileIsIdempotent(st: State, profile: Option<Profile>)
    ensures SetVisitorProfile(SetVisitorProfile(st, profile), profile) == SetVisitorProfile(st, profile)
  {
    var once := SetVisitorProfile(st, profile);
    if st.store.Some? {
      var e := once.store.value;
      if NullOrEmptyProfile(profile) {
        assert e - {ProfileKey} == e;
      } else if st.privacyStatus != OptOut {
        assert e[ProfileKey := MapVal(profile.value)] == e;
      }
    }
  }

  /** Clearing twice is the same as clearing once. */
  lemma ClearIdentifiersIsIdempotent(st: State)
    ensures ClearIdentifiers(ClearIdentifiers(st)) == ClearIdentifiers(st)
  {
    var once := ClearIdentifiers(st);
    SetUuidIsIdempotent(once, None);
    if once.store.Some? {
      var e := once.store.value;
      assert e - {UserIdKey} == e;
      assert e - {ProfileKey} == e;
    }
  }

  // ---------------------------------------------------------------------
  // Privacy gating
  // ---------------------------------------------------------------------

  /** While opted out, a non-blank uuid changes nothing at all. */
  lemma SetUuidIgnoredWhileOptedOut(st: State, uuid: Option<string>)
    requires st.privacyStatus == OptOut && !NullOrEmpty(uuid)
    ensures SetUuid(st, uuid) == st
  {
  }

  /** While opted out, a non-empty profile changes nothing at all. */
  lemma SetVisitorProfileIgnoredWhileOptedOut(st: State, profile: Option<Profile>)
    requires st.privacyStatus == OptOut && !NullOrEmptyProfile(profile)
    ensures SetVisitorProfile(st, profile) == st
  {
  }

  /**
   * Under any status, a null or blank uuid goes into memory and removes the
   * user-id key; without a store only memory changes.
   */
  lemma ClearingUuidAlwaysApplies(st: State, uuid: Option<string>)
    requires NullOrEmpty(uuid)
    ensures var r := SetUuid(st, uuid);
      r.uuid == uuid &&
      (st.store.Some? ==> r == st.(uuid := uuid, store := Some(st.store.value - {UserIdKey}))) &&
      (st.store.None? ==> r == st.(uuid := uuid))
  {
  }

  /**
   * Under any status, a null or empty profile goes into memory and removes
   * the profile key; without a store only memory changes.
   */
  lemma ClearingVisitorProfileAlwaysApplies(st: State, profile: Option<Profile>)
    requires NullOrEmptyProfile(profile)
    ensures var r := SetVisitorProfile(st, profile);
      r.visitorProfile == profile &&
      (st.store.Some? ==> r == st.(visitorProfile := profile, store := Some(st.store.value - {ProfileKey}))) &&
      (st.store.None? ==> r == st.(visitorProfile := profile))
  {
  }

  /** Opting out forgets both identities, in memory and in the store. */
  lemma OptOutCascade(st: State)
    ensures var r := SetMobilePrivacyStatus(st, OptOut);
      r.privacyStatus == OptOut && r.uuid.None? && r.visitorProfile.None? &&
      r.lastResetTimestampMillis == st.lastResetTimestampMillis &&
      (st.store.Some? ==> r.store == Some(st.store.value - {UserIdKey, ProfileKey})) &&
      (st.store.None? ==> r.store.None?) &&
      OptOutClean(r)
  {
  }

  /** Any other status is a plain assignment. */
  lemma OtherStatusIsAssignment(st: State, status: PrivacyStatus)
    requires status != OptOut
    ensures SetMobilePrivacyStatus(st, status) == st.(privacyStatus := status)
  {
  }

  /** While opted out and clean, the getters find nothing and change nothing. */
  lemma OptedOutGettersFindNothing(st: State)
    requires st.privacyStatus == OptOut && OptOutClean(st)
    ensures GetUuid(st) == Observed(st, st.uuid) && NullOrEmpty(st.uuid)
    ensures GetVisitorProfile(st) == Observed(st, st.visitorProfile) && NullOrEmptyProfile(st.visitorProfile)
    ensures GetStateData(st) == Observed(st, map[])
  {
  }

  /** Every single call keeps the privacy invariant. */
  lemma StepKeepsOptOutClean(st: State, op: Op)
    requires OptOutClean(st)
    ensures OptOutClean(Step(st, op))
  {
  }

  /** Every sequence of calls keeps the privacy invariant. */
  lemma {:induction false} RunKeepsOptOutClean(st: State, ops: seq<Op>)
    requires OptOutClean(st)
    ensures OptOutClean(Run(st, ops))
    decreases |ops|
  {
    if ops != [] {
      StepKeepsOptOutClean(st, ops[0]);
      RunKeepsOptOutClean(Step(st, ops[0]), ops[1..]);
    }
  }

  /**
   * Whatever the store held at construction and whatever calls followed,
   * an opted-out cache holds no identity and its store holds neither key.
   */
  lemma ReachableStatesAreOptOutClean(store: Option<Entries>, ops: seq<Op>)
    ensures OptOutClean(Run(Init(store), ops))
  {
    RunKeepsOptOutClean(Init(store), ops);
  }

  /**
   * Once opted out, and for as long as no call sets another status, no
   * setter or getter brings an identity back and the shared state is empty.
   */
  lemma {:induction false} OptedOutStaysEmpty(st: State, ops: seq<Op>)
    requires st.privacyStatus == OptOut && OptOutClean(st)
    requires forall i :: 0 <= i < |ops| ==> KeepsOptOut(ops[i])
    ensures var r := Run(st, ops);
      r.privacyStatus == OptOut && NullOrEmpty(r.uuid) && NullOrEmptyProfile(r.visitorProfile) &&
      (r.store.Some? ==> UserIdKey !in r.store.value && ProfileKey !in r.store.value) &&
      GetStateData(r).result == map[]
    decreases |ops|
  {
    if ops != [] {
      StepKeepsOptOutClean(st, ops[0]);
      assert KeepsOptOut(ops[0]);
      assert forall i :: 0 <= i < |ops[1..]| ==> KeepsOptOut(ops[1..][i]) by {
        forall i | 0 <= i < |ops[1..]| ensures KeepsOptOut(ops[1..][i]) {
          assert ops[1..][i] == ops[i + 1];
        }
      }
      OptedOutStaysEmpty(Step(st, ops[0]), ops[1..]);
    }
  }

  // ---------------------------------------------------------------------
  // Rehydration
  // ---------------------------------------------------------------------

  /**
   * `getUuid` keeps a non-empty memory, and memory without a store; it
   * otherwise loads the user id when the store holds one and keeps the old
   * memory when it does not. The store is never changed.
   */
  lemma GetUuidRehydration(st: State)
    ensures var r := GetUuid(st);
      r.after.store == st.store &&
      ((!NullOrEmpty(st.uuid) || st.store.None?) ==> r == Observed(st, st.uuid)) &&
      (NullOrEmpty(st.uuid) && st.store.Some? && UserIdKey in st.store.value && st.store.value[UserIdKey].StrVal? ==>
         r.result == Some(st.store.value[UserIdKey].s)) &&
      (NullOrEmpty(st.uuid) && st.store.Some? && UserIdKey !in st.store.value ==> r.result == st.uuid)
  {
  }

  /** A second `getUuid` returns the same value and changes nothing. */
  lemma GetUuidSettles(st: State)
    ensures var r := GetUuid(st);
      GetUuid(r.after) == r
  {
  }

  /**
   * `getVisitorProfile` overwrites memory only when memory is null or
   * empty, a store exists and it holds the profile key; it then loads the
   * stored map. The store is never changed.
   */
  lemma GetVisitorProfileRehydration(st: State)
    ensures var r := GetVisitorProfile(st);
      r.after.store == st.store &&
      (r.result != st.visitorProfile ==>
         NullOrEmptyProfile(st.visitorProfile) && st.store.Some? && ProfileKey in st.store.value) &&
      (NullOrEmptyProfile(st.visitorProfile) && st.store.Some? && ProfileKey in st.store.value && st.store.value[ProfileKey].MapVal? ==>
         r.result == Some(st.store.value[ProfileKey].m)) &&
      (!(NullOrEmptyProfile(st.visitorProfile) && st.store.Some? && ProfileKey in st.store.value) ==>
         r == Observed(st, st.visitorProfile))
  {
  }

  /** A null profile stays null when the store lacks the profile key. */
  lemma NoDefaultProfileIsMaterialised(st: State)
    requires st.visitorProfile.None? && (st.store.None? || ProfileKey !in st.store.value)
    ensures GetVisitorProfile(st).result.None?
  {
  }

  /** A second `getVisitorProfile` returns the same value and changes nothing. */
  lemma GetVisitorProfileSettles(st: State)
    ensures var r := GetVisitorProfile(st);
      GetVisitorProfile(r.after) == r
  {
  }

  // ---------------------------------------------------------------------
  // Timestamp
  // ---------------------------------------------------------------------

  /** One call changes the timestamp only when it is a non-negative timestamp write. */
  lemma StepTimestamp(st: State, op: Op)
    ensures Step(st, op).lastResetTimestampMillis ==
            if op.SetLastResetTimestampOp? && op.timestampMillis >= 0 then op.timestampMillis
            else st.lastResetTimestampMillis
  {
  }

  /**
   * After any sequence of calls, the timestamp is the last non-negative
   * one written, or the old value when no call wrote a non-negative one;
   * a sequence of timestamp writes changes nothing else.
   */
  lemma {:induction false} LastAcceptedTimestampWins(st: State, ops: seq<Op>)
    ensures var r := Run(st, ops);
      ((forall i :: 0 <= i < |ops| ==> ops[i].SetLastResetTimestampOp?) ==>
         r == st.(lastResetTimestampMillis := r.lastResetTimestampMillis)) &&
      ((forall i :: 0 <= i < |ops| && ops[i].SetLastResetTimestampOp? ==> ops[i].timestampMillis < 0) ==>
         r.lastResetTimestampMillis == st.lastResetTimestampMillis) &&
      (forall i :: (0 <= i < |ops| && ops[i].SetLastResetTimestampOp? && ops[i].timestampMillis >= 0 &&
                    (forall j :: i < j < |ops| && ops[j].SetLastResetTimestampOp? ==> ops[j].timestampMillis < 0)) ==>
                   r.lastResetTimestampMillis == ops[i].timestampMillis)
    decreases |ops|
  {
    if ops != [] {
      var rest := ops[1..];
      assert forall i :: 0 <= i < |rest| ==> rest[i] == ops[i + 1];
      StepTimestamp(st, ops[0]);
      LastAcceptedTimestampWins(Step(st, ops[0]), rest);
    }
  }

  /** A new cache reads back timestamp 0; a negative write leaves it there. */
  lemma TimestampDefaultsToZero(store: Option<Entries>, t: int64)
    requires t < 0
    ensures SetLastResetTimestamp(Init(store), t).lastResetTimestampMillis == 0
  {
  }

  // ---------------------------------------------------------------------
  // Shared state data
  // ---------------------------------------------------------------------

  /** While opted out, the shared state is empty and nothing changes. */
  lemma StateDataEmptyWhileOptedOut(st: State)
    requires st.privacyStatus == OptOut
    ensures GetStateData(st) == Observed(st, map[])
  {
  }

  /**
   * Otherwise the shared state carries the rehydrated uuid exactly when it
   * is non-empty and the rehydrated profile exactly when it is non-null,
   * and the cache ends as the two getters leave it.
   */
  lemma StateDataContents(st: State)
    requires st.privacyStatus != OptOut
    ensures var u := GetUuid(st);
      var p := GetVisitorProfile(u.after);
      var r := GetStateData(st);
      r.after == p.after &&
      (UuidDataKey in r.result <==> !NullOrEmpty(u.result)) &&
      (UuidDataKey in r.result ==> r.result[UuidDataKey] == UuidValue(u.result.value)) &&
      (VisitorProfileDataKey in r.result <==> p.result.Some?) &&
      (VisitorProfileDataKey in r.result ==> r.result[VisitorProfileDataKey] == ProfileValue(p.result.value))
  {
  }

  /**
   * Outside opt-out, with a null or blank uuid that the store cannot
   * replace and an empty but non-null profile that the store cannot
   * replace, the empty profile is shared and the uuid is not.
   */
  lemma StateDataSharesEmptyProfileButNotEmptyUuid(st: State)
    requires st.privacyStatus != OptOut && NullOrEmpty(st.uuid) && st.visitorProfile == Some(map[])
    requires st.store.Some? ==> UserIdKey !in st.store.value && ProfileKey !in st.store.value
    ensures GetStateData(st) == Observed(st, map[VisitorProfileDataKey := ProfileValue(map[])])
  {
  }
}
