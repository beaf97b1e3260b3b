/**
 * The `AudienceState` object and the named collection it persists into.
 *
 * Each method does what the Java method does, statement by statement, on
 * the object's fields and through the store's own methods; its contract
 * says that the object's snapshot afterwards (and the value it returns) is
 * what the matching function of `AudienceModel` gives for the snapshot
 * before.
 */
module AudienceObjects {
  import opened AudienceModel

  /**
   * A `NamedCollection`: a key-value store whose keys hold strings or
   * string maps.
   */
  class Store {
    var entries: Entries

    constructor (initial: Entries)
      ensures entries == initial
    {
      entries := initial;
    }

    method Contains(key: string) returns (b: bool)
      ensures b <==> key in entries
    {
      b := key in entries;
    }

    /** The string under `key`; `default` when the key is absent or holds a map. */
    method GetString(key: string, default: Option<string>) returns (r: Option<string>)
      ensures r == StoredString(entries, key, default)
    {
      if key in entries && entries[key].StrVal? {
        r := Some(entries[key].s);
      } else {
        r := default;
      }
    }

    /** The map under `key`; null when the key is absent or holds a string. */
    method GetMap(key: string) returns (r: Option<Profile>)
      ensures r == StoredMap(entries, key)
    {
      if key in entries && entries[key].MapVal? {
        r := Some(entries[key].m);
      } else {
        r := None;
      }
    }

    method SetString(key: string, value: string)
      modifies this
      ensures entries == old(entries)[key := StrVal(value)]
    {
      entries := entries[key := StrVal(value)];
    }

    method SetMap(key: string, value: Profile)
      modifies this
      ensures entries == old(entries)[key := MapVal(value)]
    {
      entries := entries[key := MapVal(value)];
    }

    method Remove(key: string)
      modifies this
      ensures entries == old(entries) - {key}
    {
      entries := entries - {key};
    }
  }

  /** The Audience Manager state cache. */
  class AudienceState {
    /** The store the object persists into; null when persistence is unavailable. */
    const localStorage: Store?

    var uuid: Option<string>
    var visitorProfile: Option<Profile>
    var privacyStatus: PrivacyStatus
    /** Timestamp of the most recent identity reset. */
    var lastResetTimestampMillis: int64

    /** The object's fields and its store's contents, as one value. */
    ghost function Snapshot(): (s: State)
      reads this, localStorage
    {
      State(uuid, visitorProfile, privacyStatus, lastResetTimestampMillis,
            if localStorage == null then None else Some(localStorage.entries))
    }

    /** The constructor that is handed its named collection (or null). */
    constructor (namedCollection: Store?)
      ensures localStorage == namedCollection
      ensures Snapshot() == Init(if namedCollection == null then None else Some(namedCollection.entries))
    {
      localStorage := namedCollection;
      uuid := None;
      visitorProfile := None;
      privacyStatus := DefaultPrivacyStatus;
      lastResetTimestampMillis := 0;
    }

    method SetUuid(uuid: Option<string>)
      modifies this, localStorage
      ensures Snapshot() == AudienceModel.SetUuid(old(Snapshot()), uuid)
    {
      if NullOrEmpty(uuid) || privacyStatus != OptOut {
        this.uuid := uuid;
      }
      if localStorage == null {
        return;
      }
      if NullOrEmpty(uuid) {
        localStorage.Remove(UserIdKey);
      } else if privacyStatus != OptOut {
        localStorage.SetString(UserIdKey, uuid.value);
      }
    }

    method SetVisitorProfile(visitorProfile: Option<Profile>)
      modifies this, localStorage
      ensures Snapshot() == AudienceModel.SetVisitorProfile(old(Snapshot()), visitorProfile)
    {
      if NullOrEmptyProfile(visitorProfile) || privacyStatus != OptOut {
        this.visitorProfile := visitorProfile;
      }
      if localStorage == null {
        return;
      }
      if NullOrEmptyProfile(visitorProfile) {
        localStorage.Remove(ProfileKey);
      } else if privacyStatus != OptOut {
        localStorage.SetMap(ProfileKey, visitorProfile.value);
      }
    }

    method SetMobilePrivacyStatus(privacyStatus: PrivacyStatus)
      modifies this, localStorage
      ensures Snapshot() == AudienceModel.SetMobilePrivacyStatus(old(Snapshot()), privacyStatus)
    {
      this.privacyStatus := privacyStatus;
      if privacyStatus == OptOut {
        ClearIdentifiers();
      }
    }

    method GetUuid() returns (r: Option<string>)
      modifies this
      ensures Observed(Snapshot(), r) == AudienceModel.GetUuid(old(Snapshot()))
    {
      if NullOrEmpty(uuid) {
        if localStorage == null {
          return uuid;
        }
        uuid := localStorage.GetString(UserIdKey, uuid);
      }
      return uuid;
    }

    method GetVisitorProfile() returns (r: Option<Profile>)
      modifies this
      ensures Observed(Snapshot(), r) == AudienceModel.GetVisitorProfile(old(Snapshot()))
    {
      if NullOrEmptyProfile(visitorProfile) {
        if localStorage == null {
          return visitorProfile;
        }
        var present := localStorage.Contains(ProfileKey);
        if present {
          visitorProfile := localStorage.GetMap(ProfileKey);
        }
      }
      return visitorProfile;
    }

    method GetMobilePrivacyStatus() returns (r: PrivacyStatus)
      ensures r == Snapshot().privacyStatus
    {
      return privacyStatus;
    }

    method SetLastResetTimestamp(timestampMillis: int64)
      modifies this
      ensures Snapshot() == AudienceModel.SetLastResetTimestamp(old(Snapshot()), timestampMillis)
    {
      if timestampMillis >= 0 {
        lastResetTimestampMillis := timestampMillis;
      }
    }

    method GetLastResetTimestampMillis() returns (r: int64)
      ensures r == Snapshot().lastResetTimestampMillis
    {
      return lastResetTimestampMillis;
    }

    method GetStateData() returns (stateData: map<string, SharedValue>)
      modifies this
      ensures Observed(Snapshot(), stateData) == AudienceModel.GetStateData(old(Snapshot()))
    {
      stateData := map[];
      var status := GetMobilePrivacyStatus();
      if status == OptOut {
        return;
      }
      var uuid := GetUuid();
      if !NullOrEmpty(uuid) {
        stateData := stateData[UuidDataKey := UuidValue(uuid.value)];
      }
      var profile := GetVisitorProfile();
      if profile.Some? {
        stateData := stateData[VisitorProfileDataKey := ProfileValue(profile.value)];
      }
    }

    method ClearIdentifiers()
      modifies this, localStorage
      ensures Snapshot() == AudienceModel.ClearIdentifiers(old(Snapshot()))
    {
      SetUuid(None);
      SetVisitorProfile(None);
    }
  }

  /** A client: the status read back from the object is the one last set. */
  method PrivacyStatusRoundTrip(state: AudienceState, status: PrivacyStatus) returns (r: PrivacyStatus)
    modifies state, state.localStorage
    ensures r == status
  {
    state.SetMobilePrivacyStatus(status);
    r := state.GetMobilePrivacyStatus();
  }

  /** A client: the timestamp read back is the last non-negative one set. */
  method LastResetTimestampRoundTrip(state: AudienceState, timestampMillis: int64) returns (r: int64)
    modifies state
    ensures timestampMillis >= 0 ==> r == timestampMillis
    ensures timestampMillis < 0 ==> r == old(state.lastResetTimestampMillis)
  {
    state.SetLastResetTimestamp(timestampMillis);
    r := state.GetLastResetTimestampMillis();
  }

  /**
   * A client of the two classes: a cache over an empty store takes a uuid
   * and a profile, hands them back, and forgets both on opting out.
   */
  method OptOutScenario() {
    var store := new Store(map[]);
    var state := new AudienceState(store);

    state.SetUuid(Some("uuid-123"));
    var u := state.GetUuid();
    assert u == Some("uuid-123");

    state.SetVisitorProfile(Some(map["age" := "30"]));
    var p := state.GetVisitorProfile();
    assert p == Some(map["age" := "30"]);

    state.SetMobilePrivacyStatus(OptOut);
    u := state.GetUuid();
    p := state.GetVisitorProfile();
    assert u.None? && p.None?;
    assert UserIdKey !in store.entries && ProfileKey !in store.entries;

    var data := state.GetStateData();
    assert data == map[];
  }
}
