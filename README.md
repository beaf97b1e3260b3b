# Audience Manager state cache, in Dafny

This project models `AudienceState`, the state cache of the Adobe Experience
Platform Audience extension for Android. The cache holds four things:

- the Audience Manager `uuid`;
- the visitor profile, a string-to-string map;
- the SDK privacy status;
- the timestamp of the last identity reset.

Writes to the `uuid` and the profile go through to a key-value store, the
`NamedCollection`. Reads load from the store when memory is null or empty.
While the status is opt-out, a non-blank `uuid` or a non-empty profile is refused, but
null or empty values always go through. Switching to opt-out clears both
identities, in memory and in the store.

The project has three files:

- `audience_model.dfy` (module `AudienceModel`) is the cache as a state
  machine on values. `State` holds the four fields plus the store's contents.
  `None` stands for the store when the object has no `NamedCollection`. Each
  Java method that can change the object is one function from the state
  before the call to the state after it. `getUuid`, `getVisitorProfile` and
  `getStateData` also give the value they return, as an `Observed`.
  `getMobilePrivacyStatus` and `getLastResetTimestampMillis` have no function
  of their own: they read one field and leave the state unchanged. `Op`,
  `Step` and `Run` describe any sequence of calls. `OptOutClean` is the
  privacy invariant: while opted out, no identity is in memory and neither
  store key is present.
- `audience_state.dfy` (module `AudienceObjects`) holds the imperative
  model. `Store` is the `NamedCollection`, a class over
  `entries: map<string, StoreValue>`. `AudienceState` is a class with the
  Java fields and a `const localStorage: Store?`, where null means no
  persistence. Each method follows the Java method statement by statement,
  calling the store's methods. For every method except the two plain field
  reads, the postcondition says that `Snapshot()` afterwards, plus any
  returned value, is what the matching `AudienceModel` function gives for the
  snapshot before. The two field reads return the current status and the
  current timestamp. The module also has three client methods of the two
  classes. `PrivacyStatusRoundTrip` and `LastResetTimestampRoundTrip` set a
  value on the object and read it back. `OptOutScenario` is an example with
  no contract of its own, so it has no row below. It sets a `uuid` and a
  profile, reads them back, opts out, and then finds both gone from memory,
  the store and the shared state.
- `audience_properties.dfy` (module `AudienceProperties`) holds the lemmas:
  - the round trips and persistence across a new cache over the same store;
  - privacy gating and clearing;
  - the opt-out cascade;
  - the privacy invariant over every sequence of calls from construction;
  - rehydration by the getters;
  - last-write-wins for the timestamp;
  - the contents of the shared state data.

The model follows the code on how often the store is read. `getUuid` reads
the store again on every call while memory is null or empty, not just once.
A read that finds an empty value leaves memory empty, so the next call reads
again. `GetUuidSettles` shows that such repeated reads return the same value
and change nothing.

`StringUtils` is outside this model; `NullOrEmpty` models its
`isNullOrEmpty`. The SDK defines `isNullOrEmpty(s)` as
`s == null || s.trim().isEmpty()`. Java's `trim` drops every leading and trailing character up to U+0020. So a string counts as
empty exactly when all its characters are at most U+0020: `Blank` in the
model. A whitespace-only `uuid` such as `" "` is treated like `""`:

- it goes into memory even while opted out;
- it removes the user-id key;
- it is left out of the shared state data.

`AudienceConstants` and `MobilePrivacyStatus` are not part of this model. The
constants use the SDK's values:

- the default privacy status is opt-in;
- the store keys are `"AAMUserId"` and `"AAMUserProfile"`;
- the shared-state keys are `"uuid"` and `"aamprofile"`.

The proofs rely on the keys being distinct and, for the privacy invariant
from construction, on the default status not being opt-out.

## Model

| member | source | states |
|---|---|---|
| AudienceModel.Init | code/audience/src/main/java/com/adobe/marketing/mobile/audience/AudienceState.java:40-44 | a new cache has null `uuid` and profile, the default privacy status and timestamp 0, over the given store |
| AudienceObjects.AudienceState.constructor | code/audience/src/main/java/com/adobe/marketing/mobile/audience/AudienceState.java:59-61 | the injected store (or null) becomes `localStorage` and the object starts in the `Init` state |
| AudienceModel.SetUuid | code/audience/src/main/java/com/adobe/marketing/mobile/audience/AudienceState.java:75-96 | `setUuid` never changes the profile, the status or the timestamp, and of the store it changes at most the user-id key |
| AudienceObjects.AudienceState.SetUuid | code/audience/src/main/java/com/adobe/marketing/mobile/audience/AudienceState.java:75-96 | the object's fields and store afterwards are `AudienceModel.SetUuid` of the old ones |
| AudienceModel.SetVisitorProfile | code/audience/src/main/java/com/adobe/marketing/mobile/audience/AudienceState.java:107-128 | `setVisitorProfile` never changes the `uuid`, the status or the timestamp, and of the store it changes at most the profile key |
| AudienceObjects.AudienceState.SetVisitorProfile | code/audience/src/main/java/com/adobe/marketing/mobile/audience/AudienceState.java:107-128 | the object's fields and store afterwards are `AudienceModel.SetVisitorProfile` of the old ones |
| AudienceModel.ClearIdentifiers | code/audience/src/main/java/com/adobe/marketing/mobile/audience/AudienceState.java:255-258 | afterwards both identities are null and the store is the old store without the two identity keys; status and timestamp are unchanged |
| AudienceObjects.AudienceState.ClearIdentifiers | code/audience/src/main/java/com/adobe/marketing/mobile/audience/AudienceState.java:255-258 | the object afterwards is `AudienceModel.ClearIdentifiers` of the old one |
| AudienceModel.SetMobilePrivacyStatus | code/audience/src/main/java/com/adobe/marketing/mobile/audience/AudienceState.java:134-139 | the new status is the one given, the timestamp is kept, and a store stays a store |
| AudienceObjects.AudienceState.SetMobilePrivacyStatus | code/audience/src/main/java/com/adobe/marketing/mobile/audience/AudienceState.java:134-139 | the object afterwards is `AudienceModel.SetMobilePrivacyStatus` of the old one |
| AudienceModel.GetUuid | code/audience/src/main/java/com/adobe/marketing/mobile/audience/AudienceState.java:148-164 | `getUuid` changes only the in-memory `uuid`, and what it returns is that new value |
| AudienceObjects.AudienceState.GetUuid | code/audience/src/main/java/com/adobe/marketing/mobile/audience/AudienceState.java:148-164 | the object afterwards and the value returned are those of `AudienceModel.GetUuid`; the store is not modified |
| AudienceModel.GetVisitorProfile | code/audience/src/main/java/com/adobe/marketing/mobile/audience/AudienceState.java:173-191 | `getVisitorProfile` changes only the in-memory profile, and what it returns is that new value |
| AudienceObjects.AudienceState.GetVisitorProfile | code/audience/src/main/java/com/adobe/marketing/mobile/audience/AudienceState.java:173-191 | the object afterwards and the value returned are those of `AudienceModel.GetVisitorProfile`; the store is not modified |
| AudienceObjects.AudienceState.GetMobilePrivacyStatus | code/audience/src/main/java/com/adobe/marketing/mobile/audience/AudienceState.java:197-199 | returns the current status and changes nothing |
| AudienceModel.SetLastResetTimestamp | code/audience/src/main/java/com/adobe/marketing/mobile/audience/AudienceState.java:205-209 | only the timestamp can change; a non-negative value becomes the timestamp, and a negative one leaves the whole state unchanged |
| AudienceObjects.AudienceState.SetLastResetTimestamp | code/audience/src/main/java/com/adobe/marketing/mobile/audience/AudienceState.java:205-209 | the object afterwards is `AudienceModel.SetLastResetTimestamp` of the old one |
| AudienceObjects.AudienceState.GetLastResetTimestampMillis | code/audience/src/main/java/com/adobe/marketing/mobile/audience/AudienceState.java:214-216 | returns the current timestamp and changes nothing |
| AudienceModel.GetStateData | code/audience/src/main/java/com/adobe/marketing/mobile/audience/AudienceState.java:224-245 | the shared data's keys are among `uuid` and `aamprofile`; the status, the timestamp and the store are left as they were |
| AudienceObjects.AudienceState.GetStateData | code/audience/src/main/java/com/adobe/marketing/mobile/audience/AudienceState.java:224-245 | the object afterwards and the map returned are those of `AudienceModel.GetStateData`, built by calling the two getters |
| AudienceObjects.Store.Contains | code/audience/src/main/java/com/adobe/marketing/mobile/audience/AudienceState.java:185 | `contains(key)` is true exactly when the key is present |
| AudienceObjects.Store.GetString | code/audience/src/main/java/com/adobe/marketing/mobile/audience/AudienceState.java:160 | `getString(key, default)` gives the string under the key, or `default` when there is none |
| AudienceObjects.Store.GetMap | code/audience/src/main/java/com/adobe/marketing/mobile/audience/AudienceState.java:186 | `getMap(key)` gives the map under the key, or null when there is none |
| AudienceObjects.Store.SetString | code/audience/src/main/java/com/adobe/marketing/mobile/audience/AudienceState.java:94 | `setString` stores the string under the key and changes no other key |
| AudienceObjects.Store.SetMap | code/audience/src/main/java/com/adobe/marketing/mobile/audience/AudienceState.java:126 | `setMap` stores the map under the key and changes no other key |
| AudienceObjects.Store.Remove | code/audience/src/main/java/com/adobe/marketing/mobile/audience/AudienceState.java:92 | `remove` deletes the key and changes no other key |
| AudienceProperties.UuidRoundTrip | code/audience/src/main/java/com/adobe/marketing/mobile/audience/AudienceState.java:75-96 | outside opt-out, `setUuid(s)` with a non-blank `s` puts `s` in memory and under the user-id key; the next `getUuid` returns `s` and changes nothing |
| AudienceProperties.UuidSurvivesRestart | code/audience/src/main/java/com/adobe/marketing/mobile/audience/AudienceState.java:148-164 | a new cache over the store that `setUuid(s)` wrote loads `s` on its first `getUuid` |
| AudienceProperties.VisitorProfileRoundTrip | code/audience/src/main/java/com/adobe/marketing/mobile/audience/AudienceState.java:107-128 | outside opt-out, a non-empty profile goes into memory and under the profile key; the next `getVisitorProfile` returns it and changes nothing |
| AudienceProperties.VisitorProfileSurvivesRestart | code/audience/src/main/java/com/adobe/marketing/mobile/audience/AudienceState.java:173-191 | a new cache over the store that `setVisitorProfile(p)` wrote loads `p` on its first `getVisitorProfile` |
| AudienceProperties.SetUuidIsIdempotent | code/audience/src/main/java/com/adobe/marketing/mobile/audience/AudienceState.java:75-96 | setting the same `uuid` twice leaves the same state as setting it once |
| AudienceProperties.SetVisitorProfileIsIdempotent | code/audience/src/main/java/com/adobe/marketing/mobile/audience/AudienceState.java:107-128 | setting the same profile twice leaves the same state as setting it once |
| AudienceProperties.ClearIdentifiersIsIdempotent | code/audience/src/main/java/com/adobe/marketing/mobile/audience/AudienceState.java:255-258 | clearing twice leaves the same state as clearing once |
| AudienceProperties.SetUuidIgnoredWhileOptedOut | code/audience/src/main/java/com/adobe/marketing/mobile/audience/AudienceState.java:77-79 | while opted out, `setUuid` with a non-blank value changes nothing at all: not memory, not the store, not the status or the timestamp |
| AudienceProperties.SetVisitorProfileIgnoredWhileOptedOut | code/audience/src/main/java/com/adobe/marketing/mobile/audience/AudienceState.java:109-111 | while opted out, `setVisitorProfile` with a non-empty map changes nothing at all |
| AudienceProperties.ClearingUuidAlwaysApplies | code/audience/src/main/java/com/adobe/marketing/mobile/audience/AudienceState.java:77-92 | under any status, a null or empty `uuid` goes into memory and removes the user-id key; with no store only memory changes |
| AudienceProperties.ClearingVisitorProfileAlwaysApplies | code/audience/src/main/java/com/adobe/marketing/mobile/audience/AudienceState.java:109-124 | under any status, a null or empty profile goes into memory and removes the profile key; with no store only memory changes |
| AudienceProperties.OptOutCascade | code/audience/src/main/java/com/adobe/marketing/mobile/audience/AudienceState.java:134-139 | after `setMobilePrivacyStatus(OPT_OUT)` both identities are null, the store has lost exactly the two keys, the timestamp is kept and the privacy invariant holds |
| AudienceProperties.OtherStatusIsAssignment | code/audience/src/main/java/com/adobe/marketing/mobile/audience/AudienceState.java:134-136 | any status other than opt-out only replaces the status |
| AudienceObjects.PrivacyStatusRoundTrip | code/audience/src/main/java/com/adobe/marketing/mobile/audience/AudienceState.java:134-139 | on the object, `getMobilePrivacyStatus` after `setMobilePrivacyStatus(status)` returns `status`, whatever that status is |
| AudienceObjects.LastResetTimestampRoundTrip | code/audience/src/main/java/com/adobe/marketing/mobile/audience/AudienceState.java:205-216 | on the object, `getLastResetTimestampMillis` after `setLastResetTimestamp(t)` returns `t` when `t >= 0` and the previous timestamp otherwise |
| AudienceProperties.OptedOutGettersFindNothing | code/audience/src/main/java/com/adobe/marketing/mobile/audience/AudienceState.java:148-191 | in an opted-out state that keeps the invariant, the two getters return null or empty values and change nothing, and the shared data is empty |
| AudienceProperties.StepKeepsOptOutClean | code/audience/src/main/java/com/adobe/marketing/mobile/audience/AudienceState.java:75-258 | every call of the API keeps the privacy invariant |
| AudienceProperties.RunKeepsOptOutClean | code/audience/src/main/java/com/adobe/marketing/mobile/audience/AudienceState.java:75-258 | every sequence of calls keeps the privacy invariant |
| AudienceProperties.ReachableStatesAreOptOutClean | code/audience/src/main/java/com/adobe/marketing/mobile/audience/AudienceState.java:59-61 | whatever the injected store holds and whatever calls follow construction with the opt-in default status, an opted-out cache holds no identity and its store holds neither identity key |
| AudienceProperties.OptedOutStaysEmpty | code/audience/src/main/java/com/adobe/marketing/mobile/audience/AudienceState.java:134-139 | once opted out, as long as no call sets another status, the status stays opt-out, no setter or getter brings an identity back, and the shared data stays empty |
| AudienceProperties.GetUuidRehydration | code/audience/src/main/java/com/adobe/marketing/mobile/audience/AudienceState.java:148-164 | a non-blank memory, or no store, is returned as it is; otherwise the stored user id is loaded, or the old memory kept when the key is absent; the store never changes |
| AudienceProperties.GetUuidSettles | code/audience/src/main/java/com/adobe/marketing/mobile/audience/AudienceState.java:149-160 | a second `getUuid` returns the same value as the first and changes nothing, even though it may read the store again |
| AudienceProperties.GetVisitorProfileRehydration | code/audience/src/main/java/com/adobe/marketing/mobile/audience/AudienceState.java:173-191 | memory is overwritten only when it is null or empty, a store exists and the store holds the profile key, which is then loaded; otherwise memory is returned as it is |
| AudienceProperties.NoDefaultProfileIsMaterialised | code/audience/src/main/java/com/adobe/marketing/mobile/audience/AudienceState.java:185-187 | a null profile stays null when the store lacks the profile key |
| AudienceProperties.GetVisitorProfileSettles | code/audience/src/main/java/com/adobe/marketing/mobile/audience/AudienceState.java:174-186 | a second `getVisitorProfile` returns the same value as the first and changes nothing |
| AudienceProperties.StepTimestamp | code/audience/src/main/java/com/adobe/marketing/mobile/audience/AudienceState.java:205-209 | a call changes the timestamp only when it is `setLastResetTimestamp` with a non-negative value, and then to that value |
| AudienceProperties.LastAcceptedTimestampWins | code/audience/src/main/java/com/adobe/marketing/mobile/audience/AudienceState.java:205-209 | after any sequence of calls, the timestamp is the last non-negative one written, or the old value if none was; a sequence of timestamp writes changes nothing else |
| AudienceProperties.TimestampDefaultsToZero | code/audience/src/main/java/com/adobe/marketing/mobile/audience/AudienceState.java:44 | a new cache reads timestamp 0, and a negative write leaves it there |
| AudienceProperties.StateDataEmptyWhileOptedOut | code/audience/src/main/java/com/adobe/marketing/mobile/audience/AudienceState.java:227-230 | while opted out, `getStateData` returns an empty map and changes nothing |
| AudienceProperties.StateDataContents | code/audience/src/main/java/com/adobe/marketing/mobile/audience/AudienceState.java:232-244 | otherwise the `uuid` entry is present exactly when the rehydrated `uuid` is non-blank, the profile entry exactly when the rehydrated profile is non-null, each carries that value, and the cache ends as the two getters leave it |
| AudienceProperties.StateDataSharesEmptyProfileButNotEmptyUuid | code/audience/src/main/java/com/adobe/marketing/mobile/audience/AudienceState.java:234-241 | outside opt-out, with a null or blank `uuid` and an empty non-null profile that the store cannot replace, only the empty profile is shared and nothing changes |

## Left out

- The no-argument constructor is not modelled. It looks the store up through
  `ServiceProvider`, a global service locator. The model has only the
  constructor that is handed its store, or null.
- `Log.warning` calls are no-ops here. They are diagnostics only.
- Durable persistence is not modelled: the Android shared-preferences backing,
  serialisation, and survival across process restarts. The store is an
  in-memory map. A "new cache over the same store" stands for a restart.
- The store holds typed values: a string or a string map. `getString` on a
  key that holds a map returns the default, and `getMap` on a key that holds
  a string returns null. The real store keeps maps as serialised strings, so
  those mixed cases are not modelled.
- `NamedCollection` operations that `AudienceState` never calls, such as
  `removeAll`, are not modelled.
- Aliasing of the profile map is not modelled. Java keeps the caller's
  `Map` object, so a later change by the caller would show up in memory.
  Maps here are values.
- The test-only helpers in `TestPersistenceHelper` are not modelled:
  `updatePersistence`, `readPersistedData` and `resetKnownPersistence`.
  They pass straight through to the store and have no logic of their own.
- Thread safety is not modelled. The class has no locking and relies on
  callers to serialise access. The model's calls run one after another.
- `AudienceConstants` and `MobilePrivacyStatus` are outside this model. The
  status is a three-case datatype, and the keys are distinct string constants.
