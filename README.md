# Self-service stage responses and process configuration

A model of the data that the ForgeRock (Wren Security) self-service process hands between its components. It covers two classes:

- `StageResponse` is what a stage returns after it is invoked. It holds a stage tag, the JSON requirements the caller must still meet, and a map of state to carry through the flow. It is built with a fluent `Builder` that starts from defaults: the empty tag, an empty JSON object and an empty map.
- `ProcessInstanceConfig` is the configuration of one process. It holds the ordered list of stage configs, the snapshot token config and the storage type, each set by a fluent setter that rejects null.

Files:

- `java_lang.dfy` (module `JavaLang`): Java null as `Option`, the exceptions the code throws, and the outcome of a call that may throw (`Result`).
- `json.dfy` (module `Json`): JSON values, `size()`, and the empty object that `emptyJson()` returns.
- `builder_calls.dfy` (module `BuilderCalls`): the builder's fields as a value (`Draft`), one setter call as a function (`Apply`), and a chain of fluent calls (`Run`). The lemmas say what a chain leaves behind.
- `stage_response.dfy` (module `StageResponses`): the `Builder` and `StageResponse` classes. The state map is a heap object (`HashMap`) that the builder and the responses it built share. Each setter is proved to change the builder exactly as `Apply` says.
- `process_instance_config.dfy` (module `ProcessInstanceConfigs`): the `ProcessInstanceConfig` class over a caller-visible `ArrayList`.

Java null becomes `None`, or a null reference for the list. `Reject.ifNull` becomes a `Failure(NullPointerException)` result. It is not a precondition: callers may pass null, and the model says what then happens.

Three facts about the code that a reader might not expect:

- A built `StageResponse` shares its state map with its builder: its constructor takes the map by reference (`StageResponse.java:43`). So an `addState` on the builder after `build()` shows through the response's `getState()`; `AddStateAfterBuild` proves this. `getState()` does wrap the map in a read-only view, so nobody can change the state through the response itself.
- `setStageConfigs` accepts an empty list, and each field of a configuration is null until its setter is called.
- `setStageConfigs` stores a copy of the caller's list. But `getStageConfigs` returns the stored list itself, not a copy. A caller that changes the returned list therefore changes the configuration; `ChangeListFromGetter` proves this.

## Model

| member | source | states |
|---|---|---|
| `StageResponses.Builder.constructor` | forgerock-selfservice-core/src/main/java/org/forgerock/selfservice/core/StageResponse.java:71-75 | a fresh builder has tag `EMPTY_TAG`, requirements `emptyJson()` and a new, empty state map; as a value it is `Initial()` |
| `StageResponses.NewBuilder` | forgerock-selfservice-core/src/main/java/org/forgerock/selfservice/core/StageResponse.java:137-139 | returns a new builder in the initial state, whose requirements have size 0 |
| `StageResponses.Builder.SetStageTag` | forgerock-selfservice-core/src/main/java/org/forgerock/selfservice/core/StageResponse.java:85-89 | null throws NullPointerException and changes nothing; otherwise the tag becomes the argument, the call returns the same builder, and requirements and state are unchanged; agrees with `Apply` |
| `StageResponses.Builder.SetRequirements` | forgerock-selfservice-core/src/main/java/org/forgerock/selfservice/core/StageResponse.java:99-103 | null throws NullPointerException and changes nothing; otherwise the requirements become the argument, the call returns the same builder, and tag and state are unchanged; agrees with `Apply` |
| `StageResponses.Builder.AddState` | forgerock-selfservice-core/src/main/java/org/forgerock/selfservice/core/StageResponse.java:115-119 | a null key or value throws and leaves the map unchanged; otherwise the map becomes `old[key := value]`, overwriting an earlier value, with every other key untouched; tag and requirements are unchanged; the call returns the same builder |
| `StageResponses.HashMap.Put` | forgerock-selfservice-core/src/main/java/org/forgerock/selfservice/core/StageResponse.java:117 | the key now holds the value and no other entry changes |
| `StageResponses.Builder.Build` | forgerock-selfservice-core/src/main/java/org/forgerock/selfservice/core/StageResponse.java:126-128 | returns a new response whose tag, requirements and state equal the builder's at build time; the state map is the builder's own object, not a copy |
| `StageResponses.StageResponse.constructor` | forgerock-selfservice-core/src/main/java/org/forgerock/selfservice/core/StageResponse.java:40-44 | takes the builder's tag, requirements and state map by reference |
| `StageResponses.AddStateAfterBuild` | forgerock-selfservice-core/src/main/java/org/forgerock/selfservice/core/StageResponse.java:43 | a value added to the builder after `build()` appears in the state of the response already built |
| `StageResponses.HashMap.constructor` | forgerock-selfservice-core/src/main/java/org/forgerock/selfservice/core/StageResponse.java:74 | the builder's state starts as a new map with no entries |
| `StageResponses.StageResponse.GetStageTag` | forgerock-selfservice-core/src/main/java/org/forgerock/selfservice/core/StageResponse.java:46-48 | observer defined as the stored field; `Build`'s ensures carry the promise that it equals the builder's tag at build time |
| `StageResponses.StageResponse.GetRequirements` | forgerock-selfservice-core/src/main/java/org/forgerock/selfservice/core/StageResponse.java:54-56 | observer defined as the stored field; `Build`'s ensures carry the promise that it equals the builder's requirements at build time |
| `StageResponses.StageResponse.HasRequirements` | forgerock-selfservice-core/src/main/java/org/forgerock/selfservice/core/StageResponse.java:50-52 | true exactly when the requirements are a list or an object with at least one member |
| `Json.SizePositiveIffMembers` | forgerock-selfservice-core/src/main/java/org/forgerock/selfservice/core/StageResponse.java:51 | `size() > 0` holds exactly for a non-empty list or object, in both directions |
| `StageResponses.StageResponse.GetState` | forgerock-selfservice-core/src/main/java/org/forgerock/selfservice/core/StageResponse.java:58-60 | returns a new read-only view over the stored map, with the same contents |
| `StageResponses.UnmodifiableMap.Put` | forgerock-selfservice-core/src/main/java/org/forgerock/selfservice/core/StageResponse.java:59 | an update through the state view throws UnsupportedOperationException and changes nothing |
| `BuilderCalls.RunAppend` | forgerock-selfservice-core/src/main/java/org/forgerock/selfservice/core/StageResponse.java:85-119 | each setter returns the builder, so two chains in a row are one chain: the second runs on what the first left, unless the first threw |
| `BuilderCalls.RunThrowsAtFirstRejected` | forgerock-selfservice-core/src/main/java/org/forgerock/selfservice/core/StageResponse.java:85-119 | a chain throws exactly when one of its calls has a null argument, and then it throws NullPointerException; the builder keeps the effects of every call before the first such call |
| `BuilderCalls.RunStageTag` | forgerock-selfservice-core/src/main/java/org/forgerock/selfservice/core/StageResponse.java:85-89 | after a chain without nulls the tag is the one given to the last `setStageTag`, or the starting tag if no call set one |
| `BuilderCalls.RunRequirements` | forgerock-selfservice-core/src/main/java/org/forgerock/selfservice/core/StageResponse.java:99-103 | after a chain without nulls the requirements are those given to the last `setRequirements`, or the starting ones if no call set any |
| `BuilderCalls.RunState` | forgerock-selfservice-core/src/main/java/org/forgerock/selfservice/core/StageResponse.java:115-119 | after a chain without nulls each key holds the value of its last `addState`; a key that no call wrote keeps its earlier value, or stays absent |
| `BuilderCalls.FreshChainHasRequirements` | forgerock-selfservice-core/src/main/java/org/forgerock/selfservice/core/StageResponse.java:71-75 | starting from a fresh builder, the result has size 0 when no call sets requirements; otherwise it has size > 0 exactly when the last requirements passed have a member |
| `ProcessInstanceConfigs.ProcessInstanceConfig.constructor` | forgerock-selfservice-core/src/main/java/org/forgerock/selfservice/core/config/ProcessInstanceConfig.java:35-41 | a new config has all three fields null |
| `ProcessInstanceConfigs.ProcessInstanceConfig.SetStageConfigs` | forgerock-selfservice-core/src/main/java/org/forgerock/selfservice/core/config/ProcessInstanceConfig.java:43-65 | null throws and changes nothing; otherwise the call returns the same config, and `getStageConfigs()` is a new list with the caller's elements in the same order, which is the order the stages run in; the other two fields are unchanged |
| `ProcessInstanceConfigs.ChangeListAfterSet` | forgerock-selfservice-core/src/main/java/org/forgerock/selfservice/core/config/ProcessInstanceConfig.java:54 | after `setStageConfigs(l)`, adding to `l` does not change the stored list, because the stored list is a different object |
| `ProcessInstanceConfigs.ArrayList.constructor` | forgerock-selfservice-core/src/main/java/org/forgerock/selfservice/core/config/ProcessInstanceConfig.java:54 | `new ArrayList<>(list)` is a new list holding the given elements in the given order |
| `ProcessInstanceConfigs.ProcessInstanceConfig.GetStageConfigs` | forgerock-selfservice-core/src/main/java/org/forgerock/selfservice/core/config/ProcessInstanceConfig.java:63-65 | observer defined as the stored field (null before any set); `SetStageConfigs` carries what it returns after a set, and `ChangeListFromGetter` carries the "not a copy" part |
| `ProcessInstanceConfigs.ChangeListFromGetter` | forgerock-selfservice-core/src/main/java/org/forgerock/selfservice/core/config/ProcessInstanceConfig.java:64 | adding to the list the getter returned adds to the configuration's stage list |
| `ProcessInstanceConfigs.ProcessInstanceConfig.GetSnapshotTokenConfig` | forgerock-selfservice-core/src/main/java/org/forgerock/selfservice/core/config/ProcessInstanceConfig.java:86-88 | observer defined as the stored field (None before any set); the setters' ensures carry what it returns after each call |
| `ProcessInstanceConfigs.ProcessInstanceConfig.GetStorageType` | forgerock-selfservice-core/src/main/java/org/forgerock/selfservice/core/config/ProcessInstanceConfig.java:109-111 | observer defined as the stored field (None before any set); the setters' ensures carry what it returns after each call |
| `ProcessInstanceConfigs.ProcessInstanceConfig.SetSnapshotTokenConfig` | forgerock-selfservice-core/src/main/java/org/forgerock/selfservice/core/config/ProcessInstanceConfig.java:75-88 | null throws and changes nothing; otherwise the call returns the same config, `getSnapshotTokenConfig()` returns the argument, and the other two fields are unchanged |
| `ProcessInstanceConfigs.ProcessInstanceConfig.SetStorageType` | forgerock-selfservice-core/src/main/java/org/forgerock/selfservice/core/config/ProcessInstanceConfig.java:98-111 | null throws and changes nothing; otherwise the call returns the same config, `getStorageType()` returns the argument, and the other two fields are unchanged |

## Left out

- `JsonValue` and `ServiceUtils` are not part of this model. Two assumptions stand in for them:
  - `size()` counts the members of a list or an object and is 0 for every other value.
  - `emptyJson()` returns an empty object, so a fresh builder's requirements have size 0. `NewBuilder` and `FreshChainHasRequirements` rest on this.
- `EMPTY_TAG` is a constant whose value the model leaves unspecified (`BuilderCalls.EmptyTag`).
- StageResponses.StageResponse.constructor: requirements are modelled as an immutable JSON value. In the code, `setRequirements` stores the caller's own mutable `JsonValue`, and the built response shares that same object (`StageResponse.java:42`). A change to that object after `setRequirements` or `build()` would show through `getRequirements()` and `hasRequirements()`, and the model does not capture it.
- StageResponses.Builder.AddState: assumes that `Reject.ifNull(key, value)` rejects a null value as well as a null key. `Reject` is not part of this model. If a two-argument overload `ifNull(Object, String message)` is the one Java picks, only the key is checked, and `addState(k, null)` would store null.
- `Reject.ifNull` is modelled only by what it does: throw NullPointerException on a null argument. A thrown exception is a `Failure` result, not stack unwinding.
- The value `HashMap.put` returns is not modelled, because the builder discards it.
- The Jackson `@JsonProperty` annotations and configuration deserialisation are library I/O and are left out.
- The visitor type parameter of `ProcessInstanceConfig` and `StageConfig` has no run-time behaviour. Stage configs, snapshot token configs and storage types are opaque type parameters.
- `EmailStageConfig` only returns a constant stage type that an unseen factory makes, so it is left out.
- The model covers StageResponse.java and ProcessInstanceConfig.java only. The stage-advancement engine, snapshot token encoding, integrity and expiry, storage backends and the HTTP binding are outside it.
- Concurrency is not modelled. Neither class is synchronised, and the model treats every call as sequential.
