# Entity identity, registry and attribute normalisation (ObjectLogic.cs)

This project models the object layer of a small C# game in Dafny. It proves properties of that model.

- **Entity.** Every game entity gets a numeric ID when it is constructed.
  - A caller-supplied ("pregenerated") ID in `1..1000000` is honoured.
  - Any other value, including the default `-1`, takes the current value of the counter `currentMaxID`. The counter starts at `1000000`.
  - The entity is then inserted into the process-wide dictionary `EntityContainer.Container`.
  - The counter then advances by one, whichever branch ran.
- **Registry lookup.** `GetReferenceToEntity` returns the entity stored under an ID, or `null` when there is none.
- **Attribute normaliser.**
  - `AssignValue` keeps a value that lies in `[min, max]` and replaces any other value by a safe spot.
  - `SwapValues` exchanges two ints through a temporary.
- **Items and weapons.**
  - An item is an entity of type `ITEM` with an item type.
  - A weapon is an item of type `WEAPON`. Its constructor clamps its eight numeric fields and puts both min/max pairs in order.

The two C# statics, the counter and the container, are the two fields of one explicit `World` object (`Entities.World`). Every constructor is given that object and modifies it.

The project has these modules:

- `IdAllocation` (id_allocation.dfy) states the construction protocol on values.
  - `CandidateID` is the requested-or-counter choice.
  - `FinalID` is the key actually inserted.
  - `Construct` is one constructor call.
  - `Run` is a sequence of constructor calls.
  - `Inv` is the invariant every reachable state keeps.
  - Lemmas relate these, including what happens across many constructions.
- `Entities` (entities.dfy) holds the `World` and `Entity` classes. The `Entity` constructor follows the source statement by statement. It is proved to move the world from state `old(world.Abstract())` to `IdAllocation.Construct(old(world.Abstract()), kind, id)`.
- `Items` (items.dfy) holds `EntityItem` and `EntityItemWeapon`, plus `NormalizeWeaponStats`. That pure definition states what the weapon constructor stores. Lemmas prove its bounds, ordering and idempotence.
- `Normalizer` (normalizer.dfy) holds `AssignValue` and `SwapValues`.
- `EntityKinds` (kinds.dfy) holds the three enumerations as plain datatypes.
- `Wrappers` (wrappers.dfy) holds `Option`, which stands for C#'s nullable lookup result.

## Where the code and its own comments differ

The model follows the code in each case below.

- **The duplicate check tests the wrong value.** The comments at ObjectLogic.cs:36 and :43 say a duplicate is added as a new Entity with a new ID. The check at ObjectLogic.cs:37 tests `ContainsKey(thisID)`, but at that point the field `thisID` still holds its default `0`, not the candidate ID.
  - No construction ever inserts key 0: every candidate is at least 1.
  - So the "duplicate" branch (lines 44-49) never runs. `IdAllocation.DuplicateBranchUnreachable` proves this.
  - A requested ID that is already present reaches `Dictionary.Add` with an existing key, which throws in C#. The model states this as the constructors' precondition `CanConstruct`.
  - So a duplicate is not given a new ID: `IdAllocation.DuplicateRequestThrows` and `IdAllocation.SameRequestedIDTwiceThrows` show it.
  - Both branches are modelled as written.
- **The two ID ranges overlap.** The comment at ObjectLogic.cs:11 says IDs of the form 1xxxxxx are not pregenerated, so 1000000 is a runtime ID.
  - The counter does start at 1000000 (line 11).
  - But line 33 also accepts a requested ID of 1000000 as pregenerated.
  - So the first runtime ID is also a legal pregenerated ID. `IdAllocation.FirstRuntimeIDIsPregenerated` and `IdAllocation.FirstRuntimeIDCollidesWithPregenerated` show the overlap.

## Model

| member | source | states |
|---|---|---|
| `Normalizer.AssignValue` | ObjectLogic.cs:75-79 | The result is `toAssign` exactly when `min <= toAssign <= max`, and the safe spot otherwise. When the safe spot lies in `[min, max]`, the result always does. |
| `Normalizer.AssignValueIdempotent` | ObjectLogic.cs:75-79 | With a safe spot in range, applying `AssignValue` to its own result changes nothing. |
| `Normalizer.AssignValueBoundaries` | ObjectLogic.cs:75-79 | Both bounds are kept. `min - 1` and `max + 1` give the safe spot. |
| `Normalizer.SwapValues` | ObjectLogic.cs:83-88 | The two values come back exchanged. Two 32-bit inputs give two 32-bit outputs, because no arithmetic is done. |
| `IdAllocation.CandidateID` | ObjectLogic.cs:27-34 | The candidate is the requested ID when it is in `1..1000000`, and the current counter value otherwise, which includes the default `-1`. |
| `IdAllocation.FinalID` | ObjectLogic.cs:29-49 | A request outside `1..1000000` always gets the counter value, whichever branch runs. An in-range request gets exactly the requested ID while key 0 is absent. |
| `IdAllocation.Construct` | ObjectLogic.cs:37-52 | One construction adds exactly the key `FinalID`, which was absent, mapped to the new entity's type. Every old entry is kept, and the counter goes up by exactly one. |
| `IdAllocation.InitialInv` | ObjectLogic.cs:11 | The start state (counter at 1000000, empty container) satisfies the registry invariant. |
| `IdAllocation.ConstructPreservesInv` | ObjectLogic.cs:27-52 | Every construction preserves the invariant. The counter stays at 1000000 or above. Every key is at least 1, and is either a pregenerated ID or a counter value already used. |
| `IdAllocation.DuplicateBranchUnreachable` | ObjectLogic.cs:37-49 | In every reachable state key 0 is absent. So the duplicate test never succeeds, and the inserted key is always the candidate. |
| `IdAllocation.DuplicateRequestThrows` | ObjectLogic.cs:37-42 | A requested pregenerated ID that is already present fails `Add`'s precondition. It is not redirected to a fresh ID. |
| `IdAllocation.RunAssignsIDs` | ObjectLogic.cs:27-52 | Take a run of constructions that succeeds. The counter ends `n` higher after `n` constructions, and the invariant still holds. The i-th construction receives the candidate for its request against the counter value `start + i`. |
| `IdAllocation.RuntimeIDsIncrease` | ObjectLogic.cs:33-52 | Within one run, runtime-assigned IDs are at least 1000000 and strictly increasing. |
| `IdAllocation.RunExtendsRegistry` | ObjectLogic.cs:37-52 | The IDs a run hands out are new and pairwise distinct. They are stored with their requests' types. The final keys are exactly the old keys plus these IDs, and old entries are unchanged. |
| `IdAllocation.FirstRuntimeIDIsPregenerated` | ObjectLogic.cs:11-34 | From the start state, a default request receives ID 1000000, which is also a legal pregenerated ID. |
| `IdAllocation.FirstRuntimeIDCollidesWithPregenerated` | ObjectLogic.cs:11-52 | A default request followed by a request for pregenerated ID 1000000 makes the second `Add` throw. The same request succeeds on its own. |
| `IdAllocation.SameRequestedIDTwiceThrows` | ObjectLogic.cs:33-41 | A second request for pregenerated ID 5 makes `Add` throw, although the first succeeds. |
| `Entities.World.constructor` | ObjectLogic.cs:99 | The container starts empty and the counter at its initial 1000000 (line 11). This is the state `IdAllocation.Initial`. |
| `Entities.World.Add` | ObjectLogic.cs:41 | `Dictionary.Add` requires an absent key. It adds that one key and leaves the counter alone. |
| `Entities.World.GetReferenceToEntity` | ObjectLogic.cs:106-110 | The result is `Some` exactly when the ID is a key, and `None` (C#'s `null`) otherwise. A found entity's `GetEntityID` is the ID looked up. Being a function, it changes nothing. |
| `Entities.Entity.constructor` | ObjectLogic.cs:27-70 | The `id` parameter defaults to -1, as in C#. The entity's `GetEntityID` is `FinalID` and its `GetEntityType` is the given type. The container gains exactly this entity under that ID. The counter goes up by one. The world's abstract state is `Construct` of the old one. Lookup of the new ID finds this entity. |
| `Items.EntityItem.constructor` | ObjectLogic.cs:132-144 | The `id` parameter defaults to -1, as in C#. The base entity is registered as one `Construct` with type `ITEM`, and `GetItemType` is the given item type. |
| `Items.NormalizeWeaponStats` | ObjectLogic.cs:186-200 | Every stored field lies in its domain: range 0..50, damage 0..1000000, crit chance 0..100, crit multiplier 0..1000000, level 0..200, skill 0..1000. Each min/max pair is the clamped pair in ascending order. Each other field is its clamped value. |
| `Items.NormalizeKeepsValidStats` | ObjectLogic.cs:186-200 | Parameters already in their domains and in order are stored unchanged. |
| `Items.NormalizeIdempotent` | ObjectLogic.cs:186-200 | Normalising stored stats a second time changes nothing. |
| `Items.NormalizeExamples` | ObjectLogic.cs:186-194 | Range (30, 10) is stored as (10, 30). Damage (-5, 2000000) falls back to (0, 1) with no swap. Range (40, 60) becomes (40, 2) by clamping and is then swapped to (2, 40). |
| `Items.EntityItemWeapon.constructor` | ObjectLogic.cs:179-202 | The base is registered with entity type `ITEM` and item type `WEAPON`, and the weapon type is stored. The stored stats are `NormalizeWeaponStats` of the raw parameters, so all the bounds and orderings hold. |

## Left out

- The `ObjectLogic : MonoBehaviour` class and the `UnityEngine`/`System.Collections` imports are left out. They are empty engine glue.
- The counter and the container are not C# statics. They are fields of one explicit `World` object passed to every constructor. Construction is single-threaded, so concurrency is not modelled.
- `Entities.Entity.constructor`: the exception `Dictionary.Add` throws on a key already present is not modelled as control flow. It is the precondition `IdAllocation.CanConstruct`, and `IdAllocation.Run` returns `None` for the run in which it would happen.
- `Entities.World`: the counter is an unbounded `int`. The 32-bit wrap-around of `currentMaxID++` once the counter passes 2^31 - 1 is not modelled. Starting at 1000000, that happens after 2^31 - 1000000 constructions.
- Outside code writing to the public `Container` directly is not modelled. Only constructors insert.
- Object identity and `null` are modelled only as far as lookup goes. A lookup returns `Option<Entity>`.
- Inheritance becomes composition: an item holds its base `Entity`, and a weapon holds its item. The registry stores the `Entity` part. A C# downcast from a looked-up `Entity` to `EntityItem` or `EntityItemWeapon` is not modelled.
- Items and weapons have no getters of their own for the inherited ID and type. They are read through `base.GetEntityID()` and `base.GetEntityType()`.
- `Items.EntityItemWeapon.constructor`: the clamp and conditional swap run on local variables, and each field is stored once. The source writes the fields and swaps them by reference. The steps and their order are the same, but the in-place field version is too costly for the verifier.
- The C# field initialisers of the weapon (`minRange = 0`, `critMupliplierPercent = 100`, ...) are overwritten in every constructor call. They appear only as the values before that. The source's misspelt `critMupliplierPercent` is `critMultiplierPercent` here.
- The weapon type enumeration is stored but carries no behaviour.
- The REFACTOR notes and the level and skill cap comments describe intended future limits, not code behaviour. They are not modelled.
