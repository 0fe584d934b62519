# wwm-tools core, modelled in Dafny

This project models the computational core of the wwm-tools site:

- **The persistence store**, `StateManager` in src/lib/state-manager.ts. It keeps a fixed set of named state slots. The state is seeded from the URL fragment, else from `localStorage`, else from the defaults. Every value is wrapped so that nested edits commit. A commit does three things:
  - it schedules a debounced rewrite of the URL fragment, which holds the values in key order as MessagePack bytes spelled in unpadded base64url;
  - it writes a JSON record to `localStorage`;
  - it notifies the subscribers.
- **The mystic-skill planner**, src/pages/tools/mystic-skills/logic.ts. It has three parts:
  - `calculateTotals` adds up the material costs between each skill's current and target (tier, rank);
  - `sortMaterials` orders material names with Ebon Iron first;
  - `getAcquisitionPlan` works out outpost runs and energy for Ebon Iron, and simulates day by day the gathering and the Monday chests for the rare materials.
- **The guild trade optimiser**, src/pages/tools/trade/optimizer.ts. It runs a grid search over the tax and bonus technique levels for the highest profit factor within a Wonder Jade budget, at the lowest cost.
- **Base-aware links**, src/utils/links.ts.

## Modules and files

| file | module | what it holds |
|---|---|---|
| wrappers.dfy | `Wrappers` | `Option` |
| collections.dfy | `Collections` | `Distinct`, `Elems` on sequences; `Remove` (what `Set.delete` leaves, in order) with `RemoveAbsent`, `RemoveSplice` and `RemoveMembers` |
| base64url.dfy | `Base64Url` | `toBase64` / `fromBase64`. `btoa` is written out as section 4 of RFC 4648. `atob` is the forgiving-base64 decode of the WHATWG Infra standard, from its section "Forgiving base64". The URL-safe alphabet is section 5 of RFC 4648. |
| values.dfy | `Values` | JSON-like values, the deep wrapper (a proxy is a `proxied` flag on a container), nested edits, and the MessagePack codec as a pair of functions |
| state_spec.dfy | `StateSpec` | What the store computes, as functions: seed choice, positional decoding, the snapshot a commit writes, the subscriber fan-out. Also the lemmas about them. |
| state_manager.dfy | `StateSync` | The `Browser` globals and the `StateManager` class, each method proved against `StateSpec` |
| scenarios.dfy | `StateScenarios` | The five behaviours of tests/state-manager.test.ts, as methods whose contracts are the test's expectations |
| mystic_totals.dfy | `MysticTotals` | `calculateTotals` |
| mystic_sort.dfy | `MysticSort` | `sortMaterials` |
| mystic_plan.dfy | `MysticPlan` | `getAcquisitionPlan` |
| optimizer.dfy | `TradeOptimizer` | `optimizeWealth`, `getCumulativeCost` |
| links.dfy | `Links` | `base`, `link` |

Where the code and its documentation differ, the model follows the code:

- **A subscriber that throws ends the notification.** `notify` does not guard its calls, so the subscribers after it are not called. The exception escapes `set` after `committing` is reset; this is the `ok == false` result.
- **A URL fragment that decodes at all is the seed.** This holds even when it yields no value for any key; storage is then not consulted. A decoded `null` is the only payload that counts as a failure, and only when there is at least one key: with no keys the loop never reads `values.length`, and the seed is the empty map.
- **A subscriber's nested `set` is not persisted by the commit that notified it.** `committing` is still true during `notify`, so the inner `set` only stores the value. The fragment was encoded and the storage record written before `notify`, so neither `localStorage` nor the scheduled fragment holds the new value until the next commit (the committing case of `StateSync.StateManager.Set`).

## Model

| member | source | states |
|---|---|---|
| Base64Url.ToBase64 | src/lib/state-manager.ts:12-19 | The text is `Encode(bytes)`: `btoa` of the Latin-1 string of the bytes, with `+`→`-`, `/`→`_` and the trailing `=` run removed |
| Base64Url.FromBase64 | src/lib/state-manager.ts:24-32 | The result is `Decode(text)`. It is `None` exactly where `atob` throws on the normalised text, and otherwise holds the code units of what `atob` returns. |
| Base64Url.CopyCodeUnits | src/lib/state-manager.ts:27-30 | The `Uint8Array` filled by the loop holds the code unit of each character, in order |
| Base64Url.Atob | src/lib/state-manager.ts:26 | Whatever `atob` returns is a binary string (every code unit below 256) |
| Base64Url.Sextets | src/lib/state-manager.ts:18 | Bytes split into 6-bit groups. A group count of the form 4k+1 never occurs. The count is a multiple of 4 exactly when the byte count is a multiple of 3. Non-empty input gives non-empty output. |
| Base64Url.SextetsRoundTrip | src/lib/state-manager.ts:18-26 | Joining the 6-bit groups of any byte sequence gives the bytes back |
| Base64Url.EncodeUnpadded | src/lib/state-manager.ts:18 | What `toBase64` returns is exactly the URL-safe spelling of the 6-bit groups: the replacements and the pad strip leave no `=` and lose nothing |
| Base64Url.EncodeIsUrlSafe | src/lib/state-manager.ts:18 | Every character of the transport text is in `A-Z a-z 0-9 - _` |
| Base64Url.AtobOfStdChars | src/lib/state-manager.ts:26 | `atob` accepts an unpadded standard spelling of any well-formed group sequence, and returns the bytes it encodes |
| Base64Url.RoundTrip | src/lib/state-manager.ts:12-32 | `fromBase64(toBase64(b)) == b` for every byte sequence |
| Values.WrapIsDeepView | src/lib/state-manager.ts:166-195 | `wrapDeep` returns primitives (falsy or not) unchanged. Every container it returns is a proxy, at every depth. Reading through the proxies gives the data that was wrapped. |
| Values.WrapPlainOfLive | src/lib/state-manager.ts:166-195 | Re-wrapping the data read out of a fully wrapped value rebuilds that value; this is why a reload restores the state |
| Values.PlainIsPlain | src/lib/state-manager.ts:133-135 | What a reader (the JSON or MessagePack encoder) sees through the proxies holds no proxy anywhere |
| Values.PutThenLookup | src/lib/state-manager.ts:171-175 | After `target[prop] = val` through a handle at any depth, reading the same path gives the stored value |
| Values.DeleteThenLookup | src/lib/state-manager.ts:176-180 | After `delete target[prop]` through a handle, the field is gone |
| Values.PutKeepsLive | src/lib/state-manager.ts:171-180 | A trap keeps the slot fully wrapped, because the `set` trap wraps what it stores |
| Values.LookupPlain | src/lib/state-manager.ts:133-135 | Reading through the proxies commutes with following a property path |
| StateSync.WrapDeep | src/lib/state-manager.ts:166-195 | The copy built element by element and field by field is `Wrap(value)` (see `Values.WrapIsDeepView`) |
| StateSync.SeedFrom | src/lib/state-manager.ts:52-63 | After the constructor's two loops the state is exactly the key set. Each key holds the wrapped seed value when the seed has the key, else its wrapped default. Seed entries for unknown keys are dropped. |
| StateSync.StateManager.constructor | src/lib/state-manager.ts:42-66 | Three things hold after construction. The key order is the defaults' order. The state is `InitialState` of the page's fragment and storage. Then one commit: the fragment of that state is scheduled, storage holds its record (one write), and there are no subscribers yet. |
| StateSync.StateManager.Subscribe | src/lib/state-manager.ts:68-69 | The subscriber is appended once; registering it again changes nothing (a `Set`) |
| StateSync.StateManager.Unsubscribe | src/lib/state-manager.ts:70 | The returned function removes exactly that subscriber. The others keep their registration order: the subscriber at index `j` is spliced out, and an unregistered one changes nothing. |
| Collections.RemoveSplice | src/lib/state-manager.ts:70 | Deleting the member at index `j` of a repetition-free subscriber list leaves the members before it and after it, in order |
| Collections.RemoveMembers | src/lib/state-manager.ts:70 | After the delete, the members are the old ones less the removed one, still without repetition |
| StateSync.StateManager.Get | src/lib/state-manager.ts:73-75 | A known key gives its stored, fully wrapped value; an unknown key gives nothing |
| StateSync.StateManager.GetState | src/lib/state-manager.ts:83-85 | The copy has exactly the key set and the live values |
| StateSync.StateManager.Set | src/lib/state-manager.ts:77-81 | An unknown key changes nothing and writes nothing. A known key stores the wrapped value, then commits the new state: fragment scheduled, one storage write, subscribers notified. A `set` made while committing only stores. |
| StateSync.StateManager.SetProperty | src/lib/state-manager.ts:171-175 | The `set` trap stores the wrapped value at the path inside the slot and commits that state. It only stores when a commit is already running. |
| StateSync.StateManager.DeleteProperty | src/lib/state-manager.ts:176-180 | The `deleteProperty` trap removes the field at the path and commits that state. It only removes when a commit is already running. |
| StateSync.StateManager.Commit | src/lib/state-manager.ts:119-141 | A commit requested during a commit changes nothing. Otherwise the scheduled rewrite becomes the encoding of the current state, replacing any earlier one. Storage gets the state's plain record, in exactly one write. The subscribers are notified, and `committing` is false afterwards. |
| StateSync.StateManager.EncodeValues | src/lib/state-manager.ts:95-99 | The text is the base64url of the codec's bytes for the values in key order, read through the proxies |
| StateSync.StateManager.PlainRecord | src/lib/state-manager.ts:133-135 | The record copied entry by entry is the state's data read through the proxies |
| StateSync.StateManager.Notify | src/lib/state-manager.ts:91-93 | The state, the calls recorded and the outcome are those of `NotifyAll` on the registered subscribers. Storage, fragment and the scheduled rewrite are untouched. |
| StateSync.StateManager.Deliver | src/lib/state-manager.ts:92 | One call hands the subscriber the live state and applies its reaction (a nested `set` only stores). It reports whether the subscriber threw. |
| StateSync.StateManager.LoadFromUrl | src/lib/state-manager.ts:143-147 | An empty fragment gives nothing, otherwise the fragment's decoding: `UrlSeed` |
| StateSync.StateManager.DecodeValues | src/lib/state-manager.ts:101-117 | Positional decoding. Any failure of base64url or MessagePack, or a `null` payload when there is at least one key, gives `None`. Otherwise `keys[i]` gets `values[i]` for each index below the payload's length. |
| StateSync.StateManager.LoadFromLocalStorage | src/lib/state-manager.ts:149-164 | A missing or unreadable record gives `None`; a record gives its fields whose names are known keys |
| StateSync.StateManager.FirePending | src/lib/state-manager.ts:128-130 | When the debounce timer fires, the last scheduled fragment replaces `location.hash`, and nothing stays scheduled |
| StateSpec.NotifyAllStep | src/lib/state-manager.ts:92 | One iteration of `for (const s of this.subs)`: a throwing subscriber ends the fan-out, any other hands on its reaction's state to the rest |
| StateSpec.InitialStateWellFormed | src/lib/state-manager.ts:52-63 | Whatever the page holds, the constructed state covers exactly the key set and every value is fully wrapped |
| StateSpec.SeedPriority | src/lib/state-manager.ts:47-63 | `fromUrl ?? fromLs ?? initial` key by key. A decodable non-empty fragment wins. Otherwise a readable record wins. Otherwise the defaults. A key the chosen seed lacks takes its default, and an empty fragment never seeds. |
| StateSpec.StorageSeedKnownKeysOnly | src/lib/state-manager.ts:155-159 | A stored record contributes exactly its fields named by known keys, with their values |
| StateSpec.ZipPositional | src/lib/state-manager.ts:107-111 | `keys[i]` is set exactly when `i < values.length`, to `values[i]`; no other key is set |
| StateSpec.PositionalArray | src/lib/state-manager.ts:101-117 | An array payload decodes to a map that sets `keys[i]` to `items[i]` for each `i` below its length, and nothing else |
| StateSpec.PositionalNull | src/lib/state-manager.ts:108-115 | A decoded `null` makes `values.length` throw, so the URL seed fails, exactly when there is at least one key. With no keys the seed is the empty map. |
| StateSpec.SnapshotIsPlain | src/lib/state-manager.ts:95-97 | The array the encoder is given holds no proxy |
| StateSpec.ZipOfSnapshot | src/lib/state-manager.ts:95-111 | Decoding positionally the values taken in key order gives every key its data back |
| StateSpec.FragmentOfEncoding | src/lib/state-manager.ts:129-146 | For non-empty bytes, three things hold. The text written after `#` is what `location.hash.slice(1)` reads back. It is not empty. It decodes to the same bytes. |
| StateSpec.FragmentRoundTrip | src/lib/state-manager.ts:95-147 | With a MessagePack codec that round-trips plain data, the scheduled fragment decodes to the data of every key |
| StateSpec.SharedLinkRestoresState | src/lib/state-manager.ts:42-66 | A store opened on the fragment another store (same keys) scheduled holds exactly that store's state, whatever storage holds |
| StateSpec.ReloadRestoresState | src/lib/state-manager.ts:133-164 | Without a usable fragment, the record a commit wrote seeds the next store with the same state |
| StateSpec.DefaultsWhenNothingStored | src/lib/state-manager.ts:50-63 | With neither a fragment nor a record, the state is the wrapped defaults |
| StateSpec.NotifyAllOrder | src/lib/state-manager.ts:91-93 | Subscribers are called in registration order, each at most once. The first receives the state as committed. The fan-out completes exactly when none throws. Otherwise it stops right after the first that throws. |
| StateSpec.NotifyAllOnlyRegistered | src/lib/state-manager.ts:68-71 | A subscriber that is not registered (never added, or removed) is never called |
| StateSpec.NotifyAllWellFormed | src/lib/state-manager.ts:77-81 | Subscribers' nested `set` calls keep the state complete over the key set and fully wrapped |
| StateSpec.NestedEditPersisted | src/lib/state-manager.ts:171-175 | After an assignment through a handle, the record a commit writes holds the assigned data at that path |
| StateScenarios.DefaultsScenario | tests/state-manager.test.ts:28-37 | With no fragment and no record, `get` returns the defaults 10 and `"test"` |
| StateScenarios.SetScenario | tests/state-manager.test.ts:39-51 | After `set('count', 20)`, `get` returns 20, the subscriber was called once, and storage was written again |
| StateScenarios.StorageScenario | tests/state-manager.test.ts:53-59 | A stored record `{count: 50}` seeds `count` with 50 |
| StateScenarios.DeepEditScenario | tests/state-manager.test.ts:61-74 | `user.settings.theme = 'light'` through the handle commits, and the last stored record holds `'light'` there |
| StateScenarios.Publish | tests/state-manager.test.ts:82-92 | After `set('a', 100)` and the timer, the page's hash is `#` followed by the encoding of a state holding 100 and `"test"` |
| StateScenarios.ShareLinkScenario | tests/state-manager.test.ts:76-101 | A second store opened on that hash reads back `a = 100` and `b = "test"` |
| StateScenarios.NotifyQuiet | tests/state-manager.test.ts:43-49 | A lone subscriber that does nothing is called once, with the committed state, which stays as it was |
| Links.Base | src/utils/links.ts:1 | `base` is `BASE_URL` with one trailing slash removed, when it has one |
| Links.Link | src/utils/links.ts:7-10 | Every link starts with the base followed by one slash |
| Links.LinkRoot | src/utils/links.ts:8 | The empty path and `/` both link to the base followed by one slash |
| Links.StripSlashesRemovesOneEach | src/utils/links.ts:9 | The global replace removes exactly one leading slash when there is one and exactly one trailing slash of what remains when there is one; nothing else changes |
| Links.LinkCleanPath | src/utils/links.ts:9 | A path with no slash at either end is appended unchanged after `base/` |
| Links.LinkOneSlash | src/utils/links.ts:5-10 | Exactly one slash separates base and path, for paths that do not start or end with `//` |
| Links.StripSlashesStable | src/utils/links.ts:9 | On those paths, stripping a second time changes nothing |
| TradeOptimizer.FindJade | src/pages/tools/trade/optimizer.ts:65-66 | The amount of the first `Wonder Jade` entry, or 0 when there is none |
| TradeOptimizer.GetCumulativeCost | src/pages/tools/trade/optimizer.ts:59-70 | The total is the Wonder Jade of ranks `startL` to `endL - 1` (index `i` is rank `i + 1`). Indices outside the table add nothing. |
| TradeOptimizer.SumJadeEmpty | src/pages/tools/trade/optimizer.ts:61 | An empty or reversed level range costs nothing |
| TradeOptimizer.SumJadeSplit | src/pages/tools/trade/optimizer.ts:59-70 | Upgrading in two steps costs exactly what upgrading at once costs |
| TradeOptimizer.SumJadePastTable | src/pages/tools/trade/optimizer.ts:63-64 | Levels past the end of the table add nothing |
| TradeOptimizer.SumJadeMonotone | src/pages/tools/trade/optimizer.ts:59-70 | With no negative amounts, a longer range never costs less |
| TradeOptimizer.FindJadeNonNegative | src/pages/tools/trade/optimizer.ts:65-66 | With no negative amounts, the jade found is never negative |
| TradeOptimizer.OptimizeWealth | src/pages/tools/trade/optimizer.ts:21-57 | The result's factor is that of its levels and never below the starting plan's. A result with the starting factor costs at most the starting plan's 0 jades. It is either the starting plan or an affordable pair within level 20 at its exact cost. No affordable pair has a higher factor. No affordable pair with the same factor is cheaper. No affordable pair with the same factor and cost comes earlier in the scan. |
| TradeOptimizer.NothingAffordableKeepsLevels | src/pages/tools/trade/optimizer.ts:26-31 | When the budget covers no upgrade, the current levels come back |
| MysticTotals.WindowOf | src/pages/tools/mystic-skills/logic.ts:15-19 | Each of the four settings is the page value, or the fallback when it is absent or 0 (`||`) |
| MysticTotals.Reached | src/pages/tools/mystic-skills/logic.ts:35-42 | Rank 0 of a tier above the starting tier opens that tier at rank 0. Every other rank reaches the next rank of its tier, strictly after the rank paid for. |
| MysticTotals.CalculateTotals | src/pages/tools/mystic-skills/logic.ts:10-60 | The global record is the additions of all counted costs of all skills, in order. There is one record per skill name and no other. A name's record is that of the last skill with that name. |
| MysticTotals.SkillTotals | src/pages/tools/mystic-skills/logic.ts:14-57 | The skill's record is the additions of the costs its window counts (empty when no upgrade is needed). The global record gains the same additions. |
| MysticTotals.TierTotals | src/pages/tools/mystic-skills/logic.ts:29-54 | Within one tier, each rank's costs are added to both records exactly when the level it reaches is after the current level and not after the target |
| MysticTotals.AddCosts | src/pages/tools/mystic-skills/logic.ts:48-51 | The loop of `(rec[item] \|\| 0) + amount` is the additions of the costs, in order |
| MysticTotals.AddKeepsValid | src/pages/tools/mystic-skills/logic.ts:49-50 | One addition keeps the record's keys distinct and in first-added order. It adds the item's key, and extends the order. |
| MysticTotals.AddAllAmount | src/pages/tools/mystic-skills/logic.ts:48-51 | After additions, every item holds its previous amount plus its total in the added costs. The record stays valid and its order only grows. |
| MysticTotals.AddAllKeys | src/pages/tools/mystic-skills/logic.ts:48-51 | After additions, the keys are the old keys and the added items, no more |
| MysticTotals.AddAllConcat | src/pages/tools/mystic-skills/logic.ts:29-54 | Adding two lists of costs in turn is adding their concatenation |
| MysticTotals.SkillRecordsKeys | src/pages/tools/mystic-skills/logic.ts:25-56 | Every skill name has a record, and nothing else does |
| MysticTotals.SkillRecordsLast | src/pages/tools/mystic-skills/logic.ts:25-56 | The record under a name is that of the last skill with that name (a later assignment overwrites) |
| MysticTotals.NoUpgradeNoCosts | src/pages/tools/mystic-skills/logic.ts:24-27 | When the target is not after the current level, no rank is counted, so the early return loses nothing |
| MysticTotals.GlobalIsSumOfSkills | src/pages/tools/mystic-skills/logic.ts:48-51 | For every item, the global record holds the sum over the skills of what each skill's record holds |
| MysticTotals.WindowSplit | src/pages/tools/mystic-skills/logic.ts:44-47 | For `cur <= mid <= target`, upgrading in two steps needs exactly what upgrading at once needs, item by item |
| MysticSort.Pinned | src/pages/tools/mystic-skills/logic.ts:64-65 | The `Ebon Iron` entries, all of them and only them |
| MysticSort.Others | src/pages/tools/mystic-skills/logic.ts:64-65 | The other entries, as a multiset exactly the names minus every `Ebon Iron` |
| MysticSort.Insert | src/pages/tools/mystic-skills/logic.ts:63-66 | Insertion adds exactly the one element |
| MysticSort.InsertionSort | src/pages/tools/mystic-skills/logic.ts:63-66 | The sorted copy is a permutation of its input |
| MysticSort.InsertSorted | src/pages/tools/mystic-skills/logic.ts:63-66 | Under a total preorder, inserting into a sorted list keeps it sorted |
| MysticSort.InsertionSortSorted | src/pages/tools/mystic-skills/logic.ts:63-66 | Under a total preorder, the copy is sorted by `localeCompare` |
| MysticSort.SortMaterials | src/pages/tools/mystic-skills/logic.ts:62-68 | A permutation of the names. Every `Ebon Iron` comes first. The other names follow in ascending `localeCompare` order. |
| MysticSort.PinnedThenRest | src/pages/tools/mystic-skills/logic.ts:64-66 | Ebon Iron entries followed by a sorted run of other names keep that shape once joined |
| MysticPlan.AcquisitionRate | src/pages/tools/mystic-skills/logic.ts:103 | The daily rate (`ACQUISITION_RATES[mat] \|\| 3`) is always positive |
| MysticPlan.CeilDiv | src/pages/tools/mystic-skills/logic.ts:77 | `Math.ceil(a / d)` is the least multiple count covering `a` |
| MysticPlan.EbIronPlan | src/pages/tools/mystic-skills/logic.ts:76-79 | The runs are the fewest whose 23 units each cover the Ebon Iron need. The energy is 20 per run. The days are the fewest whose 180 energy each pay for it. |
| MysticPlan.GetAcquisitionPlan | src/pages/tools/mystic-skills/logic.ts:70-145 | The Ebon Iron ceilings and energy hold. For `daysRare`: at most 3650. Something was still needed before each simulated day. Nothing is needed after it, unless the cap stopped the simulation. It is 0 exactly when no total other than Ebon Iron's is positive. `totalDays` is the larger of the two. |
| MysticPlan.SimulateRare | src/pages/tools/mystic-skills/logic.ts:97-135 | The loop runs until nothing is needed or 3650 days: something was needed at the start of each simulated day, and nothing after the last unless capped |
| MysticPlan.SimulateDay | src/pages/tools/mystic-skills/logic.ts:98-134 | One loop pass takes the needs after `day - 1` days to the needs after `day` days |
| MysticPlan.NeededOnEachDay | src/pages/tools/mystic-skills/logic.ts:97 | The loop condition held before every day simulated |
| MysticPlan.NextDay | src/pages/tools/mystic-skills/logic.ts:98-134 | Day `k` continues from the needs after `k - 1` days |
| MysticPlan.NoDaysExactlyWhenNothingNeeded | src/pages/tools/mystic-skills/logic.ts:84-97 | The simulation takes no day exactly when no total other than Ebon Iron's is positive |
| MysticPlan.Gather | src/pages/tools/mystic-skills/logic.ts:101-105 | One day of gathering. Outside gathering mode nothing changes. No need grows. A need at or below zero stays. A positive need drops. |
| MysticPlan.GatherDay | src/pages/tools/mystic-skills/logic.ts:101-105 | The `forEach` computes one day of gathering, `Gather` |
| MysticPlan.WorstIn | src/pages/tools/mystic-skills/logic.ts:115-124 | The pick is none exactly when no need is positive; otherwise a material with a positive need |
| MysticPlan.WorstInIsWorst | src/pages/tools/mystic-skills/logic.ts:115-124 | The pick takes longest to gather among the needed materials. Every material before it takes strictly less long, since only a strictly longer one displaces it. |
| MysticPlan.FindWorst | src/pages/tools/mystic-skills/logic.ts:112-124 | The `forEach` with `maxDays = -1` finds exactly the pick `WorstIn` |
| MysticPlan.ChestsOnlyLower | src/pages/tools/mystic-skills/logic.ts:108-133 | The chests never raise a need, never touch a material not needed, and never push a need below zero |
| MysticPlan.ChestsUseUnits | src/pages/tools/mystic-skills/logic.ts:108-133 | At most 54 units are handed out. Fewer only when nothing is needed any more, or when the pick is a needed material named `""` (the `break`). |
| MysticPlan.WeeklyChestsDay | src/pages/tools/mystic-skills/logic.ts:108-133 | The inner `while` hands out the Monday chests exactly as `Chests` does with 54 units |
| MysticPlan.OthersMembers | src/pages/tools/mystic-skills/logic.ts:81 | `rareMats` holds exactly the keys of the totals other than Ebon Iron |
| MysticPlan.RareNeedsPositive | src/pages/tools/mystic-skills/logic.ts:86-87 | The copied needs have a positive entry exactly when some total other than Ebon Iron's is positive |

## Left out

- The MessagePack encoder and decoder of `@jsonjoy.com/json-pack` are not part of this model. They are a pair of functions, the `Codec`. The lemmas that need a round trip assume `Lawful(codec)`: plain data encodes to at least one byte and decodes back to itself.
- JSON text is not modelled. A stored record is what `JSON.parse` gives back, a field map or `Unreadable`. Storage exceptions (quota, disabled storage) are not modelled.
- Numbers are integers and there is no `undefined`. Floating point and `NaN` in the stored values are out of scope.
- A decoded payload that is an object with a `length` field is not modelled; such a payload reads as length 0.
- Cyclic object graphs are not modelled; `wrapDeep` would not terminate on them.
- StateSync.StateManager.SetProperty: requires the handle's path to exist in the current state and the trap to apply there. Three edits the source's traps accept are not modelled: an edit through a handle no longer attached to the state (kept after `set(key, …)` or after its parent was deleted), which writes to the orphan and commits the unchanged state; an assignment beyond the position just past an array's end, which leaves holes; and a non-index property on an array.
- StateSync.StateManager.DeleteProperty: likewise requires an attached handle; a `delete` through a detached handle, or on an array, is not modelled.
- Array `delete` and assignments to `length` through a proxy are not modelled. Proxy identity is not modelled either: a value is data with a `proxied` flag.
- The iteration order of the state `Map` is not modelled, because the model's state is an unordered map. The constructor inserts the seed's keys in the seed's order, then the missing keys in key order. For a stored record that is `Object.keys` order: integer-like keys first, the rest as in the stored text. So the order that subscribers, `getState()` and the next stored JSON text see is not captured.
- The 100 ms timer is the `pending` slot, and `FirePending` is the moment it fires. `setTimeout`, `clearTimeout` and `history.replaceState` are not modelled beyond that.
- `entries()` is not modelled. It hands out the live map iterator.
- A subscriber callback is one of three reactions: it does nothing, it throws, or it calls `set(key, value)` once. The source calls arbitrary code, and the model cannot express these cases: a nested edit through a proxy handle during notification; a direct change to the live `Map` passed to the callback; a `subscribe` or an unsubscribe from inside a callback (JavaScript `Set` iteration would call a subscriber added mid-notification in the same pass, and skip one removed before its turn); a `set` followed by a throw.
- StateSpec.NotifyAllOnlyRegistered: holds for the three reactions only. A callback that subscribes another one during notification would make the source call a subscriber that was not registered when `notify` began.
- StateSpec.NotifyAllWellFormed: holds for the three reactions only. A callback that changes the live `Map` directly could add an unknown key or store an unwrapped value.
- StateSync.StateManager.Subscribe: returns no function. The returned unsubscriber is the separate method `Unsubscribe`.
- MysticTotals.WindowOf: takes the skill's id as given. Deriving it from the name with `toLowerCase` and a whitespace replace is not modelled.
- MysticSort.SortMaterials: `localeCompare` is a parameter, assumed to be a total preorder. The model is an insertion sort. For such an order, a stable sort has one result, so `Array.prototype.sort` gives the same list.
- MysticPlan.GetAcquisitionPlan: the day of the week, `new Date().getDay()`, is the parameter `startDay`.
- MysticPlan.GetAcquisitionPlan: `rareMats` is the totals' keys in first-added order, without Ebon Iron. `Object.keys` would list integer-like keys first; that is not modelled.
- MysticPlan.GetAcquisitionPlan: the needs object is a sequence aligned with `rareMats`.
- MysticPlan.WorstIn: compares days-to-gather as exact rationals, not IEEE doubles. Two ratios that round to the same double could break a tie differently.
- MysticPlan.FindWorst: same exact-rational comparison.
- The `ACQUISITION_RATES` lookup ignores prototype keys such as `constructor`.
- TradeOptimizer.OptimizeWealth: the rank tables are parameters; the source reads them from YAML.
- TradeOptimizer.OptimizeWealth: `calculateFactor` is a function parameter returning a real, because it is floating-point arithmetic over those tables. Factors are compared as exact reals.
- TradeOptimizer.OptimizeWealth: ties between factors that differ only by rounding are not modelled.
- Links.Base: `BASE_URL` is a parameter.
- Links.LinkOneSlash: stated only for paths that do not start or end with `//`. The source's replace removes one slash at each end, so for example `///` links to the base followed by `//`.
- src/pages/tools/trade/render-table.ts, src/lib/load-entries.ts and the configuration files are not part of this model.
