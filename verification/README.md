# LibClient core in Dafny

A model of the client library of a turn-based spy board game. The model
covers four pieces of the client:

- **The belief store** (`AIState`). It holds what the client knows for
  certain about each character's faction: the lists `myFaction`,
  `enemyFaction` and `npcFaction`, plus the uncertain map
  `unknownFaction`. It records where each gadget is: in the uncertain map
  `unknownGadgets`, on the floor (`floorGadgets`), or held by a character
  (`characterGadgets`). It also stores character properties.
  `ApplySureInformation` merges the certain facts into a game-state
  snapshot.
- **The summary of the client's own last operation**
  (`GameState::handleLastClientOperation`). It scans the reported
  operations and sets `lastOpSuccessful` and `isEnemy`.
- **The gated entry points of `LibClient`.** `setName` and `setRole`
  depend on the network state. `amIPlayer1` and `setFaction` depend on the
  network state, the client's role and the requested faction.
- **The gadget comparator** `cmpGadgetPtr`. It orders gadgets by type
  alone, and `src/LibClient.cpp:237` gives it as the comparator of
  `unknownGadgets`. That is why the model keys `unknownGadgets` on the
  gadget type. The model keys `characterGadgets` the same way (see
  "Left out").

Files:

- `spy_types.dfy`: identifiers, points, factions, properties, gadgets,
  characters and the snapshot.
- `seq_search.dfy`: the `std::find` search.
- `order_utils.dfy`: the comparator.
- `ai_state.dfy`: the belief store.
- `game_state.dfy`: the operation summary.
- `network.dfy`: the network states.
- `lib_client.dfy`: the entry points.

Stateful code is modelled as classes with `modifies` frames:

- Each method's `ensures` gives its whole new state in terms of the old one.
- Pure functions specify the loops: `Summarise` for the operation scan,
  `SureCharacters` and `PropertiesAfter` for the reconciliation loop, and
  `IndexOf` for `std::find`.
- Lemmas about those functions state what the source promises.

Where the code and its evidently intended behaviour disagree, the model
follows the code:

- Handing a gadget from one character straight to another is a move a
  store of gadget owners would be expected to allow. `addGadget` refuses
  it: with an owner given, it only looks in `unknownGadgets` and on the
  floor (`src/model/AIState.cpp:56-60`).
- Promoting a faction is evidently meant to resolve an id that still has
  an uncertain entry. `addFaction` instead checks the target list (see
  Findings).
- The getters at `src/LibClient.cpp:267-277` return `std::set`, so the
  certain lists are evidently meant to hold each id at most once.
  `src/model/AIState.hpp`
  declares them as vectors, and `addFaction` appends to them, so the model
  uses sequences.
- `src/model/AIState.hpp` does not declare `unknownGadgets`,
  `floorGadgets`, `characterGadgets` or `properties`.
  `src/model/GameState.hpp` does not declare `lastOpSuccessful` or
  `isEnemy`. The shapes of these fields come from how
  `src/model/AIState.cpp`, `src/model/GameState.cpp` and
  `src/LibClient.cpp` use them.

## Model

| member | source | states |
|---|---|---|
| `SeqSearch.IndexOf` | src/model/AIState.cpp:42-43 | the search result is the first position holding the sought value, and equals the length exactly when the value is absent |
| `SeqSearch.Find` | src/model/AIState.cpp:57-58 | the search loop returns exactly the first matching position, or the length |
| `SeqSearch.RemoveAtMultiset` | src/model/AIState.cpp:63 | erasing the element found removes exactly one occurrence of it |
| `OrderUtils.CmpGadgetPtrIsStrictWeakOrder` | src/util/OrderUtils.hpp:10-12 | the comparator is irreflexive, asymmetric and transitive, and incomparability is transitive: a strict weak order |
| `OrderUtils.EquivalentIffSameType` | src/util/OrderUtils.hpp:11 | two gadgets are the same map key exactly when they have the same gadget type |
| `OrderUtils.OrderedKeysHaveDistinctTypes` | src/LibClient.cpp:237 | keys kept strictly ordered by the comparator are ordered by type throughout and pairwise of distinct types, so the map holds at most one entry per gadget type |
| `AIStateModel.AIState.AddFaction` | src/model/AIState.cpp:41-49 | succeeds iff the id is already in the target list; on success the list gains the id at its end and the id leaves the uncertain map; on failure nothing changes; other lists never change; with disjoint lists it keeps them disjoint and the uncertain map unchanged |
| `AIStateModel.AddFactionRefusesUnresolvedCharacter` | src/model/AIState.cpp:42-45 | an id held only in the uncertain map is refused and stays unresolved |
| `AIStateModel.AddFactionDuplicatesListedCharacter` | src/model/AIState.cpp:46-48 | an id already in the target list is accepted and then listed twice |
| `AIStateModel.AIState.ResolveFaction` | src/model/AIState.cpp:41-49 | corrected promotion: succeeds iff the id has an uncertain entry, appends it once to the target list, removes the entry, keeps the faction lists disjoint and leaves the id in exactly the target list |
| `AIStateModel.ResolveFactionPromotesUnresolvedCharacter` | src/model/AIState.cpp:41-49 | the corrected promotion moves an unresolved id into the target list once and out of the uncertain map |
| `AIStateModel.AIState.AddGadget` | src/model/AIState.cpp:51-87 | exactly four moves succeed: uncertain to owned, floor to owned (removing the first floor occurrence of that gadget object), uncertain to floor and owned to floor (appending); every other request, owned to owned included, fails with no change; a gadget recorded in at most one place before a successful move is recorded in exactly one after |
| `AIStateModel.HandleFaction` | src/model/AIState.cpp:12-19 | reports whether the character's id is in the list and, if so, gives it the list's faction, leaving it unchanged otherwise |
| `AIStateModel.AIState.ApplySureInformation` | src/model/AIState.cpp:8-39 | the number of characters is unchanged; each character gets NEUTRAL if in the npc list, else `me` if in the my list, else the opponent of `me` if in the enemy list, else its stored properties; an empty entry is inserted for every unlisted character that had none |
| `AIStateModel.PropertiesAfter` | src/model/AIState.cpp:34-35 | after the loop the properties map has exactly the old keys plus the unlisted characters' ids, and every entry keeps its old value or is empty |
| `AIStateModel.SureInformationIdempotent` | src/model/AIState.cpp:21-38 | reconciling twice in a row yields the same characters and the same properties map as reconciling once |
| `GameStateModel.CharacterIdAt` | src/model/GameState.cpp:58-59 | the id returned belongs to a character standing at the target point |
| `GameStateModel.NoOperationsNoChange` | src/model/GameState.cpp:16-18 | an empty operation list leaves both values unchanged |
| `GameStateModel.Unskipped` | src/model/GameState.cpp:22-27 | holds exactly those entries of the list that are not cat, janitor or exfiltration actions, each as many times as it occurs in the list, and drops every skipped entry |
| `GameStateModel.SkippedOperationsHaveNoEffect` | src/model/GameState.cpp:20-27 | removing every cat, janitor and exfiltration entry does not change the summary |
| `GameStateModel.SkippedOnly` | src/model/GameState.cpp:22-27 | a list of skipped entries changes nothing |
| `GameStateModel.ForeignOperationKeepsEarlierValues` | src/model/GameState.cpp:33-43 | at the first operation of a character that is not the client's own, processing stops with the values the earlier operations set |
| `GameStateModel.HaltingOperationEndsProcessing` | src/model/GameState.cpp:41-54 | after a foreign operation or an own use of a property other than observation, nothing later in the list has any effect |
| `GameStateModel.LastOwnOperationDecides` | src/model/GameState.cpp:45-61 | if no earlier operation halts, an own operation followed only by skipped entries sets `lastOpSuccessful` to its success flag, and sets `isEnemy` to the reported result paired with the observed character for an observation with a result, and to none otherwise |
| `GameStateModel.EnemyInformationComesFromObservation` | src/model/GameState.cpp:56-61 | new enemy information always comes from an own observation with a reported result and names the character at its target |
| `GameStateModel.GameState.HandleLastClientOperation` | src/model/GameState.cpp:12-65 | asks for an occupied target only at the own observations with a result that the scan reaches before it stops; the loop leaves exactly the summary `Summarise` gives for the operation list, and changes nothing but `lastOpSuccessful` and `isEnemy`, so the operation list is never modified |
| `LibClientModel.LibClient.SetName` | src/LibClient.cpp:170-177 | succeeds iff the network state is NOT_CONNECTED or CONNECTED; stores the name on success and leaves it unchanged otherwise |
| `LibClientModel.LibClient.SetRole` | src/LibClient.cpp:179-186 | succeeds iff the network state is NOT_CONNECTED or CONNECTED; stores the role on success and leaves it unchanged otherwise |
| `LibClientModel.AmIPlayer1` | src/LibClient.cpp:218-229 | none for a spectator in every state, and none in every state other than IN_GAME, IN_GAME_ACTIVE, PAUSE and GAME_OVER; for a player in one of those four, the client state's answer |
| `LibClientModel.FactionTarget` | src/LibClient.cpp:188-216 | a player's request is accepted iff the client is in a game and the faction is neither INVALID nor the player's own; a spectator's iff the faction is not INVALID; only a spectator ever targets the my list; the chosen list is the one reconciliation renders as the requested faction |
| `LibClientModel.LibClient.SetFaction` | src/LibClient.cpp:188-216 | succeeds iff the request is accepted and AddFaction succeeds on the chosen list; the store changes exactly as AddFaction changes it, and a refused request changes nothing |

## Left out

- Transport and the message-to-state table (`src/Network.cpp`, the
  send and connect members of `src/Network.hpp`). This is socket
  plumbing, and the shown code has no transition table. Only the
  `NetworkState` enumeration is modelled, and it is passed to the entry
  points as a value.
- The getters of `src/LibClient.cpp` and `operationToString`. The getters
  are field reads. `operationToString` formats strings through a JSON
  library.
- `hasCharacterFaction`, `hasCharacterGadget` and `safePosToIndex`. They
  delegate to store members that are not part of this model. Note that
  `src/LibClient.cpp:243` tests whether `amIPlayer1()` holds a value, not
  what the value is.
- The certainty samples in `unknownFaction` and `unknownGadgets`. They are
  carried as opaque `real` lists. The shown code never computes with them.
- Gadgets in `ApplySureInformation`. The source leaves them as a TODO.
- The gadget's usage counter and other fields. The comparator and the
  store only use the gadget type and the object's identity.
- `AmIPlayer1`: the client state's own answer is a parameter
  (`clientIsPlayer1`). Its definition is not part of this model.
- `CharacterIdAt`: the game library's coordinate lookup is not part of
  this model. It is modelled as the first character standing at the
  point.
- `HandleLastClientOperation`: operations of type INVALID are not part of
  the `Operation` type. The source would cast them to a character
  operation and dereference a null pointer.
- `AddGadget`: the comparator of `characterGadgets` is not part of this
  model, because no shown declaration gives it. The model assumes
  `cmpGadgetPtr`, as for `unknownGadgets`, and keys the map on the gadget
  type. If the map were keyed on the pointer, the behaviour would differ:
  - A move to the floor of an unowned object would fail at
    `src/model/AIState.cpp:74-76`, even when another object of the same
    type is owned. The model accepts it.
  - A floor-to-owned move at line 62 would add a second entry rather
    than overwrite the owner of that type.
- `AddFaction`: at `src/model/AIState.cpp:46` the `push_back` may
  reallocate the list, which invalidates the iterator `charId`; the
  `erase(*charId)` at line 47 then reads freed storage, which is undefined
  behaviour (the id 7 example under Findings reaches it). The model erases
  the id the search found, as the code evidently means; with disjoint
  lists that removes nothing.
- `AddFaction`: the source takes any vector by reference. Every caller
  passes one of the store's three lists, so the model selects the list
  with `FactionList`.
- `FactionTarget`: the rendering property uses PLAYER1 as a spectator's
  viewpoint. The code that calls `applySureInformation` is not part of
  this model.

## Findings

| source | as written | input that shows it | evidently intended | confidence | as-written member | corrected member |
|---|---|---|---|---|---|---|
| src/model/AIState.cpp:42-47 | `addFaction` searches the target list instead of `unknownFaction`, so it accepts only an id already listed there and appends it a second time; with disjoint lists the erase from `unknownFaction` never removes anything | id 7 held only in `unknownFaction`, sent to the npc list: refused, still unresolved; id 7 already in the npc list: the list becomes [7, 7] | accept an id that has an entry in `unknownFaction`, append it once and erase the entry | high, not executed | `AIStateModel.AIState.AddFaction` (exhibited by `AIStateModel.AddFactionRefusesUnresolvedCharacter` and `AIStateModel.AddFactionDuplicatesListedCharacter`) | `AIStateModel.AIState.ResolveFaction` |

`LibClient.SetFaction` models `src/LibClient.cpp:201-211`, which calls
`addFaction` as written, so it keeps that call. `ResolveFaction` is the
promotion the store performs once the guard is corrected. It is proved to
keep the faction lists disjoint.
