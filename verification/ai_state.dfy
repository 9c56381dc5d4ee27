/**
 * The belief store of the client: certain and uncertain knowledge about
 * which faction each character belongs to and where each gadget is, and
 * the merge of the certain part into a game-state snapshot.
 */
module AIStateModel {
  import opened SpyTypes
  import opened SeqSearch

  /** Names one of the three certain faction lists of the store. */
  datatype FactionList = MyFaction | EnemyFaction | NpcFaction

  /** The other player's faction, as seen by a client playing `me`. */
  function Opponent(me: FactionEnum): FactionEnum
  {
    if me == PLAYER1 then PLAYER2 else PLAYER1
  }

  /** The faction that reconciliation writes onto a character found in list `which`. */
  function RenderedFaction(which: FactionList, me: FactionEnum): FactionEnum
  {
    match which
    case NpcFaction => NEUTRAL
    case MyFaction => me
    case EnemyFaction => Opponent(me)
  }

  /** The first list, in the order npc, my, enemy, that holds `id`. */
  function SureList(id: UUID, npc: seq<UUID>, my: seq<UUID>, enemy: seq<UUID>): Option<FactionList>
  {
    if id in npc then Some(NpcFaction)
    else if id in my then Some(MyFaction)
    else if id in enemy then Some(EnemyFaction)
    else None
  }

  /** The stored properties of `id`, or the empty set a default-inserted entry holds. */
  function PropertiesOf(props: map<UUID, set<PropertyEnum>>, id: UUID): set<PropertyEnum>
  {
    if id in props then props[id] else {}
  }

  /** One character after reconciliation: a certain faction, or else the stored properties. */
  function SureCharacter(c: Character, npc: seq<UUID>, my: seq<UUID>, enemy: seq<UUID>,
                         me: FactionEnum, props: map<UUID, set<PropertyEnum>>): Character
  {
    match SureList(c.characterId, npc, my, enemy)
    case Some(which) => c.(faction := RenderedFaction(which, me))
    case None => c.(properties := PropertiesOf(props, c.characterId))
  }

  /** All characters after reconciliation, position by position. */
  function SureCharacters(cs: seq<Character>, npc: seq<UUID>, my: seq<UUID>, enemy: seq<UUID>,
                          me: FactionEnum, props: map<UUID, set<PropertyEnum>>): seq<Character>
  {
    seq(|cs|, k requires 0 <= k < |cs| => SureCharacter(cs[k], npc, my, enemy, me, props))
  }

  /** Ids of the characters of `cs` that are in none of the certain lists. */
  function UnlistedIds(cs: seq<Character>, npc: seq<UUID>, my: seq<UUID>, enemy: seq<UUID>): set<UUID>
  {
    set c | c in cs && SureList(c.characterId, npc, my, enemy) == None :: c.characterId
  }

  /**
   * The properties map after reconciling the characters `cs` in order: each
   * character in no certain list gets an empty entry when it had none.
   */
  function PropertiesAfter(props: map<UUID, set<PropertyEnum>>, cs: seq<Character>,
                           npc: seq<UUID>, my: seq<UUID>, enemy: seq<UUID>): (r: map<UUID, set<PropertyEnum>>)
    ensures r.Keys == props.Keys + UnlistedIds(cs, npc, my, enemy)
    ensures forall id :: id in r ==> r[id] == PropertiesOf(props, id)
    decreases |cs|
  {
    if cs == [] then props
    else
      var front := cs[..|cs| - 1];
      var p := PropertiesAfter(props, front, npc, my, enemy);
      var id := cs[|cs| - 1].characterId;
      assert cs == front + [cs[|cs| - 1]];
      if SureList(id, npc, my, enemy) == None && id !in p then p[id := {}] else p
  }

  /**
   * Reconciling a second time, with the properties map the first pass left,
   * changes neither the characters nor the map.
   */
  lemma {:induction false} SureInformationIdempotent(cs: seq<Character>, npc: seq<UUID>, my: seq<UUID>,
                                                    enemy: seq<UUID>, me: FactionEnum,
                                                    props: map<UUID, set<PropertyEnum>>)
    ensures var once := SureCharacters(cs, npc, my, enemy, me, props);
            var props1 := PropertiesAfter(props, cs, npc, my, enemy);
            SureCharacters(once, npc, my, enemy, me, props1) == once &&
            PropertiesAfter(props1, once, npc, my, enemy) == props1
  {
    var once := SureCharacters(cs, npc, my, enemy, me, props);
    var props1 := PropertiesAfter(props, cs, npc, my, enemy);
    forall k | 0 <= k < |cs|
      ensures SureCharacter(once[k], npc, my, enemy, me, props1) == once[k]
    {
      var id := cs[k].characterId;
      if SureList(id, npc, my, enemy) == None {
        assert cs[k] in cs;
        assert id in UnlistedIds(cs, npc, my, enemy);
      }
    }
    assert UnlistedIds(once, npc, my, enemy) == UnlistedIds(cs, npc, my, enemy) by {
      forall id | id in UnlistedIds(once, npc, my, enemy)
        ensures id in UnlistedIds(cs, npc, my, enemy)
      {
        var c :| c in once && SureList(c.characterId, npc, my, enemy) == None && c.characterId == id;
        var k :| 0 <= k < |once| && once[k] == c;
        assert cs[k] in cs;
      }
      forall id | id in UnlistedIds(cs, npc, my, enemy)
        ensures id in UnlistedIds(once, npc, my, enemy)
      {
        var c :| c in cs && SureList(c.characterId, npc, my, enemy) == None && c.characterId == id;
        var k :| 0 <= k < |cs| && cs[k] == c;
        assert once[k] in once;
      }
    }
  }

  class AIState {
    /** Uncertain faction knowledge: per character, candidate factions with certainty samples. */
    var unknownFaction: map<UUID, seq<(FactionEnum, seq<real>)>>
    var myFaction: seq<UUID>
    var enemyFaction: seq<UUID>
    var npcFaction: seq<UUID>
    /** Uncertain ownership: per gadget type, candidate holders with certainty samples. */
    var unknownGadgets: map<GadgetType, seq<(UUID, seq<real>)>>
    var floorGadgets: seq<Gadget>
    /**
     * Certain ownership: per gadget type, the holding character. The source
     * does not show this map's comparator; the model assumes `cmpGadgetPtr`,
     * as for `unknownGadgets`.
     */
    var characterGadgets: map<GadgetType, UUID>
    var properties: map<UUID, set<PropertyEnum>>

    constructor ()
      ensures unknownFaction == map[] && unknownGadgets == map[] && characterGadgets == map[]
      ensures myFaction == [] && enemyFaction == [] && npcFaction == []
      ensures floorGadgets == [] && properties == map[]
    {
      unknownFaction := map[];
      myFaction, enemyFaction, npcFaction := [], [], [];
      unknownGadgets := map[];
      floorGadgets := [];
      characterGadgets := map[];
      properties := map[];
    }

    function ListOf(which: FactionList): seq<UUID>
      reads this`myFaction, this`enemyFaction, this`npcFaction
    {
      match which
      case MyFaction => myFaction
      case EnemyFaction => enemyFaction
      case NpcFaction => npcFaction
    }

    /** A character id is in at most one of the certain lists and the uncertain map. */
    ghost predicate FactionsDisjoint()
      reads this
    {
      && (forall id :: id in unknownFaction ==> id !in myFaction && id !in enemyFaction && id !in npcFaction)
      && (forall id :: id in myFaction ==> id !in enemyFaction && id !in npcFaction)
      && (forall id :: id in enemyFaction ==> id !in npcFaction)
    }

    /**
     * How many places record gadget `g`: its type in the uncertain map, each
     * occurrence of the object on the floor, its type in the owner map.
     */
    ghost function Places(g: Gadget): nat
      reads this
    {
      (if g.gadgetType in unknownGadgets then 1 else 0)
      + multiset(floorGadgets)[g]
      + (if g.gadgetType in characterGadgets then 1 else 0)
    }

    /**
     * Promotes `id` into list `which`, as written: the guard searches the
     * target list, so the call succeeds only for an id already listed there,
     * which it then appends a second time. The model then erases the id found
     * by the search from the uncertain map; the source reads that id through
     * an iterator the append may already have invalidated.
     */
    method AddFaction(id: UUID, which: FactionList) returns (ok: bool)
      modifies this`myFaction, this`enemyFaction, this`npcFaction, this`unknownFaction
      ensures ok == (id in old(ListOf(which)))
      ensures forall w :: ListOf(w) == if ok && w == which then old(ListOf(w)) + [id] else old(ListOf(w))
      ensures unknownFaction == if ok then old(unknownFaction) - {id} else old(unknownFaction)
      ensures old(FactionsDisjoint()) ==> FactionsDisjoint() && unknownFaction == old(unknownFaction)
    {
      var list := ListOf(which);
      var k := Find(list, id);
      if k == |list| {
        return false;
      }
      var grown := list + [list[k]];
      match which {
        case MyFaction => myFaction := grown;
        case EnemyFaction => enemyFaction := grown;
        case NpcFaction => npcFaction := grown;
      }
      unknownFaction := unknownFaction - {list[k]};
      return true;
    }

    /**
     * Promotes `id` from the uncertain map into list `which`; fails without
     * change when `id` has no uncertain entry. Keeps the lists disjoint.
     */
    method ResolveFaction(id: UUID, which: FactionList) returns (ok: bool)
      modifies this`myFaction, this`enemyFaction, this`npcFaction, this`unknownFaction
      ensures ok == (id in old(unknownFaction))
      ensures forall w :: ListOf(w) == if ok && w == which then old(ListOf(w)) + [id] else old(ListOf(w))
      ensures unknownFaction == old(unknownFaction) - {id}
      ensures old(FactionsDisjoint()) ==> FactionsDisjoint()
      ensures old(FactionsDisjoint()) && ok ==> SureList(id, npcFaction, myFaction, enemyFaction) == Some(which)
    {
      if id !in unknownFaction {
        return false;
      }
      match which {
        case MyFaction => myFaction := myFaction + [id];
        case EnemyFaction => enemyFaction := enemyFaction + [id];
        case NpcFaction => npcFaction := npcFaction + [id];
      }
      unknownFaction := unknownFaction - {id};
      return true;
    }

    /**
     * Moves gadget `g` to character `id`, or to the floor when `id` is None.
     * Allowed edges: uncertain to owned, floor to owned, uncertain to floor,
     * owned to floor; every other request fails without change.
     */
    method AddGadget(g: Gadget, id: Option<UUID>) returns (ok: bool)
      modifies this`unknownGadgets, this`floorGadgets, this`characterGadgets
      ensures var t := g.gadgetType;
        ok == if id.Some? then t in old(unknownGadgets) || g in old(floorGadgets)
              else t in old(unknownGadgets) || t in old(characterGadgets)
      ensures var t := g.gadgetType;
        id.Some? && t in old(unknownGadgets) ==>
          && characterGadgets == old(characterGadgets)[t := id.value]
          && unknownGadgets == old(unknownGadgets) - {t}
          && floorGadgets == old(floorGadgets)
      ensures var t := g.gadgetType; var k := IndexOf(old(floorGadgets), g);
        id.Some? && t !in old(unknownGadgets) && g in old(floorGadgets) ==>
          && characterGadgets == old(characterGadgets)[t := id.value]
          && floorGadgets == old(floorGadgets)[..k] + old(floorGadgets)[k + 1..]
          && multiset(floorGadgets) == multiset(old(floorGadgets)) - multiset{g}
          && unknownGadgets == old(unknownGadgets)
      ensures var t := g.gadgetType;
        id.None? && t in old(unknownGadgets) ==>
          && floorGadgets == old(floorGadgets) + [g]
          && unknownGadgets == old(unknownGadgets) - {t}
          && characterGadgets == old(characterGadgets)
      ensures var t := g.gadgetType;
        id.None? && t !in old(unknownGadgets) && t in old(characterGadgets) ==>
          && floorGadgets == old(floorGadgets) + [g]
          && characterGadgets == old(characterGadgets) - {t}
          && unknownGadgets == old(unknownGadgets)
      ensures !ok ==> unknownGadgets == old(unknownGadgets) && floorGadgets == old(floorGadgets)
                      && characterGadgets == old(characterGadgets)
      ensures ok && old(Places(g)) <= 1 ==> Places(g) == 1
    {
      var t := g.gadgetType;
      var unknown := t in unknownGadgets;
      if id.Some? {
        if !unknown {
          var k := Find(floorGadgets, g);
          if k == |floorGadgets| {
            return false;
          }
          characterGadgets := characterGadgets[t := id.value];
          RemoveAtMultiset(floorGadgets, k);
          floorGadgets := floorGadgets[..k] + floorGadgets[k + 1..];
          return true;
        }
        characterGadgets := characterGadgets[t := id.value];
        unknownGadgets := unknownGadgets - {t};
        return true;
      }
      if !unknown {
        if t !in characterGadgets {
          return false;
        }
        floorGadgets := floorGadgets + [g];
        characterGadgets := characterGadgets - {t};
        return true;
      }
      floorGadgets := floorGadgets + [g];
      unknownGadgets := unknownGadgets - {t};
      return true;
    }

    /**
     * Writes the certain knowledge onto the snapshot `s`: a character in the
     * npc, my or enemy list (checked in that order) gets the faction the list
     * stands for; any other character gets its stored properties, an empty
     * entry being inserted for it when it had none.
     */
    method ApplySureInformation(s: State, me: FactionEnum)
      modifies s, this`properties
      ensures |s.characters| == |old(s.characters)|
      ensures s.characters == SureCharacters(old(s.characters), npcFaction, myFaction, enemyFaction, me, old(properties))
      ensures properties == PropertiesAfter(old(properties), old(s.characters), npcFaction, myFaction, enemyFaction)
    {
      ghost var cs0 := s.characters;
      ghost var props0 := properties;
      var i := 0;
      while i < |s.characters|
        invariant |s.characters| == |cs0|
        invariant 0 <= i <= |cs0|
        invariant forall k :: 0 <= k < i ==>
          s.characters[k] == SureCharacter(cs0[k], npcFaction, myFaction, enemyFaction, me, props0)
        invariant forall k :: i <= k < |cs0| ==> s.characters[k] == cs0[k]
        invariant properties == PropertiesAfter(props0, cs0[..i], npcFaction, myFaction, enemyFaction)
      {
        var c := s.characters[i];
        var found, updated := HandleFaction(npcFaction, NEUTRAL, c);
        if !found {
          found, updated := HandleFaction(myFaction, me, c);
        }
        if !found {
          found, updated := HandleFaction(enemyFaction, Opponent(me), c);
        }
        if !found {
          if c.characterId !in properties {
            properties := properties[c.characterId := {}];
          }
          updated := c.(properties := properties[c.characterId]);
        }
        assert cs0[..i + 1] == cs0[..i] + [cs0[i]];
        s.characters := s.characters[i := updated];
        i := i + 1;
      }
      assert cs0[..i] == cs0;
    }
  }

  /** Sets the faction of `c` when its id is in `list`; reports whether it was. */
  method HandleFaction(list: seq<UUID>, faction: FactionEnum, c: Character) returns (found: bool, updated: Character)
    ensures found == (c.characterId in list)
    ensures updated == if found then c.(faction := faction) else c
  {
    var k := Find(list, c.characterId);
    if k != |list| {
      return true, c.(faction := faction);
    }
    return false, c;
  }

  /**
   * A character known only through the uncertain map is never promoted by
   * AddFaction: the call fails and the character stays unresolved.
   */
  method AddFactionRefusesUnresolvedCharacter() returns (ok: bool, stillUnresolved: bool)
    ensures !ok && stillUnresolved
  {
    var store := new AIState();
    store.unknownFaction := map[7 := [(NEUTRAL, [0.5])]];
    ok := store.AddFaction(7, NpcFaction);
    stillUnresolved := 7 in store.unknownFaction;
  }

  /** A character already in the target list is accepted and listed twice. */
  method AddFactionDuplicatesListedCharacter() returns (ok: bool, listed: seq<UUID>)
    ensures ok && listed == [7, 7]
  {
    var store := new AIState();
    store.npcFaction := [7];
    ok := store.AddFaction(7, NpcFaction);
    listed := store.npcFaction;
  }

  /** The corrected promotion moves an unresolved character into the target list once. */
  method ResolveFactionPromotesUnresolvedCharacter() returns (ok: bool, listed: seq<UUID>, stillUnresolved: bool)
    ensures ok && listed == [7] && !stillUnresolved
  {
    var store := new AIState();
    store.unknownFaction := map[7 := [(NEUTRAL, [0.5])]];
    ok := store.ResolveFaction(7, NpcFaction);
    assert store.ListOf(NpcFaction) == [] + [7];
    listed := store.npcFaction;
    stillUnresolved := 7 in store.unknownFaction;
  }
}
