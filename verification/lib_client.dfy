/**
 * The client's public entry points that change settings or beliefs: they
 * accept or refuse a request from the network state, the client's role and
 * the requested faction. The network state is passed in as a value.
 */
module LibClientModel {
  import opened SpyTypes
  import opened Network
  import opened AIStateModel

  datatype RoleEnum = INVALID | PLAYER | AI | SPECTATOR

  /** The part of the client state that the entry points set or consult. */
  class ClientState {
    var name: string
    var role: RoleEnum

    constructor (name: string, role: RoleEnum)
      ensures this.name == name && this.role == role
    {
      this.name := name;
      this.role := role;
    }
  }

  /**
   * The four states in which a player's client state can say which player
   * it is: the game running, the client's turn, a pause and the end of the
   * game. Every other state, RECONNECT included, is excluded.
   */
  predicate InGame(network: NetworkState)
  {
    network == IN_GAME || network == IN_GAME_ACTIVE || network == PAUSE || network == GAME_OVER
  }

  /** The faction of a player that knows whether it is player one. */
  function PlayerFaction(iAmPlayer1: bool): FactionEnum
  {
    if iAmPlayer1 then PLAYER1 else PLAYER2
  }

  /**
   * Whether this client is player one. `clientIsPlayer1` is the answer of
   * the client state, which is only consulted for a player in a game.
   */
  function AmIPlayer1(network: NetworkState, role: RoleEnum, clientIsPlayer1: bool): (r: Option<bool>)
    ensures role == SPECTATOR ==> r == None
    ensures network in {NOT_CONNECTED, CONNECTED, RECONNECT, SENT_HELLO, WELCOMED, IN_ITEMCHOICE, IN_EQUIPMENTCHOICE}
            ==> r == None
    ensures role != SPECTATOR && network in {IN_GAME, IN_GAME_ACTIVE, PAUSE, GAME_OVER}
            ==> r == Some(clientIsPlayer1)
  {
    if !InGame(network) then None
    else if role == SPECTATOR then None
    else Some(clientIsPlayer1)
  }

  /** The faction from whose side reconciliation renders the certain lists. */
  function ViewerFaction(role: RoleEnum, clientIsPlayer1: bool): FactionEnum
  {
    if role == SPECTATOR then PLAYER1 else PlayerFaction(clientIsPlayer1)
  }

  /**
   * The list a faction request goes to, or None when it is refused. A player
   * may mark characters as neutral or as the other player's, once in a game;
   * a spectator may mark any of the three factions.
   */
  function FactionTarget(role: RoleEnum, network: NetworkState, clientIsPlayer1: bool,
                         faction: FactionEnum): (r: Option<FactionList>)
    ensures role != SPECTATOR ==>
      (r.Some? <==> InGame(network) && faction != FactionEnum.INVALID && faction != PlayerFaction(clientIsPlayer1))
    ensures role == SPECTATOR ==> (r.Some? <==> faction != FactionEnum.INVALID)
    ensures r == Some(MyFaction) ==> role == SPECTATOR
    ensures r.Some? ==> RenderedFaction(r.value, ViewerFaction(role, clientIsPlayer1)) == faction
  {
    if role != SPECTATOR then
      match AmIPlayer1(network, role, clientIsPlayer1)
      case None => None
      case Some(iAmPlayer1) =>
        if faction == FactionEnum.INVALID || faction == PlayerFaction(iAmPlayer1) then None
        else if faction == NEUTRAL then Some(NpcFaction)
        else Some(EnemyFaction)
    else
      match faction
      case NEUTRAL => Some(NpcFaction)
      case PLAYER1 => Some(MyFaction)
      case PLAYER2 => Some(EnemyFaction)
      case INVALID => None
  }

  class LibClient {
    const clientState: ClientState
    const aiState: AIState

    constructor (name: string, role: RoleEnum)
      ensures fresh(clientState) && fresh(aiState)
      ensures clientState.name == name && clientState.role == role
    {
      clientState := new ClientState(name, role);
      aiState := new AIState();
    }

    /** Stores the client's name; allowed only before the handshake is sent. */
    method SetName(network: NetworkState, name: string) returns (ok: bool)
      modifies clientState`name
      ensures ok <==> network == NOT_CONNECTED || network == CONNECTED
      ensures clientState.name == if ok then name else old(clientState.name)
    {
      if network != NOT_CONNECTED && network != CONNECTED {
        return false;
      }
      clientState.name := name;
      return true;
    }

    /** Stores the client's role; allowed only before the handshake is sent. */
    method SetRole(network: NetworkState, role: RoleEnum) returns (ok: bool)
      modifies clientState`role
      ensures ok <==> network == NOT_CONNECTED || network == CONNECTED
      ensures clientState.role == if ok then role else old(clientState.role)
    {
      if network != NOT_CONNECTED && network != CONNECTED {
        return false;
      }
      clientState.role := role;
      return true;
    }

    /**
     * Records that character `id` belongs to `faction`: the request is
     * routed to the list FactionTarget names and handed to AddFaction,
     * whose answer is returned; a refused request changes nothing.
     */
    method SetFaction(network: NetworkState, clientIsPlayer1: bool, id: UUID, faction: FactionEnum)
      returns (ok: bool)
      modifies aiState`myFaction, aiState`enemyFaction, aiState`npcFaction, aiState`unknownFaction
      ensures var target := FactionTarget(clientState.role, network, clientIsPlayer1, faction);
        ok == (target.Some? && id in old(aiState.ListOf(target.value)))
      ensures var target := FactionTarget(clientState.role, network, clientIsPlayer1, faction);
        forall w :: aiState.ListOf(w) ==
          if ok && target == Some(w) then old(aiState.ListOf(w)) + [id] else old(aiState.ListOf(w))
      ensures aiState.unknownFaction == if ok then old(aiState.unknownFaction) - {id} else old(aiState.unknownFaction)
    {
      var target := FactionTarget(clientState.role, network, clientIsPlayer1, faction);
      if target.None? {
        return false;
      }
      ok := aiState.AddFaction(id, target.value);
    }
  }
}
