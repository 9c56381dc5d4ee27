/** The connection states of the client's network layer. */
module Network {

  datatype NetworkState =
    | NOT_CONNECTED | CONNECTED | RECONNECT | SENT_HELLO | WELCOMED
    | IN_ITEMCHOICE | IN_EQUIPMENTCHOICE | IN_GAME | IN_GAME_ACTIVE | PAUSE | GAME_OVER
}
