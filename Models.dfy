/** The plain records the client exchanges with the game server (src/models). */
module Models {

  /** A map the server knows: a stable tag, a display name and whether it is available. */
  datatype CodMap = CodMap(tag: string, name: string, active: bool)

  /** The gametype identifier sent with a map selection; its definition is not part of this model, so any string stands for it. */
  type Gametype = string

  /** The body of a gametype/map selection, sent as it is given; `selectedMap` is the JSON key `map`, a reserved word in Dafny. */
  datatype SetGametypeMapRequest = SetGametypeMapRequest(gametype: Gametype, selectedMap: string)
}
