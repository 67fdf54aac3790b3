/** The identities the salary engine works with: a player's UUID, and what
    the server knows about a player when a salary run picks its recipients. */
module Players {

  import opened Wrappers

  /** java.util.UUID: two 64-bit halves. */
  datatype Uuid = Uuid(msb: int, lsb: int)

  /** An OfflinePlayer as the salary engine sees it: its UUID, its name (which
      Bukkit may not know), whether it is online and whether it has ever
      joined. */
  datatype Player = Player(uuid: Uuid, name: Option<string>, online: bool, playedBefore: bool)

  function UuidsOf(ps: seq<Player>): (r: seq<Uuid>)
    ensures |r| == |ps|
    ensures forall i :: 0 <= i < |ps| ==> r[i] == ps[i].uuid
  {
    if ps == [] then [] else UuidsOf(ps[..|ps| - 1]) + [ps[|ps| - 1].uuid]
  }
}
