/** The ordered roster `players` (backend/server.js, line 44) and the three
    things the handlers do to it: `findIndex` by id (lines 126, 171),
    `splice(index, 1)` (line 174) and `points += 100` (line 133). */
module Roster {

  /** A socket.io connection id. */
  type Id = string

  /** The record pushed at lines 99-104. */
  datatype Player = Player(id: Id, name: string, avatar: string, points: nat)

  /** No two players share an id. The source does not enforce it (a socket may
      send its user data twice); the lemmas that need it say so. */
  predicate UniqueIds(ps: seq<Player>) {
    forall i, j :: 0 <= i < j < |ps| ==> ps[i].id != ps[j].id
  }

  /** `players.findIndex(p => p.id === id)`: the first index holding `id`, or
      -1 when no player has it. */
  function IndexOf(ps: seq<Player>, id: Id): (r: int)
    ensures -1 <= r < |ps|
    ensures r >= 0 ==> ps[r].id == id
    ensures forall j :: 0 <= j < |ps| && (r < 0 || j < r) ==> ps[j].id != id
  {
    if ps == [] then -1
    else if ps[0].id == id then 0
    else
      var k := IndexOf(ps[1..], id);
      if k < 0 then -1 else k + 1
  }

  /** The linear scan behind `findIndex`. */
  method FindIndex(ps: seq<Player>, id: Id) returns (r: int)
    ensures r == IndexOf(ps, id)
  {
    var i := 0;
    while i < |ps|
      invariant 0 <= i <= |ps|
      invariant forall j :: 0 <= j < i ==> ps[j].id != id
    {
      if ps[i].id == id {
        return i;
      }
      i := i + 1;
    }
    return -1;
  }

  /** The roster after the disconnect handler: the first player with `id`
      spliced out, or the roster itself when `id` is unknown. */
  function Remove(ps: seq<Player>, id: Id): (r: seq<Player>)
    ensures |r| == if IndexOf(ps, id) >= 0 then |ps| - 1 else |ps|
    ensures (forall j :: 0 <= j < |ps| ==> ps[j].id != id) ==> r == ps
  {
    var k := IndexOf(ps, id);
    if k >= 0 then ps[..k] + ps[k + 1..] else ps
  }

  /** Reference definition: the players whose id is not `id`, in roster
      order. */
  function Without(ps: seq<Player>, id: Id): (r: seq<Player>)
    ensures |r| <= |ps|
    ensures forall p :: p in r ==> p in ps && p.id != id
  {
    if ps == [] then []
    else (if ps[0].id == id then [] else [ps[0]]) + Without(ps[1..], id)
  }

  lemma RemoveCons(ps: seq<Player>, id: Id)
    requires ps != [] && ps[0].id != id
    ensures Remove(ps, id) == [ps[0]] + Remove(ps[1..], id)
  {
    var k := IndexOf(ps[1..], id);
    if k >= 0 {
      assert ps[..k + 1] == [ps[0]] + ps[1..][..k];
      assert ps[k + 2..] == ps[1..][k + 1..];
    }
  }

  /** Disconnecting keeps every other player, in order and with its score:
      the players not carrying `id` are the same before and after. */
  lemma {:induction false} RemoveKeepsOthers(ps: seq<Player>, id: Id)
    ensures Without(Remove(ps, id), id) == Without(ps, id)
  {
    if ps == [] {
    } else if ps[0].id == id {
      assert Remove(ps, id) == ps[1..];
    } else {
      RemoveCons(ps, id);
      RemoveKeepsOthers(ps[1..], id);
      var r := Remove(ps[1..], id);
      assert ([ps[0]] + r)[1..] == r;
    }
  }

  /** On a roster with unique ids, the disconnect handler removes exactly
      the player with `id`: no player carrying it remains. */
  lemma {:induction false} RemoveUnique(ps: seq<Player>, id: Id)
    requires UniqueIds(ps)
    ensures Remove(ps, id) == Without(ps, id)
    ensures forall p :: p in Remove(ps, id) ==> p.id != id
  {
    if ps == [] {
    } else if ps[0].id == id {
      assert Remove(ps, id) == ps[1..];
      NoMatchWithout(ps[1..], id);
    } else {
      RemoveCons(ps, id);
      RemoveUnique(ps[1..], id);
    }
  }

  lemma {:induction false} NoMatchWithout(ps: seq<Player>, id: Id)
    requires forall j :: 0 <= j < |ps| ==> ps[j].id != id
    ensures Without(ps, id) == ps
  {
    if ps != [] {
      NoMatchWithout(ps[1..], id);
    }
  }

  /** `players[k].points += amount`: player `k` gains `amount` points, and
      every other entry, and `k`'s id, name and avatar, stay as they were. */
  function Award(ps: seq<Player>, k: nat, amount: nat): (r: seq<Player>)
    requires k < |ps|
    ensures |r| == |ps|
    ensures r[k].id == ps[k].id && r[k].name == ps[k].name && r[k].avatar == ps[k].avatar
    ensures r[k].points == ps[k].points + amount
    ensures forall j :: 0 <= j < |ps| && j != k ==> r[j] == ps[j]
  {
    ps[k := ps[k].(points := ps[k].points + amount)]
  }

  /** Sum of all scores. */
  function TotalPoints(ps: seq<Player>): nat {
    if ps == [] then 0 else ps[0].points + TotalPoints(ps[1..])
  }

  /** Awarding adds exactly `amount` to the sum of scores. */
  lemma {:induction false} AwardAddsToTotal(ps: seq<Player>, k: nat, amount: nat)
    requires k < |ps|
    ensures TotalPoints(Award(ps, k, amount)) == TotalPoints(ps) + amount
  {
    var r := Award(ps, k, amount);
    if k == 0 {
      assert r[1..] == ps[1..];
    } else {
      assert r[1..] == Award(ps[1..], k - 1, amount);
      AwardAddsToTotal(ps[1..], k - 1, amount);
    }
  }

  /** Awarding points does not move anyone: the lookup by id is unchanged. */
  lemma AwardKeepsIndex(ps: seq<Player>, k: nat, amount: nat, id: Id)
    requires k < |ps|
    ensures IndexOf(Award(ps, k, amount), id) == IndexOf(ps, id)
  {
  }
}
