/** The single global game of backend/server.js (lines 42-181) as one object:
    the module-level variables become fields, each socket handler a method,
    and every `io.emit` an entry appended to `outbox`. Handlers run to
    completion one at a time, so each method is one atomic transition. */
module Session {
  import opened Wrappers
  import opened Text
  import opened Roster
  import opened GuessList
  import opened Turns

  /** A `setTimeout` handle. */
  type Handle = nat

  /** One notification, named after the socket.io event it stands for. All
      are broadcast with `io.emit` except the two that carry `to`, which go
      to that socket only. Payloads are the values at the moment of the
      emit. */
  datatype Event =
    | SendUserData(to: Id)                // "send-user-data"
    | UpdatedPlayers(roster: seq<Player>) // "updated-players"
    | GameStart                           // "game-start"
    | GameAlreadyStarted                  // "game-already-started"
    | GameStop                            // "game-stop"
    | TurnStarted(drawer: Option<Player>) // "start-turn"
    | DrawStarted(drawer: Option<Player>) // "start-draw"
    | TurnEnded(drawer: Option<Player>)   // "end-turn"
    | ReceiveChat(msg: string, player: Option<Player>, rightGuess: bool, roster: seq<Player>) // "receive-chat"
    | AllGuessedCorrect                   // "all-guessed-correct"
    | WordLen(len: nat)                   // "word-len"
    | UserDisconnected(to: Id)            // "user-disconnected"

  /** `ps[i]`, which is `undefined` outside the roster. */
  function At(ps: seq<Player>, i: int): (r: Option<Player>)
    ensures r.Some? <==> 0 <= i < |ps|
    ensures r.Some? ==> r.value == ps[i]
  {
    if 0 <= i < |ps| then Some(ps[i]) else None
  }

  /** `clearInterval(timeout)`: only the most recently armed handle is
      cancelled; every other armed timer stays armed. */
  function Cancel(pending: set<Handle>, latest: Option<Handle>): (r: set<Handle>)
    ensures r <= pending
    ensures latest.Some? ==> latest.value !in r
    ensures forall h :: h in pending && latest != Some(h) ==> h in r
  {
    if latest.Some? then pending - {latest.value} else pending
  }

  /** The entry `chats` gains for a message (lines 135 and 137). */
  function ChatEntry(sender: Id, msg: string, right: bool): (r: string)
    ensures !right ==> r == msg
    ensures right ==> |r| == |sender| + 23 && r[..|sender|] == sender
    ensures right ==> r[|sender|..] == " Guessed the right word"
  {
    if right then sender + " Guessed the right word" else msg
  }

  class GameSession {
    var players: seq<Player>
    var drawerIndex: nat
    var word: Option<string>
    /** The handle last returned by `setTimeout`, kept after it is cleared. */
    var timeout: Option<Handle>
    /** `playerGuessedRightWord`. */
    var guessed: seq<Id>
    var chats: seq<string>
    /** Timers armed and neither cancelled nor fired yet. */
    var pending: set<Handle>
    /** The next handle `setTimeout` hands out. */
    var nextHandle: Handle
    var outbox: seq<Event>

    /** What holds between any two events: the guessed list has no
        duplicates, every handle was handed out, and a roster of at most one
        player has drawer index 0. */
    ghost predicate Valid()
      reads this
    {
      && NoDup(guessed)
      && (forall h :: h in pending ==> h < nextHandle)
      && (timeout.Some? ==> timeout.value < nextHandle)
      && (|players| <= 1 ==> drawerIndex == 0)
    }

    /** The state at process start (lines 43-49). */
    constructor ()
      ensures Valid()
      ensures players == [] && drawerIndex == 0 && word == None && timeout == None
      ensures guessed == [] && chats == [] && pending == {} && outbox == []
    {
      players, drawerIndex, word, timeout := [], 0, None, None;
      guessed, chats, pending, nextHandle, outbox := [], [], {}, 0, [];
    }

    /** `startTurn` (lines 67-72). */
    method StartTurn()
      modifies this
      ensures drawerIndex == TurnStartIndex(old(drawerIndex), |players|)
      ensures |players| > 0 ==> drawerIndex < |players|
      ensures outbox == old(outbox) + [TurnStarted(At(players, drawerIndex))]
      ensures players == old(players) && word == old(word) && timeout == old(timeout)
      ensures guessed == old(guessed) && chats == old(chats)
      ensures pending == old(pending) && nextHandle == old(nextHandle)
    {
      if drawerIndex >= |players| {
        drawerIndex := 0;
      }
      outbox := outbox + [TurnStarted(At(players, drawerIndex))];
    }

    /** `startGame` (lines 52-56). */
    method StartGame()
      modifies this
      ensures drawerIndex == TurnStartIndex(old(drawerIndex), |players|)
      ensures outbox == old(outbox) + [GameStart, TurnStarted(At(players, drawerIndex))]
      ensures players == old(players) && word == old(word) && timeout == old(timeout)
      ensures guessed == old(guessed) && chats == old(chats)
      ensures pending == old(pending) && nextHandle == old(nextHandle)
    {
      outbox := outbox + [GameStart];
      StartTurn();
    }

    /** `stopGame` (lines 58-65): the drawer index goes back to 0 and the
        latest timer is cancelled; roster, scores and word stay. */
    method StopGame()
      modifies this
      ensures drawerIndex == 0
      ensures pending == Cancel(old(pending), timeout)
      ensures outbox == old(outbox) + [GameStop]
      ensures players == old(players) && word == old(word) && timeout == old(timeout)
      ensures guessed == old(guessed) && chats == old(chats) && nextHandle == old(nextHandle)
    {
      outbox := outbox + [GameStop];
      drawerIndex := 0;
      if timeout.Some? {
        pending := pending - {timeout.value};
      }
    }

    /** `startDraw` (lines 74-79): arms one fresh timer and overwrites
        `timeout` with it, without cancelling the one it held. */
    method StartDraw()
      modifies this
      ensures timeout == Some(old(nextHandle)) && nextHandle == old(nextHandle) + 1
      ensures pending == old(pending) + {old(nextHandle)}
      ensures outbox == old(outbox) + [DrawStarted(At(players, drawerIndex))]
      ensures players == old(players) && drawerIndex == old(drawerIndex) && word == old(word)
      ensures guessed == old(guessed) && chats == old(chats)
    {
      outbox := outbox + [DrawStarted(At(players, drawerIndex))];
      timeout := Some(nextHandle);
      pending := pending + {nextHandle};
      nextHandle := nextHandle + 1;
    }

    /** `endTurn` (lines 81-87), on a non-empty roster: the guessed list is
        emptied, the latest timer cancelled, and the drawer moves one place
        on, wrapping at the end of the roster. */
    method EndTurn()
      requires |players| > 0
      modifies this
      ensures players == old(players) && word == old(word) && timeout == old(timeout)
      ensures chats == old(chats) && nextHandle == old(nextHandle)
      ensures guessed == []
      ensures pending == Cancel(old(pending), timeout)
      ensures drawerIndex == NextDrawer(old(drawerIndex), |players|)
      ensures drawerIndex < |players|
      ensures outbox == old(outbox) + [TurnEnded(At(players, old(drawerIndex))),
                                       TurnStarted(Some(players[drawerIndex]))]
    {
      outbox := outbox + [TurnEnded(At(players, drawerIndex))];
      guessed := [];
      if timeout.Some? {
        pending := pending - {timeout.value};
      }
      drawerIndex := (drawerIndex + 1) % |players|;
      StartTurn();
    }

    /** A new connection (line 96): the server asks that socket for its user
        data. */
    method Connect(id: Id)
      requires Valid()
      modifies this
      ensures Valid()
      ensures outbox == old(outbox) + [SendUserData(id)]
      ensures players == old(players) && drawerIndex == old(drawerIndex) && word == old(word)
      ensures timeout == old(timeout) && guessed == old(guessed) && chats == old(chats)
      ensures pending == old(pending) && nextHandle == old(nextHandle)
    {
      outbox := outbox + [SendUserData(id)];
    }

    /** `recieve-user-data` (lines 98-115): the player is appended with 0
        points; the game starts exactly when the roster reaches two, and
        every join to a roster of two or more broadcasts
        `game-already-started`. The drawer index never changes: at the
        start it is already 0. */
    method Join(id: Id, name: string, avatar: string)
      requires Valid()
      modifies this
      ensures Valid()
      ensures players == old(players) + [Player(id, name, avatar, 0)]
      ensures drawerIndex == old(drawerIndex)
      ensures outbox == old(outbox) + [UpdatedPlayers(players)]
                        + (if |players| == 2 then [GameStart, TurnStarted(Some(players[0]))] else [])
                        + (if |players| >= 2 then [GameAlreadyStarted] else [])
      ensures word == old(word) && timeout == old(timeout) && guessed == old(guessed)
      ensures chats == old(chats) && pending == old(pending) && nextHandle == old(nextHandle)
    {
      players := players + [Player(id, name, avatar, 0)];
      outbox := outbox + [UpdatedPlayers(players)];
      if |players| == 2 {
        StartGame();
      }
      if |players| >= 2 {
        outbox := outbox + [GameAlreadyStarted];
      }
    }

    /** The first half of `sending-chat` (lines 126-145): score the guess,
        log it and broadcast it. */
    method ScoreAndLog(sender: Id, msg: string) returns (index: int, rightGuess: bool)
      modifies this
      ensures index == IndexOf(old(players), sender)
      ensures rightGuess == IsRightGuess(word, msg)
      ensures players == if rightGuess && index >= 0
                         then Award(old(players), index, 100) else old(players)
      ensures chats == old(chats) + [ChatEntry(sender, msg, rightGuess)]
      ensures outbox == old(outbox) + [ReceiveChat(msg, At(players, index), rightGuess, players)]
      ensures word == old(word) && timeout == old(timeout) && nextHandle == old(nextHandle)
      ensures drawerIndex == old(drawerIndex) && guessed == old(guessed) && pending == old(pending)
    {
      index := FindIndex(players, sender);
      rightGuess := false;
      if IsRightGuess(word, msg) {
        rightGuess := true;
        if index > -1 {
          players := Award(players, index, 100);
        }
        chats := chats + [sender + " Guessed the right word"];
      } else {
        chats := chats + [msg];
      }
      outbox := outbox + [ReceiveChat(msg, At(players, index), rightGuess, players)];
    }

    /** The second half of `sending-chat` (lines 147-158), run on a right
        guess: a sender not yet in the guessed list is appended, and when
        the list then holds one less than the roster size it is emptied and
        the turn ends. */
    method RecordRightGuess(sender: Id)
      requires NoDup(guessed)
      modifies this
      ensures NoDup(guessed)
      ensures players == old(players) && word == old(word) && timeout == old(timeout)
      ensures chats == old(chats) && nextHandle == old(nextHandle)
      ensures var credited := sender !in old(guessed);
              var full := credited && |old(guessed)| + 1 == |players| - 1;
              && guessed == (if full then [] else if credited then old(guessed) + [sender] else old(guessed))
              && drawerIndex == (if full then NextDrawer(old(drawerIndex), |players|) else old(drawerIndex))
              && pending == (if full then Cancel(old(pending), timeout) else old(pending))
              && outbox == old(outbox)
                   + (if full then [AllGuessedCorrect, TurnEnded(At(players, old(drawerIndex))),
                                    TurnStarted(Some(players[drawerIndex]))]
                      else [])
    {
      var u := CountMatches(guessed, sender);
      if u == 0 {
        PushKeepsNoDup(guessed, sender);
        guessed := guessed + [sender];
        if |guessed| == |players| - 1 {
          outbox := outbox + [AllGuessedCorrect];
          guessed := [];
          EndTurn();
        }
      }
    }

    /** `sending-chat` (lines 122-159) from the socket `sender`. A right
        guess gives the sender, if registered, 100 points every time, even a
        repeat or the drawer's own guess; the sender joins the guessed list
        only once, and when that list reaches one less than the roster size
        the turn ends early. */
    method Chat(sender: Id, msg: string)
      requires Valid()
      modifies this
      ensures Valid()
      ensures var k := IndexOf(old(players), sender);
              players == if IsRightGuess(old(word), msg) && k >= 0
                         then Award(old(players), k, 100) else old(players)
      ensures chats == old(chats) + [ChatEntry(sender, msg, IsRightGuess(old(word), msg))]
      ensures word == old(word) && timeout == old(timeout) && nextHandle == old(nextHandle)
      ensures var right := IsRightGuess(word, msg);
              var credited := right && sender !in old(guessed);
              var full := credited && |old(guessed)| + 1 == |players| - 1;
              && guessed == (if full then [] else if credited then old(guessed) + [sender] else old(guessed))
              && drawerIndex == (if full then NextDrawer(old(drawerIndex), |players|) else old(drawerIndex))
              && pending == (if full then Cancel(old(pending), timeout) else old(pending))
              && outbox == old(outbox)
                   + [ReceiveChat(msg, At(players, IndexOf(old(players), sender)), right, players)]
                   + (if full then [AllGuessedCorrect, TurnEnded(At(players, old(drawerIndex))),
                                    TurnStarted(Some(players[drawerIndex]))]
                      else [])
    {
      var index, rightGuess := ScoreAndLog(sender, msg);
      if rightGuess {
        RecordRightGuess(sender);
      }
    }

    /** `word-select` (lines 161-166): the word is set, only its length is
        broadcast, and one new timer is armed; a timer armed before stays
        armed. */
    method WordSelect(w: string)
      requires Valid()
      modifies this
      ensures Valid()
      ensures word == Some(w)
      ensures old(nextHandle) !in old(pending)
      ensures timeout == Some(old(nextHandle)) && pending == old(pending) + {old(nextHandle)}
      ensures nextHandle == old(nextHandle) + 1
      ensures outbox == old(outbox) + [WordLen(|w|), DrawStarted(At(players, drawerIndex))]
      ensures players == old(players) && drawerIndex == old(drawerIndex)
      ensures guessed == old(guessed) && chats == old(chats)
    {
      word := Some(w);
      outbox := outbox + [WordLen(|w|)];
      StartDraw();
    }

    /** `disconnect` (lines 168-181): the first player with the socket's id
        is spliced out, if any; a roster of at most one player stops the
        game. */
    method Disconnect(id: Id)
      requires Valid()
      modifies this
      ensures Valid()
      ensures players == Remove(old(players), id)
      ensures outbox == old(outbox) + [UpdatedPlayers(players), UserDisconnected(id)]
                        + (if |players| <= 1 then [GameStop] else [])
      ensures drawerIndex == if |players| <= 1 then 0 else old(drawerIndex)
      ensures pending == if |players| <= 1 then Cancel(old(pending), timeout) else old(pending)
      ensures word == old(word) && timeout == old(timeout) && guessed == old(guessed)
      ensures chats == old(chats) && nextHandle == old(nextHandle)
    {
      var index := FindIndex(players, id);
      if index > -1 {
        players := players[..index] + players[index + 1..];
      }
      outbox := outbox + [UpdatedPlayers(players), UserDisconnected(id)];
      if |players| <= 1 {
        StopGame();
      }
    }

    /** The callback of a timer armed at line 76 fires. A handle that was
        cancelled, or has fired already, does nothing; a live one is used up
        and runs `endTurn`. An empty roster with a live timer is excluded:
        there `endTurn` computes `% 0`. */
    method TimerFire(h: Handle)
      requires Valid()
      requires h in pending ==> |players| > 0
      modifies this
      ensures Valid()
      ensures players == old(players) && word == old(word) && timeout == old(timeout)
      ensures chats == old(chats) && nextHandle == old(nextHandle)
      ensures h !in old(pending) ==>
                drawerIndex == old(drawerIndex) && guessed == old(guessed)
                && pending == old(pending) && outbox == old(outbox)
      ensures h in old(pending) ==>
                guessed == [] && pending == Cancel(old(pending) - {h}, timeout)
                && drawerIndex == NextDrawer(old(drawerIndex), |players|)
                && outbox == old(outbox) + [TurnEnded(At(players, old(drawerIndex))),
                                            TurnStarted(Some(players[drawerIndex]))]
    {
      if h in pending {
        pending := pending - {h};
        EndTurn();
      }
    }
  }
}
