/** Whole games played against the handlers' contracts alone: a two-player
    round, a timer expiry, and behaviour of the code as written that a reader
    might not expect. */
module Scenarios {
  import opened Wrappers
  import opened Text
  import opened Roster
  import opened Session

  /** Two players; "a" draws "APPLE". A wrong guess by "b" changes nothing,
      "Apple" scores 100, ends the turn at once and hands the drawing to "b";
      the timer of the finished turn was cancelled, so its firing is a
      no-op. */
  method TwoPlayerRound() returns (wordLen: nat, score: nat, drawer: Id, staleFireChanged: bool)
    ensures wordLen == 5 && score == 100 && drawer == "b" && !staleFireChanged
  {
    var g := new GameSession();
    g.Join("a", "Ann", "cat.png");
    g.Join("b", "Bob", "dog.png");
    assert g.drawerIndex == 0;
    g.WordSelect("APPLE");
    var h := g.timeout.value;
    wordLen := g.outbox[|g.outbox| - 2].len;
    assert !IsRightGuess(g.word, "banana");
    g.Chat("b", "banana");
    assert g.players[1].points == 0;
    assert IsRightGuess(g.word, "Apple") by {
      RightGuessIff(g.word, "Apple");
    }
    assert IndexOf(g.players, "b") == 1;
    g.Chat("b", "Apple");
    score := g.players[1].points;
    drawer := g.players[g.drawerIndex].id;
    var before := g.outbox;
    g.TimerFire(h);
    staleFireChanged := g.outbox != before;
  }

  /** Three players and nobody guesses: the timer ends the turn, the drawing
      passes to "b" and nobody scores. */
  method TimerExpiry() returns (drawer: Id, scores: seq<nat>, guessedCount: nat)
    ensures drawer == "b" && scores == [0, 0, 0] && guessedCount == 0
  {
    var g := new GameSession();
    g.Join("a", "Ann", "");
    g.Join("b", "Bob", "");
    g.Join("c", "Cy", "");
    g.WordSelect("pear");
    g.TimerFire(g.timeout.value);
    drawer := g.players[g.drawerIndex].id;
    scores := [g.players[0].points, g.players[1].points, g.players[2].points];
    guessedCount := |g.guessed|;
  }

  /** A third player joining mid-turn is told the game has started and
      leaves the word and the drawer alone. */
  method LateJoin() returns (notified: bool, sameWord: bool, drawer: Id)
    ensures notified && sameWord && drawer == "a"
  {
    var g := new GameSession();
    g.Join("a", "Ann", "");
    g.Join("b", "Bob", "");
    g.WordSelect("kite");
    g.Join("d", "Dee", "");
    notified := g.outbox[|g.outbox| - 1] == GameAlreadyStarted;
    sameWord := g.word == Some("kite");
    drawer := g.players[g.drawerIndex].id;
  }

  /** As written, line 133 precedes the duplicate check of line 148: the same
      right guess sent twice scores twice, while the guessed list records it
      once. */
  method RepeatGuess() returns (score: nat, guessedList: seq<Id>)
    ensures score == 200 && guessedList == ["b"]
  {
    var g := new GameSession();
    g.Join("a", "Ann", "");
    g.Join("b", "Bob", "");
    g.Join("c", "Cy", "");
    g.WordSelect("cat");
    assert IndexOf(g.players, "b") == 1;
    g.Chat("b", "cat");
    assert IndexOf(g.players, "b") == 1;
    g.Chat("b", "cat");
    score := g.players[1].points;
    guessedList := g.guessed;
  }

  /** As written, the drawer may guess the word and is paid for it. */
  method DrawerGuess() returns (score: nat)
    ensures score == 100
  {
    var g := new GameSession();
    g.Join("a", "Ann", "");
    g.Join("b", "Bob", "");
    g.Join("c", "Cy", "");
    g.WordSelect("cat");
    assert g.drawerIndex == 0;
    g.Chat("a", "cat");
    score := g.players[0].points;
  }

  /** Selecting a word twice leaves the first timer armed: after the turn
      ends early, that orphan still fires and ends the next drawer's turn
      before it has begun. */
  method OrphanTimer() returns (drawerBefore: Id, drawerAfter: Id)
    ensures drawerBefore == "b" && drawerAfter == "a"
  {
    var g := new GameSession();
    g.Join("a", "Ann", "");
    g.Join("b", "Bob", "");
    g.WordSelect("x");
    var first := g.timeout.value;
    g.WordSelect("y");
    assert IndexOf(g.players, "b") == 1;
    g.Chat("b", "y");
    drawerBefore := g.players[g.drawerIndex].id;
    assert first in g.pending;
    g.TimerFire(first);
    drawerAfter := g.players[g.drawerIndex].id;
  }

  /** When the last but one player leaves, the game stops: the drawer index
      is 0 and the survivor keeps the score. */
  method LastButOneLeaves() returns (stopped: bool, drawerIndex: nat, score: nat)
    ensures stopped && drawerIndex == 0 && score == 100
  {
    var g := new GameSession();
    g.Join("a", "Ann", "");
    g.Join("b", "Bob", "");
    g.Join("c", "Cy", "");
    g.WordSelect("cat");
    assert IndexOf(g.players, "b") == 1;
    g.Chat("b", "cat");
    assert g.players[2].id == "c";
    assert IndexOf(g.players, "c") == 2;
    g.Disconnect("c");
    assert IndexOf(g.players, "a") == 0;
    g.Disconnect("a");
    stopped := g.outbox[|g.outbox| - 1] == GameStop;
    drawerIndex := g.drawerIndex;
    score := g.players[0].points;
  }

  /** When the drawer leaves, `drawerIndex` is not adjusted: with "c" drawing
      at index 2 and then gone, the next turn end computes `3 % 2 = 1`, so
      "b" draws next and "a" is skipped. */
  method DrawerLeaves() returns (indexAfterLeave: nat, nextDrawer: Id)
    ensures indexAfterLeave == 2 && nextDrawer == "b"
  {
    var g := new GameSession();
    g.Join("a", "Ann", "");
    g.Join("b", "Bob", "");
    g.Join("c", "Cy", "");
    g.WordSelect("one");
    g.TimerFire(g.timeout.value);
    g.WordSelect("two");
    g.TimerFire(g.timeout.value);
    assert g.players[g.drawerIndex].id == "c";
    assert IndexOf(g.players, "c") == 2;
    g.Disconnect("c");
    indexAfterLeave := g.drawerIndex;
    g.WordSelect("three");
    g.TimerFire(g.timeout.value);
    nextDrawer := g.players[g.drawerIndex].id;
  }
}
