# Scribble game server: the session state machine in Dafny

The server in `backend/server.js` runs one global drawing-and-guessing game.
Players connect over socket.io and send their user data to join an ordered
roster. Once two players are present the game starts and the player at
`drawerIndex` is announced as drawer. A word is then selected. Its length
is broadcast and a 60-second timer is armed. Chat messages are compared
with the word, ignoring case. A right guess scores 100 points and enters the
sender in the guessed list. The turn ends, and the drawer moves one place on
round the roster, when the timer fires or when the guessed list holds one
less than the roster size. When a disconnect leaves at most one player, the
game stops.

This project models that state machine (lines 42-181) as one class,
`Session.GameSession`:

- The module-level variables `players`, `drawerIndex`, `word`, `timeout`,
  `playerGuessedRightWord` (`guessed`) and `chats` become fields.
- Timers are handles. `pending` holds the handles armed and not yet
  cancelled or fired, and `nextHandle` is the next one `setTimeout` gives
  out.
- Every `io.emit` appends an `Event` to `outbox`. The event carries the
  payload's value at the moment of the emit.
- Each socket handler is one method: `Connect`, `Join`, `Chat`,
  `WordSelect` and `Disconnect`. The expiry of a timer is the external event
  `TimerFire(h)`.
- The helpers `startGame`, `stopGame`, `startTurn`, `startDraw` and
  `endTurn` are methods the handlers call.

Each method's postcondition gives the whole new state in terms of the old
one. The pure parts each get their own modules with lemmas:

- `Roster`: `findIndex`, `splice` and the score update.
- `GuessList`: the `filter` over the guessed list.
- `Turns`: the drawer index arithmetic.
- `Text`: the case-insensitive comparison.

`Valid()` is the invariant every handler keeps:

- the guessed list has no duplicates;
- every handle in `pending` or `timeout` was handed out;
- a roster of at most one player has drawer index 0.

The last fact is why a game that starts always announces `players[0]`,
even though `startTurn` only resets an index that is out of range.

`Scenarios` plays whole games against the handlers' contracts. Two of them
play a two-player round and let a timer expire. The others show behaviour
of the code as written, listed below.

Behaviour of the code as written that a reader might not expect:

- `game-already-started` is broadcast to everyone whenever the roster has
  two or more players, including exactly two.
- Points are added before the duplicate check, so repeating a right guess
  re-awards 100 points.
- `word-select` is accepted from any socket: nothing checks that the sender
  is the drawer, so `WordSelect` takes no sender.
- The drawer is not excluded from guessing, and is paid for guessing their
  own word.
- `word` is never cleared, not even when a turn ends.
- Arming a timer does not cancel the previous one. `clearInterval` cancels
  only the most recent handle. Selecting a word twice therefore leaves an
  orphan timer, and it can later end another drawer's turn early.
- The early end of a turn tests `guessed.length === players.length - 1` with
  equality, and only right after a push. Once a disconnect leaves the
  roster with at most one more player than the guessed list, the early end
  cannot fire. That lasts until joins
  make the roster big enough for a further right guess to reach the count
  again. Meanwhile the turn ends by its timer, or by an orphan timer.
- A disconnect does not adjust `drawerIndex`. When the drawer at the end of
  the roster leaves, the next `endTurn` computes `(index + 1) % size` from
  the stale index. With three players and the third drawing, the second
  player draws next and the first is skipped.
- A late joiner leaves the turn alone, and the game stops when the last but
  one player leaves.

## Model

| member | source | states |
|---|---|---|
| Text.LowerChar | backend/server.js:128 | ASCII lowercasing: only capital letters change, and the result is never a capital |
| Text.LowerStr | backend/server.js:128 | `toLowerCase` keeps the length and lowers each character in place |
| Text.LowerStrIdempotent | backend/server.js:128 | lowercasing twice equals lowercasing once |
| Text.IsRightGuess | backend/server.js:128 | a right guess needs a set word and a non-empty message of the same length, and the exact word (non-empty) is always a right guess |
| Text.RightGuessIff | backend/server.js:128 | a message is a right guess iff the word is set, the message is non-empty and of the word's length, and every character agrees with the word's up to case (both directions) |
| Text.RightGuessIgnoresCase | backend/server.js:128 | lowercasing the message never changes the verdict |
| Roster.IndexOf | backend/server.js:126 | `findIndex`: the first index whose player has the id, or -1 exactly when no player has it |
| Roster.FindIndex | backend/server.js:171 | the linear scan returns exactly `IndexOf` |
| Roster.Remove | backend/server.js:173-175 | the roster gets one shorter exactly when the id is present, and is unchanged when the id is unknown |
| Roster.RemoveKeepsOthers | backend/server.js:168-175 | after a disconnect, the players with other ids are exactly the same, in the same order and with the same scores |
| Roster.RemoveUnique | backend/server.js:174 | on a roster with unique ids, disconnect equals filtering out the id, and no player with it remains |
| Roster.Award | backend/server.js:132-134 | player k gains exactly `amount` points with the same id, name and avatar; every other entry is unchanged |
| Roster.AwardAddsToTotal | backend/server.js:133 | an award of `amount` to one entry adds exactly `amount` to the sum of all scores |
| Roster.AwardKeepsIndex | backend/server.js:133 | updating a score does not move any player, so lookup by id is unchanged |
| GuessList.Count | backend/server.js:148-150 | the length of the `filter` result is 0 exactly when the id is not in the list |
| GuessList.CountMatches | backend/server.js:148 | the linear scan of `filter` returns exactly `Count` |
| GuessList.PushKeepsNoDup | backend/server.js:150-151 | pushing an id only when it is absent keeps the guessed list duplicate-free |
| GuessList.NoDupCountAtMostOne | backend/server.js:148-151 | in a duplicate-free guessed list an id occurs at most once |
| Turns.TurnStartIndex | backend/server.js:68-70 | `startTurn` keeps an in-range drawer index and resets an out-of-range one to 0 (also on an empty roster), so the index is always in range on a non-empty roster |
| Turns.NextDrawer | backend/server.js:85 | `endTurn` moves the drawer one place on, wraps from the last player to 0, and stays in range |
| Turns.RotateNoWrap | backend/server.js:85 | before the end of the roster, k turn ends move the drawer exactly k places |
| Turns.RotateFullCycle | backend/server.js:81-87 | after n turn ends on a stable roster of n players, the drawer is back where it started |
| Turns.EveryPlayerDraws | backend/server.js:81-87 | on a stable roster, every player becomes drawer within n turn ends, after (j - i) mod n of them |
| Session.At | backend/server.js:71 | `players[i]` is a player exactly when i is in range, and undefined otherwise |
| Session.ChatEntry | backend/server.js:135-137 | a wrong guess logs the raw message; a right guess logs the sender's id followed by exactly " Guessed the right word" (23 characters) |
| Session.Cancel | backend/server.js:84 | `clearInterval(timeout)` removes only the latest handle from the armed set, and every other armed timer stays armed |
| Session.GameSession.constructor | backend/server.js:42-49 | initial state: empty roster, logs and guessed list, drawer 0, no word, no timer |
| Session.GameSession.StartTurn | backend/server.js:67-72 | the drawer index is reset to 0 if out of range; `start-turn` announces the player at the index; nothing else changes |
| Session.GameSession.StartGame | backend/server.js:52-56 | emits `game-start`, then runs `startTurn` |
| Session.GameSession.StopGame | backend/server.js:58-65 | emits `game-stop`, sets the drawer index to 0 and cancels the latest timer; roster, scores, word and guessed list are unchanged |
| Session.GameSession.StartDraw | backend/server.js:74-79 | emits `start-draw`, arms exactly one fresh timer and makes it the latest, and leaves earlier timers armed |
| Session.GameSession.EndTurn | backend/server.js:81-87 | on a non-empty roster: emits `end-turn` for the old drawer, empties the guessed list, cancels the latest timer, sets the drawer to (old + 1) mod size (in range) and announces the new drawer |
| Session.GameSession.Connect | backend/server.js:96 | asks only the new socket for its user data |
| Session.GameSession.Join | backend/server.js:98-115 | appends exactly one player with 0 points and keeps the others; emits `game-start` and the turn start of `players[0]` exactly when the new size is 2, and `game-already-started` exactly when it is at least 2; drawer index unchanged |
| Session.GameSession.ScoreAndLog | backend/server.js:126-145 | a right guess from a registered sender adds 100 to that sender only; the log grows by exactly one entry (the "Guessed the right word" line or the raw message); one `receive-chat` is emitted |
| Session.GameSession.RecordRightGuess | backend/server.js:147-158 | a new guesser is appended; a repeat leaves the list unchanged; at size minus one, emits `all-guessed-correct`, empties the list and ends the turn |
| Session.GameSession.Chat | backend/server.js:122-159 | whole-state effect of a chat, including score, log, guessed list, early turn end, timer cancellation and emits; keeps `Valid` |
| Session.GameSession.WordSelect | backend/server.js:161-166 | sets the word, emits `word-len` with its length, then `start-draw`, and arms exactly one fresh timer; roster and turn are unchanged |
| Session.GameSession.Disconnect | backend/server.js:168-181 | the roster becomes `Remove(old, id)`; emits `updated-players` and `user-disconnected`; a roster of at most one player stops the game (drawer 0, latest timer cancelled); scores are untouched |
| Session.GameSession.TimerFire | backend/server.js:76-78 | a cancelled or already fired handle changes nothing; a live one is used up and runs `endTurn` |
| Scenarios.TwoPlayerRound | backend/server.js:122-166 | "APPLE" broadcasts length 5; "banana" scores nothing; "Apple" gives 100, ends the turn and makes "b" drawer; the finished turn's timer is a no-op |
| Scenarios.TimerExpiry | backend/server.js:76-87 | with three players and no guesses, expiry passes the drawing to "b"; scores stay 0 and the guessed list is empty |
| Scenarios.LateJoin | backend/server.js:109-114 | a join during a turn broadcasts `game-already-started` and keeps the word and the drawer |
| Scenarios.RepeatGuess | backend/server.js:132-151 | the same right guess sent twice scores 200 and is recorded once |
| Scenarios.DrawerGuess | backend/server.js:126-134 | the drawer guessing their own word scores 100 |
| Scenarios.OrphanTimer | backend/server.js:74-84 | after two word selections, the first timer survives the early turn end and ends the next drawer's turn |
| Scenarios.DrawerLeaves | backend/server.js:168-175 | when the drawer at index 2 of three leaves, the index stays 2, and the next turn end makes "b" the drawer, skipping "a" |
| Scenarios.LastButOneLeaves | backend/server.js:168-180 | going down to one player emits `game-stop` and resets the drawer to 0; the survivor keeps their score |

## Left out

- HTTP and process setup: Express, CORS, dotenv, static files, the catch-all route and `server.listen` (lines 1-40). This is I/O plumbing.
- The socket.io transport. Emits are `outbox` entries, not network sends. The two emits addressed with `io.to(socket.id)` carry their target in a `to` field.
- The `sending` handler (lines 117-120). It only relays drawing data to the other sockets and holds no state.
- The sender of `sending-chat` (line 123) is taken to be the socket's own id, which a caller passes in.
- Real time and the 60000 ms delay. Expiry is the external event `TimerFire` on a handle.
- `console.log` calls and the unused `round` variable (line 48).
- Unicode lowercasing: `toLowerCase` lowers only ASCII letters here. String lengths count characters, not the UTF-16 code units of JavaScript.
- JavaScript's dynamic payloads: messages, words, names and avatars are always strings. A missing message is the empty string, and a malformed payload is not modelled.
- Scores are unbounded naturals. JavaScript's double precision would only matter beyond 2^53 points.
- EndTurn: requires a non-empty roster. The source computes `% 0` there and leaves `drawerIndex` as NaN; that case is not modelled.
- TimerFire: requires a non-empty roster whenever the handle is still armed. This excludes the NaN case of `endTurn`, which an orphan timer could reach when everyone has left.
