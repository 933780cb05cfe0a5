# TreasureHunt client: board and turn state machine

A model, in Dafny, of the game logic inside the SwiftUI client of a two-player
"treasure hunt" grid game. It covers four things:

- The board. `Board.init` builds a 10x10 grid of `Tile` values. Each tile holds its
  coordinates, the image tag `"circle.fill"` and the location string `"x,y"`.
- `evaluateMessage`. It always clears the turn flag. It reports a hit exactly when
  the upper-cased server response starts with `"F"`.
- The `onChange(of: network.incomingMessage)` handler. The literal
  `"You are Player 1 ... waiting for Player 2"` makes this client player one and
  gives it the turn. A message ending in `"true"` gives the turn to player one. A
  message ending in `"false"` gives it to player two. Every message is stored as the
  server response.
- The tile tap handler. A tap is possible only while it is this player's turn. It
  sends the tile's location and evaluates the stored server response. A hit shows
  `"face.smiling"` and adds one point. A miss shows `"x.circle"`.

Modules:

- `Text` (`text.dfy`): `String(Int)` as a decimal rendering, and a reader that
  recovers the integer from it.
- `Messages` (`messages.dfy`): the message conventions. This covers the
  session-start literal, Swift's `suffix(n)` and `starts(with:)`, and the hit test.
- `Tiles` (`tiles.dfy`): the `Tile` datatype, `Location`, and the `Board` class.
  `Board` keeps the grid in a `seq<seq<Tile>>` field, built by the nested loops of
  `Board.init`.
- `Game` (`board_view.dfy`):
  - The `BoardView` class, with the fields `score`, `turn`, `isPlayer1`,
    `serverResponse` and `lastIncoming`, and a reference to the board.
  - A `Network` class that only records the sent messages, in order.
  - A few usage methods. They call the handlers in the order the game's
    exchanges need and assert what the contracts promise.

The grid invariant `IsGrid` says that tile `[x][y]` keeps coordinates `x`, `y` and
location `Location(x, y)`, and that its image is one of the three tags. Taps
preserve it. Because `Location` can be read back (`LocationRoundTrip`), no two
tiles share a location.

Notes on the code:

- The handler tests the session-start literal in one `if`. The suffix tests
  follow in a separate `if`, not an `else if`. The two forms behave the same:
  after the literal the turn is already true, and the literal ends in neither
  suffix.
- A tap is scored against the response stored before the tap, not against the
  server's reply to that guess. A tap made after the session-start literal, with no
  other message arriving in between, is therefore a miss. The model keeps this order:
  `TapTile` evaluates the `serverResponse` as it was before the tap, and
  `MissMarksTile` shows the resulting miss.
- The hit test looks only at the first character. `"Failure"` therefore counts as
  a hit. The model keeps this too.

## Model

| member | source | states |
|---|---|---|
| Text.NatToDecimal | Client/ContentView.swift:164 | `String(n)` for a non-negative value is a non-empty string of decimal digits, and it begins with `'0'` only when it is exactly `"0"`, the rendering of zero |
| Text.DecimalRoundTrip | Client/ContentView.swift:164 | reading the decimal rendering of `n` back gives `n` |
| Text.IntToString | Client/ContentView.swift:164 | `String(i)` is non-empty and contains no comma, so the comma in a location separates the two coordinates |
| Text.IntRoundTrip | Client/ContentView.swift:164 | reading `String(i)` back gives `i`, negative values included |
| Tiles.LocationRoundTrip | Client/ContentView.swift:164 | splitting `String(x) + "," + String(y)` at its first comma and reading both halves gives `(x, y)` |
| Tiles.LocationInjective | Client/ContentView.swift:160-165 | two locations are equal if and only if their coordinates are equal |
| Tiles.BuildGrid | Client/ContentView.swift:140-148 | the nested loops produce exactly n rows of exactly n tiles, and tile `[x][y]` is `Tile(x: x, y: y)` |
| Tiles.Location | Client/ContentView.swift:164 | the first comma of `String(x) + "," + String(y)` sits right after the rendering of `x`; the text before it is `String(x)` and the text after it is `String(y)` |
| Tiles.NewTile | Client/ContentView.swift:160-165 | `Tile(x:y:)` keeps coordinates `x` and `y`, starts with image `"circle.fill"`, and its location reads back as `(x, y)` |
| Tiles.FreshGridIsGrid | Client/ContentView.swift:160-165 | a freshly built grid meets the grid invariant, and every tile's image is `"circle.fill"` |
| Tiles.GridLocationsDistinct | Client/ContentView.swift:153-165 | in any grid meeting the invariant, two tiles have the same location if and only if they are the same tile, however many images have changed |
| Tiles.SetImageKeepsGrid | Client/ContentView.swift:91-95 | writing one of the three image tags into one tile keeps the grid invariant |
| Tiles.Board.constructor | Client/ContentView.swift:136-149 | the board's tiles are the fresh 10x10 grid, and the board invariant holds |
| Tiles.Board.SetImage | Client/ContentView.swift:91-95 | only the image of tile `[x][y]` changes; every other tile and field stays the same, and the invariant is kept |
| Messages.Uppercased | Client/ContentView.swift:126 | upper-casing keeps the length and maps each character separately (ASCII letters only) |
| Messages.StartsWithAppend | Client/ContentView.swift:126 | `starts(with: p)` holds if and only if the string is `p` followed by some rest |
| Messages.Suffix | Client/ContentView.swift:110-113 | `suffix(n)` has length `n`, or the whole length when the string is shorter, and the string ends in it |
| Messages.SuffixComparison | Client/ContentView.swift:110-113 | comparing `s.suffix(n)` with a `t` of length n holds if and only if `s` ends in `t`, including when `s` is shorter than `t` |
| Messages.IsHit | Client/ContentView.swift:126-131 | the hit test is true if and only if the message is non-empty and its first character is `'F'` or `'f'`; the empty message is not a hit |
| Messages.HitExamples | Client/ContentView.swift:126-131 | "Found treasure!", "found" and "Failure" are hits; "Nothing", the empty string and the session-start literal are not |
| Game.Network.constructor | Client/ContentView.swift:12 | a new network has sent nothing |
| Game.Network.Send | Client/ContentView.swift:88 | sending appends the message to the sent messages and changes nothing else |
| Game.BoardView.constructor | Client/ContentView.swift:52-62 | score 0, empty server response, turn false, the given `isPlayer1`, and a fresh board holding the initial grid |
| Game.BoardView.EvaluateMessage | Client/ContentView.swift:124-132 | afterwards `turn` is false for every input; the result is the hit test of the message; no other field changes |
| Game.BoardView.OnIncomingMessage | Client/ContentView.swift:105-117 | `isPlayer1` becomes true exactly on the session-start literal and otherwise stays as it was; `turn` becomes true on that literal, or when player one gets a message ending in "true", or when player two gets one ending in "false", and otherwise stays as it was, so neither flag is ever cleared; `serverResponse` is the new message in every branch |
| Game.BoardView.IncomingMessageChanged | Client/ContentView.swift:102-104 | the handler runs only when the value differs from the last one seen; a repeated value leaves `isPlayer1`, `turn` and `serverResponse` unchanged |
| Game.BoardView.TapTile | Client/ContentView.swift:87-98 | while `turn` is false a tap changes nothing. Otherwise the tap sends the tile's location, sets `turn` to false, and evaluates the response stored before the tap. On a hit, tile `[x][y]` shows "face.smiling" and the score rises by exactly one. On a miss, it shows "x.circle" and the score stays as it was. No other tile changes, and the grid invariant is kept |

## Left out

- The SwiftUI layout is not modelled: `ContentView.body`, the peer `List`, `LazyVGrid`, the `columns` array, and the `Text`/`Image` views, including the "Score: " label. They are presentation only.
- `NetworkSupport` is defined outside this file and is not part of this model. That covers its peers, `connected`, `contactPeer` and `Request`. `network.send` is modelled only as appending to the list of sent messages. The view's construction takes the network's current incoming message as a parameter.
- The error from `contactPeer` is only printed to the console, so that path is not modelled.
- `Tile.id = UUID()` is random and is omitted from `Tile`.
- Messages.Uppercased: maps only the ASCII letters `a`-`z`. Swift's `uppercased()` applies full Unicode case mapping. For example, it turns the ligature "ﬀ" into "FF", which would count as a hit.
- Messages.Suffix, Messages.SuffixComparison: strings are sequences of Unicode code points here, while Swift's `suffix(n)` counts `Character`s (grapheme clusters). The two differ when a prepended character is glued to the suffix. For `"x\u{0600}true"` the model sees the ending `"true"`, but Swift's last four `Character`s are `"\u{0600}t"`, `"r"`, `"u"`, `"e"`, so the Swift test fails.
- Messages.StartsWith, Messages.StartsWithAppend: the prefix is compared code point by code point, where Swift's `starts(with:)` compares `Character`s (grapheme clusters).
- Messages.IsHit: the first code point of the message stands for Swift's first `Character`. For `"F\u{0301}ound"` the model reports a hit, but Swift's first `Character` is `"F\u{0301}"`, which is not `"F"`, so `starts(with: "F")` is false.
- Game.BoardView.TapTile: `score` is an unbounded integer. Swift's `score += 1` traps at `Int.max`.
- The change notification is modelled only as the guard against the last value seen. The platform mechanism behind it is not modelled.
- Whether one of the two clients holds the turn at any moment depends on the server, which is not part of this model.
