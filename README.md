# Portfolio site core, modelled in Dafny

This project models the interactive parts of a personal portfolio web site:

- **InteractiveTerminal**: a fake shell with a fixed virtual filesystem, a
  fixed command registry, a scrollback, a command history with arrow-key
  recall, and Tab completion.
- **PortfolioGame**: a top-down mini-game. The player walks a 24×24 sprite
  around a 640×580 canvas and collides with five rooms. Pressing space near
  a room's door opens a dialog, and its "LEARN MORE" button scrolls the page
  or routes to another one. A touch joystick turns stick offsets into
  synthetic arrow-key events.
- **TypewriterText**: the four-variable typewriter state machine, and the
  callback that tells the hero section which text has just been typed out.
- **HeroSection**: `getDisplayHighlights`, which truncates a chip list.
- **calculateExperience**: the years-of-experience arithmetic.

## Module layout

- `wrappers.dfy` (module `Wrappers`): `Option`.
- `strings.dfy` (module `Strings`): `trim`, `split(' ')`, `join(' ')`,
  `startsWith` and `toLowerCase`, over `seq<char>`.
- `terminal_commands.dfy` (module `TerminalCommands`): the filesystem and the
  command handlers, as pure functions.
- `terminal_shell.dfy` (module `TerminalShell`): the `Session` value and its
  transitions, `Submit` and `Press`. Class `Shell` keeps the component's state
  in fields, and its methods are proved against those transitions.
- `game_world.dfy` (module `GameWorld`): the rooms, the collision and
  door-proximity scans, and movement. Each scan is written as a loop method
  and proved against a recursive first-match function.
- `game_session.dfy` (module `GameSession`): the `GameState` value and its
  transitions for buttons, keys, frames and the joystick. Class `Game` holds
  the same fields and updates them in place. Each method is proved equal to
  the matching transition of the old state.
- `typewriter.dfy` (module `Typewriter`): the `Next` transition and class
  `TypewriterText`, whose `Step` performs one scheduled transition and then
  the callback's effect.
- `hero.dfy` (module `Hero`): the highlight truncation, the shipped summaries,
  and the hero's typewriter texts.
- `experience.dfy` (module `Experience`): the year arithmetic.

## Modelling decisions

- The environment becomes explicit state or parameters:
  - Events the game dispatches to `window` are recorded in
    `GameState.dispatched`.
  - Page navigation requested by the dialog is recorded in `intents`.
  - Analytics reports from the terminal are recorded in `telemetry`.
  - `window.open` calls are recorded in `launched`.
  - The current year is a parameter.
  - The random shuffle is a parameter: any permutation of the highlights.
- The joystick's `Set<string>` of held keys is a `set<Dir>`. Its
  insertion-order iteration is the fixed order `Order`
  (up, down, left, right), which is the order `handleJoystickMove` adds
  directions in (app/components/PortfolioGame.tsx:331-334).
- The game's `keys` object maps a lower-cased key to a flag. It is modelled
  as the set of keys whose flag is true: `keys[k] = false` removes `k`.
- Door distance: `Math.sqrt(dx² + dy²) < 50` is modelled as a squared
  comparison. The horizontal offset is doubled, because a room's centre can
  lie on a half pixel (a width of 130). For non-negative values the two tests
  agree, so no floating point is needed.
- Where the code and its design notes differ, the model follows the code:
  - The command line is split on single spaces, so doubled spaces yield
    empty arguments.
  - `clear` and `cls` are reported to analytics but are not added to the
    command history.
  - The game loop does not pause while a dialog is open: the player keeps
    moving (`MovesUnderDialog`).
  - Each axis of a move is tested with the other axis's old coordinate, so a
    diagonal step can end inside a room (`DiagonalClip`).
  - The space flag is a latch, not a rising edge. A press made away from
    every door stays set and opens a dialog as soon as the player reaches a
    door (`SpaceLatchedAwayFromDoors`). The ACTION button never sends a
    keyup.

## Model

| member | source | states |
|---|---|---|
| Strings.TrimStart | app/components/InteractiveTerminal.tsx:280 | the result is the suffix of the input after its longest all-whitespace prefix, and starts with a non-whitespace character |
| Strings.TrimEnd | app/components/InteractiveTerminal.tsx:280 | the result is the prefix of the input before its longest all-whitespace suffix, and ends with a non-whitespace character |
| Strings.TrimEnds | app/components/InteractiveTerminal.tsx:280 | a non-empty trimmed line begins and ends with non-whitespace |
| Strings.TrimEmptyIff | app/components/InteractiveTerminal.tsx:280-281 | a line trims to empty exactly when every character is whitespace |
| Strings.TrimIdempotent | app/components/InteractiveTerminal.tsx:280 | trimming twice equals trimming once |
| Strings.Split | app/components/InteractiveTerminal.tsx:283 | `split` always yields at least one piece, and no piece contains the separator |
| Strings.JoinSplit | app/components/InteractiveTerminal.tsx:263-283 | joining the pieces of a split with the separator restores the string |
| Strings.SplitJoin | app/components/InteractiveTerminal.tsx:263-283 | splitting a join of separator-free pieces restores the pieces |
| Strings.SplitPiece | app/components/InteractiveTerminal.tsx:283 | a separator-free word in front of a string is glued onto that string's first piece |
| Strings.FirstPieceEmpty | app/components/InteractiveTerminal.tsx:283-296 | the first piece is empty exactly when the string is empty or starts with the separator |
| Strings.Lower | app/components/InteractiveTerminal.tsx:284 | lower-casing keeps the length and maps each character through the ASCII letter mapping |
| Strings.LowerFixesLowerCase | app/components/InteractiveTerminal.tsx:333 | a string with no upper-case letter is unchanged by lower-casing |
| Strings.LowerIsLowerCase | app/components/InteractiveTerminal.tsx:284 | a lower-cased string holds no upper-case letter |
| TerminalCommands.Find | app/components/InteractiveTerminal.tsx:175 | property lookup is None exactly when no entry has the name, and otherwise returns a node stored under that name |
| TerminalCommands.FindAt | app/components/InteractiveTerminal.tsx:28-112 | in a table without repeated names, lookup returns the node at the name's position |
| TerminalCommands.RootKeysDistinct | app/components/InteractiveTerminal.tsx:28-112 | the root object has no repeated key |
| TerminalCommands.RootDirectories | app/components/InteractiveTerminal.tsx:44-61 | a root name denotes a directory exactly when it is `projects` or `unreleased_projects` |
| TerminalCommands.Entries | app/components/InteractiveTerminal.tsx:153-166 | `ls` renders one row per key, in key order, flagged as a directory exactly when the node is one |
| TerminalCommands.List | app/components/InteractiveTerminal.tsx:141-169 | an empty first argument lists the root; a root directory's name lists that directory; anything else gives the error naming the argument |
| TerminalCommands.CatFile | app/components/InteractiveTerminal.tsx:171-191 | the missing-operand, no-such-file and is-a-directory errors; a found file with an action fires that action and returns the file's content as plain text; a found file without one renders its content preformatted with no effect; cat never clears |
| TerminalCommands.ChangeDir | app/components/InteractiveTerminal.tsx:269-276 | the missing-operand error; a root directory is acknowledged without any state change; any other name gives the no-such-directory error |
| TerminalCommands.SudoReply | app/components/InteractiveTerminal.tsx:262-267 | the sandwich reply comes exactly when the arguments joined by spaces are `make-me-a-sandwich`; every other argument list gets the nice-try reply |
| TerminalCommands.RootEntry | app/components/InteractiveTerminal.tsx:28-112 | each root entry is found under its own name |
| TerminalCommands.ListsUnreleased | app/components/InteractiveTerminal.tsx:141-169 | `ls unreleased_projects` lists its two files in order, neither a directory |
| TerminalCommands.ShowsBiography | app/components/InteractiveTerminal.tsx:171-191 | `cat about_me.txt` renders the biography preformatted, with no effect |
| TerminalCommands.OpensResume | app/components/InteractiveTerminal.tsx:185-188 | `cat resume.pdf` returns the notice as plain text and opens the resume URL |
| TerminalCommands.LookupIn | app/components/InteractiveTerminal.tsx:284 | a found command has the looked-up key; nothing is found exactly when no command has that key |
| TerminalCommands.NameInjective | app/components/InteractiveTerminal.tsx:114-277 | no two commands share a registry key |
| TerminalCommands.LookupExact | app/components/InteractiveTerminal.tsx:284 | lookup yields command c exactly when the lower-cased token is c's key |
| TerminalCommands.ClearsExactly | app/components/InteractiveTerminal.tsx:236-244 | only `clear` and `cls` empty the scrollback, and they always do |
| TerminalCommands.ClearsByName | app/components/InteractiveTerminal.tsx:236-244 | a looked-up command clears exactly when the key is `clear` or `cls` |
| TerminalCommands.FiresOnlyResume | app/components/InteractiveTerminal.tsx:185-188 | a handler fires an action exactly for `cat resume.pdf`, and the action opens the resume URL |
| TerminalCommands.Run | app/components/InteractiveTerminal.tsx:114-277 | only `cat` can fire an action, and the scrollback is cleared exactly by `clear` and `cls` |
| TerminalCommands.ArgumentsIgnored | app/components/InteractiveTerminal.tsx:114-277 | every handler except `ls`, `cat`, `sudo` and `cd` ignores its arguments; `pwd` and `whoami` print their fixed texts |
| TerminalCommands.MatchesIn | app/components/InteractiveTerminal.tsx:332-333 | the filter keeps each command as often as it occurs, exactly when its key starts with the prefix |
| TerminalCommands.RegistryOnce | app/components/InteractiveTerminal.tsx:332 | `Object.keys(commands)` lists every command exactly once |
| TerminalCommands.OnlyMatchKept | app/components/InteractiveTerminal.tsx:332-334 | when one command alone matches the prefix, the filter returns just that command |
| TerminalCommands.KeptIsOnlyMatch | app/components/InteractiveTerminal.tsx:332-334 | a one-element filter result is the only command matching the prefix |
| TerminalCommands.Complete | app/components/InteractiveTerminal.tsx:330-336 | Tab leaves the buffer as it is or replaces it by the key of the only command starting with the lower-cased buffer |
| TerminalCommands.CompleteSpec | app/components/InteractiveTerminal.tsx:330-336 | Tab sets the buffer to a command's key exactly when that key is the only one starting with the lower-cased buffer, and leaves it unchanged otherwise |
| TerminalCommands.NamesPrefixFree | app/components/InteractiveTerminal.tsx:114-277 | no command key is a prefix of another command's key |
| TerminalCommands.NameIsLowerCase | app/components/InteractiveTerminal.tsx:284 | every command key is its own lower-case form |
| TerminalCommands.CompleteBlank | app/components/InteractiveTerminal.tsx:330-336 | Tab on an empty buffer changes nothing, since every key matches |
| TerminalCommands.CompletesKey | app/components/InteractiveTerminal.tsx:330-336 | a command key completes to itself |
| TerminalCommands.CompleteIdempotent | app/components/InteractiveTerminal.tsx:330-336 | a second Tab after a completion changes nothing |
| TerminalShell.BlankIgnored | app/components/InteractiveTerminal.tsx:279-281 | a whitespace-only line leaves the session entirely unchanged: no row, no history line, no report |
| TerminalShell.Submit | app/components/InteractiveTerminal.tsx:279-305 | a blank line changes nothing; any other line is reported to telemetry exactly once; the history gains at most that line; the buffer is untouched and the cursor stays valid |
| TerminalShell.Press | app/components/InteractiveTerminal.tsx:307-338 | every key keeps the cursor valid; Enter empties the buffer; the arrows and Tab leave the history, scrollback, telemetry and launched actions alone; other keys change nothing |
| TerminalShell.BlankEnter | app/components/InteractiveTerminal.tsx:308-310 | Enter on a whitespace-only buffer only empties the buffer |
| TerminalShell.ClearEffectIff | app/components/InteractiveTerminal.tsx:284-292 | the handler's clear effect happens exactly when the token is `clear` or `cls` in any letter case |
| TerminalShell.SubmitRecords | app/components/InteractiveTerminal.tsx:279-305 | any other non-blank line is reported once and appends exactly one row and one history line with the trimmed line; it resets the cursor and keeps the buffer |
| TerminalShell.SubmitClears | app/components/InteractiveTerminal.tsx:279-294 | `clear`/`cls` empties the scrollback and is reported, but leaves the history, the cursor, the buffer and the launched actions alone |
| TerminalShell.TokenNonEmpty | app/components/InteractiveTerminal.tsx:280-296 | the command token of a non-blank trimmed line is never empty |
| TerminalShell.UnknownCommand | app/components/InteractiveTerminal.tsx:296-302 | an unknown token appends the not-found message naming the token as typed |
| TerminalShell.SubmitKeepsCursor | app/components/InteractiveTerminal.tsx:279-305 | submission keeps the recall cursor at -1 or within the history |
| TerminalShell.PressKeepsCursor | app/components/InteractiveTerminal.tsx:307-338 | every key keeps the recall cursor valid |
| TerminalShell.UpKeepsCursor | app/components/InteractiveTerminal.tsx:311-317 | ArrowUp keeps the recall cursor valid |
| TerminalShell.DownKeepsCursor | app/components/InteractiveTerminal.tsx:318-329 | ArrowDown keeps the recall cursor valid |
| TerminalShell.Tokens | app/components/InteractiveTerminal.tsx:283 | for space-free words joined by spaces, the token is the first word and the arguments are the rest |
| TerminalShell.Dispatches | app/components/InteractiveTerminal.tsx:284-291 | a line whose lower-cased token is a registry key runs that command on its arguments |
| TerminalShell.ListUnreleased | app/components/InteractiveTerminal.tsx:141-169 | `ls unreleased_projects`, with `ls` in any letter case, lists the directory's two files |
| TerminalShell.CatBiography | app/components/InteractiveTerminal.tsx:171-191 | `cat about_me.txt`, with `cat` in any letter case, renders the biography preformatted |
| TerminalShell.CatNestedPath | app/components/InteractiveTerminal.tsx:174-179 | `cat` of a path holding a slash gives the no-such-file error: lookup is at the root only |
| TerminalShell.NoNestedLookup | app/components/InteractiveTerminal.tsx:175 | a name with a slash is not found at the root |
| TerminalShell.RootNamesFlat | app/components/InteractiveTerminal.tsx:28-112 | no root name holds a slash |
| TerminalShell.CatResume | app/components/InteractiveTerminal.tsx:185-188 | `cat resume.pdf`, with `cat` in any letter case, shows the notice and opens the resume |
| TerminalShell.CdAgreesWithLs | app/components/InteractiveTerminal.tsx:269-276 | `cd` accepts exactly the names that `ls` lists as directories |
| TerminalShell.RecallWalk | app/components/InteractiveTerminal.tsx:311-329 | ArrowUp recalls newest to oldest and clamps at the oldest; ArrowDown walks forward and, past the newest, empties the buffer and leaves recall |
| TerminalShell.RecallEnds | app/components/InteractiveTerminal.tsx:311-329 | for any non-empty history: the first ArrowUp recalls the newest line, ArrowUp at the oldest stays there, ArrowUp elsewhere steps back one, ArrowDown steps forward one and from the newest line leaves recall with an empty buffer |
| TerminalShell.DownWithoutRecall | app/components/InteractiveTerminal.tsx:320 | ArrowDown with nothing recalled changes nothing |
| TerminalShell.RecallKeepsHistory | app/components/InteractiveTerminal.tsx:311-329 | recall never edits the history or the scrollback |
| TerminalShell.Shell.constructor | app/components/InteractiveTerminal.tsx:15-18 | the empty buffer, empty scrollback and history, and cursor -1 |
| TerminalShell.Shell.Edit | app/components/InteractiveTerminal.tsx:401 | the buffer takes the typed text and nothing else changes |
| TerminalShell.Shell.Execute | app/components/InteractiveTerminal.tsx:279-305 | the new state is `Submit` of the old state and the line, and the cursor stays valid |
| TerminalShell.Shell.Dispatch | app/components/InteractiveTerminal.tsx:284-300 | returns the handler's response and applies only its side effect |
| TerminalShell.Shell.Append | app/components/InteractiveTerminal.tsx:302-304 | one row and one history line are appended and the cursor is reset |
| TerminalShell.Shell.Apply | app/components/InteractiveTerminal.tsx:186-242 | opening a URL is logged; clearing empties the scrollback |
| TerminalShell.Shell.KeyDown | app/components/InteractiveTerminal.tsx:307-338 | the new state is `Press` of the old state and the key |
| TerminalShell.Shell.SubmitInput | app/components/InteractiveTerminal.tsx:308-310 | submits the buffer, then empties it |
| TerminalShell.Shell.HistoryUp | app/components/InteractiveTerminal.tsx:311-317 | the new state is `RecallUp` of the old state |
| TerminalShell.Shell.HistoryDown | app/components/InteractiveTerminal.tsx:318-329 | the new state is `RecallDown` of the old state |
| TerminalShell.Shell.CompleteInput | app/components/InteractiveTerminal.tsx:330-336 | the new state is `TabComplete` of the old state |
| GameWorld.RoomAt | app/components/PortfolioGame.tsx:145-158 | the scan finds no room exactly when the box overlaps none; a found room is one of the rooms and overlaps the box |
| GameWorld.RoomAtFirst | app/components/PortfolioGame.tsx:145-158 | the scan returns the first overlapping room |
| GameWorld.CheckRoomCollision | app/components/PortfolioGame.tsx:145-158 | the loop returns exactly the first room the box overlaps, or none |
| GameWorld.FieldBounds | app/components/PortfolioGame.tsx:161-163 | the player is inside the margin exactly when its corner lies in [10, 606] by [10, 546] |
| GameWorld.DoorRoom | app/components/PortfolioGame.tsx:166-179 | no room is returned exactly when no door is within 50 pixels of the player's centre; a returned room's door is |
| GameWorld.DoorRoomFirst | app/components/PortfolioGame.tsx:166-179 | the door scan returns the first room whose door is near |
| GameWorld.CheckNearDoor | app/components/PortfolioGame.tsx:166-179 | the loop returns exactly the first room whose door is near, or none |
| GameWorld.NearDoorDistance | app/components/PortfolioGame.tsx:166-179 | the integer door test holds exactly when the real squared distance from the player's centre to the middle of the room's bottom edge is below 50 squared |
| GameWorld.NextPosition | app/components/PortfolioGame.tsx:227-254 | the new position is `Move`: each axis takes the keys' target when that single-axis box is clear of the edge and the rooms |
| GameWorld.Move | app/components/PortfolioGame.tsx:227-254 | each axis either stays or reaches the keys' target, and then that single-axis box is clear; a clear target is always reached |
| GameWorld.MoveStep | app/components/PortfolioGame.tsx:227-233 | each axis moves back by 2, not at all, or forward by 2 |
| GameWorld.MoveKeepsEven | app/components/PortfolioGame.tsx:227-254 | even coordinates stay even |
| GameWorld.OppositeKeysCancel | app/components/PortfolioGame.tsx:230-233 | holding both opposite keys cancels on that axis |
| GameWorld.MoveStaysInField | app/components/PortfolioGame.tsx:237-254 | from a position inside the margin, a move stays inside it |
| GameWorld.StraightMoveStaysFree | app/components/PortfolioGame.tsx:237-254 | a move along one axis from a free position stays free |
| GameWorld.DiagonalClip | app/components/PortfolioGame.tsx:237-254 | from the free position (56, 16), right+down reaches (58, 18), which overlaps PROJECTS |
| GameWorld.StartIsFree | app/components/PortfolioGame.tsx:54-127 | the start position overlaps no room and is near no door |
| GameSession.FlagNameIsLower | app/components/PortfolioGame.tsx:331-334 | each joystick key's flag is its lower-cased key name |
| GameSession.MouseUp | app/components/PortfolioGame.tsx:381-391 | after a mouseup nothing is being dragged; a drag in progress ends with no held direction; without one nothing changes |
| GameSession.InitialValid | app/components/PortfolioGame.tsx:29-61 | the initial state is valid, and its flags agree with the (empty) joystick set |
| GameSession.Frame | app/components/PortfolioGame.tsx:184-290 | a stopped game does not change; a running one moves to `Move`'s position; the dialog changes only to a room and only with the space flag set; at most the space flag is cleared; nothing else changes |
| GameSession.FrameValid | app/components/PortfolioGame.tsx:184-290 | a frame keeps the player inside the margin on even coordinates, and a dialog names a room |
| GameSession.FrameOpensDialog | app/components/PortfolioGame.tsx:227-289 | a frame moves, then opens the first near room's dialog and clears the space flag exactly when near a door with space set; otherwise the dialog and flags are kept |
| GameSession.OnePressOneDialog | app/components/PortfolioGame.tsx:281-282 | after a frame opens a dialog, the next frame opens none until space is pressed again |
| GameSession.SpaceLatchedAwayFromDoors | app/components/PortfolioGame.tsx:272-289 | a space press away from every door stays set |
| GameSession.MovesUnderDialog | app/components/PortfolioGame.tsx:184-290 | the frame's movement does not depend on the dialog |
| GameSession.Start | app/components/PortfolioGame.tsx:439-442 | the game is playing with the instructions shown; a stopped game resets the player and the flags; a running one only shows the instructions; the dialog and intents are kept |
| GameSession.Close | app/components/PortfolioGame.tsx:486-490 | the game stops, the dialog is dropped and full screen is left; nothing else changes |
| GameSession.Cancel | app/components/PortfolioGame.tsx:573 | the dialog is dropped and nothing else changes |
| GameSession.ButtonsValid | app/components/PortfolioGame.tsx:393-411 | every button keeps the session valid |
| GameSession.Confirm | app/components/PortfolioGame.tsx:393-411 | nothing happens without a dialog; otherwise the dialog closes, the game stops, exactly the room's intents are recorded and the position and flags are kept |
| GameSession.OneIntent | app/components/PortfolioGame.tsx:400-410 | a non-empty link or an action yields one intent; a non-empty link wins and scrolls exactly when it starts with '#' |
| GameSession.RoomIntents | app/components/PortfolioGame.tsx:66-127 | the three `#` rooms scroll, EXPERIENCE routes to `/work-experience`, TERMINAL runs its scroll action |
| GameSession.FlagsMember | app/components/PortfolioGame.tsx:130-139 | a direction's flag is among the flags of a direction list exactly when the direction is in it |
| GameSession.HandleKey | app/components/PortfolioGame.tsx:130-139 | the flags change only while playing: a keydown adds the lower-cased key, a keyup removes it; nothing else changes |
| GameSession.HeldExclusive | app/components/PortfolioGame.tsx:328-334 | the stick never holds opposite directions |
| GameSession.LeavingMember | app/components/PortfolioGame.tsx:336-349 | a direction is scanned out exactly when it is in the first set and not the second |
| GameSession.SendAllAppend | app/components/PortfolioGame.tsx:336-349 | sending two batches equals sending their concatenation |
| GameSession.SendAllStopped | app/components/PortfolioGame.tsx:141-142 | while stopped, synthetic events are only logged |
| GameSession.SendReleases | app/components/PortfolioGame.tsx:336-341 | while playing, keyups clear exactly the released directions' flags, and are logged in order |
| GameSession.SendPresses | app/components/PortfolioGame.tsx:343-348 | while playing, keydowns set exactly the pressed directions' flags, and are logged in order |
| GameSession.KeyNameInjective | app/components/PortfolioGame.tsx:331-334 | distinct directions send distinct keys |
| GameSession.FlagNameInjective | app/components/PortfolioGame.tsx:331-334 | distinct directions set distinct flags |
| GameSession.ReleasesMember | app/components/PortfolioGame.tsx:336-341 | a keyup for d is sent exactly when d is released, and only keyups are sent |
| GameSession.PressesMember | app/components/PortfolioGame.tsx:343-348 | a keydown for d is sent exactly when d is pressed, and only keydowns are sent |
| GameSession.TransitionEvents | app/components/PortfolioGame.tsx:336-349 | moving the stick sends a keyup exactly for each direction let go, a keydown exactly for each one newly held, keyups first |
| GameSession.FlagsAreArrows | app/components/PortfolioGame.tsx:331-334 | joystick events touch only arrow flags |
| GameSession.JoystickFlags | app/components/PortfolioGame.tsx:306-351 | after a stick move the flags are the old ones, minus those let go, plus the new ones |
| GameSession.JoystickMove | app/components/PortfolioGame.tsx:306-351 | the held set becomes the stick's directions; only the flags and the event log change besides it |
| GameSession.JoystickKeepsSync | app/components/PortfolioGame.tsx:306-351 | while playing, a stick move keeps the arrow flags equal to the held directions and leaves all other flags alone |
| GameSession.JoystickEndSends | app/components/PortfolioGame.tsx:358-368 | ending a drag logs a keyup per held direction, and while playing clears their flags |
| GameSession.JoystickEnd | app/components/PortfolioGame.tsx:358-368 | dragging stops and no direction is held; only the flags and the event log change besides |
| GameSession.JoystickEndReleasesAll | app/components/PortfolioGame.tsx:358-368 | ending a drag stops dragging and empties the held set; the appended events are keyups for exactly the held directions; while playing in sync no arrow flag is left |
| GameSession.SendAllKeepsRest | app/components/PortfolioGame.tsx:130-139 | key events change only the flags and the event log |
| GameSession.InputsValid | app/components/PortfolioGame.tsx:306-391 | keys, the stick, the mouse and the ACTION button keep the session valid |
| GameSession.MouseNeedsDrag | app/components/PortfolioGame.tsx:375-387 | without a drag, mouse moves and mouseups change nothing |
| GameSession.ActionButton | app/components/PortfolioGame.tsx:533-541 | ACTION logs exactly one keydown of space, sets the space flag while playing, and changes nothing else |
| GameSession.KeysFor | app/components/PortfolioGame.tsx:328-334 | the held set is exactly the directions whose offset is strictly beyond 15 |
| GameSession.Game.constructor | app/components/PortfolioGame.tsx:29-38 | the initial state |
| GameSession.Game.ClickStart | app/components/PortfolioGame.tsx:439-442 | the new state is `Start` of the old |
| GameSession.Game.ClickClose | app/components/PortfolioGame.tsx:486-490 | the new state is `Close` of the old |
| GameSession.Game.ClickCancel | app/components/PortfolioGame.tsx:573 | the new state is `Cancel` of the old |
| GameSession.Game.ClickMaximize | app/components/PortfolioGame.tsx:479 | the new state is `ToggleMaximize` of the old |
| GameSession.Game.ClickDismiss | app/components/PortfolioGame.tsx:621 | the new state is `DismissInstructions` of the old |
| GameSession.Game.HandleDialogAction | app/components/PortfolioGame.tsx:393-411 | the new state is `Confirm` of the old |
| GameSession.Game.HandleKeyDown | app/components/PortfolioGame.tsx:130-135 | the lower-cased key's flag is set while playing |
| GameSession.Game.HandleKeyUp | app/components/PortfolioGame.tsx:137-139 | the lower-cased key's flag is cleared while playing |
| GameSession.Game.DispatchEvent | app/components/PortfolioGame.tsx:336-366 | the event is logged and delivered to the key listeners |
| GameSession.Game.ClickAction | app/components/PortfolioGame.tsx:533-541 | the new state is `ActionButton` of the old |
| GameSession.Game.GameLoop | app/components/PortfolioGame.tsx:184-290 | the new state is `Frame` of the old |
| GameSession.Game.HandleJoystickStart | app/components/PortfolioGame.tsx:353-356 | dragging starts |
| GameSession.Game.ReleaseAllBut | app/components/PortfolioGame.tsx:336-366 | sends, in iteration order, a keyup for each held direction outside the kept set |
| GameSession.Game.PressNew | app/components/PortfolioGame.tsx:343-348 | sends, in iteration order, a keydown for each new direction not yet held |
| GameSession.Game.HandleJoystickMove | app/components/PortfolioGame.tsx:306-351 | the new state is `JoystickMove` of the old |
| GameSession.Game.HandleJoystickEnd | app/components/PortfolioGame.tsx:358-368 | the new state is `JoystickEnd` of the old |
| GameSession.Game.OnTouchMove | app/components/PortfolioGame.tsx:370-373 | the stick follows the touch |
| GameSession.Game.OnMouseMove | app/components/PortfolioGame.tsx:375-379 | the new state is `MouseMove` of the old |
| GameSession.Game.OnGlobalMouseUp | app/components/PortfolioGame.tsx:381-391 | the new state is `MouseUp` of the old |
| Typewriter.Prefix | app/components/TypewriterText.tsx:59-61 | `substring(0, end)` has the clamped length and is a prefix of the text |
| Typewriter.Next | app/components/TypewriterText.tsx:33-69 | the index stays or moves to the next one cyclically, and a move starts the next text empty and typing; a pause always switches to deleting with the same text |
| Typewriter.Run | app/components/TypewriterText.tsx:33-69 | any number of transitions keeps the state valid |
| Typewriter.StartValid | app/components/TypewriterText.tsx:22-25 | the initial state is valid for non-empty texts |
| Typewriter.NextValid | app/components/TypewriterText.tsx:33-69 | each transition keeps the index in range and the shown text a prefix of the current text |
| Typewriter.IndexAdvance | app/components/TypewriterText.tsx:49-52 | the index changes only when an empty deleted text moves on, and then to the next index modulo the count |
| Typewriter.PauseThenDelete | app/components/TypewriterText.tsx:36-47 | a pause always leads to deleting with the same text; a completed text always pauses |
| Typewriter.OneCharacter | app/components/TypewriterText.tsx:55-63 | a typing step adds exactly the next character; a deleting step removes exactly the last one |
| Typewriter.FiresWhenComplete | app/components/TypewriterText.tsx:27-52 | the callback fires only on a completed, non-deleting text, never when a pause ends, and after a deleting state only when moving on to an empty text; typing the last character always fires it |
| Typewriter.TypeOut | app/components/TypewriterText.tsx:55-63 | k typing steps type the next k characters |
| Typewriter.RubOut | app/components/TypewriterText.tsx:55-63 | k deleting steps remove the last k characters |
| Typewriter.RunAdd | app/components/TypewriterText.tsx:33-69 | k + m transitions are k and then m |
| Typewriter.TypeAndPause | app/components/TypewriterText.tsx:44-63 | typing a text of length n, pausing and switching to deleting take n + 2 transitions |
| Typewriter.DeleteAndAdvance | app/components/TypewriterText.tsx:49-63 | deleting it and moving on take n + 1 transitions |
| Typewriter.Cycle | app/components/TypewriterText.tsx:33-69 | a text of length n cycles in 2n + 3 transitions from empty to the next text's empty state |
| Typewriter.TypewriterText.constructor | app/components/TypewriterText.tsx:22-31 | the initial state; the mount-time callback fires only for an empty first text |
| Typewriter.TypewriterText.Step | app/components/TypewriterText.tsx:27-69 | the new state is `Next` of the old; with `texts` taken as fixed, the announced indices grow by the new index exactly when the callback's other dependencies changed and the text is complete |
| Hero.SliceEnd | app/components/HeroSection.tsx:22 | `slice`'s end: a negative end counts from the back, and it is clamped into the array |
| Hero.DisplayHighlights | app/components/HeroSection.tsx:20-24 | a list no longer than `maxItems` comes back unchanged; a longer one gives the shuffled prefix up to the slice end, then "And more..." |
| Hero.TruncatedLength | app/components/HeroSection.tsx:22-23 | a list longer than a positive `maxItems` shows exactly `maxItems` chips |
| Hero.NonPositiveMax | app/components/HeroSection.tsx:22-23 | with `maxItems` ≤ 0, the slice end counts from the back |
| Hero.SelectionFromInput | app/components/HeroSection.tsx:22 | the chips before "And more..." are a sub-multiset of the input: distinct positions of it |
| Hero.ShownAreHighlights | app/components/HeroSection.tsx:22-23 | every shown chip except the last is one of the highlights |
| Hero.OnlyThirdTruncated | app/components/HeroSection.tsx:26-47 | at the default of six, only the third summary (thirteen highlights) is truncated |
| Hero.AnnouncedIndexSelectsSummary | app/components/HeroSection.tsx:26-71 | every index the hero's typewriter announces names one of the four summaries |
| Experience.YearsOfExperience | app/utils/calculateExperience.ts:6-9 | start year plus result is the current year; the result is non-negative exactly when the start is not later |
| Experience.WebMobileYears | app/utils/calculateExperience.ts:20-22 | 2012 plus the result is the current year; the result is non-negative exactly from 2012 on |
| Experience.GameDevYears | app/utils/calculateExperience.ts:27-29 | 2015 plus the result is the current year; the result is non-negative exactly from 2015 on |
| Experience.GapIsThree | app/utils/calculateExperience.ts:12-29 | in every year the web/mobile total exceeds the game-dev total by three |
| Experience.NextYear | app/utils/calculateExperience.ts:6-29 | each new year adds one to both totals |
| Experience.Totals | app/utils/calculateExperience.ts:11-29 | both totals are non-negative from 2015 on, and are 13 and 10 in 2025 |

## Left out

- Rendering: the JSX markup, the canvas drawing and the framer-motion animation. They are presentation only.
- Timers: `setTimeout`, `requestAnimationFrame`, the typing, deleting and pause delays, and the 100 ms scroll delay. Each scheduled callback is one call of a transition method.
- The DOM and the router: `scrollIntoView`, `querySelector`, `router.push` and `window.open` are recorded as intents or launched actions, not performed.
- Analytics: `trackTerminalCommand` is recorded as the telemetry log. app/utils/analytics is not part of this model.
- Auto-scrolling of the terminal, input focus, and `preventDefault` on arrow keys and Tab.
- Mobile detection (`isMobile`) only chooses whether the stick and ACTION are shown. The model lets them be used at any time.
- The stick's pixel geometry: the bounding rectangle, the offset from its centre, and the clamp to 40 pixels. `JoystickMove`, `KeysFor` and `HandleJoystickMove` take the clamped offset. Clamping keeps each offset's sign, so the held directions depend on the clamped values as the model takes them. `joystickPos` and `isJoystickActive` are visual only.
- The dialog's stored x/y (a room centre, possibly a half pixel) is never read and is left out.
- Effect setup and cleanup (adding and removing listeners) is modelled as "key events reach the flags only while playing".
- JavaScript prototype lookup: `fileSystem[name]` for an inherited name such as `constructor` is not modelled. Lookup sees own keys only.
- Strings.Lower: covers ASCII letters only. Full Unicode case mapping is not modelled.
- Strings.IsWhitespace: uses the ECMAScript WhiteSpace and LineTerminator code points as single characters. There is no UTF-16 surrogate handling.
- Typewriter: `texts` is fixed at construction. A `texts` prop that changes between renders is not modelled.
- Typewriter.TypewriterText.Step: counts characters as Unicode scalar values. The source's `length` and `substring` count UTF-16 code units, so a character outside the Basic Multilingual Plane takes two typing steps there (the first showing a lone surrogate) and `Cycle`'s step count differs. The hero's texts are ASCII, where the two agree.
- Typewriter.TypewriterText.Step: announces an index once per completion. The hero passes `texts` as an inline array literal (app/components/HeroSection.tsx:61-66), so every re-render of the hero makes a new array, re-runs the callback effect (app/components/TypewriterText.tsx:27-31) and calls `onTextChange` again with the same index. The model ignores these repeats; they are harmless because the hero's setter is idempotent.
- Typewriter.TypewriterText.constructor: requires at least one text. With none, `texts[0]` is undefined and the source's typing step would fail.
- Typewriter: `onTextChange` is assumed present. Without it nothing is announced, which the announced log does not distinguish.
- Hero: `Math.random` inside `sort` is replaced by an arbitrary permutation parameter. The result does not depend on whether the shuffle is uniform.
- Hero: a fractional `maxItems` is not modelled; it is an integer here.
- Experience: `new Date().getFullYear()` is the `currentYear` parameter.
