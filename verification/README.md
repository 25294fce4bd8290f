# Portfolio terminal, modelled in Dafny

This project models the core of a personal portfolio site whose front page is a
terminal. The two terminal pages take a typed line and normalise it with
`trim().toLowerCase()`. They dispatch it through a `switch` and append one
transcript entry, holding the line as typed and its output. They record
non-blank lines for ↑/↓ recall.

The enhanced page adds the following:

- colour themes;
- a Matrix-rain toggle;
- sound switches;
- a catalog of achievements, unlocked by commands, by a Konami-code listener and by the Snake mini-game;
- a visitor counter kept in browser storage.

The model is made of these parts:

- **The utility files** are pure functions over values:
  - `Achievements`: the catalog and the unlock rule;
  - `Themes`: the palette table and `getTheme`;
  - `CommandOutputs`: the canned-output table and `getCommandOutput`;
  - `Text`: trim, lower-case, split, join and padEnd.
- **`VisitorTracker`** works on a `BrowserStorage` object. Its `local` and `session` maps are what localStorage and sessionStorage hold. `trackVisitor`, `saveVisitorData` and `resetVisitorTracking` are methods that change them.
- **`Snake.Game`** is a class with the component's state. `Tick` models `moveSnake`; `KeyPress` models the key handler.
- **`Home.Shell`** is the classic page. Its handlers are methods that update the transcript, the input line, the history and the history index.
- **`HomeEnhanced.Terminal`** is the enhanced page.
  - A command's case chooses its output from the state as it was when the handler started (`Snapshot`).
  - The pure function `Execute` computes the new `PageState` from the old one, and the class applies it with `SetState`.
  - Within one command the unlock calls are threaded: each sees the set the previous one left (`Unlocks`). This is the corrected rule. The page as written gives every call the set the handler started with, so only the last new id is stored (see "## Findings").
  - The invariant `Valid` holds throughout: the counters agree with the recorded commands, the count achievements are unlocked once earned (under the threaded rule), the theme is a listed one, the history cursor is in range, and the Konami buffer holds at most ten keys.
- **`Recall`**: the ↑/↓ history cursor, which both pages share.
- **`Konami`**: the ten-key buffer.
- **`Transcript`**: the output texts.

The clock, the random picks (the fortune, the food cell, the visitor id) and
`Date.now()` are parameters (`now`, `roll`, `newFood`, `stamp`, `rand`). The
long pre-authored texts (help, about, skills, the ASCII art and so on) are
named by the file and key they are written under (`Block`), not spelled out.

## Model

| member | source | states |
|---|---|---|
| Achievements.CatalogIdsListed | hesham-portfolio/client/src/utils/achievements.ts:9-80 | the catalog's ids are exactly the ten listed ids: first-command, explorer, command-master, easter-egg-hunter, theme-explorer, gamer, social-butterfly, konami-master, hacker-mode and completionist |
| Achievements.CatalogShape | hesham-portfolio/client/src/utils/achievements.ts:9-80 | the catalog has ten entries with pairwise distinct ids, all initially locked |
| Achievements.CheckAfterUnlock | hesham-portfolio/client/src/utils/achievements.ts:82-103 | after `unlockAchievement(id)`, `checkAchievement` holds for `id` and otherwise for exactly the ids it held for before |
| Achievements.FindIn | hesham-portfolio/client/src/utils/achievements.ts:99-100 | `find` by id: a result is the first entry with that id; no result exactly when no entry has the id |
| Achievements.Find | hesham-portfolio/client/src/utils/achievements.ts:99-100 | a catalog entry is found exactly for the catalog's ids, and it carries the id asked for |
| Achievements.UnlockAchievement | hesham-portfolio/client/src/utils/achievements.ts:89-103 | an unlocked id gives null and no setter call; a locked id gives one setter call with the old set plus the id, and returns its catalog entry (null for an id the catalog lacks) |
| Achievements.UnlockIdempotent | hesham-portfolio/client/src/utils/achievements.ts:94-97 | unlocking adds exactly the id; a second unlock of the same id changes nothing and returns null |
| Achievements.UnknownIdStillAdded | hesham-portfolio/client/src/utils/achievements.ts:95-102 | an id outside the catalog is still added to the set, but the call returns null |
| Themes.GetTheme | hesham-portfolio/client/src/utils/themes.ts:75-77 | the table's palette for a listed name, the Death Note palette for any other; always one of the table's palettes |
| Themes.TableShape | hesham-portfolio/client/src/utils/themes.ts:12-73 | six keys, each listed once, which are exactly the table's keys |
| Themes.NamesDistinct | hesham-portfolio/client/src/utils/themes.ts:12-73 | no two palettes share a display name |
| Themes.GetThemeListed | hesham-portfolio/client/src/utils/themes.ts:75-77 | whatever name is asked for, the result is the palette stored under one of the six keys |
| CommandOutputs.Fortune | hesham-portfolio/client/src/utils/commandOutputs.ts:205-217 | the pick is one of the eight fortunes |
| CommandOutputs.GetCommandOutput | hesham-portfolio/client/src/utils/commandOutputs.ts:235-238 | a fixed entry is returned as stored, `date` gives the clock, `fortune` gives one of the fortunes, and a missing key gives the empty text |
| CommandOutputs.FixedEntriesConstant | hesham-portfolio/client/src/utils/commandOutputs.ts:178-238 | every entry other than `date` and `fortune` is the same whatever the clock and the pick; `pwd` is `/home/hesham` |
| CommandOutputs.ComputedKeys | hesham-portfolio/client/src/utils/commandOutputs.ts:205-232 | the only computed entries are `fortune` and `date` |
| Text.TrimStart | hesham-portfolio/client/src/pages/Home-Enhanced.tsx:138 | a suffix of the input that does not start with whitespace; everything cut was whitespace |
| Text.TrimEnd | hesham-portfolio/client/src/pages/Home-Enhanced.tsx:138 | a prefix of the input that does not end with whitespace; everything cut was whitespace |
| Text.Trim | hesham-portfolio/client/src/pages/Home-Enhanced.tsx:138 | the result has no whitespace at either end, is no longer than the input, and an already-trimmed string comes back unchanged |
| Text.TrimSlice | hesham-portfolio/client/src/pages/Home-Enhanced.tsx:138 | the trimmed line is one slice of the input, with only whitespace cut before and after it |
| Text.Lower | hesham-portfolio/client/src/pages/Home-Enhanced.tsx:138 | same length, each character lower-cased, no upper-case ASCII letter left |
| Text.NormaliseIdempotent | hesham-portfolio/client/src/pages/Home.tsx:42 | normalising a normalised line changes nothing |
| Text.Split | hesham-portfolio/client/src/pages/Home-Enhanced.tsx:516 | `split` on one character: at least one piece, none containing the separator |
| Text.JoinSplit | hesham-portfolio/client/src/pages/Home-Enhanced.tsx:516 | joining the pieces of a split with the separator gives back the original string |
| Text.SplitAfterWord | hesham-portfolio/client/src/pages/Home-Enhanced.tsx:516 | a separator-free word followed by the separator splits off as the first piece |
| Text.SplitJoin | hesham-portfolio/client/src/pages/Home.tsx:293 | splitting a join on its separator gives back the parts, when no part holds the separator |
| Text.UpTo | hesham-portfolio/client/src/pages/Home-Enhanced.tsx:516 | the longest separator-free prefix, which ends at the string's end or at a separator |
| Text.SplitHead | hesham-portfolio/client/src/pages/Home-Enhanced.tsx:516 | the first piece of a split is the prefix up to the first separator |
| Text.JoinAppend | hesham-portfolio/client/src/pages/Home.tsx:293 | joining one more part appends the separator and that part |
| Text.Decimal | hesham-portfolio/client/src/pages/Home-Enhanced.tsx:78 | at least one digit, all digits, and no leading zero except for 0 |
| Text.DecimalValue | hesham-portfolio/client/src/pages/Home-Enhanced.tsx:78 | reading the decimal text back gives the number |
| Text.PadEnd | hesham-portfolio/client/src/pages/Home-Enhanced.tsx:319 | the string, then spaces up to the width; never shorter than the string |
| Transcript.NotFound | hesham-portfolio/client/src/pages/Home.tsx:520-523 | the answer to an unknown line starts with "Command not found: " and the line |
| Transcript.HistoryListingLines | hesham-portfolio/client/src/pages/Home.tsx:291-295 | read back line by line, the `history` listing is one line per recorded command, the i-th numbered i + 1, when no command holds a line break; an empty history reads as the single notice |
| Transcript.HistoryListingAppend | hesham-portfolio/client/src/pages/Home-Enhanced.tsx:309-313 | recording one more command adds exactly one numbered line at the end of the `history` listing |
| Recall.Older | hesham-portfolio/client/src/pages/Home.tsx:568-576 | ↑ moves one command further back and loads it, and stays put at the oldest; the index stays in range |
| Recall.Newer | hesham-portfolio/client/src/pages/Home.tsx:577-587 | ↓ moves one command forward, from the newest to the empty line, and stays put on the empty line; the index stays in range |
| Recall.NewerUndoesOlder | hesham-portfolio/client/src/pages/Home-Enhanced.tsx:553-571 | from a synced cursor that can go back, ↑ then ↓ returns to the same cursor |
| Recall.OlderTimes | hesham-portfolio/client/src/pages/Home-Enhanced.tsx:553-561 | pressing ↑ repeatedly keeps the index in range |
| Recall.OlderTimesFromFresh | hesham-portfolio/client/src/pages/Home-Enhanced.tsx:553-561 | from the empty line, n presses of ↑ show the n-th most recent command, stopping at the oldest |
| Home.InlineOutput | hesham-portfolio/client/src/pages/Home.tsx:291-340 | the inline cases: `history` lists the recorded commands, `date` gives the clock, `uname` and `uname -a` give the system line, `fortune` gives one of the page's fortunes; nothing for other lines |
| Home.UnameAlias | hesham-portfolio/client/src/pages/Home.tsx:309-312 | `uname` and `uname -a` answer alike, with the system line |
| Home.Respond | hesham-portfolio/client/src/pages/Home.tsx:50-525 | the switch: `clear` and only `clear` clears; a canned label prints its text; an inline label prints its computed output; any other line gets "Command not found" |
| Home.WithPrefix | hesham-portfolio/client/src/pages/Home.tsx:546-548 | exactly the names with the prefix, in order, never more than there were; the empty prefix keeps them all |
| Home.WithPrefixAppend | hesham-portfolio/client/src/pages/Home.tsx:546-548 | filtering distributes over concatenation |
| Home.WithPrefixIdempotent | hesham-portfolio/client/src/pages/Home.tsx:546-548 | filtering twice by the same prefix is filtering once |
| Home.Shell.constructor | hesham-portfolio/client/src/pages/Home.tsx:10-31 | the page mounts with the welcome text, an empty input line and no history |
| Home.Shell.ExecuteCommand | hesham-portfolio/client/src/pages/Home.tsx:41-536 | a non-blank line is recorded as typed; `clear` empties the transcript and keeps the index; any other line appends its entry and resets the index; the input empties |
| Home.Shell.Enter | hesham-portfolio/client/src/pages/Home.tsx:566-567 | Enter executes the input line: it is recorded when not blank, `clear` empties the transcript, and any other line appends its entry and resets the history index |
| Home.Shell.Tab | hesham-portfolio/client/src/pages/Home.tsx:538-560 | one match replaces the input; several are listed in one new entry; none changes nothing |
| Home.Shell.ArrowUp | hesham-portfolio/client/src/pages/Home.tsx:568-576 | the cursor becomes `Older` of the old cursor; transcript and history unchanged |
| Home.Shell.ArrowDown | hesham-portfolio/client/src/pages/Home.tsx:577-587 | the cursor becomes `Newer` of the old cursor; transcript and history unchanged |
| Home.Shell.Type | hesham-portfolio/client/src/pages/Home.tsx:625 | the input becomes the typed text, nothing else changes |
| Konami.LastTen | hesham-portfolio/client/src/pages/Home-Enhanced.tsx:43 | `slice(-10)`: the last ten keys, or all of them when there are fewer |
| Konami.Next | hesham-portfolio/client/src/pages/Home-Enhanced.tsx:42-60 | the buffer never exceeds ten keys and never holds the code; it empties exactly when the key completes the code, and otherwise holds the last keys pressed, ending with this one |
| Konami.KonamiCodeEndsUniquely | hesham-portfolio/client/src/pages/Home-Enhanced.tsx:39 | the code's last key, `a`, occurs nowhere else in it |
| Konami.Step | hesham-portfolio/client/src/pages/Home-Enhanced.tsx:43 | one more key of the code after its first k - 1 keys leaves the first k keys at the end of the buffer |
| Konami.Prefix | hesham-portfolio/client/src/pages/Home-Enhanced.tsx:42-60 | typing the first k < 10 keys of the code from any buffer never completes it early, and leaves them at the buffer's end |
| Konami.Completes | hesham-portfolio/client/src/pages/Home-Enhanced.tsx:42-60 | the code's last key completes it, and the buffer empties |
| Konami.KonamiTyped | hesham-portfolio/client/src/pages/Home-Enhanced.tsx:38-64 | typing ↑ ↑ ↓ ↓ ← → ← → b a from any reachable buffer completes the code on `a` and not before |
| HomeEnhanced.TableKey | hesham-portfolio/client/src/pages/Home-Enhanced.tsx:248-307 | the sixteen labels answered by `getCommandOutput`, each looked up under its own key, `uname -a` under `uname` |
| HomeEnhanced.LabelsDisjoint | hesham-portfolio/client/src/pages/Home-Enhanced.tsx:166-521 | no case label of the switch is both a table label and one of the page's own, and `clear` is neither |
| HomeEnhanced.ThemeArg | hesham-portfolio/client/src/pages/Home-Enhanced.tsx:516 | `split(" ")[1]` of a `theme ` line is the text after `theme ` up to the next space |
| HomeEnhanced.ThemeArgOf | hesham-portfolio/client/src/pages/Home-Enhanced.tsx:515-516 | `theme <name>` for a space-free name selects exactly that name |
| HomeEnhanced.UpToWhole | hesham-portfolio/client/src/pages/Home-Enhanced.tsx:516 | a separator-free string is its own longest separator-free prefix |
| HomeEnhanced.CounterTriggers | hesham-portfolio/client/src/pages/Home-Enhanced.tsx:149-157 | `first-command` when no command came before, `explorer` from five distinct commands, `command-master` when 19 came before; nothing else |
| HomeEnhanced.Unlocks | hesham-portfolio/client/src/pages/Home-Enhanced.tsx:120-135 | the corrected unlock calls, each seeing the set the previous call left: every id ends up unlocked, nothing else is added, and each notice announces an asked-for catalog achievement that was locked |
| HomeEnhanced.StaleUnlocks | hesham-portfolio/client/src/pages/Home-Enhanced.tsx:120-135 | the calls as written, all reading the handler's starting set: nothing is lost, the set is unchanged exactly when every asked-for id was already unlocked, and otherwise exactly one new id survives, the last locked one asked for |
| HomeEnhanced.LastSetter | hesham-portfolio/client/src/pages/Home-Enhanced.tsx:120-124 | no setter call exactly when every id was already unlocked; otherwise the stored set is the starting set plus the last asked-for id that was locked |
| HomeEnhanced.StaleAgreesOnOne | hesham-portfolio/client/src/pages/Home-Enhanced.tsx:120-135 | with a single unlock call per handler, the code as written and the corrected rule agree |
| HomeEnhanced.StaleNoticesAgree | hesham-portfolio/client/src/pages/Home-Enhanced.tsx:120-135 | over distinct ids, the code as written prints the same notices as the corrected rule |
| HomeEnhanced.AgreementLasts | hesham-portfolio/client/src/pages/Home-Enhanced.tsx:120-135 | after the first of several distinct ids is unlocked, the rest are still distinct and still locked or unlocked alike |
| HomeEnhanced.LaterUnlockOverwrites | hesham-portfolio/client/src/pages/Home-Enhanced.tsx:149-157 | two unlocks for locked ids in one handler: the code as written stores only the second; the corrected rule stores both |
| HomeEnhanced.SecondSetterWins | hesham-portfolio/client/src/pages/Home-Enhanced.tsx:120-124 | of two setter calls against the same set, the second one's argument is stored |
| HomeEnhanced.ThreadedKeepsBoth | hesham-portfolio/client/src/pages/Home-Enhanced.tsx:120-135 | threading the set through both calls keeps both ids |
| HomeEnhanced.FirstCommandOnlyOnce | hesham-portfolio/client/src/pages/Home-Enhanced.tsx:149-151 | no command after the first asks for `first-command` again |
| HomeEnhanced.PageEffect | hesham-portfolio/client/src/pages/Home-Enhanced.tsx:166-512 | the page's own cases answer exactly their labels; none clears or sets a theme, and all ask only for known ids |
| HomeEnhanced.OwnCase | hesham-portfolio/client/src/pages/Home-Enhanced.tsx:166-512 | only `matrix` toggles the effect, only `snake` opens the game, and only `sound on`/`sound off` set the sound (on for `sound on`) |
| HomeEnhanced.DefaultEffect | hesham-portfolio/client/src/pages/Home-Enhanced.tsx:514-530 | `theme <listed name>` selects that palette, asks for `theme-explorer` and names it; an unlisted name is reported; any other line is "Command not found" |
| HomeEnhanced.TriggerIdsListed | hesham-portfolio/client/src/pages/Home-Enhanced.tsx:149-157 | every id the page asks to unlock is in the catalog |
| HomeEnhanced.Dispatch | hesham-portfolio/client/src/pages/Home-Enhanced.tsx:166-531 | the switch: only `clear` clears; the `getCommandOutput` labels print the table's entry; the page's own labels use their case; everything else goes to the default case |
| HomeEnhanced.NormalisedAppend | hesham-portfolio/client/src/pages/Home-Enhanced.tsx:140-147 | recording one more command adds its normal form to the distinct set; the history stays free of blank lines exactly when the new line is not blank |
| HomeEnhanced.UnlocksWithin | hesham-portfolio/client/src/pages/Home-Enhanced.tsx:120-135 | unlocking never locks anything and keeps the set among the ids the page asks for |
| HomeEnhanced.CommandUnlocks | hesham-portfolio/client/src/pages/Home-Enhanced.tsx:149-157 | after a non-blank command, each count achievement its counts earn is unlocked |
| HomeEnhanced.CountKeepsTallied | hesham-portfolio/client/src/pages/Home-Enhanced.tsx:140-157 | the bookkeeping of one line keeps count, history, distinct set and count achievements in agreement |
| HomeEnhanced.UnlockKeepsTallied | hesham-portfolio/client/src/pages/Home-Enhanced.tsx:704-707 | an unlock outside `executeCommand` (Konami, Snake score) keeps the tally consistent |
| HomeEnhanced.StepKeeps | hesham-portfolio/client/src/pages/Home-Enhanced.tsx:137-544 | a command keeps the page consistent |
| HomeEnhanced.StepUnlocks | hesham-portfolio/client/src/pages/Home-Enhanced.tsx:140-157 | a command never locks anything, unlocks every id its case asks for, and otherwise unlocks only the count achievements |
| HomeEnhanced.StepRecords | hesham-portfolio/client/src/pages/Home-Enhanced.tsx:140-142 | the input empties; a non-blank line is recorded as typed; `clear` keeps the history index, and every other line resets it |
| HomeEnhanced.StepClear | hesham-portfolio/client/src/pages/Home-Enhanced.tsx:498-501 | `clear` empties the transcript, including any notices, and keeps theme, Matrix, sound and Snake as they were |
| HomeEnhanced.UnlocksAnnounceNew | hesham-portfolio/client/src/pages/Home-Enhanced.tsx:120-135 | every notice announces a catalog achievement that the calls newly unlocked |
| HomeEnhanced.UnlocksAnnounceAll | hesham-portfolio/client/src/pages/Home-Enhanced.tsx:120-135 | every catalog achievement the calls newly unlock is announced |
| HomeEnhanced.StepPrints | hesham-portfolio/client/src/pages/Home-Enhanced.tsx:533-540 | when theme name and sound stay, the transcript keeps its old entries, then gets the notices of new unlocks, then the line's own entry |
| HomeEnhanced.StepRebanner | hesham-portfolio/client/src/pages/Home-Enhanced.tsx:86-112 | when theme name or sound changes, the transcript becomes the banner for the new settings |
| HomeEnhanced.ExecuteKeeps | hesham-portfolio/client/src/pages/Home-Enhanced.tsx:137-544 | every command keeps the page consistent |
| HomeEnhanced.ThemeLineUnlabelled | hesham-portfolio/client/src/pages/Home-Enhanced.tsx:514-515 | a `theme ` line is not answered by any other case |
| HomeEnhanced.DispatchTheme | hesham-portfolio/client/src/pages/Home-Enhanced.tsx:514-521 | `theme <listed name>` selects that palette and asks for `theme-explorer` |
| HomeEnhanced.ExecuteTheme | hesham-portfolio/client/src/pages/Home-Enhanced.tsx:514-521 | after `theme <listed name>`, that palette is current and `theme-explorer` is unlocked |
| HomeEnhanced.ExecuteClear | hesham-portfolio/client/src/pages/Home-Enhanced.tsx:498-501 | `clear` is recorded, empties the transcript and keeps the history index |
| HomeEnhanced.ExecuteUnknown | hesham-portfolio/client/src/pages/Home-Enhanced.tsx:525-540 | an unknown line is recorded and answered with "Command not found", after the notices of what it newly unlocked |
| HomeEnhanced.ExecuteMatrix | hesham-portfolio/client/src/pages/Home-Enhanced.tsx:372-375 | `matrix` flips the effect and says in which direction |
| HomeEnhanced.DispatchMatrix | hesham-portfolio/client/src/pages/Home-Enhanced.tsx:372-375 | the `matrix` case's effect flips the Matrix flag and reports the new state |
| HomeEnhanced.PageEffectMatrix | hesham-portfolio/client/src/pages/Home-Enhanced.tsx:372-375 | the page's own case for `matrix` is that effect |
| HomeEnhanced.ExecuteSoundSwitch | hesham-portfolio/client/src/pages/Home-Enhanced.tsx:503-512 | switching the sound to the other setting flips it, and the transcript becomes the banner showing the new setting |
| HomeEnhanced.DispatchSound | hesham-portfolio/client/src/pages/Home-Enhanced.tsx:503-512 | `sound on` turns the sound on and `sound off` turns it off, each with its message |
| HomeEnhanced.PageEffectSound | hesham-portfolio/client/src/pages/Home-Enhanced.tsx:503-512 | the page's own case for `sound on`/`sound off` is that effect |
| HomeEnhanced.KonamiPress | hesham-portfolio/client/src/pages/Home-Enhanced.tsx:42-60 | the listener's new buffer is `Konami.Next` of the old buffer and the key |
| HomeEnhanced.KonamiPressUnlocks | hesham-portfolio/client/src/pages/Home-Enhanced.tsx:46-58 | completing the code unlocks `konami-master` and prints at most one notice, exactly when it was locked; any other key unlocks and prints nothing |
| HomeEnhanced.KonamiKeeps | hesham-portfolio/client/src/pages/Home-Enhanced.tsx:42-60 | the listener keeps the page consistent and the buffer at most ten keys long |
| HomeEnhanced.Terminal.constructor | hesham-portfolio/client/src/pages/Home-Enhanced.tsx:19-32 | the page mounts with boot showing, nothing printed, the Death Note theme, effects and sound off, nothing unlocked |
| HomeEnhanced.Terminal.FinishBoot | hesham-portfolio/client/src/pages/Home-Enhanced.tsx:86-112 | when the boot sequence ends, the transcript becomes the welcome banner |
| HomeEnhanced.Terminal.GreetNewVisitor | hesham-portfolio/client/src/pages/Home-Enhanced.tsx:72-83 | while boot is showing, a new visitor is greeted with their visitor number; nothing is added for a returning one |
| HomeEnhanced.Terminal.SetState | hesham-portfolio/client/src/pages/Home-Enhanced.tsx:19-32 | the page's fields take the given values; the Konami buffer, boot flag and visitor stats stay |
| HomeEnhanced.Terminal.ExecuteCommand | hesham-portfolio/client/src/pages/Home-Enhanced.tsx:137-544 | the page's state becomes `Execute` of the old state and stays consistent |
| HomeEnhanced.Terminal.Enter | hesham-portfolio/client/src/pages/Home-Enhanced.tsx:551-552 | Enter executes the input line |
| HomeEnhanced.Terminal.ArrowUp | hesham-portfolio/client/src/pages/Home-Enhanced.tsx:553-561 | only the cursor changes, to `Older` of the old cursor |
| HomeEnhanced.Terminal.ArrowDown | hesham-portfolio/client/src/pages/Home-Enhanced.tsx:562-571 | only the cursor changes, to `Newer` of the old cursor |
| HomeEnhanced.Terminal.Type | hesham-portfolio/client/src/pages/Home-Enhanced.tsx:727 | the input becomes the typed text |
| HomeEnhanced.Terminal.KonamiKey | hesham-portfolio/client/src/pages/Home-Enhanced.tsx:42-60 | the buffer and unlocked set follow `KonamiPress`, its notices are appended, nothing else changes, and the page stays consistent |
| HomeEnhanced.Terminal.SnakeScore | hesham-portfolio/client/src/pages/Home-Enhanced.tsx:704-708 | a score of 100 or more unlocks `gamer` and announces it if it was locked |
| HomeEnhanced.Terminal.SnakeExit | hesham-portfolio/client/src/pages/Home-Enhanced.tsx:703 | the game closes |
| Snake.Step | hesham-portfolio/client/src/components/SnakeGame.tsx:42-57 | the head moves one cell along the heading; y grows downwards |
| Snake.StepBack | hesham-portfolio/client/src/components/SnakeGame.tsx:42-57 | a step along the opposite heading undoes a step |
| Snake.Occurs | hesham-portfolio/client/src/components/SnakeGame.tsx:35 | `some` by coordinates is membership |
| Snake.Collides | hesham-portfolio/client/src/components/SnakeGame.tsx:31-36 | a collision is a head off the 20 by 20 grid, or a head on a body segment other than the first |
| Snake.PrependFresh | hesham-portfolio/client/src/components/SnakeGame.tsx:64 | prepending a free on-grid cell next to the head keeps the body well formed |
| Snake.GrowWellFormed | hesham-portfolio/client/src/components/SnakeGame.tsx:59-72 | eating (a head that does not collide) keeps the body well formed |
| Snake.SlideWellFormed | hesham-portfolio/client/src/components/SnakeGame.tsx:59-75 | moving without eating, with the tail dropped, keeps the body well formed |
| Snake.KeyHeading | hesham-portfolio/client/src/components/SnakeGame.tsx:88-109 | the arrows and WASD in either case, each mapped to its heading |
| Snake.Turn | hesham-portfolio/client/src/components/SnakeGame.tsx:88-109 | a reversal is refused and any other request is taken; never the reverse of the current heading |
| Snake.Game.constructor | hesham-portfolio/client/src/components/SnakeGame.tsx:14-18 | one segment at (10, 10), food at (15, 15), heading right, score 0 |
| Snake.Game.Tick | hesham-portfolio/client/src/components/SnakeGame.tsx:38-79 | after game over nothing changes; a collision ends the game; eating grows the body, adds ten points, places new food and reports the score; otherwise the snake slides; the body stays well formed and the score is ten per eaten cell |
| Snake.Game.KeyPress | hesham-portfolio/client/src/components/SnakeGame.tsx:82-110 | Escape exits; a direction key turns unless it reverses; nothing else changes |
| VisitorTracker.BrowserStorage.constructor | hesham-portfolio/client/src/utils/visitorTracker.ts:13-14 | storage holding the given local and session maps |
| VisitorTracker.GenerateVisitorId | hesham-portfolio/client/src/utils/visitorTracker.ts:19-23 | a non-empty id starting `visitor_` |
| VisitorTracker.Fresh | hesham-portfolio/client/src/utils/visitorTracker.ts:59-64 | no visits, no visitors, no session |
| VisitorTracker.Load | hesham-portfolio/client/src/utils/visitorTracker.ts:42-65 | nothing stored or unparsable text gives the fresh record; otherwise each field is read with its default, and the visitor list becomes a set |
| VisitorTracker.LoadEncode | hesham-portfolio/client/src/utils/visitorTracker.ts:70-82 | loading what was saved gives back the record |
| VisitorTracker.TrackedSummary | hesham-portfolio/client/src/utils/visitorTracker.ts:87-137 | once a visit's record is stored, `getVisitorStats` reports the counts that visit reported, with the visit's time as the last visit |
| VisitorTracker.SessionIdFor | hesham-portfolio/client/src/utils/visitorTracker.ts:28-37 | the stored session id when there is a non-empty one, else a generated one; never empty |
| VisitorTracker.SessionIdStable | hesham-portfolio/client/src/utils/visitorTracker.ts:28-37 | once stored, the session id is what every later call returns |
| VisitorTracker.GetSessionId | hesham-portfolio/client/src/utils/visitorTracker.ts:28-37 | returns `SessionIdFor` and leaves it stored under the session key; localStorage untouched |
| VisitorTracker.ToArray | hesham-portfolio/client/src/utils/visitorTracker.ts:74 | `Array.from(set)`: each member exactly once |
| VisitorTracker.SaveVisitorData | hesham-portfolio/client/src/utils/visitorTracker.ts:70-82 | a later load gives back the saved record; other keys and sessionStorage are untouched |
| VisitorTracker.Track | hesham-portfolio/client/src/utils/visitorTracker.ts:96-119 | a new session exactly when the id differs from the stored one, and then one more visit; a new visitor exactly when the id is unseen, and then one more visitor |
| VisitorTracker.TrackTwice | hesham-portfolio/client/src/utils/visitorTracker.ts:96-119 | tracking again with the same session reports the same counts, and neither a new session nor a new visitor |
| VisitorTracker.FirstVisit | hesham-portfolio/client/src/utils/visitorTracker.ts:87-120 | the first visit ever counts one visit and one visitor, both new |
| VisitorTracker.TrackVisitor | hesham-portfolio/client/src/utils/visitorTracker.ts:87-120 | reports `Track` of the loaded record under the settled session id, saves the updated record and stores the session id; `getVisitorStats` then reports the counts it returned |
| VisitorTracker.ResetVisitorTracking | hesham-portfolio/client/src/utils/visitorTracker.ts:142-145 | both keys are removed, nothing else changes, a later load gives the fresh record, and `getVisitorStats` reports no visits and no visitors |

## Left out

- Lower-casing covers ASCII letters only. JavaScript's `toLowerCase` also folds non-ASCII letters, and there is no Unicode case mapping here.
- Storage write failures (a full quota) are not modelled, nor the `console.error` on them. `saveVisitorData` always succeeds.
- Stored JSON that parses to something other than a record with these field types is not modelled. For example, a number where the visitor list is expected.
- Timestamps of transcript entries are not modelled. The clock appears only where an output shows it (`date`, `lastVisit`).
- The `stats` report's session start time is not modelled.
- Achievement progress in the `achievements` report uses whole-number division. The page computes it in floating point.
- Rendering, JSX, scrolling, focus and the typing animation are not modelled.
- Audio playback on key press, success and error is not modelled. The sound flag is modelled.
- Timers are not modelled. The new-visitor greeting's one-second delay is the separate method `GreetNewVisitor`, and the Snake game's interval is one `Tick` per call.
- The animations of the boot sequence and the Matrix rain are not modelled. BootSequence.tsx, MatrixRain.tsx and TypingText.tsx are not part of this model; only their completion (`FinishBoot`) and the Matrix flag are.
- `window.open` is not modelled. Neither page opens a window from the modelled cases.
- Lookups by keys inherited from JavaScript's object prototype (such as `toString`) are not modelled. Both the theme table and the output table see only their own keys.
- The Konami listener and the input's key handler both receive every key. The model has them as separate methods (`KonamiKey`, and `Enter`/`ArrowUp`/`ArrowDown`/`Type`) that the caller invokes in turn.
- The Snake game's two key presses within one tick are not modelled. Two quick turns can reverse the snake into itself between ticks; the model reads the heading as it stands.
- React's batching is modelled as one new state applied at once. Queued updater functions are folded into that state in the order they were queued.
- Long literal texts are named by page and key rather than spelled out. This covers help, about, skills, the ASCII art, social, coffee, secret, resume and the hack screens.
- HomeEnhanced.Terminal.ExecuteCommand, HomeEnhanced.Terminal.Enter, HomeEnhanced.Tallied, HomeEnhanced.CommandUnlocks, HomeEnhanced.StepKeeps and HomeEnhanced.ExecuteKeeps: the class applies the corrected, threaded unlock rule, not the page's rule as written. On the page as written, a first command `coffee` loses `first-command` for the rest of the visit (`LaterUnlockOverwrites`, `FirstCommandOnlyOnce`), so the invariant that the count achievements are unlocked once earned does not hold there.
- HomeEnhanced.Terminal.GreetNewVisitor: the greeting's timer fires one second after mount. The boot sequence takes at least 19 × 80 ms + 500 ms, so the timer fires while boot is still showing, and the method requires `showBoot`. `FinishBoot` then replaces the transcript with the banner, so the greeting never stays on screen. The boot timing comes from BootSequence.tsx, which is not part of this model.
- Trim: that the result is a slice of the input with only whitespace cut before and after it is stated by the lemma `TrimSlice`, not by the function's own contract. This keeps the existential out of every caller's proof.
- HomeEnhanced.OwnCase: its flags are stated in one direction only (a flag implies its label). The converse for `matrix` and the sound switches is `PageEffectMatrix` and `PageEffectSound`, and for `snake` it is the effect's definition.

## Findings

| source | as written | input that shows it | evidently intended | confidence | as-written member | corrected member |
|---|---|---|---|---|---|---|
| hesham-portfolio/client/src/pages/Home-Enhanced.tsx:120-157 | every `unlockAchievementWithNotification` call in one handler reads the unlocked set the handler started with, so each setter call overwrites the previous one, and only the last newly unlocked id is stored | the first command of a visit is `coffee` with nothing unlocked: it unlocks `first-command`, then `easter-egg-hunter`; both are announced, but only `easter-egg-hunter` is stored, and `first-command` is never asked for again | every call sees the set the previous one left, and all newly unlocked ids are stored | not executed | HomeEnhanced.LaterUnlockOverwrites | HomeEnhanced.Unlocks |
