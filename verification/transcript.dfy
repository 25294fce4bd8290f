/** What the terminal prints. Each executed line becomes an `Entry` of the
    transcript: the line as typed and its output. The long pre-authored
    texts (help, about, skills, the ASCII art, ...) are not spelled out:
    a `Block` names the file and the key they are written under. */
module Transcript {
  import opened Text

  /** The file that holds a literal text block. */
  datatype Page =
    | CommandOutputsTable   // client/src/utils/commandOutputs.ts
    | ClassicPage           // client/src/pages/Home.tsx
    | EnhancedPage          // client/src/pages/Home-Enhanced.tsx

  datatype Output =
    | Lit(text: string)
      /** The literal text written under `key` in `page`. */
    | Block(page: Page, key: string)
      /** `text` followed by the literal text written under `key` in `page`. */
    | LitThenBlock(text: string, page: Page, key: string)
      /** The `achievements` report: progress and the catalog, each entry
          marked unlocked or locked. */
    | AchievementsReport(unlockedCount: nat, totalCount: nat, progress: nat, unlocked: set<string>)
      /** The `stats` report. The session start time is not modelled. */
    | StatsReport(commands: nat, uniqueCommands: nat, achievements: nat, totalAchievements: nat,
                  themeName: string, matrix: bool, audio: bool, totalVisits: int, uniqueVisitors: nat)
      /** The enhanced page's welcome banner, which shows the visit counts,
          the theme's name and whether sound is on. */
    | WelcomeBanner(totalVisits: int, uniqueVisitors: nat, themeName: string, audio: bool)

  datatype Entry = Entry(command: string, output: Output)

  /** The answer to a line neither page recognises, `t` being the line in
      normal form. */
  function NotFound(t: string): (r: string)
    ensures StartsWith(r, "Command not found: " + t)
  {
    "Command not found: " + t + "\n\nType 'help' to see available commands."
  }

  const NoHistory := "No commands in history yet."

  /** The line `  i  cmd` that `history` prints for the `i`-th command. */
  function HistoryLine(i: nat, cmd: string): string {
    "  " + Decimal(i) + "  " + cmd
  }

  function HistoryLines(commands: seq<string>): (r: seq<string>)
    ensures |r| == |commands|
    ensures forall i :: 0 <= i < |r| ==> r[i] == HistoryLine(i + 1, commands[i])
  {
    seq(|commands|, i requires 0 <= i < |commands| => HistoryLine(i + 1, commands[i]))
  }

  /** The text of `history`: the commands numbered from 1, one per line, or
      a fixed notice when there are none. */
  function HistoryListing(commands: seq<string>): string {
    if |commands| > 0 then Join(HistoryLines(commands), "\n") else NoHistory
  }

  /** A history line breaks across lines only where its command does: the
      number is all digits. */
  lemma HistoryLineOneLine(i: nat, cmd: string)
    requires '\n' !in cmd
    ensures '\n' !in HistoryLine(i, cmd)
  {
  }

  /** Reading the listing back line by line gives one numbered line per
      recorded command, in order, when no command holds a line break; an
      empty history reads as the single notice line. */
  lemma HistoryListingLines(commands: seq<string>)
    requires forall i :: 0 <= i < |commands| ==> '\n' !in commands[i]
    ensures Split(HistoryListing(commands), '\n') ==
            if commands == [] then [NoHistory] else HistoryLines(commands)
  {
    if commands == [] {
      SplitNone(NoHistory, '\n');
    } else {
      var lines := HistoryLines(commands);
      forall i | 0 <= i < |lines| ensures '\n' !in lines[i] {
        HistoryLineOneLine(i + 1, commands[i]);
      }
      SplitJoin(lines, '\n');
    }
  }

  /** Recording one more command adds exactly one numbered line at the end
      of the listing. */
  lemma HistoryListingAppend(commands: seq<string>, cmd: string)
    ensures HistoryListing(commands + [cmd]) ==
            if commands == [] then HistoryLine(1, cmd)
            else HistoryListing(commands) + "\n" + HistoryLine(|commands| + 1, cmd)
  {
    var lines := HistoryLines(commands + [cmd]);
    if commands != [] {
      assert lines == HistoryLines(commands) + [HistoryLine(|commands| + 1, cmd)];
      JoinAppend(HistoryLines(commands), "\n", HistoryLine(|commands| + 1, cmd));
    }
  }
}
