/** The enhanced terminal page (client/src/pages/Home-Enhanced.tsx): the
    classic terminal plus themes, the Matrix effect, sound, achievements,
    the Snake game, the Konami code and the visitor counter.

    A command's case chooses its output from `Snapshot`, the component's
    state as it stood when the handler started (a React closure). The pure
    function `Execute` computes the whole page after the command, and the
    class `Terminal` applies it. The achievement unlocks of one command are
    threaded there: each call sees the set the previous one left
    (`Unlocks`). The page itself hands every call the set the handler
    started with, so only the last newly unlocked id is stored
    (`StaleUnlocks`, `LaterUnlockOverwrites`); the model keeps that rule
    beside the threaded one and applies the threaded one. */
module HomeEnhanced {
  import opened Wrappers
  import opened Text
  import opened Transcript
  import opened Recall
  import opened Achievements
  import Themes
  import CommandOutputs
  import VisitorTracker
  import Konami

  /** The component state a command reads when it starts. */
  datatype Snapshot = Snapshot(
    history: seq<string>,
    commandCount: nat,
    uniqueCount: nat,
    unlocked: set<string>,
    theme: Themes.Theme,
    matrix: bool,
    audio: bool,
    visits: VisitorTracker.Stats)

  /** What the `switch` of `executeCommand` decides for one line: the
      output it prints (unless the line is `clear`), the achievements it
      asks to unlock, and the state it sets. */
  datatype Effect = Effect(
    output: Output,
    triggers: seq<string>,
    clear: bool,
    theme: Option<Themes.Theme>,
    toggleMatrix: bool,
    audio: Option<bool>,
    snake: bool)

  /** A case that only prints. */
  function Plain(output: Output): Effect {
    Effect(output, [], false, None, false, None, false)
  }

  /** The labels the page answers with `getCommandOutput`. */
  const TableLabels: set<string> := {"skills", "experience", "education", "publications", "contact", "projects",
    "whoami", "ls", "pwd", "date", "uname", "uname -a", "neofetch", "ping", "fortune", "cowsay"}

  /** Each table label mapped to the key it looks up (`uname -a` shares
      `uname`'s). */
  function TableKey(t: string): (r: Option<string>)
    ensures r.Some? <==> t in TableLabels
    ensures r.Some? && t != "uname -a" ==> r.value == t
    ensures t == "uname -a" ==> r == Some("uname")
  {
    if t in {"skills", "experience", "education", "publications", "contact", "projects",
             "whoami", "ls", "pwd", "date", "uname", "neofetch", "ping", "fortune", "cowsay"} then Some(t)
    else if t == "uname -a" then Some("uname")
    else None
  }

  /** The word after `theme ` in `theme <name>`: `split(" ")[1]`, which is
      everything up to the next space. */
  function ThemeArg(t: string): (r: string)
    requires StartsWith(t, "theme ")
    ensures r == UpTo(t[6..], ' ')
    ensures ' ' !in r
  {
    var rest := t[6..];
    assert t == "theme" + [' '] + rest;
    SplitAfterWord("theme", ' ', rest);
    SplitHead(rest, ' ');
    Split(t, ' ')[1]
  }

  /** `theme <name>` for a name free of spaces selects exactly that name. */
  lemma ThemeArgOf(name: string)
    requires ' ' !in name
    ensures StartsWith("theme " + name, "theme ")
    ensures ThemeArg("theme " + name) == name
  {
    var t := "theme " + name;
    assert t[..6] == "theme ";
    assert t[6..] == name;
    UpToWhole(name, ' ');
  }

  /** A string free of the separator is its own longest separator-free
      prefix. */
  lemma {:induction false} UpToWhole(s: string, sep: char)
    requires sep !in s
    ensures UpTo(s, sep) == s
  {
    if s != [] {
      UpToWhole(s[1..], sep);
    }
  }

  /** One line of the `themes` listing. */
  function ThemeLine(key: string): string
    requires key in Themes.Table
  {
    "  • " + PadEnd(key, 15) + " - " + Themes.Table[key].name
  }

  /** The `themes` listing: one line per theme, in the table's order. */
  function ThemesListing(): string {
    Themes.TableShape();
    var lines := seq(|Themes.Keys|, i requires 0 <= i < |Themes.Keys| => ThemeLine(Themes.Keys[i]));
    "\nAvailable Themes:\n" + Join(lines, "\n") + "\n\nUsage: theme <name>\nExample: theme cyberpunk\n"
  }

  // ---- Achievements unlocked by a command ----

  /** The line `unlockAchievementWithNotification` prints for a newly
      unlocked achievement. */
  function Notice(a: Achievement): Entry {
    Entry("", Lit("🏆 Achievement Unlocked: " + a.icon + " " + a.title + " - " + a.description))
  }

  /** The notice for one `unlockAchievement` call, if it returned an
      achievement. */
  function NoticeOf(u: Unlock): seq<Entry> {
    if u.result.Some? then [Notice(u.result.value)] else []
  }

  /** The unlocked set after a handler and the notices it printed. */
  datatype Outcome = Outcome(unlocked: set<string>, notices: seq<Entry>)

  /** The unlocks a non-blank command asks for before its own case: the
      first command ever, five distinct commands, twenty commands.
      `prior` is the command count before this one, `distinct` the number
      of distinct commands including this one. */
  function CounterTriggers(prior: nat, distinct: nat): (r: seq<string>)
    ensures "first-command" in r <==> prior == 0
    ensures "explorer" in r <==> distinct >= 5
    ensures "command-master" in r <==> prior >= 19
    ensures forall id :: id in r ==> id in {"first-command", "explorer", "command-master"}
  {
    (if prior == 0 then ["first-command"] else [])
    + (if distinct >= 5 then ["explorer"] else [])
    + (if prior >= 19 then ["command-master"] else [])
  }

  /** The unlock calls of one handler, each seeing the set as the earlier
      calls left it. Every id ends up unlocked, and every notice announces
      a catalog achievement that was locked before and was asked for. */
  function Unlocks(ids: seq<string>, unlocked: set<string>): (r: Outcome)
    ensures r.unlocked == unlocked + (set id | id in ids)
    ensures |r.notices| <= |ids|
    ensures forall n :: n in r.notices ==>
              exists a :: a in Catalog && a.id in ids && a.id !in unlocked && n == Notice(a)
    decreases |ids|
  {
    if ids == [] then Outcome(unlocked, [])
    else
      var step := UnlockAchievement(ids[0], unlocked);
      var rest := Unlocks(ids[1..], After(ids[0], unlocked));
      assert forall id :: id in ids <==> id == ids[0] || id in ids[1..];
      Outcome(rest.unlocked, NoticeOf(step) + rest.notices)
  }

  /** The unlock calls of one handler as the page makes them: every call
      reads the set the handler started with, and hands its own copy to
      the setter, so the last call that found its id locked decides the
      set. */
  function StaleUnlocks(ids: seq<string>, entry: set<string>): (r: Outcome)
    ensures entry <= r.unlocked <= entry + (set id | id in ids)
    ensures forall a, b :: a in r.unlocked - entry && b in r.unlocked - entry ==> a == b
    ensures r.unlocked == entry <==> forall id :: id in ids ==> id in entry
    ensures r.unlocked != entry ==> exists k :: LastLocked(ids, entry, k) && r.unlocked == entry + {ids[k]}
  {
    Outcome(LastSetter(ids, entry).GetOr(entry), StaleNotices(ids, entry))
  }

  /** `ids[k]` is locked in `entry` and every id after it is not. */
  predicate LastLocked(ids: seq<string>, entry: set<string>, k: int) {
    && 0 <= k < |ids|
    && ids[k] !in entry
    && forall j :: k < j < |ids| ==> ids[j] in entry
  }

  /** The argument of the last setter call among the calls for `ids`, all
      made against `entry`: the call for the last id that `entry` lacks,
      or none when it lacks none of them. */
  function LastSetter(ids: seq<string>, entry: set<string>): (r: Option<set<string>>)
    ensures r.None? <==> forall id :: id in ids ==> id in entry
    ensures r.Some? ==> exists k :: LastLocked(ids, entry, k) && r.value == entry + {ids[k]}
    decreases |ids|
  {
    if ids == [] then None
    else
      var n := |ids| - 1;
      var last := ids[n];
      match UnlockAchievement(last, entry).setterArg
      case Some(v) =>
        assert LastLocked(ids, entry, n);
        Some(v)
      case None =>
        var front := ids[..n];
        var r := LastSetter(front, entry);
        assert forall id :: id in ids <==> id in front || id == last;
        if r.Some? then
          var k :| LastLocked(front, entry, k) && r.value == entry + {front[k]};
          assert LastLocked(ids, entry, k);
          r
        else r
  }

  /** The notices of the calls for `ids`, all made against `entry`. */
  function StaleNotices(ids: seq<string>, entry: set<string>): seq<Entry>
    decreases |ids|
  {
    if ids == [] then [] else NoticeOf(UnlockAchievement(ids[0], entry)) + StaleNotices(ids[1..], entry)
  }

  /** With one unlock call per handler the page's rule is right. */
  lemma StaleAgreesOnOne(id: string, unlocked: set<string>)
    ensures StaleUnlocks([id], unlocked) == Unlocks([id], unlocked)
  {
    var step := UnlockAchievement(id, unlocked);
    assert [id][1..] == [] && [id][..0] == [];
    assert LastSetter([id], unlocked) == step.setterArg;
    assert StaleNotices([id], unlocked) == NoticeOf(step);
    assert Unlocks([id], unlocked) == Outcome(After(id, unlocked), NoticeOf(step));
  }

  /** Over distinct ids the page prints the same notices as the threaded
      rule: only the set it stores differs. */
  lemma {:induction false} StaleNoticesAgree(ids: seq<string>, entry: set<string>, current: set<string>)
    requires forall i, j :: 0 <= i < j < |ids| ==> ids[i] != ids[j]
    requires forall id :: id in ids ==> (id in entry <==> id in current)
    ensures StaleNotices(ids, entry) == Unlocks(ids, current).notices
    decreases |ids|
  {
    if ids != [] {
      var next := After(ids[0], current);
      AgreementLasts(ids, entry, current);
      StaleNoticesAgree(ids[1..], entry, next);
      assert NoticeOf(UnlockAchievement(ids[0], entry)) == NoticeOf(UnlockAchievement(ids[0], current));
      assert Unlocks(ids, current).notices == NoticeOf(UnlockAchievement(ids[0], current)) + Unlocks(ids[1..], next).notices;
    }
  }

  /** After the first of several distinct ids is unlocked, the rest are
      still distinct and still locked or unlocked alike in both sets. */
  lemma AgreementLasts(ids: seq<string>, entry: set<string>, current: set<string>)
    requires ids != []
    requires forall i, j :: 0 <= i < j < |ids| ==> ids[i] != ids[j]
    requires forall id :: id in ids ==> (id in entry <==> id in current)
    ensures forall i, j :: 0 <= i < j < |ids[1..]| ==> ids[1..][i] != ids[1..][j]
    ensures forall id :: id in ids[1..] ==> (id in entry <==> id in After(ids[0], current))
  {
    UnlockIdempotent(ids[0], current);
    forall id | id in ids[1..] ensures id in entry <==> id in After(ids[0], current) {
      var k :| 0 <= k < |ids[1..]| && ids[1..][k] == id;
      assert ids[k + 1] == id && id != ids[0];
    }
  }

  /** Two unlock calls in one handler for two locked ids: the page stores
      only the second, although both are announced (`StaleNoticesAgree`);
      the threaded rule stores both. The very first command `coffee` is
      such a handler: it asks for `first-command`, then for
      `easter-egg-hunter`. */
  lemma LaterUnlockOverwrites(a: string, b: string, entry: set<string>)
    requires a != b && a !in entry && b !in entry
    ensures StaleUnlocks([a, b], entry).unlocked == entry + {b}
    ensures a !in StaleUnlocks([a, b], entry).unlocked
    ensures Unlocks([a, b], entry).unlocked == entry + {a, b}
  {
    SecondSetterWins(a, b, entry);
    ThreadedKeepsBoth(a, b, entry);
  }

  /** The second of two setter calls against the same set is the last. */
  lemma SecondSetterWins(a: string, b: string, entry: set<string>)
    requires a != b && a !in entry && b !in entry
    ensures LastSetter([a, b], entry) == Some(entry + {b})
  {
    assert [a, b][..1] == [a];
  }

  /** Threading the set through both calls keeps both ids. */
  lemma ThreadedKeepsBoth(a: string, b: string, entry: set<string>)
    ensures Unlocks([a, b], entry).unlocked == entry + {a, b}
  {
    var ids := [a, b];
    UnlockIdempotent(a, entry);
    UnlockIdempotent(b, entry + {a});
    assert ids[1..] == [b] && ids[1..][1..] == [];
  }

  /** No command after the first asks for `first-command` again, so an
      overwritten `first-command` stays locked for the whole visit. */
  lemma FirstCommandOnlyOnce(prior: nat, distinct: nat)
    requires prior >= 1
    ensures "first-command" !in CounterTriggers(prior, distinct)
  {
  }

  // ---- The switch of executeCommand ----

  /** The labels the page's own cases answer (besides `clear`). */
  const PageLabels: set<string> := {"", "help", "about", "history", "themes", "achievements", "stats",
    "snake", "matrix", "social", "coffee", "secret", "resume", "cv", "hack", "hacking", "exploit",
    "hack-simulator", "sound on", "sound off"}

  /** No label belongs to two groups of cases, and `clear` to neither, so
      the order in which `Dispatch` consults them does not matter. */
  lemma LabelsDisjoint()
    ensures TableLabels * PageLabels == {}
    ensures "clear" !in TableLabels && "clear" !in PageLabels
  {
  }

  /** The page's own cases. `None` for the lines they do not answer. */
  function PageEffect(t: string, s: Snapshot): (r: Option<Effect>)
    ensures r.Some? <==> t in PageLabels
    ensures r.Some? ==> !r.value.clear && r.value.theme.None?
    ensures r.Some? ==> Sound(r.value)
  {
    if t in PageLabels then Some(OwnCase(t, s)) else None
  }

  /** The `achievements` report: how many are unlocked out of the
      catalog, the whole-number percentage, and the catalog. */
  function AchievementsOutput(s: Snapshot): Output {
    assert |Catalog| == 10 by {
      CatalogShape();
    }
    AchievementsReport(|s.unlocked|, |Catalog|, |s.unlocked| * 100 / |Catalog|, s.unlocked)
  }

  /** The `stats` report. */
  function StatsOutput(s: Snapshot): Output {
    StatsReport(s.commandCount, s.uniqueCount, |s.unlocked|, |Catalog|, s.theme.name,
                s.matrix, s.audio, s.visits.totalVisits, s.visits.uniqueVisitors)
  }

  /** The effect of the page's own case for the label `t`; the cases are
      tried in the order they are written, `sound off` last. */
  function OwnCase(t: string, s: Snapshot): (r: Effect)
    requires t in PageLabels
    ensures !r.clear && r.theme.None?
    ensures Sound(r)
    ensures r.toggleMatrix ==> t == "matrix"
    ensures r.snake ==> t == "snake"
    ensures r.audio.Some? ==> (t == "sound on" || t == "sound off") && r.audio.value == (t == "sound on")
  {
    if t == "" then Plain(Lit(""))
    else if t == "help" then Plain(Block(EnhancedPage, "help"))
    else if t == "about" then Plain(Block(EnhancedPage, "about"))
    else if t == "history" then Plain(Lit(HistoryListing(s.history)))
    else if t == "themes" then Plain(Lit(ThemesListing()))
    else if t == "achievements" then Plain(AchievementsOutput(s))
    else if t == "stats" then Plain(StatsOutput(s))
    else if t == "snake" then Effect(Lit(""), ["gamer"], false, None, false, None, true)
    else if t == "matrix" then MatrixEffect(s.matrix)
    else if t == "social" then Plain(Block(EnhancedPage, "social")).(triggers := ["social-butterfly"])
    else if t == "coffee" then Plain(Block(EnhancedPage, "coffee")).(triggers := ["easter-egg-hunter"])
    else if t == "secret" then Plain(Block(EnhancedPage, "secret")).(triggers := ["easter-egg-hunter"])
    else if t == "resume" || t == "cv" then Plain(Block(EnhancedPage, "resume"))
    else if t == "hack" || t == "hacking" || t == "exploit" then
      Plain(Block(EnhancedPage, "hack")).(triggers := ["hacker-mode"])
    else if t == "hack-simulator" then Plain(Block(EnhancedPage, "hack-simulator")).(triggers := ["gamer"])
    else if t == "sound on" then SoundEffect(true)
    else SoundEffect(false)
  }

  /** The `default` case: `theme <name>` switches to a listed theme and asks
      for `theme-explorer`, or names the unknown theme; any other line is
      not found. */
  function DefaultEffect(t: string): (r: Effect)
    ensures !r.clear && !r.toggleMatrix && !r.snake && r.audio.None?
    ensures Sound(r)
    ensures !StartsWith(t, "theme ") ==> r == Plain(Lit(NotFound(t)))
    ensures StartsWith(t, "theme ") && ThemeArg(t) in Themes.Table ==>
              && r.theme == Some(Themes.Table[ThemeArg(t)])
              && r.triggers == ["theme-explorer"]
              && r.output == Lit("Theme changed to: " + Themes.Table[ThemeArg(t)].name + " ✨")
    ensures StartsWith(t, "theme ") && ThemeArg(t) !in Themes.Table ==>
              r == Plain(Lit("Theme '" + ThemeArg(t) + "' not found. Type 'themes' to see available themes."))
  {
    if StartsWith(t, "theme ") then
      var themeName := ThemeArg(t);
      if themeName in Themes.Table then
        Effect(Lit("Theme changed to: " + Themes.Table[themeName].name + " ✨"), ["theme-explorer"], false,
               Some(Themes.GetTheme(themeName)), false, None, false)
      else
        Plain(Lit("Theme '" + themeName + "' not found. Type 'themes' to see available themes."))
    else
      Plain(Lit(NotFound(t)))
  }

  /** The ids any handler of the page asks to unlock. */
  const TriggerIds: set<string> := {"first-command", "explorer", "command-master", "easter-egg-hunter",
    "theme-explorer", "gamer", "social-butterfly", "konami-master", "hacker-mode"}

  /** Every id the page asks for is in the catalog. */
  lemma TriggerIdsListed()
    ensures TriggerIds <= CatalogIds()
  {
    var c := Catalog;
    assert c[0] in c && c[1] in c && c[2] in c && c[3] in c && c[4] in c;
    assert c[5] in c && c[6] in c && c[7] in c && c[8] in c;
  }

  /** The `switch` of `executeCommand` on the normalised line `t`, reading
      the state `s` the command started with; `now` and `roll` stand for
      the clock and the random fortune pick. The labels are distinct, so
      trying the `getCommandOutput` labels, then the page's own, then the
      default answers as the switch does. */
  function Dispatch(t: string, s: Snapshot, now: string, roll: nat): (e: Effect)
    requires roll < |CommandOutputs.Fortunes|
    ensures e.clear <==> t == "clear"
    ensures TableKey(t).Some? ==> e == Plain(CommandOutputs.GetCommandOutput(TableKey(t).value, now, roll))
    ensures t != "clear" && TableKey(t).None? ==>
              e == if t in PageLabels then PageEffect(t, s).value else DefaultEffect(t)
    ensures Sound(e)
  {
    if t == "clear" then Effect(Lit(""), [], true, None, false, None, false)
    else match TableKey(t)
      case Some(key) => Plain(CommandOutputs.GetCommandOutput(key, now, roll))
      case None =>
        match PageEffect(t, s)
        case Some(e) => e
        case None => DefaultEffect(t)
  }

  // ---- The component ----

  /** The normalised forms of the recorded commands. */
  function Normalised(commands: seq<string>): set<string> {
    if commands == [] then {}
    else Normalised(commands[..|commands| - 1]) + {Normalise(commands[|commands| - 1])}
  }

  /** No command is blank in normal form. */
  predicate NoneBlank(commands: seq<string>) {
    commands == [] || (NoneBlank(commands[..|commands| - 1]) && Normalise(commands[|commands| - 1]) != "")
  }

  lemma NormalisedAppend(commands: seq<string>, cmd: string)
    ensures Normalised(commands + [cmd]) == Normalised(commands) + {Normalise(cmd)}
    ensures NoneBlank(commands + [cmd]) <==> NoneBlank(commands) && Normalise(cmd) != ""
  {
    assert (commands + [cmd])[..|commands|] == commands;
  }

  /** Unlocking ids the page asks for keeps the unlocked set among them,
      and never locks anything. */
  lemma UnlocksWithin(ids: seq<string>, unlocked: set<string>)
    requires unlocked <= TriggerIds
    requires forall id :: id in ids ==> id in TriggerIds
    ensures unlocked <= Unlocks(ids, unlocked).unlocked <= TriggerIds
  {
  }

  /** The unlocks of one non-blank command keep the unlocked set among
      the ids the page asks for and leave every count achievement the new counts earn
      unlocked. `prior` is the count before the command and `distinct`
      the number of distinct commands after it. */
  lemma {:induction false} CommandUnlocks(prior: nat, distinct: nat, triggers: seq<string>, unlocked: set<string>)
    requires unlocked <= TriggerIds
    requires forall id :: id in triggers ==> id in TriggerIds
    ensures var o := Unlocks(CounterTriggers(prior, distinct) + triggers, unlocked);
            && unlocked <= o.unlocked <= TriggerIds
            && (prior == 0 ==> "first-command" in o.unlocked)
            && (prior + 1 >= 20 ==> "command-master" in o.unlocked)
            && (distinct >= 5 ==> "explorer" in o.unlocked)
  {
    var counted := CounterTriggers(prior, distinct);
    var ids := counted + triggers;
    var o := Unlocks(ids, unlocked);
    assert o.unlocked == unlocked + (set id | id in ids);
    forall id | id in ids ensures id in TriggerIds {
      if id in counted {
        assert id in TriggerIds;
      }
    }
    if prior == 0 {
      assert "first-command" in ids;
    }
    if prior + 1 >= 20 {
      assert "command-master" in ids;
    }
    if distinct >= 5 {
      assert "explorer" in ids;
    }
  }

  /** The counters agree with the recorded commands, which are never
      blank; only ids the page asks for are unlocked, and the three
      command-count achievements are unlocked as soon as they are earned.
      Every id the page asks for is in the catalog (`TriggerIdsListed`). */
  ghost predicate Tallied(history: seq<string>, count: nat, unique: set<string>, unlocked: set<string>) {
    && count == |history|
    && NoneBlank(history)
    && unique == Normalised(history)
    && unlocked <= TriggerIds
    && (count >= 1 ==> "first-command" in unlocked)
    && (count >= 20 ==> "command-master" in unlocked)
    && (|unique| >= 5 ==> "explorer" in unlocked)
  }

  /** The bookkeeping of one line keeps the tally consistent. */
  lemma CountKeepsTallied(history: seq<string>, count: nat, unique: set<string>, unlocked: set<string>,
                          cmd: string, triggers: seq<string>)
    requires Tallied(history, count, unique, unlocked)
    requires forall id :: id in triggers ==> id in TriggerIds
    ensures var t := Normalise(cmd);
            if t == "" then Tallied(history, count, unique, Unlocks([] + triggers, unlocked).unlocked)
            else Tallied(history + [cmd], count + 1, unique + {t},
                         Unlocks(CounterTriggers(count, |unique + {t}|) + triggers, unlocked).unlocked)
  {
    var t := Normalise(cmd);
    if t == "" {
      assert [] + triggers == triggers;
      UnlocksWithin(triggers, unlocked);
    } else {
      NormalisedAppend(history, cmd);
      CommandUnlocks(count, |unique + {t}|, triggers, unlocked);
    }
  }

  /** The fields of the component that a command reads and writes. */
  datatype PageState = PageState(
    transcript: seq<Entry>,
    input: string,
    history: seq<string>,
    index: int,
    theme: Themes.Theme,
    matrix: bool,
    audio: bool,
    unlocked: set<string>,
    count: nat,
    unique: set<string>,
    snake: bool)

  /** The history cursor is in range, the counters are consistent and the
      theme is a listed one. */
  ghost predicate Consistent(p: PageState) {
    && InRange(p.history, Cursor(p.index, p.input))
    && Tallied(p.history, p.count, p.unique, p.unlocked)
    && p.theme in Themes.Table.Values
  }

  /** The effect `e` asks only for ids the page knows and sets only a
      listed theme. */
  predicate Sound(e: Effect) {
    && (e.theme.Some? ==> e.theme.value in Themes.Table.Values)
    && (forall id :: id in e.triggers ==> id in TriggerIds)
  }

  /** Unlocking an id the page asks for outside `executeCommand` (the
      Konami code, a Snake score) keeps the tally consistent. */
  lemma UnlockKeepsTallied(history: seq<string>, count: nat, unique: set<string>, unlocked: set<string>, id: string)
    requires Tallied(history, count, unique, unlocked) && id in TriggerIds
    ensures Tallied(history, count, unique, After(id, unlocked))
    ensures Tallied(history, count, unique, Unlocks([id], unlocked).unlocked)
  {
    UnlockIdempotent(id, unlocked);
    UnlocksWithin([id], unlocked);
  }

  /** The welcome banner: the visit counts, the theme's name and whether
      sound is on. */
  function Banner(stats: VisitorTracker.Stats, themeName: string, audio: bool): Entry {
    Entry("", WelcomeBanner(stats.totalVisits, stats.uniqueVisitors, themeName, audio))
  }

  /** What a line does once its case has chosen the effect `e`, `stats`
      being the visit counts the banner shows. A line that is not blank in
      normal form is recorded, counted and added to the distinct commands,
      and the counter achievements it earns are asked for before the
      case's own; every unlock call sees the set the previous one left.
      `clear` then empties the transcript and the input and keeps the
      history index; any other line sets the theme, Matrix, sound and
      Snake flags its case chose, appends the notices and its entry,
      empties the input and resets the history index. When the theme's
      name or the sound setting changed, the page's welcome effect runs
      again and the transcript becomes the banner. */
  function Step(p: PageState, stats: VisitorTracker.Stats, cmd: string, e: Effect): PageState {
    var o := Unlocks(Asked(p, cmd, e), p.unlocked);
    var q := Recorded(p, cmd, o.unlocked);
    if e.clear then q.(transcript := [])
    else
      var theme := e.theme.GetOr(p.theme);
      var audio := e.audio.GetOr(p.audio);
      q.(index := -1, theme := theme, audio := audio, matrix := p.matrix != e.toggleMatrix, snake := p.snake || e.snake,
         transcript := if theme.name != p.theme.name || audio != p.audio then [Banner(stats, theme.name, audio)]
                       else p.transcript + o.notices + [Entry(cmd, e.output)])
  }

  /** The ids a line asks to unlock: the count achievements of a
      non-blank line, then those of its case. */
  function Asked(p: PageState, cmd: string, e: Effect): seq<string> {
    var t := Normalise(cmd);
    (if t != "" then CounterTriggers(p.count, |p.unique + {t}|) else []) + e.triggers
  }

  /** The bookkeeping of a line: a non-blank one is recorded and counted,
      the unlocked set becomes `unlocked` and the input is emptied. */
  function Recorded(p: PageState, cmd: string, unlocked: set<string>): PageState {
    var t := Normalise(cmd);
    var counted := if t != "" then p.(history := p.history + [cmd], count := p.count + 1, unique := p.unique + {t}) else p;
    counted.(unlocked := unlocked, input := "")
  }

  /** A line keeps the page consistent. */
  lemma StepKeeps(p: PageState, stats: VisitorTracker.Stats, cmd: string, e: Effect)
    requires Consistent(p) && Sound(e)
    ensures Consistent(Step(p, stats, cmd, e))
  {
    var r := Recorded(p, cmd, Unlocks(Asked(p, cmd, e), p.unlocked).unlocked);
    assert Tallied(r.history, r.count, r.unique, r.unlocked) by {
      CountKeepsTallied(p.history, p.count, p.unique, p.unlocked, cmd, e.triggers);
    }
  }

  /** A line never locks anything; every id its case asks for ends up
      unlocked, and nothing else is unlocked but the three count
      achievements. */
  lemma StepUnlocks(p: PageState, stats: VisitorTracker.Stats, cmd: string, e: Effect)
    ensures var q := Step(p, stats, cmd, e);
            && p.unlocked <= q.unlocked
            && (forall id :: id in e.triggers ==> id in q.unlocked)
            && q.unlocked <= p.unlocked + (set id | id in e.triggers) + {"first-command", "explorer", "command-master"}
  {
    var t := Normalise(cmd);
    var ids := (if t != "" then CounterTriggers(p.count, |p.unique + {t}|) else []) + e.triggers;
    assert forall id :: id in ids <==> id in e.triggers || (t != "" && id in CounterTriggers(p.count, |p.unique + {t}|));
  }

  /** Every line empties the input. A line that is not blank in normal
      form is recorded as typed; a blank one leaves the history as it is.
      `clear` keeps the history index, and every other line resets it. */
  lemma StepRecords(p: PageState, stats: VisitorTracker.Stats, cmd: string, e: Effect)
    ensures var q := Step(p, stats, cmd, e);
            && q.input == ""
            && q.history == (if Normalise(cmd) != "" then p.history + [cmd] else p.history)
            && q.index == (if e.clear then p.index else -1)
  {
  }

  /** `clear` empties the transcript and leaves the theme, the Matrix
      effect, the sound and the Snake game as they were, whatever it
      unlocked: the notices are lost with the rest of the transcript. */
  lemma StepClear(p: PageState, stats: VisitorTracker.Stats, cmd: string, e: Effect)
    requires e.clear
    ensures var q := Step(p, stats, cmd, e);
            && q.transcript == []
            && q.theme == p.theme && q.matrix == p.matrix && q.audio == p.audio && q.snake == p.snake
  {
  }

  /** Each of `notices` announces a catalog achievement that was locked
      in `before` and is unlocked in `after`. */
  ghost predicate Announces(notices: seq<Entry>, before: set<string>, after: set<string>) {
    forall n :: n in notices ==> exists a :: a in Catalog && a.id in after - before && n == Notice(a)
  }

  /** The unlock calls of a handler announce only what they newly
      unlocked. */
  lemma UnlocksAnnounceNew(ids: seq<string>, unlocked: set<string>)
    ensures var o := Unlocks(ids, unlocked);
            Announces(o.notices, unlocked, o.unlocked)
  {
    var o := Unlocks(ids, unlocked);
    forall n | n in o.notices
      ensures exists a :: a in Catalog && a.id in o.unlocked - unlocked && n == Notice(a)
    {
      var a :| a in Catalog && a.id in ids && a.id !in unlocked && n == Notice(a);
      assert a.id in o.unlocked;
    }
  }

  /** Conversely, every catalog achievement the calls newly unlock is
      announced. */
  lemma {:induction false} UnlocksAnnounceAll(ids: seq<string>, unlocked: set<string>, id: string)
    requires id in ids && id !in unlocked && id in CatalogIds()
    ensures Notice(Find(id).value) in Unlocks(ids, unlocked).notices
    decreases |ids|
  {
    var rest := Unlocks(ids[1..], After(ids[0], unlocked));
    assert Unlocks(ids, unlocked).notices == NoticeOf(UnlockAchievement(ids[0], unlocked)) + rest.notices;
    if ids[0] != id {
      assert id in ids[1..];
      UnlocksAnnounceAll(ids[1..], After(ids[0], unlocked), id);
    }
  }

  /** A line that leaves the theme's name and the sound setting alone
      keeps the transcript and appends the notices of what it newly
      unlocked, then its own entry. */
  lemma StepPrints(p: PageState, stats: VisitorTracker.Stats, cmd: string, e: Effect)
    requires !e.clear
    requires e.theme.GetOr(p.theme).name == p.theme.name && e.audio.GetOr(p.audio) == p.audio
    ensures var q := Step(p, stats, cmd, e);
            && |p.transcript| < |q.transcript|
            && var notices := q.transcript[|p.transcript|..|q.transcript| - 1];
               && q.transcript == p.transcript + notices + [Entry(cmd, e.output)]
               && Announces(notices, p.unlocked, q.unlocked)
  {
    var t := Normalise(cmd);
    var ids := (if t != "" then CounterTriggers(p.count, |p.unique + {t}|) else []) + e.triggers;
    var o := Unlocks(ids, p.unlocked);
    var q := Step(p, stats, cmd, e);
    assert q.transcript == p.transcript + o.notices + [Entry(cmd, e.output)];
    assert q.transcript[|p.transcript|..|q.transcript| - 1] == o.notices;
    UnlocksAnnounceNew(ids, p.unlocked);
  }

  /** When a line changes the theme's name or the sound setting (and is
      not `clear`), the welcome effect runs again: the transcript becomes
      the banner alone, showing the new theme and sound setting. */
  lemma StepRebanner(p: PageState, stats: VisitorTracker.Stats, cmd: string, e: Effect)
    requires !e.clear
    requires e.theme.GetOr(p.theme).name != p.theme.name || e.audio.GetOr(p.audio) != p.audio
    ensures var q := Step(p, stats, cmd, e);
            q.transcript == [Banner(stats, q.theme.name, q.audio)]
  {
  }

  /** The state a command reads when it starts. */
  function SnapshotOf(p: PageState, stats: VisitorTracker.Stats): Snapshot {
    Snapshot(p.history, p.count, |p.unique|, p.unlocked, p.theme, p.matrix, p.audio, stats)
  }

  /** `executeCommand(cmd)`: the case the normalised line selects, read
      from the state the command started in, then its `Step`. */
  function Execute(p: PageState, stats: VisitorTracker.Stats, cmd: string, now: string, roll: nat): PageState
    requires roll < |CommandOutputs.Fortunes|
  {
    Step(p, stats, cmd, Dispatch(Normalise(cmd), SnapshotOf(p, stats), now, roll))
  }

  /** Every command keeps the page consistent. */
  lemma ExecuteKeeps(p: PageState, stats: VisitorTracker.Stats, cmd: string, now: string, roll: nat)
    requires roll < |CommandOutputs.Fortunes|
    requires Consistent(p)
    ensures Consistent(Execute(p, stats, cmd, now, roll))
  {
    StepKeeps(p, stats, cmd, Dispatch(Normalise(cmd), SnapshotOf(p, stats), now, roll));
  }

  /** A `theme <name>` line is none of the labels the other cases
      answer. */
  lemma ThemeLineUnlabelled(t: string)
    requires StartsWith(t, "theme ")
    ensures t !in PageLabels && t != "clear"
    ensures TableKey(t).None?
  {
    assert t[0] == 't' && t[5] == ' ';
  }

  /** `theme <name>` for a listed name free of spaces selects that theme
      and asks for `theme-explorer`. */
  lemma DispatchTheme(name: string, s: Snapshot, now: string, roll: nat)
    requires roll < |CommandOutputs.Fortunes|
    requires ' ' !in name && name in Themes.Table
    ensures var e := Dispatch("theme " + name, s, now, roll);
            !e.clear && e.theme == Some(Themes.Table[name]) && e.triggers == ["theme-explorer"]
  {
    ThemeArgOf(name);
    ThemeLineUnlabelled("theme " + name);
  }

  /** `theme <name>` switches to a listed theme and leaves
      `theme-explorer` unlocked. */
  lemma ExecuteTheme(p: PageState, stats: VisitorTracker.Stats, cmd: string, now: string, roll: nat, name: string)
    requires roll < |CommandOutputs.Fortunes|
    requires ' ' !in name && name in Themes.Table
    requires Normalise(cmd) == "theme " + name
    ensures var q := Execute(p, stats, cmd, now, roll);
            q.theme == Themes.Table[name] && "theme-explorer" in q.unlocked
  {
    var e := Dispatch(Normalise(cmd), SnapshotOf(p, stats), now, roll);
    DispatchTheme(name, SnapshotOf(p, stats), now, roll);
    StepUnlocks(p, stats, cmd, e);
    assert "theme-explorer" in e.triggers;
  }

  /** `clear` records the line, empties the transcript and keeps the
      history index. */
  lemma ExecuteClear(p: PageState, stats: VisitorTracker.Stats, cmd: string, now: string, roll: nat)
    requires roll < |CommandOutputs.Fortunes|
    requires Normalise(cmd) == "clear"
    ensures var q := Execute(p, stats, cmd, now, roll);
            q.transcript == [] && q.index == p.index && q.history == p.history + [cmd]
  {
    var e := Dispatch(Normalise(cmd), SnapshotOf(p, stats), now, roll);
    StepClear(p, stats, cmd, e);
    StepRecords(p, stats, cmd, e);
  }

  /** A line no case answers is recorded and answered with "Command not
      found", after the notices of what it newly unlocked. */
  lemma ExecuteUnknown(p: PageState, stats: VisitorTracker.Stats, cmd: string, now: string, roll: nat)
    requires roll < |CommandOutputs.Fortunes|
    requires var t := Normalise(cmd);
             t != "clear" && TableKey(t).None? && t !in PageLabels && !StartsWith(t, "theme ")
    ensures var q := Execute(p, stats, cmd, now, roll);
            && q.history == p.history + [cmd]
            && |p.transcript| < |q.transcript|
            && var notices := q.transcript[|p.transcript|..|q.transcript| - 1];
               && q.transcript == p.transcript + notices + [Entry(cmd, Lit(NotFound(Normalise(cmd))))]
               && Announces(notices, p.unlocked, q.unlocked)
  {
    var e := Dispatch(Normalise(cmd), SnapshotOf(p, stats), now, roll);
    assert e == Plain(Lit(NotFound(Normalise(cmd))));
    StepPrints(p, stats, cmd, e);
    StepRecords(p, stats, cmd, e);
  }

  /** `matrix` toggles the Matrix effect and says which way. */
  lemma ExecuteMatrix(p: PageState, stats: VisitorTracker.Stats, cmd: string, now: string, roll: nat)
    requires roll < |CommandOutputs.Fortunes|
    requires Normalise(cmd) == "matrix"
    ensures var q := Execute(p, stats, cmd, now, roll);
            && q.matrix == !p.matrix
            && q.transcript[|q.transcript| - 1] ==
               Entry(cmd, Lit("Matrix rain effect " + (if q.matrix then "ENABLED" else "DISABLED") + " \U{1F327}\U{FE0F}"))
  {
    var e := Dispatch(Normalise(cmd), SnapshotOf(p, stats), now, roll);
    assert e == MatrixEffect(p.matrix) by {
      DispatchMatrix(SnapshotOf(p, stats), now, roll);
    }
    StepPrints(p, stats, cmd, e);
  }

  /** The effect of `matrix` when the effect is `on`. */
  function MatrixEffect(on: bool): Effect {
    Effect(Lit("Matrix rain effect " + (if !on then "ENABLED" else "DISABLED") + " \U{1F327}\U{FE0F}"),
           [], false, None, true, None, false)
  }

  lemma DispatchMatrix(s: Snapshot, now: string, roll: nat)
    requires roll < |CommandOutputs.Fortunes|
    ensures Dispatch("matrix", s, now, roll) == MatrixEffect(s.matrix)
  {
    assert TableKey("matrix").None?;
    assert PageEffect("matrix", s) == Some(MatrixEffect(s.matrix)) by {
      PageEffectMatrix(s);
    }
  }

  lemma PageEffectMatrix(s: Snapshot)
    ensures PageEffect("matrix", s) == Some(MatrixEffect(s.matrix))
  {
  }

  /** Turning the sound on or off when it was the other way changes the
      setting, and the welcome effect replaces the whole transcript,
      the line's own answer included, with the banner. */
  lemma ExecuteSoundSwitch(p: PageState, stats: VisitorTracker.Stats, cmd: string, now: string, roll: nat)
    requires roll < |CommandOutputs.Fortunes|
    requires (Normalise(cmd) == "sound on" && !p.audio) || (Normalise(cmd) == "sound off" && p.audio)
    ensures var q := Execute(p, stats, cmd, now, roll);
            q.audio == !p.audio && q.transcript == [Banner(stats, p.theme.name, q.audio)]
  {
    var t := Normalise(cmd);
    var e := Dispatch(t, SnapshotOf(p, stats), now, roll);
    assert e == SoundEffect(t == "sound on") by {
      DispatchSound(t, SnapshotOf(p, stats), now, roll);
    }
    StepRebanner(p, stats, cmd, e);
  }

  /** The effect of `sound on` (`on`) or `sound off`. */
  function SoundEffect(on: bool): Effect {
    Plain(Lit(if on then "🔊 Sound effects ENABLED" else "🔇 Sound effects DISABLED")).(audio := Some(on))
  }

  lemma DispatchSound(t: string, s: Snapshot, now: string, roll: nat)
    requires roll < |CommandOutputs.Fortunes|
    requires t == "sound on" || t == "sound off"
    ensures Dispatch(t, s, now, roll) == SoundEffect(t == "sound on")
  {
    assert TableKey(t).None?;
    assert PageEffect(t, s) == Some(SoundEffect(t == "sound on")) by {
      PageEffectSound(t, s);
    }
  }

  lemma PageEffectSound(t: string, s: Snapshot)
    requires t == "sound on" || t == "sound off"
    ensures PageEffect(t, s) == Some(SoundEffect(t == "sound on"))
  {
  }

  /** The notice the Konami listener prints. */
  function KonamiNotice(a: Achievement): Entry {
    Entry("", Lit("\U{1F396}\U{FE0F} KONAMI CODE ACTIVATED! Achievement Unlocked: " + a.title))
  }

  /** What the Konami listener does with one key. */
  datatype Press = Press(buffer: seq<string>, unlocked: set<string>, notices: seq<Entry>)

  /** The buffer takes the key and keeps the last ten; when they spell the
      code, `konami-master` is unlocked, announced if it was locked, and
      the buffer empties. */
  function KonamiPress(buffer: seq<string>, unlocked: set<string>, key: string): (r: Press)
    ensures r.buffer == Konami.Next(buffer, key, Konami.KonamiCode)
  {
    var keys := Konami.LastTen(buffer + [key]);
    if keys == Konami.KonamiCode then
      var u := UnlockAchievement("konami-master", unlocked);
      Press([], After("konami-master", unlocked), if u.result.Some? then [KonamiNotice(u.result.value)] else [])
    else
      Press(keys, unlocked, [])
  }

  /** Completing the code unlocks `konami-master` and announces it exactly
      when it was locked; any other key unlocks and prints nothing. */
  lemma KonamiPressUnlocks(buffer: seq<string>, unlocked: set<string>, key: string)
    ensures var r := KonamiPress(buffer, unlocked, key);
            if Konami.Hit(buffer, key, Konami.KonamiCode) then
              && r.unlocked == unlocked + {"konami-master"}
              && (r.notices != [] <==> "konami-master" !in unlocked)
              && |r.notices| <= 1
            else r.unlocked == unlocked && r.notices == []
  {
    UnlockIdempotent("konami-master", unlocked);
  }

  /** The Konami listener keeps the page consistent and the buffer at
      most ten keys long. */
  lemma KonamiKeeps(p: PageState, buffer: seq<string>, key: string)
    requires Consistent(p)
    ensures var r := KonamiPress(buffer, p.unlocked, key);
            Consistent(p.(unlocked := r.unlocked, transcript := p.transcript + r.notices)) && |r.buffer| <= 10
  {
    UnlockKeepsTallied(p.history, p.count, p.unique, p.unlocked, "konami-master");
  }

  class Terminal {
    var transcript: seq<Entry>
    var currentCommand: string
    var commandHistory: seq<string>
    var historyIndex: int
    var theme: Themes.Theme
    var matrixEnabled: bool
    var audioEnabled: bool
    var unlocked: set<string>
    var commandCount: nat
    var uniqueCommands: set<string>
    var showSnake: bool
    var konami: seq<string>
    var showBoot: bool
    var visitorStats: VisitorTracker.Stats

    /** The page's fields as one value. */
    function State(): PageState
      reads this
    {
      PageState(transcript, currentCommand, commandHistory, historyIndex, theme, matrixEnabled,
                audioEnabled, unlocked, commandCount, uniqueCommands, showSnake)
    }

    /** The page is consistent and the Konami buffer holds at most ten
        keys. */
    ghost predicate Valid()
      reads this
    {
      Consistent(State()) && |konami| <= 10
    }

    /** The page as mounted: the boot sequence showing, nothing printed,
        the Death Note theme, effects and sound off, nothing unlocked.
        `stats` is what `trackVisitor` returned on mount. */
    constructor (stats: VisitorTracker.Stats)
      ensures Valid()
      ensures showBoot && transcript == [] && currentCommand == ""
      ensures commandHistory == [] && historyIndex == -1 && commandCount == 0 && uniqueCommands == {}
      ensures theme == Themes.DeathNote && !matrixEnabled && !audioEnabled && !showSnake
      ensures unlocked == {} && konami == [] && visitorStats == stats
    {
      transcript := [];
      currentCommand := "";
      commandHistory := [];
      historyIndex := -1;
      theme := Themes.GetTheme("deathnote");
      matrixEnabled := false;
      audioEnabled := false;
      unlocked := {};
      commandCount := 0;
      uniqueCommands := {};
      showSnake := false;
      konami := [];
      showBoot := true;
      visitorStats := stats;
      Themes.TableShape();
    }

    /** The boot sequence ends: the transcript becomes the welcome banner. */
    method FinishBoot()
      requires Valid()
      modifies this
      ensures Valid()
      ensures !showBoot
      ensures transcript == if old(showBoot) then [Banner(visitorStats, theme.name, audioEnabled)] else old(transcript)
      ensures unchanged(this`commandHistory, this`historyIndex, this`currentCommand, this`theme, this`unlocked)
      ensures unchanged(this`audioEnabled, this`matrixEnabled, this`konami, this`commandCount, this`uniqueCommands)
      ensures unchanged(this`showSnake, this`visitorStats)
    {
      if showBoot {
        showBoot := false;
        transcript := [Banner(visitorStats, theme.name, audioEnabled)];
      }
    }

    /** The one-second timer the mount sets for a new visitor: it greets
        them with their visitor number. The boot sequence lasts longer than
        a second (nineteen lines 80 ms apart, then 500 ms), so the timer
        fires while it is still showing, and `FinishBoot` then replaces the
        greeting with the banner. */
    method GreetNewVisitor()
      requires Valid() && showBoot
      modifies this`transcript
      ensures Valid() && showBoot
      ensures transcript == old(transcript) +
        if visitorStats.isNewVisitor
        then [Entry("", Lit("🎉 Welcome, new visitor! You are visitor #" + Decimal(visitorStats.uniqueVisitors) + "!"))]
        else []
    {
      if visitorStats.isNewVisitor {
        transcript := transcript + [Entry("", Lit("🎉 Welcome, new visitor! You are visitor #" + Decimal(visitorStats.uniqueVisitors) + "!"))];
      }
    }

    /** The page's fields take the values `p` holds. */
    method SetState(p: PageState)
      modifies this
      ensures State() == p
      ensures unchanged(this`konami, this`showBoot, this`visitorStats)
    {
      transcript, currentCommand, commandHistory, historyIndex := p.transcript, p.input, p.history, p.index;
      theme, matrixEnabled, audioEnabled, unlocked := p.theme, p.matrix, p.audio, p.unlocked;
      commandCount, uniqueCommands, showSnake := p.count, p.unique, p.snake;
    }

    /** `executeCommand(cmd)`. The input line exists only once the boot
        sequence has ended. */
    method ExecuteCommand(cmd: string, now: string, roll: nat)
      requires Valid() && roll < |CommandOutputs.Fortunes|
      requires !showBoot
      modifies this
      ensures Valid()
      ensures State() == Execute(old(State()), visitorStats, cmd, now, roll)
      ensures unchanged(this`konami, this`showBoot, this`visitorStats)
    {
      ExecuteKeeps(State(), visitorStats, cmd, now, roll);
      SetState(Execute(State(), visitorStats, cmd, now, roll));
    }

    /** Enter: execute the input line. */
    method Enter(now: string, roll: nat)
      requires Valid() && roll < |CommandOutputs.Fortunes|
      requires !showBoot
      modifies this
      ensures Valid()
      ensures State() == Execute(old(State()), visitorStats, old(currentCommand), now, roll)
      ensures unchanged(this`konami, this`showBoot, this`visitorStats)
    {
      ExecuteCommand(currentCommand, now, roll);
    }

    /** ArrowUp: step back through the recorded commands. Only the
        history index and the input line change. */
    method ArrowUp()
      requires Valid()
      modifies this
      ensures Valid()
      ensures var c := Older(old(commandHistory), Cursor(old(historyIndex), old(currentCommand)));
              State() == old(State()).(index := c.index, input := c.input)
      ensures unchanged(this`konami, this`showBoot, this`visitorStats)
    {
      var c := Older(commandHistory, Cursor(historyIndex, currentCommand));
      SetState(State().(index := c.index, input := c.input));
    }

    /** ArrowDown: step forward, back to the empty line after the newest.
        Only the history index and the input line change. */
    method ArrowDown()
      requires Valid()
      modifies this
      ensures Valid()
      ensures var c := Newer(old(commandHistory), Cursor(old(historyIndex), old(currentCommand)));
              State() == old(State()).(index := c.index, input := c.input)
      ensures unchanged(this`konami, this`showBoot, this`visitorStats)
    {
      var c := Newer(commandHistory, Cursor(historyIndex, currentCommand));
      SetState(State().(index := c.index, input := c.input));
    }

    /** The input's `onChange`: the line becomes what is typed. */
    method Type(text: string)
      requires Valid()
      modifies this`currentCommand
      ensures Valid()
      ensures currentCommand == text
    {
      currentCommand := text;
    }

    /** The window's Konami listener, for one key (`KonamiPress`). */
    method KonamiKey(key: string)
      requires Valid()
      modifies this
      ensures Valid()
      ensures var r := KonamiPress(old(konami), old(unlocked), key);
              && konami == r.buffer
              && State() == old(State()).(unlocked := r.unlocked, transcript := old(transcript) + r.notices)
      ensures unchanged(this`showBoot, this`visitorStats)
    {
      var r := KonamiPress(konami, unlocked, key);
      var p := State().(unlocked := r.unlocked, transcript := transcript + r.notices);
      KonamiKeeps(State(), konami, key);
      konami := r.buffer;
      SetState(p);
    }

    /** The Snake game's `onScore`: a score of 100 or more asks for
        `gamer`, announced when it was locked. */
    method SnakeScore(score: int)
      requires Valid()
      modifies this`unlocked, this`transcript
      ensures Valid()
      ensures var o := Unlocks(if score >= 100 then ["gamer"] else [], old(unlocked));
              unlocked == o.unlocked && transcript == old(transcript) + o.notices
    {
      if score >= 100 {
        UnlockKeepsTallied(commandHistory, commandCount, uniqueCommands, unlocked, "gamer");
      }
      var o := Unlocks(if score >= 100 then ["gamer"] else [], unlocked);
      unlocked, transcript := o.unlocked, transcript + o.notices;
    }

    /** The Snake game's `onExit`: the game closes. */
    method SnakeExit()
      requires Valid()
      modifies this`showSnake
      ensures Valid()
      ensures !showSnake
    {
      showSnake := false;
    }
  }
}
