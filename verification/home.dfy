/** The classic terminal page (client/src/pages/Home.tsx). Its state is the
    transcript, the input line, the recorded commands and the history
    index; each key handler updates them in one step. The clock and the
    random fortune pick are the parameters `now` and `roll`. */
module Home {
  import opened Text
  import opened Transcript
  import opened Recall
  import opened Wrappers

  const HomeFortunes: seq<string> := [
    "You will build something amazing today.",
    "A bug is just a feature you haven't documented yet.",
    "Coffee + Code = Success",
    "The best way to predict the future is to build it.",
    "In AI we trust, but we still verify the outputs.",
    "Today's impossible is tomorrow's AI model."]

  const LsText := "about.txt  contact.txt  education.txt  experience.txt  projects.txt  publications.txt  skills.txt"
  const PwdText := "/home/hesham"
  const UnameText := "Linux hesham-ai 5.15.0-42-generic #45-Ubuntu SMP x86_64 GNU/Linux"

  /** The case labels whose output is a literal text of the page, each
      mapped to the first label of its case group (the key the text is
      written under). */
  const Canned: map<string, string> := map[
    "help" := "help", "about" := "about", "whoami" := "whoami", "skills" := "skills",
    "experience" := "experience", "education" := "education", "publications" := "publications",
    "contact" := "contact", "projects" := "projects", "neofetch" := "neofetch", "cowsay" := "cowsay",
    "sudo" := "sudo", "sudo su" := "sudo",
    "exit" := "exit", "logout" := "exit",
    "rm -rf" := "rm -rf", "rm -rf /" := "rm -rf", "rm -rf /*" := "rm -rf",
    "sudo rm -rf /" := "rm -rf", "sudo rm -rf /*" := "rm -rf",
    "hack" := "hack", "hacking" := "hack", "exploit" := "hack", "hack system" := "hack",
    "hack the system" := "hack",
    "sudo hack" := "sudo hack", "cd .." := "cd ..", "mkdir" := "mkdir", "touch" := "touch",
    "vim" := "vim", "vi" := "vim", "nano" := "nano", "cat" := "cat",
    "top" := "top", "htop" := "top", "ps" := "ps", "ps aux" := "ps", "kill" := "kill",
    "reboot" := "reboot", "shutdown" := "reboot",
    "apt install" := "apt install", "apt-get install" := "apt install", "yum install" := "apt install",
    "echo" := "echo", "man" := "man", "ssh" := "ssh", "ping" := "ping"]

  /** The text the page greets with when it mounts. */
  const Welcome := "Welcome to Hesham's AI Terminal v2.0\n\nType 'help' to see available commands.\nType 'about' to learn more about me.\n"

  /** The labels whose output is computed or written inline. */
  const Inline: set<string> := {"", "clear", "history", "ls", "pwd", "date", "uname", "uname -a",
                                "fortune", "cd", "cd ~", "wget", "curl"}

  /** Every line the page recognises (in normal form). */
  function Known(): set<string> {
    Inline + Canned.Keys
  }

  /** What `executeCommand` does with a line: clear the screen, or print. */
  datatype Reply = Clear | Print(output: Output)

  /** The output of the labels the page computes or writes inline, other
      than `clear`; `None` for every other line. */
  function InlineOutput(t: string, history: seq<string>, now: string, roll: nat): (r: Option<Output>)
    requires roll < |HomeFortunes|
    ensures r.Some? <==> t in Inline && t != "clear"
    ensures t == "history" ==> r == Some(Lit(HistoryListing(history)))
    ensures t == "date" ==> r == Some(Lit(now))
    ensures t == "uname" || t == "uname -a" ==> r == Some(Lit(UnameText))
    ensures t == "fortune" ==> r.Some? && r.value.Lit? && r.value.text in HomeFortunes
  {
    if t == "" then Some(Lit(""))
    else if t == "history" then Some(Lit(HistoryListing(history)))
    else if t == "ls" then Some(Lit(LsText))
    else if t == "pwd" then Some(Lit(PwdText))
    else if t == "date" then Some(Lit(now))
    else if t == "uname" || t == "uname -a" then Some(Lit(UnameText))
    else if t == "fortune" then Some(Lit(HomeFortunes[roll]))
    else if t == "cd" || t == "cd ~" then Some(Lit(""))
    else if t == "wget" || t == "curl" then Some(LitThenBlock(t + ": missing URL\n", ClassicPage, "wget"))
    else None
  }

  /** The `switch` of `executeCommand` on the normalised line `t`; `history`
      is the list of recorded commands as it stood before this line. No
      label appears twice, so looking up the inline labels before the
      table answers as the switch does. */
  function Respond(t: string, history: seq<string>, now: string, roll: nat): (r: Reply)
    requires roll < |HomeFortunes|
    ensures r.Clear? <==> t == "clear"
    ensures t !in Known() ==> r == Print(Lit(NotFound(t)))
    ensures t in Canned && t !in Inline ==> r == Print(Block(ClassicPage, Canned[t]))
    ensures t in Inline && t != "clear" ==> r == Print(InlineOutput(t, history, now, roll).value)
  {
    if t == "clear" then Clear
    else match InlineOutput(t, history, now, roll)
      case Some(output) => Print(output)
      case None =>
        if t in Canned then Print(Block(ClassicPage, Canned[t]))
        else Print(Lit(NotFound(t)))
  }

  /** `uname` is an alias of `uname -a`: both print the same line. */
  lemma UnameAlias(history: seq<string>, now: string, roll: nat)
    requires roll < |HomeFortunes|
    ensures Respond("uname", history, now, roll) == Respond("uname -a", history, now, roll) == Print(Lit(UnameText))
  {
  }

  /** The names tab completion offers, in the order it lists them. */
  const Completions: seq<string> := [
    "help", "about", "whoami", "skills", "experience",
    "education", "publications", "contact", "projects",
    "clear", "history", "ls", "pwd", "date", "uname",
    "neofetch", "fortune", "cowsay", "ping", "top", "ps"]

  /** `names.filter(n => n.startsWith(prefix))`: the names with that prefix,
      in their original order. */
  function WithPrefix(names: seq<string>, prefix: string): (r: seq<string>)
    ensures forall x :: x in r <==> x in names && StartsWith(x, prefix)
    ensures |r| <= |names|
    ensures prefix == "" ==> r == names
  {
    if names == [] then []
    else if StartsWith(names[0], prefix) then [names[0]] + WithPrefix(names[1..], prefix)
    else WithPrefix(names[1..], prefix)
  }

  /** Filtering distributes over concatenation: the matches of a longer
      list are the matches of each part, in order. */
  lemma {:induction false} WithPrefixAppend(a: seq<string>, b: seq<string>, prefix: string)
    ensures WithPrefix(a + b, prefix) == WithPrefix(a, prefix) + WithPrefix(b, prefix)
  {
    if a == [] {
      assert a + b == b;
    } else {
      assert (a + b)[1..] == a[1..] + b;
      WithPrefixAppend(a[1..], b, prefix);
    }
  }

  /** Filtering twice by the same prefix finds nothing more. */
  lemma {:induction false} WithPrefixIdempotent(names: seq<string>, prefix: string)
    ensures WithPrefix(WithPrefix(names, prefix), prefix) == WithPrefix(names, prefix)
  {
    if names != [] {
      WithPrefixIdempotent(names[1..], prefix);
    }
  }

  class Shell {
    var transcript: seq<Entry>
    var currentCommand: string
    var commandHistory: seq<string>
    var historyIndex: int

    ghost predicate Valid()
      reads this
    {
      InRange(commandHistory, Cursor(historyIndex, currentCommand))
    }

    /** The page as mounted: the welcome text, an empty input line, no
        history. */
    constructor ()
      ensures Valid()
      ensures transcript == [Entry("", Lit(Welcome))]
      ensures currentCommand == "" && commandHistory == [] && historyIndex == -1
    {
      transcript := [Entry("", Lit(Welcome))];
      currentCommand := "";
      commandHistory := [];
      historyIndex := -1;
    }

    /** `executeCommand(cmd)`. A line that is not blank once trimmed is
        recorded as typed. `clear` empties the transcript and the input
        and leaves the history index; every other line, blank included,
        appends one entry with the line as typed and its output, then
        empties the input and resets the history index. */
    method ExecuteCommand(cmd: string, now: string, roll: nat)
      requires Valid() && roll < |HomeFortunes|
      modifies this
      ensures Valid()
      ensures commandHistory == if Normalise(cmd) != "" then old(commandHistory) + [cmd] else old(commandHistory)
      ensures currentCommand == ""
      ensures match Respond(Normalise(cmd), old(commandHistory), now, roll)
              case Clear => transcript == [] && historyIndex == old(historyIndex)
              case Print(output) => transcript == old(transcript) + [Entry(cmd, output)] && historyIndex == -1
    {
      var trimmedCmd := Normalise(cmd);
      var recorded := commandHistory;
      if trimmedCmd != "" {
        commandHistory := commandHistory + [cmd];
      }
      var reply := Respond(trimmedCmd, recorded, now, roll);
      match reply {
        case Clear =>
          transcript := [];
          currentCommand := "";
        case Print(output) =>
          transcript := transcript + [Entry(cmd, output)];
          currentCommand := "";
          historyIndex := -1;
      }
    }

    /** Enter: execute the input line. */
    method Enter(now: string, roll: nat)
      requires Valid() && roll < |HomeFortunes|
      modifies this
      ensures Valid()
      ensures commandHistory == if Normalise(old(currentCommand)) != "" then old(commandHistory) + [old(currentCommand)] else old(commandHistory)
      ensures currentCommand == ""
      ensures match Respond(Normalise(old(currentCommand)), old(commandHistory), now, roll)
              case Clear => transcript == [] && historyIndex == old(historyIndex)
              case Print(output) => transcript == old(transcript) + [Entry(old(currentCommand), output)] && historyIndex == -1
    {
      ExecuteCommand(currentCommand, now, roll);
    }

    /** `handleTabCompletion`: the offered names starting with the
        lower-cased input. One match replaces the input; several are listed
        in one new entry, two spaces apart; none changes nothing. */
    method Tab()
      modifies this
      ensures var matches := WithPrefix(Completions, Lower(old(currentCommand)));
              && (|matches| == 1 ==> currentCommand == matches[0] && transcript == old(transcript))
              && (|matches| > 1 ==>
                    currentCommand == old(currentCommand)
                    && transcript == old(transcript) + [Entry(old(currentCommand), Lit(Join(matches, "  ")))])
              && (|matches| == 0 ==> currentCommand == old(currentCommand) && transcript == old(transcript))
      ensures commandHistory == old(commandHistory) && historyIndex == old(historyIndex)
    {
      var matches := WithPrefix(Completions, Lower(currentCommand));
      if |matches| == 1 {
        currentCommand := matches[0];
      } else if |matches| > 1 {
        var output := Join(matches, "  ");
        transcript := transcript + [Entry(currentCommand, Lit(output))];
      }
    }

    /** ArrowUp: step back through the recorded commands. */
    method ArrowUp()
      requires Valid()
      modifies this
      ensures Valid()
      ensures Cursor(historyIndex, currentCommand) == Older(old(commandHistory), Cursor(old(historyIndex), old(currentCommand)))
      ensures transcript == old(transcript) && commandHistory == old(commandHistory)
    {
      if |commandHistory| > 0 {
        var newIndex := historyIndex + 1;
        if newIndex < |commandHistory| {
          historyIndex := newIndex;
          currentCommand := commandHistory[|commandHistory| - 1 - newIndex];
        }
      }
    }

    /** ArrowDown: step forward, back to the empty line after the newest. */
    method ArrowDown()
      requires Valid()
      modifies this
      ensures Valid()
      ensures Cursor(historyIndex, currentCommand) == Newer(old(commandHistory), Cursor(old(historyIndex), old(currentCommand)))
      ensures transcript == old(transcript) && commandHistory == old(commandHistory)
    {
      if historyIndex > 0 {
        var newIndex := historyIndex - 1;
        historyIndex := newIndex;
        currentCommand := commandHistory[|commandHistory| - 1 - newIndex];
      } else if historyIndex == 0 {
        historyIndex := -1;
        currentCommand := "";
      }
    }

    /** The input's `onChange`: the line becomes what is typed. */
    method Type(text: string)
      requires Valid()
      modifies this
      ensures Valid()
      ensures currentCommand == text
      ensures transcript == old(transcript) && commandHistory == old(commandHistory) && historyIndex == old(historyIndex)
    {
      currentCommand := text;
    }
  }
}
