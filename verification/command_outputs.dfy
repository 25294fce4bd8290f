/** The table of pre-authored command outputs (client/src/utils/commandOutputs.ts)
    and its lookup. Most entries are fixed texts; `fortune` and `date` are
    computed when asked for, from a random pick and from the clock, which
    come in here as the parameters `roll` and `now`. */
module CommandOutputs {
  import opened Transcript

  /** A table value: a fixed text, or one of the two computed entries. */
  datatype Value = Fixed(output: Output) | FortuneThunk | DateThunk

  const Fortunes: seq<string> := [
    "You will build something amazing today.",
    "A bug is just a feature you haven't documented yet.",
    "Coffee + Code = Success",
    "The best way to predict the future is to build it.",
    "In AI we trust, but we still verify the outputs.",
    "Today's impossible is tomorrow's AI model.",
    "The only way to do great work is to love what you do.",
    "Innovation distinguishes between a leader and a follower."]

  const LsText := "about.txt  contact.txt  education.txt  experience.txt  projects.txt  publications.txt  skills.txt  resume.pdf  secret.txt"
  const PwdText := "/home/hesham"
  const UnameText := "Linux hesham-ai 5.15.0-42-generic #45-Ubuntu SMP x86_64 GNU/Linux"

  const Table: map<string, Value> := map[
    "skills" := Fixed(Block(CommandOutputsTable, "skills")),
    "experience" := Fixed(Block(CommandOutputsTable, "experience")),
    "education" := Fixed(Block(CommandOutputsTable, "education")),
    "publications" := Fixed(Block(CommandOutputsTable, "publications")),
    "contact" := Fixed(Block(CommandOutputsTable, "contact")),
    "projects" := Fixed(Block(CommandOutputsTable, "projects")),
    "whoami" := Fixed(Block(CommandOutputsTable, "whoami")),
    "ls" := Fixed(Lit(LsText)),
    "pwd" := Fixed(Lit(PwdText)),
    "neofetch" := Fixed(Block(CommandOutputsTable, "neofetch")),
    "ping" := Fixed(Block(CommandOutputsTable, "ping")),
    "fortune" := FortuneThunk,
    "cowsay" := Fixed(Block(CommandOutputsTable, "cowsay")),
    "uname" := Fixed(Lit(UnameText)),
    "date" := DateThunk]

  /** The `fortune` entry: the fortune the random pick lands on. */
  function Fortune(roll: nat): (r: string)
    requires roll < |Fortunes|
    ensures r in Fortunes
  {
    Fortunes[roll]
  }

  /** `getCommandOutput(command)`: a fixed entry as stored, a computed entry
      called, and the empty text for a key the table does not have. */
  function GetCommandOutput(command: string, now: string, roll: nat): (r: Output)
    requires roll < |Fortunes|
    ensures command in Table && Table[command].Fixed? ==> r == Table[command].output
    ensures command !in Table ==> r == Lit("")
    ensures command == "date" ==> r == Lit(now)
    ensures command == "fortune" ==> r.Lit? && r.text in Fortunes
  {
    if command !in Table then Lit("")
    else match Table[command]
      case Fixed(output) => output
      case FortuneThunk => Lit(Fortune(roll))
      case DateThunk => Lit(now)
  }

  /** The fixed entries do not depend on the clock or the random pick;
      `pwd` in particular always prints the home directory. */
  lemma FixedEntriesConstant(command: string, now1: string, now2: string, roll1: nat, roll2: nat)
    requires roll1 < |Fortunes| && roll2 < |Fortunes|
    requires command != "date" && command != "fortune"
    ensures GetCommandOutput(command, now1, roll1) == GetCommandOutput(command, now2, roll2)
    ensures GetCommandOutput("pwd", now1, roll1) == Lit("/home/hesham")
  {
  }

  /** The only keys whose value is computed are `fortune` and `date`. */
  lemma ComputedKeys(command: string)
    ensures command in Table && !Table[command].Fixed? <==> command == "fortune" || command == "date"
  {
  }
}
