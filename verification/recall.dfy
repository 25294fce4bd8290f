/** ↑/↓ navigation through the command history, as both terminal pages
    write it in their `handleKeyDown`. The cursor is the pair
    (historyIndex, currentCommand): index -1 is the fresh input line, index
    k >= 0 shows the (k+1)-th most recent command. */
module Recall {

  datatype Cursor = Cursor(index: int, input: string)

  /** -1 <= historyIndex < the number of recorded commands. */
  predicate InRange(history: seq<string>, c: Cursor) {
    -1 <= c.index < |history|
  }

  /** The input shows the command the index points at (the fresh line when
      the index is -1). */
  predicate Synced(history: seq<string>, c: Cursor)
    requires InRange(history, c)
  {
    if c.index == -1 then c.input == "" else c.input == history[|history| - 1 - c.index]
  }

  /** ArrowUp: one command further back while there is one, loading it into
      the input; at the oldest command nothing changes. */
  function Older(history: seq<string>, c: Cursor): (r: Cursor)
    requires InRange(history, c)
    ensures InRange(history, r)
    ensures c.index + 1 < |history| ==> r.index == c.index + 1 && r.input == history[|history| - 1 - r.index]
    ensures c.index + 1 >= |history| ==> r == c
  {
    if |history| > 0 then
      var newIndex := c.index + 1;
      if newIndex < |history| then Cursor(newIndex, history[|history| - 1 - newIndex]) else c
    else c
  }

  /** ArrowDown: one command forward; from the most recent command back to
      the fresh, empty line; on the fresh line nothing changes. */
  function Newer(history: seq<string>, c: Cursor): (r: Cursor)
    requires InRange(history, c)
    ensures InRange(history, r)
    ensures c.index > 0 ==> r.index == c.index - 1 && r.input == history[|history| - 1 - r.index]
    ensures c.index == 0 ==> r == Cursor(-1, "")
    ensures c.index == -1 ==> r == c
  {
    if c.index > 0 then
      var newIndex := c.index - 1;
      Cursor(newIndex, history[|history| - 1 - newIndex])
    else if c.index == 0 then Cursor(-1, "")
    else c
  }

  /** ↓ undoes ↑: from a synced cursor that can move back, going back and
      then forward returns to the same cursor. */
  lemma NewerUndoesOlder(history: seq<string>, c: Cursor)
    requires InRange(history, c) && Synced(history, c)
    requires c.index + 1 < |history|
    ensures Newer(history, Older(history, c)) == c
  {
  }

  /** The cursor after pressing ↑ `n` times. */
  function OlderTimes(history: seq<string>, c: Cursor, n: nat): (r: Cursor)
    requires InRange(history, c)
    ensures InRange(history, r)
  {
    if n == 0 then c else Older(history, OlderTimes(history, c, n - 1))
  }

  /** From the fresh line, pressing ↑ `n` times shows the `n`-th most
      recent command, and stops at the oldest one. */
  lemma {:induction false} OlderTimesFromFresh(history: seq<string>, input: string, n: nat)
    requires n >= 1 && |history| >= 1
    ensures var k := if n <= |history| then n else |history|;
            OlderTimes(history, Cursor(-1, input), n) == Cursor(k - 1, history[|history| - k])
  {
    if n > 1 {
      OlderTimesFromFresh(history, input, n - 1);
    }
  }
}
