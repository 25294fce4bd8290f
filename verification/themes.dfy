/** The terminal's colour palettes (client/src/utils/themes.ts): a fixed
    table of six named themes and a lookup that falls back to the default
    Death Note palette. */
module Themes {

  datatype Theme = Theme(
    name: string,
    background: string,
    text: string,
    prompt: string,
    command: string,
    border: string,
    glow: string,
    shadow: string)

  const DeathNote := Theme("Death Note", "#0d1117", "#7ee787", "#58a6ff", "#79c0ff", "#58a6ff",
                           "rgba(88, 166, 255, 0.5)", "0 0 20px rgba(88, 166, 255, 0.3)")
  const Matrix := Theme("Matrix", "#0a0e0a", "#00ff41", "#00ff41", "#39ff14", "#00ff41",
                        "rgba(0, 255, 65, 0.6)", "0 0 25px rgba(0, 255, 65, 0.4)")
  const Hacker := Theme("Hacker", "#0a0a0a", "#ff0000", "#ff0066", "#ff6600", "#ff0000",
                        "rgba(255, 0, 0, 0.5)", "0 0 20px rgba(255, 0, 0, 0.3)")
  const Cyberpunk := Theme("Cyberpunk", "#0d0221", "#ff00ff", "#00ffff", "#ffff00", "#ff00ff",
                           "rgba(255, 0, 255, 0.5)", "0 0 20px rgba(255, 0, 255, 0.3)")
  const Retro := Theme("Retro Amber", "#000000", "#ffb000", "#ffb000", "#ffd700", "#ffb000",
                       "rgba(255, 176, 0, 0.5)", "0 0 20px rgba(255, 176, 0, 0.3)")
  const Ubuntu := Theme("Ubuntu", "#300a24", "#ffffff", "#8ae234", "#729fcf", "#8ae234",
                        "rgba(138, 226, 52, 0.5)", "0 0 20px rgba(138, 226, 52, 0.3)")

  /** The table's keys in declaration order (the order `Object.keys` lists). */
  const Keys: seq<string> := ["deathnote", "matrix", "hacker", "cyberpunk", "retro", "ubuntu"]

  const Table: map<string, Theme> := map[
    "deathnote" := DeathNote,
    "matrix" := Matrix,
    "hacker" := Hacker,
    "cyberpunk" := Cyberpunk,
    "retro" := Retro,
    "ubuntu" := Ubuntu]

  /** `getTheme(name)`: the table entry under `name`, or the Death Note
      palette for any other name (the empty name included); always one of
      the six palettes. */
  function GetTheme(name: string): (r: Theme)
    ensures name in Table ==> r == Table[name]
    ensures name !in Table ==> r == DeathNote
    ensures r in Table.Values
  {
    if name in Table then Table[name] else Table["deathnote"]
  }

  /** The table has exactly the six keys, listed once each. */
  lemma TableShape()
    ensures |Keys| == 6
    ensures forall i, j :: 0 <= i < j < |Keys| ==> Keys[i] != Keys[j]
    ensures Table.Keys == set k | k in Keys
  {
    assert Table.Keys == set k | k in Keys;
  }

  /** The palettes' display names in the order of `Keys`. */
  const Names: seq<string> := [DeathNote.name, Matrix.name, Hacker.name, Cyberpunk.name, Retro.name, Ubuntu.name]

  /** No two palettes share a display name: their first letters differ. */
  lemma NamesDistinct()
    ensures |Names| == |Keys| && forall i :: 0 <= i < |Keys| ==> Table[Keys[i]].name == Names[i]
    ensures forall i, j :: 0 <= i < j < |Names| ==> Names[i] != Names[j]
  {
    var initials := "DMHCRU";
    forall i | 0 <= i < |Names| ensures Names[i][0] == initials[i] { }
    forall i, j | 0 <= i < j < |Names| ensures Names[i] != Names[j] {
      assert Names[i][0] == initials[i] && Names[j][0] == initials[j];
    }
  }

  /** Whatever name is asked for, the lookup answers with the palette stored
      under one of the six keys. */
  lemma {:induction false} GetThemeListed(name: string)
    ensures exists i :: 0 <= i < |Keys| && GetTheme(name) == Table[Keys[i]]
  {
    TableShape();
    if name in Table {
      var i :| 0 <= i < |Keys| && Keys[i] == name;
    } else {
      assert GetTheme(name) == Table[Keys[0]];
    }
  }
}
