/** The achievement catalog and the unlock rule (client/src/utils/achievements.ts).
    The set of unlocked ids is a value: `unlockAchievement` copies it, adds
    to the copy and hands the copy to the caller's setter, so the set it was
    given is never changed. */
module Achievements {
  import opened Wrappers

  datatype Achievement = Achievement(id: string, title: string, description: string, icon: string, unlocked: bool)

  const Catalog: seq<Achievement> := [
    Achievement("first-command", "First Steps", "Executed your first command", "🎯", false),
    Achievement("explorer", "Curious Explorer", "Tried 5 different commands", "🔍", false),
    Achievement("command-master", "Command Master", "Executed 20 commands", "⚡", false),
    Achievement("easter-egg-hunter", "Easter Egg Hunter", "Found a secret command", "🥚", false),
    Achievement("theme-explorer", "Theme Explorer", "Changed the terminal theme", "🎨", false),
    Achievement("gamer", "Retro Gamer", "Played a mini-game", "🎮", false),
    Achievement("social-butterfly", "Social Butterfly", "Checked out social links", "🦋", false),
    Achievement("konami-master", "Konami Master", "Entered the legendary code", "🎖️", false),
    Achievement("hacker-mode", "H4CK3R M0D3", "Tried to hack the system", "💀", false),
    Achievement("completionist", "Completionist", "Unlocked all achievements", "🏆", false)]

  /** The ids the catalog lists. */
  function CatalogIds(): (ids: set<string>)
    ensures forall a :: a in Catalog ==> a.id in ids
    ensures forall id :: id in ids ==> exists a :: a in Catalog && a.id == id
  {
    set a | a in Catalog :: a.id
  }

  /** The catalog's ids, spelled out. */
  const ListedIds: set<string> := {"first-command", "explorer", "command-master", "easter-egg-hunter", "theme-explorer",
    "gamer", "social-butterfly", "konami-master", "hacker-mode", "completionist"}

  lemma CatalogIdsListed()
    ensures CatalogIds() == ListedIds
  {
    CatalogIdsWithin();
    ListedInCatalog();
  }

  lemma CatalogIdsWithin()
    ensures CatalogIds() <= ListedIds
  {
    forall id | id in CatalogIds() ensures id in ListedIds {
      var i := IndexOf(id);
      ListedAt(i);
    }
  }

  /** The position of an id in the catalog. */
  lemma IndexOf(id: string) returns (i: int)
    requires id in CatalogIds()
    ensures 0 <= i < |Catalog| && Catalog[i].id == id
  {
    var a :| a in Catalog && a.id == id;
    i := Position(a, Catalog);
  }

  /** A position of an element of a sequence. */
  lemma Position<T>(x: T, s: seq<T>) returns (i: int)
    requires x in s
    ensures 0 <= i < |s| && s[i] == x
  {
    i :| 0 <= i < |s| && s[i] == x;
  }

  lemma ListedInCatalog()
    ensures ListedIds <= CatalogIds()
  {
    var c := Catalog;
    assert c[0] in c && c[1] in c && c[2] in c && c[3] in c && c[4] in c;
    assert c[5] in c && c[6] in c && c[7] in c && c[8] in c && c[9] in c;
  }

  /** The id of each entry is one of the ten. */
  lemma ListedAt(i: int)
    requires 0 <= i < |Catalog|
    ensures Catalog[i].id in ListedIds
  {
    if i < 5 { ListedAtLow(i); } else { ListedAtHigh(i); }
  }

  lemma ListedAtLow(i: int)
    requires 0 <= i < 5
    ensures Catalog[i].id in ListedIds
  {
    if i == 0 {} else if i == 1 {} else if i == 2 {} else if i == 3 {} else {}
  }

  lemma ListedAtHigh(i: int)
    requires 5 <= i < 10
    ensures Catalog[i].id in ListedIds
  {
    if i == 5 {} else if i == 6 {} else if i == 7 {} else if i == 8 {} else {}
  }

  /** Ten entries with distinct ids, none of them unlocked. */
  lemma CatalogShape()
    ensures |Catalog| == 10
    ensures forall i, j :: 0 <= i < j < |Catalog| ==> Catalog[i].id != Catalog[j].id
    ensures forall i :: 0 <= i < |Catalog| ==> !Catalog[i].unlocked
  {
  }

  /** `checkAchievement`: whether the id has been unlocked. */
  function CheckAchievement(id: string, unlocked: set<string>): (r: bool)
    ensures r <==> id in unlocked
  {
    id in unlocked
  }

  /** `Array.prototype.find` on `entries` by id: the first entry with that
      id, or nothing when no entry has it. */
  function FindIn(entries: seq<Achievement>, id: string): (r: Option<Achievement>)
    ensures r.Some? ==> r.value in entries && r.value.id == id
    ensures r.None? <==> forall a :: a in entries ==> a.id != id
    ensures r.Some? ==> exists k :: FirstWithId(entries, id, k) && entries[k] == r.value
  {
    if entries == [] then None
    else if entries[0].id == id then
      assert FirstWithId(entries, id, 0);
      Some(entries[0])
    else
      var r := FindIn(entries[1..], id);
      if r.Some? then
        var k :| FirstWithId(entries[1..], id, k) && entries[1..][k] == r.value;
        assert FirstWithId(entries, id, k + 1);
        r
      else r
  }

  /** `k` is the position of the first entry with that id. */
  predicate FirstWithId(entries: seq<Achievement>, id: string, k: int) {
    0 <= k < |entries| && entries[k].id == id && forall j :: 0 <= j < k ==> entries[j].id != id
  }

  function Find(id: string): (r: Option<Achievement>)
    ensures r.Some? <==> id in CatalogIds()
    ensures r.Some? ==> r.value in Catalog && r.value.id == id
  {
    FindIn(Catalog, id)
  }

  /** What one `unlockAchievement` call does: the set it hands to the setter,
      if it calls the setter at all, and the achievement it returns (null
      is `None`). */
  datatype Unlock = Unlock(setterArg: Option<set<string>>, result: Option<Achievement>)

  /** `unlockAchievement(id, unlocked, setter)`. An id already unlocked gives
      `null` and no setter call. A new id gives exactly one setter call with
      the old set plus that id, and returns its catalog entry, or `null` for
      an id the catalog does not list (whose id is added all the same). */
  function UnlockAchievement(id: string, unlocked: set<string>): (r: Unlock)
    ensures id in unlocked ==> r == Unlock(None, None)
    ensures id !in unlocked ==> r.setterArg == Some(unlocked + {id})
    ensures id !in unlocked ==> r.result == Find(id)
    ensures r.result.Some? ==> r.result.value.id == id && r.result.value in Catalog
  {
    if !CheckAchievement(id, unlocked) then
      var copy := unlocked + {id};
      Unlock(Some(copy), Find(id))
    else
      Unlock(None, None)
  }

  /** The set a caller holds after the call: what the setter received, or
      the set as it was when the setter was not called. */
  function After(id: string, unlocked: set<string>): set<string> {
    UnlockAchievement(id, unlocked).setterArg.GetOr(unlocked)
  }

  /** After an unlock call, `checkAchievement` holds for the id unlocked and
      for exactly the ids it held for before. */
  lemma CheckAfterUnlock(id: string, unlocked: set<string>, other: string)
    ensures CheckAchievement(other, After(id, unlocked)) <==> other == id || CheckAchievement(other, unlocked)
    ensures CheckAchievement(id, After(id, unlocked))
  {
    UnlockIdempotent(id, unlocked);
  }

  /** Unlocking adds exactly the id, and unlocking the same id again leaves
      the set as it is and returns null. */
  lemma {:induction false} UnlockIdempotent(id: string, unlocked: set<string>)
    ensures After(id, unlocked) == unlocked + {id}
    ensures After(id, After(id, unlocked)) == After(id, unlocked)
    ensures UnlockAchievement(id, After(id, unlocked)) == Unlock(None, None)
  {
    assert id in After(id, unlocked);
  }

  /** An id outside the catalog is still added to the set, yet the call
      returns null, so no notification follows. */
  lemma UnknownIdStillAdded(id: string, unlocked: set<string>)
    requires id !in CatalogIds() && id !in unlocked
    ensures After(id, unlocked) == unlocked + {id}
    ensures UnlockAchievement(id, unlocked).result == None
  {
  }
}
