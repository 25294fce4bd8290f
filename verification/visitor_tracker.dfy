/** The visitor counter (client/src/utils/visitorTracker.ts). Browser
    storage is a `BrowserStorage` object: `local` maps a key to what
    localStorage holds there, already decoded from JSON (or `Garbled` when
    `JSON.parse` would throw); `session` maps a key to the sessionStorage
    string. The clock (`new Date().toISOString()`) is the parameter `now`;
    `Date.now()` and the random part of a new visitor id are `stamp` and
    `rand`. */
module VisitorTracker {
  import opened Wrappers

  const StorageKey := "portfolio_visitors"
  const SessionKey := "portfolio_session"

  /** The in-memory record. */
  datatype VisitorData = VisitorData(
    totalVisits: int,
    uniqueVisitors: set<string>,
    lastVisit: string,
    currentSession: string)

  /** The stored JSON object; a field the object lacks (or holds `null`)
      is `None`. */
  datatype StoredRecord = StoredRecord(
    totalVisits: Option<int>,
    uniqueVisitors: Option<seq<string>>,
    lastVisit: Option<string>,
    currentSession: Option<string>)

  /** What localStorage holds under a key: text that parses to a record, or
      text that `JSON.parse` rejects. */
  datatype Stored = Parsed(rec: StoredRecord) | Garbled

  /** What `trackVisitor` reports. */
  datatype Stats = Stats(totalVisits: int, uniqueVisitors: nat, isNewVisitor: bool, isNewSession: bool)

  /** What `getVisitorStats` reports. */
  datatype Summary = Summary(totalVisits: int, uniqueVisitors: nat, lastVisit: string)

  class BrowserStorage {
    var local: map<string, Stored>
    var session: map<string, string>

    constructor (local: map<string, Stored>, session: map<string, string>)
      ensures this.local == local && this.session == session
    {
      this.local := local;
      this.session := session;
    }
  }

  /** `generateVisitorId`: `visitor_<timestamp>_<random>`, never empty. */
  function GenerateVisitorId(stamp: string, rand: string): (id: string)
    ensures |id| > 8 && id[..8] == "visitor_"
  {
    "visitor_" + stamp + "_" + rand
  }

  /** JavaScript's `s || d` on a string that may be absent: absent and
      empty both give the default. */
  function OrString(s: Option<string>, default: string): (r: string)
    ensures s.Some? && s.value != "" ==> r == s.value
    ensures s.None? || s.value == "" ==> r == default
  {
    if s.Some? && s.value != "" then s.value else default
  }

  /** The record with nothing stored. */
  function Fresh(now: string): (d: VisitorData)
    ensures d.totalVisits == 0 && d.uniqueVisitors == {} && d.currentSession == ""
  {
    VisitorData(0, {}, now, "")
  }

  /** `getVisitorData` on what is stored under the key. Nothing stored, or
      text that does not parse, gives the fresh record; otherwise each
      missing field takes its default (0, the empty set, the clock, ""), and
      the stored visitor list becomes a set. */
  function Load(stored: Option<Stored>, now: string): (d: VisitorData)
    ensures stored.None? || stored.value.Garbled? ==> d == Fresh(now)
    ensures stored.Some? && stored.value.Parsed? ==>
      var rec := stored.value.rec;
      && d.totalVisits == rec.totalVisits.GetOr(0)
      && (rec.uniqueVisitors.None? ==> d.uniqueVisitors == {})
      && (rec.uniqueVisitors.Some? ==> forall v :: v in d.uniqueVisitors <==> v in rec.uniqueVisitors.value)
      && d.currentSession == OrString(rec.currentSession, "")
      && d.lastVisit == OrString(rec.lastVisit, now)
  {
    match stored
    case None => Fresh(now)
    case Some(Garbled) => Fresh(now)
    case Some(Parsed(rec)) =>
      var listed := rec.uniqueVisitors.GetOr([]);
      VisitorData(
        rec.totalVisits.GetOr(0),
        (set v | v in listed),
        OrString(rec.lastVisit, now),
        OrString(rec.currentSession, ""))
  }

  /** The object `saveVisitorData` writes, given the visitor list it
      spelled out of the set. */
  function Encode(d: VisitorData, visitors: seq<string>): StoredRecord {
    StoredRecord(Some(d.totalVisits), Some(visitors), Some(d.lastVisit), Some(d.currentSession))
  }

  /** Loading what was saved gives back the count, the visitor set and the
      session id (and the last-visit stamp, unless that was empty). */
  lemma {:induction false} LoadEncode(d: VisitorData, visitors: seq<string>, now: string)
    requires forall v :: v in visitors <==> v in d.uniqueVisitors
    ensures Load(Some(Parsed(Encode(d, visitors))), now).totalVisits == d.totalVisits
    ensures Load(Some(Parsed(Encode(d, visitors))), now).uniqueVisitors == d.uniqueVisitors
    ensures Load(Some(Parsed(Encode(d, visitors))), now).currentSession == d.currentSession
    ensures Load(Some(Parsed(Encode(d, visitors))), now) == d.(lastVisit := OrString(Some(d.lastVisit), now))
  {
    var loaded := Load(Some(Parsed(Encode(d, visitors))), now);
    assert loaded.uniqueVisitors == d.uniqueVisitors;
    assert loaded.currentSession == OrString(Some(d.currentSession), "");
  }

  function Lookup<K, V>(m: map<K, V>, k: K): Option<V> {
    if k in m then Some(m[k]) else None
  }

  /** `getVisitorData()`: a read of localStorage, nothing written. */
  function GetVisitorData(st: BrowserStorage, now: string): VisitorData
    reads st
  {
    Load(Lookup(st.local, StorageKey), now)
  }

  /** `getVisitorStats()`: the stored count, the number of distinct
      visitors and the last visit. It is a function of the storage, so it
      cannot write to it. */
  function GetVisitorStats(st: BrowserStorage, now: string): (r: Summary)
    reads st
    ensures r.totalVisits == GetVisitorData(st, now).totalVisits
    ensures r.uniqueVisitors == |GetVisitorData(st, now).uniqueVisitors|
    ensures r.lastVisit == GetVisitorData(st, now).lastVisit
  {
    var data := GetVisitorData(st, now);
    Summary(data.totalVisits, |data.uniqueVisitors|, data.lastVisit)
  }

  /** The session id `getSessionId` settles on: the stored one when there
      is a non-empty one, a new one otherwise. */
  function SessionIdFor(session: map<string, string>, stamp: string, rand: string): (id: string)
    ensures id != ""
    ensures SessionKey in session && session[SessionKey] != "" ==> id == session[SessionKey]
    ensures SessionKey !in session || session[SessionKey] == "" ==> id == GenerateVisitorId(stamp, rand)
  {
    if SessionKey in session && session[SessionKey] != "" then session[SessionKey]
    else GenerateVisitorId(stamp, rand)
  }

  /** Once settled and stored, the session id is what every later call
      settles on, whatever stamp and random part it would draw. */
  lemma SessionIdStable(session: map<string, string>, stamp: string, rand: string, stamp2: string, rand2: string)
    ensures var id := SessionIdFor(session, stamp, rand);
            SessionIdFor(session[SessionKey := id], stamp2, rand2) == id
  {
  }

  /** `getSessionId()`: the stored id if there is one; otherwise a new id,
      stored so that later calls return it. */
  method GetSessionId(st: BrowserStorage, stamp: string, rand: string) returns (id: string)
    modifies st
    ensures id == SessionIdFor(old(st.session), stamp, rand)
    ensures st.session == old(st.session)[SessionKey := id]
    ensures st.local == old(st.local)
  {
    var stored := Lookup(st.session, SessionKey);
    if stored.None? || stored.value == "" {
      id := GenerateVisitorId(stamp, rand);
      st.session := st.session[SessionKey := id];
    } else {
      id := stored.value;
    }
  }

  /** `Array.from(set)`: every member once, in some order. */
  method ToArray(s: set<string>) returns (a: seq<string>)
    ensures forall v :: v in a <==> v in s
    ensures |a| == |s|
    ensures forall i, j :: 0 <= i < j < |a| ==> a[i] != a[j]
  {
    a := [];
    var rest := s;
    while rest != {}
      invariant rest <= s
      invariant forall v :: v in a <==> v in s - rest
      invariant forall i, j :: 0 <= i < j < |a| ==> a[i] != a[j]
      invariant |a| + |rest| == |s|
      decreases |rest|
    {
      var v :| v in rest;
      forall i | 0 <= i < |a| ensures a[i] != v {
        assert a[i] in a;
      }
      a := a + [v];
      rest := rest - {v};
    }
  }

  /** `saveVisitorData(data)`: the record replaces what was under the
      storage key; nothing else in storage changes. */
  method SaveVisitorData(st: BrowserStorage, d: VisitorData)
    modifies st
    ensures StorageKey in st.local && st.local[StorageKey].Parsed?
    ensures forall now :: GetVisitorData(st, now) == d.(lastVisit := OrString(Some(d.lastVisit), now))
    ensures st.local - {StorageKey} == old(st.local) - {StorageKey}
    ensures st.session == old(st.session)
  {
    var visitors := ToArray(d.uniqueVisitors);
    st.local := st.local[StorageKey := Parsed(Encode(d, visitors))];
    forall now: string
      ensures GetVisitorData(st, now) == d.(lastVisit := OrString(Some(d.lastVisit), now))
    {
      LoadEncode(d, visitors, now);
    }
  }

  /** The record and report one visit produces, as a function of the
      record loaded and the session id. */
  datatype Visit = Visit(data: VisitorData, stats: Stats)

  /** One `trackVisitor` step on a loaded record. A session id other than
      the stored one is a new session: one more visit, and the id becomes
      the current session. An id not yet in the set is a new visitor and is
      added. */
  function Track(d: VisitorData, sessionId: string, now: string): (v: Visit)
    ensures v.stats.isNewSession <==> d.currentSession != sessionId
    ensures v.stats.isNewVisitor <==> sessionId !in d.uniqueVisitors
    ensures v.data.totalVisits == d.totalVisits + (if v.stats.isNewSession then 1 else 0)
    ensures v.data.currentSession == sessionId
    ensures v.data.uniqueVisitors == d.uniqueVisitors + {sessionId}
    ensures |v.data.uniqueVisitors| == |d.uniqueVisitors| + (if v.stats.isNewVisitor then 1 else 0)
    ensures v.data.lastVisit == now
    ensures v.stats.totalVisits == v.data.totalVisits
    ensures v.stats.uniqueVisitors == |v.data.uniqueVisitors|
  {
    var isNewSession := d.currentSession != sessionId;
    var isNewVisitor := sessionId !in d.uniqueVisitors;
    var data := VisitorData(
      if isNewSession then d.totalVisits + 1 else d.totalVisits,
      if isNewVisitor then d.uniqueVisitors + {sessionId} else d.uniqueVisitors,
      now,
      if isNewSession then sessionId else d.currentSession);
    Visit(data, Stats(data.totalVisits, |data.uniqueVisitors|, isNewVisitor, isNewSession))
  }

  /** Tracking again with the same session id reports the same counts, and
      neither a new session nor a new visitor. */
  lemma {:induction false} TrackTwice(d: VisitorData, sessionId: string, now1: string, now2: string)
    ensures var first := Track(d, sessionId, now1);
            var second := Track(first.data, sessionId, now2);
            && second.stats.totalVisits == first.stats.totalVisits
            && second.stats.uniqueVisitors == first.stats.uniqueVisitors
            && !second.stats.isNewSession && !second.stats.isNewVisitor
  {
    var first := Track(d, sessionId, now1);
    assert sessionId in first.data.uniqueVisitors;
  }

  /** The first visit ever, with nothing stored, counts one visit and one
      visitor, both new. */
  lemma FirstVisit(sessionId: string, now: string)
    requires sessionId != ""
    ensures Track(Load(None, now), sessionId, now).stats == Stats(1, 1, true, true)
  {
  }

  /** Once a visit's record is what storage holds, `getVisitorStats` reports
      the counts that visit reported, and the visit's time as the last
      visit. */
  lemma TrackedSummary(st: BrowserStorage, d: VisitorData, sessionId: string, now: string)
    requires GetVisitorData(st, now) == Track(d, sessionId, now).data
    ensures var stats := Track(d, sessionId, now).stats;
            GetVisitorStats(st, now) == Summary(stats.totalVisits, stats.uniqueVisitors, now)
  {
  }

  /** `trackVisitor()`: settle the session id, load the record, update it in
      place, save it and report. */
  method TrackVisitor(st: BrowserStorage, stamp: string, rand: string, now: string) returns (stats: Stats)
    modifies st
    ensures var sid := SessionIdFor(old(st.session), stamp, rand);
            var visit := Track(Load(Lookup(old(st.local), StorageKey), now), sid, now);
            && stats == visit.stats
            && GetVisitorData(st, now) == visit.data
            && st.session == old(st.session)[SessionKey := sid]
    ensures st.local - {StorageKey} == old(st.local) - {StorageKey}
    ensures GetVisitorStats(st, now) == Summary(stats.totalVisits, stats.uniqueVisitors, now)
  {
    var sessionId := GetSessionId(st, stamp, rand);
    var data := GetVisitorData(st, now);

    var isNewSession := data.currentSession != sessionId;
    var isNewVisitor := sessionId !in data.uniqueVisitors;

    if isNewSession {
      data := data.(totalVisits := data.totalVisits + 1);
      data := data.(currentSession := sessionId);
    }
    if isNewVisitor {
      data := data.(uniqueVisitors := data.uniqueVisitors + {sessionId});
    }
    data := data.(lastVisit := now);

    SaveVisitorData(st, data);
    stats := Stats(data.totalVisits, |data.uniqueVisitors|, isNewVisitor, isNewSession);
    TrackedSummary(st, old(GetVisitorData(st, now)), sessionId, now);
  }

  /** `resetVisitorTracking()`: both keys removed, nothing else touched. */
  method ResetVisitorTracking(st: BrowserStorage)
    modifies st
    ensures st.local == old(st.local) - {StorageKey}
    ensures st.session == old(st.session) - {SessionKey}
    ensures forall now :: GetVisitorData(st, now) == Fresh(now)
    ensures forall now :: GetVisitorStats(st, now) == Summary(0, 0, now)
  {
    st.local := st.local - {StorageKey};
    st.session := st.session - {SessionKey};
  }
}
