/** The two-tier persistence of `indexedDB.ts`: one IndexedDB object store
    per collection, keyed by id, and localStorage as the backup tier. The
    browser's request and event machinery is abstracted to the outcome it
    produces; what can go wrong is a set of fault flags. JSON text is kept
    as the list it encodes; a date is kept as the instant its ISO text
    names. */
module EntryStore {
  import opened Types
  import opened Seqs
  import opened Keys

  /** A stored date: ISO text naming an instant, or a missing or empty value. */
  datatype StoredDate = Absent | Iso(ms: Millis)

  datatype StoredEmotion = StoredEmotion(
    id: string, date: StoredDate, emotion: Emotion, intensity: int, mood: string, note: string)

  datatype StoredGoal = StoredGoal(
    id: string, title: string, description: string, targetDate: StoredDate, progress: int,
    category: Category, status: GoalStatus, createdAt: StoredDate)

  /** The value held under one localStorage key. */
  datatype Slot =
    | EmotionsJson(emotions: seq<StoredEmotion>)
    | GoalsJson(goals: seq<StoredGoal>)
    | Stamp(ms: Millis)
    | Text(text: string)

  /** The localStorage keys one collection uses. */
  datatype SlotNames = SlotNames(last: string, backup: string, stamp: string, flag: string)
  {
    predicate Distinct() { last != backup && last != stamp && last != flag && backup != stamp && backup != flag && stamp != flag }
  }

  const EmotionSlots := SlotNames("emotions", "emotions_backup", "emotions_backup_timestamp", "emotions_fallback")
  const GoalSlots := SlotNames("goals", "goals_backup", "goals_backup_timestamp", "goals_fallback")

  /** The faults a run can meet: opening the database, clearing a store,
      putting records, reading a store, and writing to localStorage.
      `putFailsAt` is the position of the first put that fails, if any. */
  datatype Faults = Faults(openFails: bool, clearFails: bool, putFailsAt: Option<nat>, readFails: bool, localFails: bool)
  {
    /** Some put of a list of n records fails. */
    predicate PutFails(n: int)
    {
      putFailsAt.Some? && putFailsAt.value < n
    }
  }

  /** How a promise settles. */
  datatype Settled = Resolved | Rejected

  // ---------------------------------------------------------------------------
  // Encoding: dates become ISO text on the way in and are parsed on the way out

  /** `d ? new Date(d) : new Date()`: a missing date reads back as the current time. */
  function ReadDate(d: StoredDate, now: Millis): (t: Millis)
    ensures d.Absent? ==> t == now
    ensures d == Iso(t) || d.Absent?
  {
    if d.Absent? then now else d.ms
  }

  function EmotionId(s: StoredEmotion): string { s.id }
  function GoalId(s: StoredGoal): string { s.id }

  function EncodeEmotion(e: EmotionEntry): StoredEmotion
  {
    StoredEmotion(e.id, Iso(e.date), e.emotion, e.intensity, e.mood, e.note)
  }

  function DecodeEmotion(s: StoredEmotion, now: Millis): (e: EmotionEntry)
    ensures e.id == s.id
    ensures forall x :: s == EncodeEmotion(x) ==> e == x
  {
    EmotionEntry(s.id, ReadDate(s.date, now), s.emotion, s.intensity, s.mood, s.note)
  }

  function EncodeGoal(g: Goal): StoredGoal
  {
    StoredGoal(g.id, g.title, g.description, Iso(g.targetDate), g.progress, g.category, g.status, Iso(g.createdAt))
  }

  function DecodeGoal(s: StoredGoal, now: Millis): (g: Goal)
    ensures g.id == s.id
    ensures forall x :: s == EncodeGoal(x) ==> g == x
  {
    Goal(s.id, s.title, s.description, ReadDate(s.targetDate, now), s.progress, s.category, s.status,
      ReadDate(s.createdAt, now))
  }

  function EncodeEmotions(es: seq<EmotionEntry>): (r: seq<StoredEmotion>)
    ensures |r| == |es| && forall i :: 0 <= i < |es| ==> r[i] == EncodeEmotion(es[i])
  {
    seq(|es|, i requires 0 <= i < |es| => EncodeEmotion(es[i]))
  }

  function DecodeEmotions(xs: seq<StoredEmotion>, now: Millis): (r: seq<EmotionEntry>)
    ensures |r| == |xs| && forall i :: 0 <= i < |xs| ==> r[i] == DecodeEmotion(xs[i], now)
  {
    seq(|xs|, i requires 0 <= i < |xs| => DecodeEmotion(xs[i], now))
  }

  function EncodeGoals(gs: seq<Goal>): (r: seq<StoredGoal>)
    ensures |r| == |gs| && forall i :: 0 <= i < |gs| ==> r[i] == EncodeGoal(gs[i])
  {
    seq(|gs|, i requires 0 <= i < |gs| => EncodeGoal(gs[i]))
  }

  function DecodeGoals(xs: seq<StoredGoal>, now: Millis): (r: seq<Goal>)
    ensures |r| == |xs| && forall i :: 0 <= i < |xs| ==> r[i] == DecodeGoal(xs[i], now)
  {
    seq(|xs|, i requires 0 <= i < |xs| => DecodeGoal(xs[i], now))
  }

  /** `JSON.parse(text).map(...)` for each collection: only a serialised list
      of that collection's records parses. */
  function ParseEmotions(slot: Slot): (r: Option<seq<StoredEmotion>>)
    ensures r.Some? <==> slot.EmotionsJson?
  {
    if slot.EmotionsJson? then Some(slot.emotions) else None
  }

  function ParseGoals(slot: Slot): (r: Option<seq<StoredGoal>>)
    ensures r.Some? <==> slot.GoalsJson?
  {
    if slot.GoalsJson? then Some(slot.goals) else None
  }

  // ---------------------------------------------------------------------------
  // The primary tier

  /** Putting records one after another: a later record replaces an earlier
      one with the same key. */
  function Upsert<R>(m: map<string, R>, data: seq<R>, key: R -> string): map<string, R>
  {
    if data == [] then m
    else
      var last := data[|data| - 1];
      Upsert(m, data[..|data| - 1], key)[key(last) := last]
  }

  /** The keys afterwards are the old keys and the new ones; a key no record
      carries keeps its old value; a record no later record overrides is
      stored under its key. */
  lemma {:induction false} UpsertSpec<R>(m: map<string, R>, data: seq<R>, key: R -> string)
    ensures forall k :: k in Upsert(m, data, key) <==> k in m || exists i :: 0 <= i < |data| && key(data[i]) == k
    ensures forall k :: k in m && (forall i :: 0 <= i < |data| ==> key(data[i]) != k) ==> Upsert(m, data, key)[k] == m[k]
    ensures forall i :: 0 <= i < |data| && (forall j :: i < j < |data| ==> key(data[j]) != key(data[i])) ==>
              Upsert(m, data, key)[key(data[i])] == data[i]
  {
    if data != [] {
      var init := data[..|data| - 1];
      UpsertSpec(m, init, key);
      assert forall i :: 0 <= i < |init| ==> init[i] == data[i];
    }
  }

  /** An object store whose every value sits under its own key. */
  predicate KeyedBy<R>(m: map<string, R>, key: R -> string)
  {
    forall k :: k in m ==> key(m[k]) == k
  }

  lemma {:induction false} UpsertKeeps<R>(m: map<string, R>, data: seq<R>, key: R -> string)
    requires KeyedBy(m, key)
    ensures KeyedBy(Upsert(m, data, key), key)
  {
    if data != [] {
      UpsertKeeps(m, data[..|data| - 1], key);
    }
  }

  /** How one `saveToIndexedDB` call leaves the object store and settles. An
      empty list is not written at all. A failing put aborts the transaction,
      which undoes the clear as well. The put's own error handler runs first
      and resolves the promise when that put is the last one of the list;
      otherwise the transaction's error handler rejects it. A failing clear is not prevented
      by its handler, so it aborts the transaction as well: the puts its
      handler queues are aborted with it, and their error handlers resolve. */
  function PrimarySave<R>(m: map<string, R>, data: seq<R>, key: R -> string, f: Faults): (map<string, R>, Settled)
  {
    if data == [] then (m, Resolved)
    else if f.openFails then (m, Rejected)
    else if f.clearFails then (m, Resolved)
    else if f.PutFails(|data|) then (m, if f.putFailsAt.value == |data| - 1 then Resolved else Rejected)
    else (Upsert(map[], data, key), Resolved)
  }

  /** `saveToIndexedDB`: clear the store, then put every record. */
  method SaveToIndexedDB<R>(m: map<string, R>, data: seq<R>, key: R -> string, f: Faults)
    returns (m': map<string, R>, settled: Settled)
    ensures (m', settled) == PrimarySave(m, data, key, f)
  {
    m', settled := m, Resolved;
    if data == [] {
      return;
    }
    if f.openFails {
      settled := Rejected;
      return;
    }
    if f.clearFails {
      return;
    }
    m' := map[];
    for i := 0 to |data|
      invariant m' == Upsert(map[], data[..i], key)
      invariant !f.PutFails(i)
    {
      if f.putFailsAt == Some(i) {
        // the abort undoes the clear and every earlier put
        m', settled := m, if i == |data| - 1 then Resolved else Rejected;
        return;
      }
      assert data[..i + 1][..i] == data[..i];
      m' := m'[key(data[i]) := data[i]];
    }
    assert data[..|data|] == data;
  }

  /** A save without faults replaces the whole collection: afterwards the store
      holds exactly the given records under their keys, a later record
      winning over an earlier one with the same key. */
  lemma SaveReplacesAll<R>(m: map<string, R>, data: seq<R>, key: R -> string, f: Faults)
    requires data != [] && !f.openFails && !f.clearFails && !f.PutFails(|data|)
    ensures PrimarySave(m, data, key, f).1 == Resolved
    ensures forall k :: k in PrimarySave(m, data, key, f).0 <==> exists i :: 0 <= i < |data| && key(data[i]) == k
    ensures forall i :: 0 <= i < |data| && (forall j :: i < j < |data| ==> key(data[j]) != key(data[i])) ==>
              PrimarySave(m, data, key, f).0[key(data[i])] == data[i]
  {
    UpsertSpec(map[], data, key);
  }

  /** When the database opens but the clear fails, the save resolves and yet
      writes nothing, whatever the puts would have done: the store keeps
      exactly its old records. */
  lemma ClearFailureKeepsStore<R>(m: map<string, R>, data: seq<R>, key: R -> string, f: Faults)
    requires !f.openFails && f.clearFails
    ensures PrimarySave(m, data, key, f).1 == Resolved
    ensures PrimarySave(m, data, key, f).0 == m
  {
  }

  /** The primary store changes only on a resolved, non-empty save. */
  lemma PrimaryChangesOnlyOnSuccess<R>(m: map<string, R>, data: seq<R>, key: R -> string, f: Faults)
    ensures PrimarySave(m, data, key, f).0 != m ==>
              data != [] && !f.openFails && !f.clearFails && !f.PutFails(|data|) && PrimarySave(m, data, key, f).1 == Resolved
    ensures PrimarySave(m, data, key, f).1 == Rejected ==> data != [] && PrimarySave(m, data, key, f).0 == m
  {
  }

  // ---------------------------------------------------------------------------
  // The backup tier

  /** What `saveEmotions` / `saveGoals` write to localStorage once the primary
      save settled: the backup copy and its timestamp after success, the
      last-resort copy and its flag after failure, nothing when localStorage
      refuses writes. */
  function LocalAfterSave(local: map<string, Slot>, names: SlotNames, list: Slot, settled: Settled, f: Faults, now: Millis)
    : map<string, Slot>
  {
    if f.localFails then local
    else if settled == Resolved then local[names.backup := list][names.stamp := Stamp(now)]
    else local[names.last := list][names.flag := Text("true")]
  }

  /** Both tiers after `saveEmotions`: the primary store, then localStorage. */
  function SaveEmotionsEffect(m: map<string, StoredEmotion>, local: map<string, Slot>, es: seq<EmotionEntry>,
                              f: Faults, now: Millis): (map<string, StoredEmotion>, map<string, Slot>)
  {
    var (m', settled) := PrimarySave(m, EncodeEmotions(es), EmotionId, f);
    (m', LocalAfterSave(local, EmotionSlots, EmotionsJson(EncodeEmotions(es)), settled, f, now))
  }

  /** Both tiers after `saveGoals`. */
  function SaveGoalsEffect(m: map<string, StoredGoal>, local: map<string, Slot>, gs: seq<Goal>,
                           f: Faults, now: Millis): (map<string, StoredGoal>, map<string, Slot>)
  {
    var (m', settled) := PrimarySave(m, EncodeGoals(gs), GoalId, f);
    (m', LocalAfterSave(local, GoalSlots, GoalsJson(EncodeGoals(gs)), settled, f, now))
  }

  /** The records come back in ascending key order, as `getAll` returns them. */
  function Listing<R>(m: map<string, R>): (r: seq<R>)
    ensures |r| == |m|
    ensures forall i :: 0 <= i < |r| ==> KeyOrder(m.Keys)[i] in m && r[i] == m[KeyOrder(m.Keys)[i]]
  {
    var ks := KeyOrder(m.Keys);
    seq(|ks|, i requires 0 <= i < |ks| => m[ks[i]])
  }

  /** Every stored record is listed, and only those. */
  lemma ListingSpec<R>(m: map<string, R>)
    ensures forall x :: x in Listing(m) <==> exists k :: k in m && m[k] == x
    ensures m == map[] <==> Listing(m) == []
  {
    var ks := KeyOrder(m.Keys);
    forall x | (exists k :: k in m && m[k] == x) ensures x in Listing(m) {
      var k :| k in m && m[k] == x;
      var i :| 0 <= i < |ks| && ks[i] == k;
      assert Listing(m)[i] == x;
    }
    if m != map[] {
      var k :| k in m;
      assert k in ks;
    }
  }

  /** A localStorage value that `getItem` returns and JavaScript treats as true. */
  predicate Truthy(local: map<string, Slot>, key: string)
  {
    key in local && local[key] != Text("")
  }

  /** The catch branch of a load: the backup, or else the last-resort copy;
      an unparseable value gives the empty list. */
  function Recover<R>(local: map<string, Slot>, names: SlotNames, parse: Slot -> Option<seq<R>>): seq<R>
  {
    var key := if Truthy(local, names.backup) then names.backup else names.last;
    if !Truthy(local, key) then []
    else match parse(local[key])
      case Some(xs) => xs
      case None => []
  }

  /** `loadEmotions` / `loadGoals` before the dates are read back: a
      non-empty primary listing is the answer; an empty one sends the load to
      the backup copy alone; a failed read sends it to the catch branch. A
      backup that does not parse throws into the catch branch, which finds
      the same backup again. */
  function LoadRaw<R>(readOk: bool, listing: seq<R>, local: map<string, Slot>, names: SlotNames,
                      parse: Slot -> Option<seq<R>>): seq<R>
  {
    if !readOk then Recover(local, names, parse)
    else if listing != [] then listing
    else if !Truthy(local, names.backup) then []
    else match parse(local[names.backup])
      case Some(xs) => xs
      case None => Recover(local, names, parse)
  }

  /** The fallback order. An empty primary never looks at the last-resort
      copy; a failed read takes the backup when present and the last-resort
      copy only when the backup is missing. */
  lemma LoadFallbackOrder<R>(listing: seq<R>, local: map<string, Slot>, names: SlotNames,
                             parse: Slot -> Option<seq<R>>, v: Slot)
    requires names.Distinct()
    ensures listing != [] ==> LoadRaw(true, listing, local, names, parse) == listing
    ensures LoadRaw(true, [], local, names, parse) == LoadRaw(true, [], local[names.last := v], names, parse)
    ensures Truthy(local, names.backup) && parse(local[names.backup]).Some? ==>
              LoadRaw(false, listing, local, names, parse) == parse(local[names.backup]).value
    ensures !Truthy(local, names.backup) && Truthy(local, names.last) && parse(local[names.last]).Some? ==>
              LoadRaw(false, listing, local, names, parse) == parse(local[names.last]).value
  {
    var local' := local[names.last := v];
    assert Truthy(local', names.backup) == Truthy(local, names.backup);
    if Truthy(local, names.backup) {
      assert local'[names.backup] == local[names.backup];
    }
  }

  /** A value that does not parse never fails a load: it gives nothing. */
  lemma UnparseableGivesNothing<R>(readOk: bool, local: map<string, Slot>, names: SlotNames,
                                   parse: Slot -> Option<seq<R>>)
    requires Truthy(local, names.backup) && parse(local[names.backup]).None?
    ensures LoadRaw(readOk, [], local, names, parse) == []
  {
  }

  /** The emotions a store and its backups give back. */
  function LoadedEmotions(f: Faults, emotions: map<string, StoredEmotion>, local: map<string, Slot>, now: Millis)
    : seq<EmotionEntry>
  {
    DecodeEmotions(LoadRaw(!f.openFails && !f.readFails, Listing(emotions), local, EmotionSlots, ParseEmotions), now)
  }

  function LoadedGoals(f: Faults, goals: map<string, StoredGoal>, local: map<string, Slot>, now: Millis)
    : seq<Goal>
  {
    DecodeGoals(LoadRaw(!f.openFails && !f.readFails, Listing(goals), local, GoalSlots, ParseGoals), now)
  }

  /** Records listed from a store that keeps each under its own key have
      pairwise different keys. */
  lemma KeyedListing<R>(m: map<string, R>, key: R -> string)
    requires KeyedBy(m, key)
    ensures forall i, j :: 0 <= i < j < |Listing(m)| ==> key(Listing(m)[i]) != key(Listing(m)[j])
  {
    KeyOrderSpec(m.Keys);
  }

  /** Putting records with pairwise different keys into an empty store and
      listing it gives back exactly those records. */
  lemma FreshUpsert<R>(data: seq<R>, key: R -> string)
    requires forall i, j :: 0 <= i < j < |data| ==> key(data[i]) != key(data[j])
    ensures KeyedBy(Upsert(map[], data, key), key)
    ensures forall x :: x in Listing(Upsert(map[], data, key)) <==> x in data
  {
    var m := Upsert(map[], data, key);
    UpsertSpec(map[], data, key);
    UpsertKeeps(map[], data, key);
    ListingSpec(m);
    forall x ensures x in Listing(m) <==> x in data {
      if x in data {
        var j :| 0 <= j < |data| && data[j] == x;
        assert m[key(data[j])] == x;
      }
      if x in Listing(m) {
        var k :| k in m && m[k] == x;
        var j :| 0 <= j < |data| && key(data[j]) == k;
        assert m[k] == data[j];
      }
    }
  }

  /** Reading back records that encode some entries, with any clock, gives
      those entries; records with different ids give different entries. */
  lemma DecodeEncoded(listing: seq<StoredEmotion>, es: seq<EmotionEntry>, later: Millis)
    requires forall x :: x in listing <==> x in EncodeEmotions(es)
    requires forall i, j :: 0 <= i < j < |listing| ==> listing[i].id != listing[j].id
    ensures forall x :: x in DecodeEmotions(listing, later) <==> x in es
    ensures NoDuplicates(DecodeEmotions(listing, later))
  {
    var data := EncodeEmotions(es);
    var loaded := DecodeEmotions(listing, later);
    forall x ensures x in loaded <==> x in es {
      if x in loaded {
        var i :| 0 <= i < |loaded| && loaded[i] == x;
        assert listing[i] in data;
      }
      if x in es {
        var j :| 0 <= j < |es| && es[j] == x;
        assert data[j] in listing;
      }
    }
  }

  /** Saving a non-empty list of entries with distinct ids and loading it back
      without faults gives the same entries, in key order rather than list
      order. */
  lemma SaveThenLoad(es: seq<EmotionEntry>, m: map<string, StoredEmotion>, local: map<string, Slot>,
                     f: Faults, later: Millis)
    requires es != [] && !f.openFails && !f.clearFails && !f.PutFails(|es|) && !f.readFails
    requires forall i, j :: 0 <= i < j < |es| ==> es[i].id != es[j].id
    ensures multiset(LoadedEmotions(f, PrimarySave(m, EncodeEmotions(es), EmotionId, f).0, local, later)) == multiset(es)
  {
    var data := EncodeEmotions(es);
    var m' := Upsert(map[], data, EmotionId);
    assert PrimarySave(m, data, EmotionId, f).0 == m';
    FreshUpsert(data, EmotionId);
    KeyedListing(m', EmotionId);
    var listing := Listing(m');
    assert data[0] in listing;
    assert LoadedEmotions(f, m', local, later) == DecodeEmotions(listing, later);
    DecodeEncoded(listing, es, later);
    DistinctPermutation(DecodeEmotions(listing, later), es);
  }

  /** What `getDBStats` reports. */
  datatype DBStats = DBStats(emotionsCount: nat, goalsCount: nat, lastUpdated: Millis)

  // ---------------------------------------------------------------------------
  // The store as an object: both tiers and the faults it runs into

  class Storage {
    var emotions: map<string, StoredEmotion>
    var goals: map<string, StoredGoal>
    var local: map<string, Slot>
    var faults: Faults

    constructor(emotions: map<string, StoredEmotion>, goals: map<string, StoredGoal>, local: map<string, Slot>, faults: Faults)
      ensures this.emotions == emotions && this.goals == goals && this.local == local && this.faults == faults
    {
      this.emotions, this.goals, this.local, this.faults := emotions, goals, local, faults;
    }

    /** `saveEmotions`: never rejects; the primary save, then the backup copy
        after success or the last-resort copy after failure. */
    method SaveEmotions(es: seq<EmotionEntry>, now: Millis)
      modifies this
      ensures (emotions, local) == SaveEmotionsEffect(old(emotions), old(local), es, faults, now)
      ensures goals == old(goals) && faults == old(faults)
    {
      var toStore := EncodeEmotions(es);
      var m, settled := SaveToIndexedDB(emotions, toStore, EmotionId, faults);
      emotions := m;
      if !faults.localFails {
        if settled == Resolved {
          local := local[EmotionSlots.backup := EmotionsJson(toStore)][EmotionSlots.stamp := Stamp(now)];
        } else {
          local := local[EmotionSlots.last := EmotionsJson(toStore)][EmotionSlots.flag := Text("true")];
        }
      }
    }

    /** `saveGoals`, the same steps over the goal store. */
    method SaveGoals(gs: seq<Goal>, now: Millis)
      modifies this
      ensures (goals, local) == SaveGoalsEffect(old(goals), old(local), gs, faults, now)
      ensures emotions == old(emotions) && faults == old(faults)
    {
      var toStore := EncodeGoals(gs);
      var m, settled := SaveToIndexedDB(goals, toStore, GoalId, faults);
      goals := m;
      if !faults.localFails {
        if settled == Resolved {
          local := local[GoalSlots.backup := GoalsJson(toStore)][GoalSlots.stamp := Stamp(now)];
        } else {
          local := local[GoalSlots.last := GoalsJson(toStore)][GoalSlots.flag := Text("true")];
        }
      }
    }

    /** `loadEmotions`: never fails; see `LoadRaw` for the order of the tiers. */
    function LoadEmotions(now: Millis): seq<EmotionEntry>
      reads this
    {
      LoadedEmotions(faults, emotions, local, now)
    }

    function LoadGoals(now: Millis): seq<Goal>
      reads this
    {
      LoadedGoals(faults, goals, local, now)
    }

    /** `exportAllData`: both loads. */
    function ExportAllData(now: Millis): (r: (seq<EmotionEntry>, seq<Goal>))
      reads this
      ensures r.0 == LoadEmotions(now) && r.1 == LoadGoals(now)
    {
      (LoadEmotions(now), LoadGoals(now))
    }

    /** `getDBStats`: the lengths of both loads and the current time. */
    function GetDBStats(now: Millis): (r: DBStats)
      reads this
      ensures r.emotionsCount == |LoadEmotions(now)| && r.goalsCount == |LoadGoals(now)| && r.lastUpdated == now
    {
      DBStats(|LoadEmotions(now)|, |LoadGoals(now)|, now)
    }

    /** `deleteAllData`: clears both object stores and removes the two backup
        keys; the last-resort copies, timestamps and flags stay. When the
        database does not open the call rejects before touching anything. */
    method DeleteAllData()
      modifies this
      ensures faults == old(faults)
      ensures if faults.openFails || faults.clearFails then emotions == old(emotions) && goals == old(goals)
              else emotions == map[] && goals == map[]
      ensures local == if faults.openFails then old(local) else old(local) - {EmotionSlots.backup, GoalSlots.backup}
    {
      if faults.openFails {
        return;
      }
      if !faults.clearFails {
        emotions := map[];
        goals := map[];
      }
      local := local - {EmotionSlots.backup, GoalSlots.backup};
    }
  }

  /** An empty save leaves the primary store as it was, yet still overwrites
      the backup with the empty list and sets a new timestamp. */
  lemma EmptySaveStillBacksUp(m: map<string, StoredEmotion>, local: map<string, Slot>, f: Faults, now: Millis)
    requires !f.localFails
    ensures var (m', local') := SaveEmotionsEffect(m, local, [], f, now);
      m' == m && local'[EmotionSlots.backup] == EmotionsJson([]) && local'[EmotionSlots.stamp] == Stamp(now)
  {
    assert EncodeEmotions([]) == [];
  }

  /** A save whose clear fails counts as a success: the backup copy takes the
      new list and a new timestamp while the object store keeps the old
      records, so the two tiers then disagree. */
  lemma ClearFailureBacksUp(m: map<string, StoredEmotion>, es: seq<EmotionEntry>, local: map<string, Slot>, f: Faults, now: Millis)
    requires !f.openFails && f.clearFails && !f.localFails
    ensures var (m', local') := SaveEmotionsEffect(m, local, es, f, now);
      m' == m && local'[EmotionSlots.backup] == EmotionsJson(EncodeEmotions(es)) && local'[EmotionSlots.stamp] == Stamp(now)
      && (EmotionSlots.last in local' <==> EmotionSlots.last in local)
  {
    ClearFailureKeepsStore(m, EncodeEmotions(es), EmotionId, f);
  }

  /** When only the last put fails, its own error handler resolves the save
      before the transaction's handler can reject it: the abort keeps the old
      records, yet the backup copy takes the new list as after a success. */
  lemma LastPutFailureBacksUp(m: map<string, StoredEmotion>, es: seq<EmotionEntry>, local: map<string, Slot>, f: Faults, now: Millis)
    requires es != [] && !f.openFails && !f.clearFails && f.putFailsAt == Some(|es| - 1) && !f.localFails
    ensures PrimarySave(m, EncodeEmotions(es), EmotionId, f) == (m, Resolved)
    ensures var (m', local') := SaveEmotionsEffect(m, local, es, f, now);
      m' == m && local'[EmotionSlots.backup] == EmotionsJson(EncodeEmotions(es)) && local'[EmotionSlots.stamp] == Stamp(now)
  {
  }

  /** When the primary save fails the list goes to the last-resort key with
      its flag set, and the backup copy is left alone; the primary save fails
      only when the database does not open, or when a put other than the
      last one of the list fails. */
  lemma FailureFallsBack(m: map<string, StoredEmotion>, es: seq<EmotionEntry>, local: map<string, Slot>, f: Faults, now: Millis)
    requires !f.localFails
    ensures PrimarySave(m, EncodeEmotions(es), EmotionId, f).1 == Rejected <==>
              es != [] && (f.openFails || (!f.clearFails && f.PutFails(|es| - 1)))
    ensures PrimarySave(m, EncodeEmotions(es), EmotionId, f).1 == Rejected ==>
      var (m', local') := SaveEmotionsEffect(m, local, es, f, now);
      m' == m && local'[EmotionSlots.last] == EmotionsJson(EncodeEmotions(es)) && local'[EmotionSlots.flag] == Text("true")
      && (EmotionSlots.backup in local' <==> EmotionSlots.backup in local)
      && (EmotionSlots.backup in local ==> local'[EmotionSlots.backup] == local[EmotionSlots.backup])
  {
  }

  /** After `deleteAllData` a load finds nothing while the database reads,
      but a failed read brings back whatever the last-resort copy holds. */
  lemma DeleteAllThenLoad(local: map<string, Slot>, f: Faults, now: Millis)
    requires !f.openFails && !f.clearFails
    ensures !f.readFails ==> LoadedEmotions(f, map[], local - {EmotionSlots.backup, GoalSlots.backup}, now) == []
    ensures f.readFails && Truthy(local, EmotionSlots.last) && local[EmotionSlots.last].EmotionsJson? ==>
              LoadedEmotions(f, map[], local - {EmotionSlots.backup, GoalSlots.backup}, now)
                == DecodeEmotions(local[EmotionSlots.last].emotions, now)
  {
    var empty: map<string, StoredEmotion> := map[];
    ListingSpec(empty);
    var local' := local - {EmotionSlots.backup, GoalSlots.backup};
    assert !Truthy(local', EmotionSlots.backup);
    if Truthy(local, EmotionSlots.last) {
      assert local'[EmotionSlots.last] == local[EmotionSlots.last];
    }
  }
}
