/** The three tables ingest.py writes and the rules of its INSERT statements:
    `INSERT OR IGNORE` into `locations` (keyed by `fix_ts`) and `users`
    (keyed by `id`), plain `INSERT` into `sightings` with an autoincrement id. */
module Store {
  import opened Wrappers
  import opened LogParser

  /** `INSERT OR IGNORE` of one keyed row: an existing key keeps its row. */
  function InsertOrIgnore<K(==), V>(m: map<K, V>, k: K, v: V): (r: map<K, V>)
    ensures r.Keys == m.Keys + {k}
    ensures forall j :: j in m ==> r[j] == m[j]
    ensures k !in m ==> r[k] == v
  {
    if k in m then m else m[k := v]
  }

  /** `executemany` of `INSERT OR IGNORE`, row after row. */
  function AddAll<K(==), V>(m: map<K, V>, kvs: seq<(K, V)>): (r: map<K, V>)
    ensures m.Keys <= r.Keys
    ensures forall j :: j in m ==> r[j] == m[j]
    decreases |kvs|
  {
    if kvs == [] then m
    else InsertOrIgnore(AddAll(m, kvs[..|kvs| - 1]), kvs[|kvs| - 1].0, kvs[|kvs| - 1].1)
  }

  /** The first row of `kvs` with key `k`, searching from the front. */
  function FirstValue<K(==), V>(kvs: seq<(K, V)>, k: K): Option<V>
    decreases |kvs|
  {
    if kvs == [] then None
    else if kvs[0].0 == k then Some(kvs[0].1)
    else FirstValue(kvs[1..], k)
  }

  lemma {:induction false} FirstValueSnoc<K, V>(kvs: seq<(K, V)>, kv: (K, V), k: K)
    ensures FirstValue(kvs + [kv], k) ==
      if FirstValue(kvs, k).Some? then FirstValue(kvs, k)
      else if kv.0 == k then Some(kv.1) else None
    decreases |kvs|
  {
    if kvs != [] {
      assert (kvs + [kv])[1..] == kvs[1..] + [kv];
      FirstValueSnoc(kvs[1..], kv, k);
    }
  }

  /** First row wins: after the inserts a key holds its old row if it had one,
      otherwise the first inserted row with that key; later rows change nothing. */
  lemma {:induction false} FirstWins<K, V>(m: map<K, V>, kvs: seq<(K, V)>, k: K)
    ensures k in AddAll(m, kvs) <==> k in m || FirstValue(kvs, k).Some?
    ensures k in AddAll(m, kvs) ==>
      AddAll(m, kvs)[k] == if k in m then m[k] else FirstValue(kvs, k).value
    decreases |kvs|
  {
    if kvs != [] {
      var init := kvs[..|kvs| - 1];
      assert kvs == init + [kvs[|kvs| - 1]];
      FirstWins(m, init, k);
      FirstValueSnoc(init, kvs[|kvs| - 1], k);
    }
  }

  /** Every inserted key is present afterwards, and no key is lost. */
  lemma KeysAfterAddAll<K, V>(m: map<K, V>, kvs: seq<(K, V)>)
    ensures m.Keys <= AddAll(m, kvs).Keys
    ensures forall i :: 0 <= i < |kvs| ==> kvs[i].0 in AddAll(m, kvs)
  {
    forall k | k in m ensures k in AddAll(m, kvs) {
      FirstWins(m, kvs, k);
    }
    forall i | 0 <= i < |kvs| ensures kvs[i].0 in AddAll(m, kvs) {
      FirstWins(m, kvs, kvs[i].0);
      FirstValueFound(kvs, i);
    }
  }

  lemma {:induction false} FirstValueFound<K, V>(kvs: seq<(K, V)>, i: nat)
    requires i < |kvs|
    ensures FirstValue(kvs, kvs[i].0).Some?
    decreases i
  {
    if i > 0 && kvs[0].0 != kvs[i].0 {
      assert kvs[1..][i - 1] == kvs[i];
      FirstValueFound(kvs[1..], i - 1);
    }
  }

  /** Inserting the same rows again leaves a keyed table unchanged. */
  lemma AddAllIdempotent<K, V>(m: map<K, V>, kvs: seq<(K, V)>)
    ensures AddAll(AddAll(m, kvs), kvs) == AddAll(m, kvs)
  {
    var once := AddAll(m, kvs);
    var twice := AddAll(once, kvs);
    forall k | k in twice ensures k in once && twice[k] == once[k] {
      FirstWins(m, kvs, k);
      FirstWins(once, kvs, k);
    }
    forall k | k in once ensures k in twice {
      FirstWins(once, kvs, k);
    }
    assert twice.Keys == once.Keys;
  }

  /** The key/row pairs `locations` receives: one per location tuple, keyed by `fix_ts`. */
  function LocationEntries(ts: seq<LocTuple>): (kvs: seq<(int, LocTuple)>)
    ensures |kvs| == |ts| && forall i :: 0 <= i < |ts| ==> kvs[i] == (ts[i].fixTs, ts[i])
  {
    seq(|ts|, i requires 0 <= i < |ts| => (ts[i].fixTs, ts[i]))
  }

  /** The key/row pairs `users` receives: one per user tuple, keyed by `id`. */
  function UserEntries(us: seq<UserTuple>): (kvs: seq<(int, string)>)
    ensures |kvs| == |us| && forall i :: 0 <= i < |us| ==> kvs[i] == (us[i].id, us[i].name)
  {
    seq(|us|, i requires 0 <= i < |us| => (us[i].id, us[i].name))
  }

  /** One stored sighting: an id assigned by the store and the inserted tuple. */
  datatype SightingRow = SightingRow(id: int, userId: int, fixTs: int, distance: int, expires: int)

  /** The rows appended for `ss` when the next free id is `start`: consecutive ids. */
  function Numbered(ss: seq<SightTuple>, start: int): (rows: seq<SightingRow>)
    ensures |rows| == |ss|
    ensures forall i :: 0 <= i < |ss| ==>
      rows[i] == SightingRow(start + i, ss[i].userId, ss[i].fixTs, ss[i].distance, ss[i].expires)
    ensures forall i :: 0 <= i < |rows| ==> start <= rows[i].id < start + |ss|
    ensures forall i, j :: 0 <= i < j < |rows| ==> rows[i].id < rows[j].id
  {
    seq(|ss|, i requires 0 <= i < |ss| =>
      SightingRow(start + i, ss[i].userId, ss[i].fixTs, ss[i].distance, ss[i].expires))
  }

  /** The range of an SQLite INTEGER: a signed 64-bit value. */
  const MinInteger: int := -0x8000_0000_0000_0000
  const MaxInteger: int := 0x7FFF_FFFF_FFFF_FFFF

  predicate Fits(n: int) {
    MinInteger <= n <= MaxInteger
  }

  /** Every integer the three `executemany` calls bind fits an SQLite INTEGER;
      sqlite3 raises OverflowError for one that does not, before the commit. */
  predicate TablesFit(t: Tables) {
    (forall i :: 0 <= i < |t.locs| ==>
      Fits(t.locs[i].fixTs) && Fits(t.locs[i].logTs) && Fits(t.locs[i].cmTs)) &&
    (forall i :: 0 <= i < |t.users| ==> Fits(t.users[i].id)) &&
    (forall i :: 0 <= i < |t.sights| ==>
      Fits(t.sights[i].userId) && Fits(t.sights[i].fixTs) &&
      Fits(t.sights[i].distance) && Fits(t.sights[i].expires))
  }

  /** A sighting of a complete parse names a user and a location that the same
      parse inserted, so both are stored once the inserts are done. */
  lemma SightingResolves(locs0: map<int, LocTuple>, users0: map<int, string>, t: Tables, k: nat)
    requires |t.users| == |t.sights| && k < |t.sights|
    requires t.users[k].id == t.sights[k].userId && t.sights[k].fixTs in FixSet(t.locs)
    ensures t.sights[k].userId in AddAll(users0, UserEntries(t.users))
    ensures t.sights[k].fixTs in AddAll(locs0, LocationEntries(t.locs))
  {
    KeysAfterAddAll(locs0, LocationEntries(t.locs));
    KeysAfterAddAll(users0, UserEntries(t.users));
    assert UserEntries(t.users)[k].0 == t.users[k].id;
    var loc :| loc in t.locs && loc.fixTs == t.sights[k].fixTs;
    var n :| 0 <= n < |t.locs| && t.locs[n] == loc;
    assert LocationEntries(t.locs)[n].0 == loc.fixTs;
  }

  /** A commit keeps every sighting resolvable: the old rows still resolve, as the
      tables only grow, and each new row names a user and a fix of the same parse. */
  lemma CommitResolves(locs0: map<int, LocTuple>, users0: map<int, string>,
                       rows0: seq<SightingRow>, t: Tables, start: int)
    requires forall j :: 0 <= j < |rows0| ==> rows0[j].userId in users0 && rows0[j].fixTs in locs0
    requires |t.users| == |t.sights|
    requires forall j :: 0 <= j < |t.sights| ==>
      t.users[j].id == t.sights[j].userId && t.sights[j].fixTs in FixSet(t.locs)
    ensures forall j :: 0 <= j < |rows0| + |t.sights| ==>
      (rows0 + Numbered(t.sights, start))[j].userId in AddAll(users0, UserEntries(t.users)) &&
      (rows0 + Numbered(t.sights, start))[j].fixTs in AddAll(locs0, LocationEntries(t.locs))
  {
    var rows := rows0 + Numbered(t.sights, start);
    KeysAfterAddAll(locs0, LocationEntries(t.locs));
    KeysAfterAddAll(users0, UserEntries(t.users));
    forall j | 0 <= j < |rows|
      ensures rows[j].userId in AddAll(users0, UserEntries(t.users))
      ensures rows[j].fixTs in AddAll(locs0, LocationEntries(t.locs))
    {
      if j >= |rows0| {
        SightingResolves(locs0, users0, t, j - |rows0|);
      }
    }
  }

  /** The record store: two tables keyed by their primary key and the append-only
      sightings table with its autoincrement counter. */
  class RecordStore {
    var locations: map<int, LocTuple>
    var users: map<int, string>
    var sightings: seq<SightingRow>
    var nextId: int

    /** Sighting ids are positive, strictly increasing and below the next id. */
    ghost predicate Valid()
      reads this
    {
      1 <= nextId &&
      (forall j :: 0 <= j < |sightings| ==> 1 <= sightings[j].id < nextId) &&
      (forall j, k :: 0 <= j < k < |sightings| ==> sightings[j].id < sightings[k].id)
    }

    /** Every sighting names a stored user and a stored location. */
    ghost predicate Referential()
      reads this
    {
      forall j :: 0 <= j < |sightings| ==>
        sightings[j].userId in users && sightings[j].fixTs in locations
    }

    /** The empty tables of `CREATE TABLE IF NOT EXISTS`. */
    constructor ()
      ensures Valid() && Referential()
      ensures locations == map[] && users == map[] && sightings == [] && nextId == 1
    {
      locations, users, sightings, nextId := map[], map[], [], 1;
    }

    /** `INSERT OR IGNORE INTO locations`. */
    method InsertLocation(t: LocTuple)
      requires Valid()
      modifies this
      ensures Valid()
      ensures locations == InsertOrIgnore(old(locations), t.fixTs, t)
      ensures users == old(users) && sightings == old(sightings) && nextId == old(nextId)
    {
      if t.fixTs !in locations {
        locations := locations[t.fixTs := t];
      }
    }

    /** `INSERT OR IGNORE INTO users`. */
    method InsertUser(u: UserTuple)
      requires Valid()
      modifies this
      ensures Valid()
      ensures users == InsertOrIgnore(old(users), u.id, u.name)
      ensures locations == old(locations) && sightings == old(sightings) && nextId == old(nextId)
    {
      if u.id !in users {
        users := users[u.id := u.name];
      }
    }

    /** `INSERT INTO sightings`: always appended, under the next id. */
    method InsertSighting(s: SightTuple) returns (id: int)
      requires Valid()
      modifies this
      ensures Valid()
      ensures id == old(nextId) && nextId == old(nextId) + 1
      ensures sightings == old(sightings) + [SightingRow(id, s.userId, s.fixTs, s.distance, s.expires)]
      ensures locations == old(locations) && users == old(users)
    {
      id := nextId;
      sightings := sightings + [SightingRow(id, s.userId, s.fixTs, s.distance, s.expires)];
      nextId := nextId + 1;
    }

    /** `executemany` over the location tuples. */
    method InsertLocations(ts: seq<LocTuple>)
      requires Valid()
      modifies this
      ensures Valid()
      ensures locations == AddAll(old(locations), LocationEntries(ts))
      ensures users == old(users) && sightings == old(sightings) && nextId == old(nextId)
    {
      for i := 0 to |ts|
        invariant locations == AddAll(old(locations), LocationEntries(ts[..i]))
        invariant users == old(users) && sightings == old(sightings) && nextId == old(nextId)
        invariant Valid()
      {
        assert LocationEntries(ts[..i + 1])[..i] == LocationEntries(ts[..i]);
        InsertLocation(ts[i]);
      }
      assert ts[..|ts|] == ts;
    }

    /** `executemany` over the user tuples. */
    method InsertUsers(us: seq<UserTuple>)
      requires Valid()
      modifies this
      ensures Valid()
      ensures users == AddAll(old(users), UserEntries(us))
      ensures locations == old(locations) && sightings == old(sightings) && nextId == old(nextId)
    {
      for i := 0 to |us|
        invariant users == AddAll(old(users), UserEntries(us[..i]))
        invariant locations == old(locations) && sightings == old(sightings) && nextId == old(nextId)
        invariant Valid()
      {
        assert UserEntries(us[..i + 1])[..i] == UserEntries(us[..i]);
        InsertUser(us[i]);
      }
      assert us[..|us|] == us;
    }

    /** `executemany` over the sighting tuples. */
    method InsertSightings(ss: seq<SightTuple>)
      requires Valid()
      modifies this
      ensures Valid()
      ensures sightings == old(sightings) + Numbered(ss, old(nextId))
      ensures nextId == old(nextId) + |ss|
      ensures locations == old(locations) && users == old(users)
    {
      for i := 0 to |ss|
        invariant Valid()
        invariant sightings == old(sightings) + Numbered(ss[..i], old(nextId))
        invariant nextId == old(nextId) + i
        invariant locations == old(locations) && users == old(users)
      {
        assert Numbered(ss[..i + 1], old(nextId)) == Numbered(ss[..i], old(nextId)) + [
          SightingRow(old(nextId) + i, ss[i].userId, ss[i].fixTs, ss[i].distance, ss[i].expires)];
        var _ := InsertSighting(ss[i]);
      }
      assert ss[..|ss|] == ss;
    }

    /** `main` of ingest.py: parse the whole log first; only a complete parse
        reaches the store, and then in the order locations, users, sightings.
        `committed` is false when the parse failed or an integer overflowed an
        SQLite INTEGER: the process then ends before `commit` and nothing is kept. */
    method IngestLog(lines: seq<string>, c: Coercion) returns (r: Result<Tables, IngestError>, committed: bool)
      requires Valid()
      modifies this
      ensures Valid()
      ensures r == Ingest(lines, c)
      ensures committed <==> r.Ok? && TablesFit(r.value)
      ensures !committed ==>
        locations == old(locations) && users == old(users) &&
        sightings == old(sightings) && nextId == old(nextId)
      ensures committed ==>
        locations == AddAll(old(locations), LocationEntries(r.value.locs)) &&
        users == AddAll(old(users), UserEntries(r.value.users)) &&
        sightings == old(sightings) + Numbered(r.value.sights, old(nextId)) &&
        nextId == old(nextId) + |r.value.sights|
      ensures old(Referential()) ==> Referential()
    {
      r := Parse(lines, c);
      if r.Err? || !TablesFit(r.value) {
        committed := false;
        return;
      }
      committed := true;
      var t := r.value;
      ghost var oldLocations, oldUsers, oldSightings, oldNextId := locations, users, sightings, nextId;
      ghost var wasReferential := Referential();
      InsertLocations(t.locs);
      InsertUsers(t.users);
      InsertSightings(t.sights);
      if wasReferential {
        CommitResolves(oldLocations, oldUsers, oldSightings, t, oldNextId);
      }
    }
  }
}
