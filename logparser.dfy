/** The parse loop of `main` in ingest.py: a single pass over the log lines
    with a line cursor, producing the location, user and sighting tuples. */
module LogParser {
  import opened Wrappers
  import opened Text
  import opened LineFormat

  const LocationMarker: string := "location update"
  const ListStartMarker: string := "peer update list start"
  const ListEndMarker: string := "peer update list end"
  const PeerMarker: string := "peer update"

  /** A row for the `locations` table; altitude and accuracy are optional. */
  datatype LocTuple = LocTuple(
    fixTs: int, logTs: int, cmTs: int, lat: real, lng: real, alt: Option<real>, acc: Option<real>)

  /** A row for the `users` table. */
  datatype UserTuple = UserTuple(id: int, name: string)

  /** A row for the `sightings` table, without its store-assigned id. */
  datatype SightTuple = SightTuple(userId: int, fixTs: int, distance: int, expires: int)

  /** The three tuple lists `main` hands to the store. */
  datatype Tables = Tables(locs: seq<LocTuple>, users: seq<UserTuple>, sights: seq<SightTuple>)

  /** Python's `int(str)` and `float(str)`, kept abstract: None where they raise ValueError. */
  datatype Coercion = Coercion(toInt: string -> Option<int>, toReal: string -> Option<real>)

  /** Every way the parse can abort; each aborts `main` before the store is opened. */
  datatype IngestError =
    | BadLine(cause: ExplodeError)  // explode_line raised
    | MissingKey(key: string)       // a dictionary lookup raised KeyError
    | BadNumber(key: string)        // int() or float() raised ValueError
    | UnexpectedEnd                 // next(f) raised StopIteration inside a block

  /** Python's `bool(s)` for a string: true iff it is non-empty (so "false" is true). */
  predicate Truthy(s: string) {
    |s| > 0
  }

  /** The flags are tested with `bool(str)`: the strings "false", "False" and "0"
      all count as set, and only the empty string counts as unset. */
  lemma FlagStrings()
    ensures Truthy("false") && Truthy("False") && Truthy("0")
    ensures forall s: string :: !Truthy(s) <==> s == ""
  {
  }

  function Field(m: map<string, string>, k: string): (r: Result<string, IngestError>)
    ensures r.Ok? <==> k in m
    ensures r.Ok? ==> r.value == m[k]
  {
    if k in m then Ok(m[k]) else Err(MissingKey(k))
  }

  function IntField(m: map<string, string>, k: string, c: Coercion): (r: Result<int, IngestError>)
    ensures r.Ok? <==> k in m && c.toInt(m[k]).Some?
    ensures r.Ok? ==> c.toInt(m[k]) == Some(r.value)
  {
    var s :- Field(m, k);
    match c.toInt(s)
    case None => Err(BadNumber(k))
    case Some(n) => Ok(n)
  }

  function RealField(m: map<string, string>, k: string, c: Coercion): (r: Result<real, IngestError>)
    ensures r.Ok? <==> k in m && c.toReal(m[k]).Some?
    ensures r.Ok? ==> c.toReal(m[k]) == Some(r.value)
  {
    var s :- Field(m, k);
    match c.toReal(s)
    case None => Err(BadNumber(k))
    case Some(x) => Ok(x)
  }

  /** The key is present and `int()` accepts its value. */
  predicate IntReadable(m: map<string, string>, k: string, c: Coercion) {
    k in m && c.toInt(m[k]).Some?
  }

  /** The key is present and `float()` accepts its value. */
  predicate RealReadable(m: map<string, string>, k: string, c: Coercion) {
    k in m && c.toReal(m[k]).Some?
  }

  /** `float(l[k]) if bool(l[flag]) else None`: the value is read only when the flag is truthy. */
  function OptionalReal(m: map<string, string>, flag: string, k: string, c: Coercion): (r: Result<Option<real>, IngestError>)
    ensures r.Ok? ==> flag in m && (r.value.Some? <==> Truthy(m[flag]))
    ensures r.Ok? && r.value.Some? ==> k in m && c.toReal(m[k]) == r.value
    ensures flag in m && !Truthy(m[flag]) ==> r == Ok(None)
  {
    var f :- Field(m, flag);
    if Truthy(f) then
      var x :- RealField(m, k, c);
      Ok(Some(x))
    else Ok(None)
  }

  /** The location tuple of an exploded `location update` line, fields read in source order. */
  function MakeLocation(l: map<string, string>, c: Coercion): (r: Result<LocTuple, IngestError>)
    ensures r.Ok? <==>
      IntReadable(l, "fixTs", c) && IntReadable(l, "currentTs", c) && IntReadable(l, "cmTs", c) &&
      RealReadable(l, "lat", c) && RealReadable(l, "lng", c) &&
      "hasAlt" in l && (Truthy(l["hasAlt"]) ==> RealReadable(l, "alt", c)) &&
      "hasAcc" in l && (Truthy(l["hasAcc"]) ==> RealReadable(l, "acc", c))
    ensures r.Ok? ==>
      c.toInt(l["fixTs"]) == Some(r.value.fixTs) && c.toInt(l["currentTs"]) == Some(r.value.logTs) &&
      c.toInt(l["cmTs"]) == Some(r.value.cmTs) &&
      c.toReal(l["lat"]) == Some(r.value.lat) && c.toReal(l["lng"]) == Some(r.value.lng)
    ensures r.Ok? ==> r.value.alt == if Truthy(l["hasAlt"]) then c.toReal(l["alt"]) else None
    ensures r.Ok? ==> r.value.acc == if Truthy(l["hasAcc"]) then c.toReal(l["acc"]) else None
  {
    var fixTs :- IntField(l, "fixTs", c);
    var logTs :- IntField(l, "currentTs", c);
    var cmTs :- IntField(l, "cmTs", c);
    var lat :- RealField(l, "lat", c);
    var lng :- RealField(l, "lng", c);
    var alt :- OptionalReal(l, "hasAlt", "alt", c);
    var acc :- OptionalReal(l, "hasAcc", "acc", c);
    Ok(LocTuple(fixTs, logTs, cmTs, lat, lng, alt, acc))
  }

  /** The user and sighting tuples of an exploded `peer update` line seen under fix `fixTs`. */
  function MakePeer(p: map<string, string>, fixTs: int, c: Coercion): (r: Result<(UserTuple, SightTuple), IngestError>)
    ensures r.Ok? <==>
      IntReadable(p, "id", c) && "displayName" in p &&
      IntReadable(p, "distance", c) && IntReadable(p, "expires", c)
    ensures r.Ok? ==> c.toInt(p["id"]) == Some(r.value.0.id) && r.value.0.name == p["displayName"]
    ensures r.Ok? ==> r.value.1.userId == r.value.0.id && r.value.1.fixTs == fixTs
    ensures r.Ok? ==>
      c.toInt(p["distance"]) == Some(r.value.1.distance) && c.toInt(p["expires"]) == Some(r.value.1.expires)
  {
    var id :- IntField(p, "id", c);
    var name :- Field(p, "displayName");
    var distance :- IntField(p, "distance", c);
    var expires :- IntField(p, "expires", c);
    Ok((UserTuple(id, name), SightTuple(id, fixTs, distance, expires)))
  }

  /** Where the cursor is in the block structure of the log. */
  datatype Phase =
    | SeekLocation   // the `for line in f` loop, looking for `location update`
    | SeekListStart  // the first inner loop, looking for `peer update list start`
    | InPeerList     // the list loop, up to `peer update list end`

  /** The accepted fix: its raw `fixTs` string (what deduplication compares) and its value. */
  datatype Fix = Fix(raw: string, ts: int)

  /** The parser's variables: its phase, `last_loc` and the three tuple lists. */
  datatype ParseState = ParseState(
    phase: Phase, last: Option<Fix>, locs: seq<LocTuple>, users: seq<UserTuple>, sights: seq<SightTuple>)

  const Start: ParseState := ParseState(SeekLocation, None, [], [], [])

  function FixSet(locs: seq<LocTuple>): set<int> {
    set l | l in locs :: l.fixTs
  }

  /** What the parser keeps true: a block is entered only after a fix was accepted,
      the last accepted fix is the last location tuple, and users and sightings
      grow together, each sighting naming its user and an emitted location. */
  ghost predicate Consistent(st: ParseState) {
    (st.phase != SeekLocation ==> st.last.Some?) &&
    (st.last.None? <==> st.locs == []) &&
    (st.last.Some? ==> st.locs[|st.locs| - 1].fixTs == st.last.value.ts) &&
    |st.users| == |st.sights| &&
    (forall j :: 0 <= j < |st.sights| ==>
      st.users[j].id == st.sights[j].userId && st.sights[j].fixTs in FixSet(st.locs))
  }

  /** Accepting a new fix: it becomes `last_loc` and its location tuple is emitted. */
  function Accept(st: ParseState, phase: Phase, fix: Fix, loc: LocTuple): (r: ParseState)
    requires Consistent(st) && loc.fixTs == fix.ts
    ensures Consistent(r)
    ensures r.phase == phase && r.last == Some(fix)
    ensures r.locs == st.locs + [loc] && r.users == st.users && r.sights == st.sights
  {
    var r := ParseState(phase, Some(fix), st.locs + [loc], st.users, st.sights);
    assert FixSet(st.locs) <= FixSet(r.locs);
    r
  }

  /** Recording one peer line: one user tuple and one sighting tuple, together. */
  function Record(st: ParseState, u: UserTuple, s: SightTuple): (r: ParseState)
    requires Consistent(st) && st.last.Some? && u.id == s.userId && s.fixTs == st.last.value.ts
    ensures Consistent(r)
    ensures r.users == st.users + [u] && r.sights == st.sights + [s]
    ensures r.phase == st.phase && r.last == st.last && r.locs == st.locs
  {
    assert st.locs[|st.locs| - 1] in st.locs;
    st.(users := st.users + [u], sights := st.sights + [s])
  }

  /** How one line moves the parser. */
  function Step(st: ParseState, line: string, c: Coercion): (r: Result<ParseState, IngestError>)
    requires Consistent(st)
    ensures r.Ok? ==> Consistent(r.value)
  {
    match st.phase
    case SeekLocation =>
      if !Contains(line, LocationMarker) then Ok(st)
      else
        (match Explode(line)
         case Err(e) => Err(BadLine(e))
         case Ok(l) =>
           if st.last.Some? && "fixTs" !in l then Err(MissingKey("fixTs"))
           else if st.last.Some? && l["fixTs"] == st.last.value.raw then Ok(st)
           else
             match MakeLocation(l, c)
             case Err(e) => Err(e)
             case Ok(loc) =>
               var phase := if Contains(line, ListStartMarker) then InPeerList else SeekListStart;
               Ok(Accept(st, phase, Fix(l["fixTs"], loc.fixTs), loc)))
    case SeekListStart =>
      Ok(st.(phase := if Contains(line, ListStartMarker) then InPeerList else SeekListStart))
    case InPeerList =>
      if Contains(line, ListEndMarker) then Ok(st.(phase := SeekLocation))
      else if !Contains(line, PeerMarker) then Ok(st)
      else
        match Explode(line)
        case Err(e) => Err(BadLine(e))
        case Ok(p) =>
          match MakePeer(p, st.last.value.ts, c)
          case Err(e) => Err(e)
          case Ok((u, s)) => Ok(Record(st, u, s))
  }

  /** Outside a block, a line without `location update` changes nothing,
      so the peer lines of a dropped block are passed over here. */
  lemma StepOutsideBlock(st: ParseState, line: string, c: Coercion)
    requires Consistent(st) && st.phase == SeekLocation && !Contains(line, LocationMarker)
    ensures Step(st, line, c) == Ok(st)
  {
  }

  /** A `location update` whose raw `fixTs` equals that of the last accepted
      fix emits nothing and leaves `last_loc` and the phase unchanged. */
  lemma StepDuplicateFix(st: ParseState, line: string, c: Coercion, l: map<string, string>)
    requires Consistent(st) && st.phase == SeekLocation && Contains(line, LocationMarker)
    requires Explode(line) == Ok(l) && st.last.Some? && "fixTs" in l && l["fixTs"] == st.last.value.raw
    ensures Step(st, line, c) == Ok(st)
  {
  }

  /** A `location update` is accepted whenever its raw `fixTs` differs from the
      last accepted one, whatever fixes were accepted before that: its tuple is
      emitted, it becomes `last_loc`, and the search for the list start begins
      with this very line. */
  lemma StepNewFix(st: ParseState, line: string, c: Coercion, l: map<string, string>, loc: LocTuple)
    requires Consistent(st) && st.phase == SeekLocation && Contains(line, LocationMarker)
    requires Explode(line) == Ok(l) && MakeLocation(l, c) == Ok(loc)
    requires st.last.None? || l["fixTs"] != st.last.value.raw
    ensures Step(st, line, c) == Ok(ParseState(
      if Contains(line, ListStartMarker) then InPeerList else SeekListStart,
      Some(Fix(l["fixTs"], loc.fixTs)), st.locs + [loc], st.users, st.sights))
  {
  }

  /** Waiting for the list start, every line is consumed and only the marker moves on. */
  lemma StepAwaitStart(st: ParseState, line: string, c: Coercion)
    requires Consistent(st) && st.phase == SeekListStart
    ensures Step(st, line, c) ==
      Ok(st.(phase := if Contains(line, ListStartMarker) then InPeerList else SeekListStart))
  {
  }

  /** Inside the list, the scan ends exactly at a line holding `peer update list end`. */
  lemma StepListEnds(st: ParseState, line: string, c: Coercion)
    requires Consistent(st) && st.phase == InPeerList && Step(st, line, c).Ok?
    ensures Step(st, line, c).value.phase == SeekLocation <==> Contains(line, ListEndMarker)
    ensures Contains(line, ListEndMarker) ==> Step(st, line, c) == Ok(st.(phase := SeekLocation))
  {
  }

  /** Inside the list, a line without `peer update` is skipped and the scan goes on. */
  lemma StepListNoise(st: ParseState, line: string, c: Coercion)
    requires Consistent(st) && st.phase == InPeerList
    requires !Contains(line, ListEndMarker) && !Contains(line, PeerMarker)
    ensures Step(st, line, c) == Ok(st)
  {
  }

  /** Inside the list, a `peer update` line adds one user tuple and one sighting
      tuple, the sighting carrying the `fixTs` of the last accepted fix. */
  lemma StepPeer(st: ParseState, line: string, c: Coercion, p: map<string, string>, u: UserTuple, s: SightTuple)
    requires Consistent(st) && st.phase == InPeerList
    requires !Contains(line, ListEndMarker) && Contains(line, PeerMarker)
    requires Explode(line) == Ok(p) && MakePeer(p, st.last.value.ts, c) == Ok((u, s))
    ensures Step(st, line, c) == Ok(st.(users := st.users + [u], sights := st.sights + [s]))
    ensures s.fixTs == st.last.value.ts == st.locs[|st.locs| - 1].fixTs && s.userId == u.id
  {
  }

  /** The parser after consuming `lines` from state `st`, one `Step` per line. */
  function Run(st: ParseState, lines: seq<string>, c: Coercion): (r: Result<ParseState, IngestError>)
    requires Consistent(st)
    ensures r.Ok? ==> Consistent(r.value)
    decreases |lines|
  {
    if lines == [] then Ok(st)
    else
      match Run(st, lines[..|lines| - 1], c)
      case Err(e) => Err(e)
      case Ok(s) => Step(s, lines[|lines| - 1], c)
  }

  /** The specification of the parse: run every line, then require that the
      input did not end inside a block (where `next(f)` would have raised). */
  function Ingest(lines: seq<string>, c: Coercion): (r: Result<Tables, IngestError>)
    ensures r.Ok? ==> |r.value.users| == |r.value.sights|
    ensures r.Ok? ==> forall j :: 0 <= j < |r.value.sights| ==>
      r.value.users[j].id == r.value.sights[j].userId && r.value.sights[j].fixTs in FixSet(r.value.locs)
  {
    match Run(Start, lines, c)
    case Err(e) => Err(e)
    case Ok(st) =>
      if st.phase != SeekLocation then Err(UnexpectedEnd)
      else Ok(Tables(st.locs, st.users, st.sights))
  }

  /** Running one more line is one more `Step`. */
  lemma RunPrefix(st: ParseState, lines: seq<string>, i: nat, c: Coercion)
    requires Consistent(st)
    requires 0 < i <= |lines|
    ensures Run(st, lines[..i], c) ==
      match Run(st, lines[..i - 1], c)
      case Err(e) => Err(e)
      case Ok(s) => Step(s, lines[i - 1], c)
  {
    assert lines[..i][..i - 1] == lines[..i - 1];
  }

  /** Once a line fails, the whole parse fails with that error. */
  lemma {:induction false} RunErrSticks(st: ParseState, lines: seq<string>, k: nat, c: Coercion)
    requires Consistent(st)
    requires k <= |lines| && Run(st, lines[..k], c).Err?
    ensures Run(st, lines, c) == Run(st, lines[..k], c)
    decreases |lines|
  {
    if k < |lines| {
      var init := lines[..|lines| - 1];
      assert init[..k] == lines[..k];
      RunErrSticks(st, init, k, c);
    } else {
      assert lines[..k] == lines;
    }
  }

  /** Running two pieces of input one after the other is running their concatenation. */
  lemma {:induction false} RunAppend(st: ParseState, a: seq<string>, b: seq<string>, c: Coercion)
    requires Consistent(st)
    ensures Run(st, a + b, c) ==
      match Run(st, a, c)
      case Err(e) => Err(e)
      case Ok(s) => Run(s, b, c)
    decreases |b|
  {
    if b == [] {
      assert a + b == a;
    } else {
      var b' := b[..|b| - 1];
      assert (a + b)[..|a + b| - 1] == a + b';
      assert (a + b)[|a + b| - 1] == b[|b| - 1];
      RunAppend(st, a, b', c);
    }
  }

  /** Outside a block, lines without `location update` leave the parser as it is. */
  lemma {:induction false} RunOutsideBlocks(st: ParseState, lines: seq<string>, c: Coercion)
    requires Consistent(st) && st.phase == SeekLocation
    requires forall j :: 0 <= j < |lines| ==> !Contains(lines[j], LocationMarker)
    ensures Run(st, lines, c) == Ok(st)
    decreases |lines|
  {
    if lines != [] {
      RunOutsideBlocks(st, lines[..|lines| - 1], c);
    }
  }

  /** A repeated fix drops its whole block: the `location update` line with the
      same raw `fixTs` as the last accepted fix, and all its peer lines up to the
      next `location update`, leave the parser exactly as it was, so neither a
      location nor any user or sighting is emitted for it. */
  lemma DuplicateBlockDropped(st: ParseState, locLine: string, rest: seq<string>, c: Coercion, l: map<string, string>)
    requires Consistent(st) && st.phase == SeekLocation && st.last.Some?
    requires Contains(locLine, LocationMarker) && Explode(locLine) == Ok(l)
    requires "fixTs" in l && l["fixTs"] == st.last.value.raw
    requires forall j :: 0 <= j < |rest| ==> !Contains(rest[j], LocationMarker)
    ensures Run(st, [locLine] + rest, c) == Ok(st)
  {
    RunAppend(st, [locLine], rest, c);
    assert [locLine][..0] == [];
    StepDuplicateFix(st, locLine, c, l);
    RunOutsideBlocks(st, rest, c);
  }

  /** Consuming line `i - 1` from a state that `lines[..i - 1]` reaches: the
      cursor lemmas below name the outcome of each branch of `Step`. */
  lemma Advance(lines: seq<string>, i: nat, c: Coercion, st: ParseState)
    requires 0 < i <= |lines| && Consistent(st) && Run(Start, lines[..i - 1], c) == Ok(st)
    ensures Run(Start, lines[..i], c) == Step(st, lines[i - 1], c)
  {
    RunPrefix(Start, lines, i, c);
  }

  /** A line that makes `Step` fail makes the whole parse fail with its error. */
  lemma AbortAt(lines: seq<string>, i: nat, c: Coercion, st: ParseState)
    requires 0 < i <= |lines| && Consistent(st) && Run(Start, lines[..i - 1], c) == Ok(st)
    requires Step(st, lines[i - 1], c).Err?
    ensures Ingest(lines, c) == Err(Step(st, lines[i - 1], c).error)
  {
    Advance(lines, i, c, st);
    RunErrSticks(Start, lines, i, c);
  }

  /** Input that ends while the parser is inside a block is an error. */
  lemma EndsInside(lines: seq<string>, c: Coercion, st: ParseState)
    requires Run(Start, lines, c) == Ok(st) && st.phase != SeekLocation
    ensures Ingest(lines, c) == Err(UnexpectedEnd)
  {
  }

  lemma SkipOutside(lines: seq<string>, i: nat, c: Coercion, st: ParseState)
    requires 0 < i <= |lines| && Consistent(st) && Run(Start, lines[..i - 1], c) == Ok(st)
    requires st.phase == SeekLocation && !Contains(lines[i - 1], LocationMarker)
    ensures Run(Start, lines[..i], c) == Ok(st)
  {
    Advance(lines, i, c, st);
    StepOutsideBlock(st, lines[i - 1], c);
  }

  lemma SkipDuplicate(lines: seq<string>, i: nat, c: Coercion, st: ParseState, l: map<string, string>)
    requires 0 < i <= |lines| && Consistent(st) && Run(Start, lines[..i - 1], c) == Ok(st)
    requires st.phase == SeekLocation && Contains(lines[i - 1], LocationMarker)
    requires Explode(lines[i - 1]) == Ok(l) && st.last.Some? && "fixTs" in l && l["fixTs"] == st.last.value.raw
    ensures Run(Start, lines[..i], c) == Ok(st)
  {
    Advance(lines, i, c, st);
    StepDuplicateFix(st, lines[i - 1], c, l);
  }

  lemma TakeFix(lines: seq<string>, i: nat, c: Coercion, st: ParseState, l: map<string, string>, loc: LocTuple)
    requires 0 < i <= |lines| && Consistent(st) && Run(Start, lines[..i - 1], c) == Ok(st)
    requires st.phase == SeekLocation && Contains(lines[i - 1], LocationMarker)
    requires Explode(lines[i - 1]) == Ok(l) && MakeLocation(l, c) == Ok(loc)
    requires st.last.None? || l["fixTs"] != st.last.value.raw
    ensures Run(Start, lines[..i], c) ==
      Ok(ParseState(AfterFix(lines[i - 1]), Some(Fix(l["fixTs"], loc.fixTs)), st.locs + [loc], st.users, st.sights))
  {
    Advance(lines, i, c, st);
    StepNewFix(st, lines[i - 1], c, l, loc);
  }

  lemma AwaitStart(lines: seq<string>, i: nat, c: Coercion, st: ParseState)
    requires 0 < i <= |lines| && Consistent(st) && Run(Start, lines[..i - 1], c) == Ok(st)
    requires st.phase == SeekListStart
    ensures Run(Start, lines[..i], c) ==
      Ok(st.(phase := if Contains(lines[i - 1], ListStartMarker) then InPeerList else SeekListStart))
  {
    Advance(lines, i, c, st);
    StepAwaitStart(st, lines[i - 1], c);
  }

  lemma SkipNoise(lines: seq<string>, i: nat, c: Coercion, st: ParseState)
    requires 0 < i <= |lines| && Consistent(st) && Run(Start, lines[..i - 1], c) == Ok(st)
    requires st.phase == InPeerList && !Contains(lines[i - 1], ListEndMarker) && !Contains(lines[i - 1], PeerMarker)
    ensures Run(Start, lines[..i], c) == Ok(st)
  {
    Advance(lines, i, c, st);
    StepListNoise(st, lines[i - 1], c);
  }

  lemma TakePeer(lines: seq<string>, i: nat, c: Coercion, st: ParseState, p: map<string, string>, u: UserTuple, s: SightTuple)
    requires 0 < i <= |lines| && Consistent(st) && Run(Start, lines[..i - 1], c) == Ok(st)
    requires st.phase == InPeerList && !Contains(lines[i - 1], ListEndMarker) && Contains(lines[i - 1], PeerMarker)
    requires Explode(lines[i - 1]) == Ok(p) && MakePeer(p, st.last.value.ts, c) == Ok((u, s))
    ensures Run(Start, lines[..i], c) == Ok(st.(users := st.users + [u], sights := st.sights + [s]))
  {
    Advance(lines, i, c, st);
    StepPeer(st, lines[i - 1], c, p, u, s);
  }

  lemma CloseList(lines: seq<string>, i: nat, c: Coercion, st: ParseState)
    requires 0 < i <= |lines| && Consistent(st) && Run(Start, lines[..i - 1], c) == Ok(st)
    requires st.phase == InPeerList && Contains(lines[i - 1], ListEndMarker)
    ensures Run(Start, lines[..i], c) == Ok(st.(phase := SeekLocation))
  {
    Advance(lines, i, c, st);
    StepListEnds(st, lines[i - 1], c);
  }

  /** The phase a freshly accepted `location update` line leaves the parser in:
      the search for the list start begins with that very line. */
  function AfterFix(line: string): Phase {
    if Contains(line, ListStartMarker) then InPeerList else SeekListStart
  }

  /** The main loop of `main`: `for line in f`, with the two inner loops below
      advancing the same line cursor. */
  method Parse(lines: seq<string>, c: Coercion) returns (r: Result<Tables, IngestError>)
    ensures r == Ingest(lines, c)
  {
    var locs: seq<LocTuple> := [];
    var users: seq<UserTuple> := [];
    var sights: seq<SightTuple> := [];
    var last: Option<Fix> := None;
    var i := 0;
    while i < |lines|
      invariant 0 <= i <= |lines|
      invariant Run(Start, lines[..i], c) == Ok(ParseState(SeekLocation, last, locs, users, sights))
      decreases |lines| - i
    {
      var line := lines[i];
      i := i + 1;
      if !Contains(line, LocationMarker) {
        SkipOutside(lines, i, c, ParseState(SeekLocation, last, locs, users, sights));
        continue;
      }
      var taken := LocationLine(lines, c, i, last, locs, users, sights);
      if taken.Err? {
        return Err(taken.error);
      }
      if taken.value.None? {
        continue;
      }
      var (fix, loc) := taken.value.value;
      last := Some(fix);
      locs := locs + [loc];
      var j := SkipToListStart(lines, c, i, fix, locs, users, sights);
      if j.Err? {
        return Err(j.error);
      }
      // the first line of the list
      if j.value == |lines| {
        assert lines[..j.value] == lines;
        EndsInside(lines, c, ParseState(InPeerList, last, locs, users, sights));
        return Err(UnexpectedEnd);
      }
      var scanned := ScanPeerList(lines, c, j.value, fix, locs, users, sights);
      if scanned.Err? {
        return Err(scanned.error);
      }
      i, users, sights := scanned.value.0, scanned.value.1, scanned.value.2;
    }
    assert lines[..i] == lines;
    r := Ok(Tables(locs, users, sights));
  }

  /** One `location update` line at `lines[i - 1]`, outside a block: the fix it
      accepts, None when it repeats the last fix, or the error that aborts the parse. */
  method LocationLine(lines: seq<string>, c: Coercion, i: nat, last: Option<Fix>,
                      locs: seq<LocTuple>, users: seq<UserTuple>, sights: seq<SightTuple>)
    returns (r: Result<Option<(Fix, LocTuple)>, IngestError>)
    requires 0 < i <= |lines| && Contains(lines[i - 1], LocationMarker)
    requires Run(Start, lines[..i - 1], c) == Ok(ParseState(SeekLocation, last, locs, users, sights))
    ensures r.Ok? && r.value.None? ==>
      Run(Start, lines[..i], c) == Ok(ParseState(SeekLocation, last, locs, users, sights))
    ensures r.Ok? && r.value.Some? ==>
      Run(Start, lines[..i], c) ==
        Ok(ParseState(AfterFix(lines[i - 1]), Some(r.value.value.0), locs + [r.value.value.1], users, sights))
    ensures r.Err? ==> Ingest(lines, c) == Err(r.error)
  {
    ghost var st := ParseState(SeekLocation, last, locs, users, sights);
    var line := lines[i - 1];
    var l := ExplodeLine(line);
    if l.Err? {
      AbortAt(lines, i, c, st);
      return Err(BadLine(l.error));
    }
    if last.Some? && "fixTs" !in l.value {
      AbortAt(lines, i, c, st);
      return Err(MissingKey("fixTs"));
    }
    if last.Some? && l.value["fixTs"] == last.value.raw {
      // the GPS fix has not changed: drop this update
      SkipDuplicate(lines, i, c, st, l.value);
      return Ok(None);
    }
    var loc := MakeLocation(l.value, c);
    if loc.Err? {
      AbortAt(lines, i, c, st);
      return Err(loc.error);
    }
    TakeFix(lines, i, c, st, l.value, loc.value);
    r := Ok(Some((Fix(l.value["fixTs"], loc.value.fixTs), loc.value)));
  }

  /** No line with index in `[a, b)` holds `marker`: the lines a scan loop has passed over. */
  ghost predicate MarkerAbsent(lines: seq<string>, a: int, b: int, marker: string) {
    forall k :: a <= k < b && 0 <= k < |lines| ==> !Contains(lines[k], marker)
  }

  lemma MarkerAbsentExtend(lines: seq<string>, a: int, b: int, marker: string)
    requires MarkerAbsent(lines, a, b, marker) && 0 <= b < |lines| && !Contains(lines[b], marker)
    ensures MarkerAbsent(lines, a, b + 1, marker)
  {
  }

  /** The first inner loop of `main`: from the accepted location line at
      `lines[i0 - 1]`, the cursor moves to the line holding the list start. */
  method SkipToListStart(lines: seq<string>, c: Coercion, i0: nat, last: Fix,
                         locs: seq<LocTuple>, users: seq<UserTuple>, sights: seq<SightTuple>)
    returns (r: Result<nat, IngestError>)
    requires 0 < i0 <= |lines|
    requires Run(Start, lines[..i0], c) == Ok(ParseState(AfterFix(lines[i0 - 1]), Some(last), locs, users, sights))
    ensures r.Ok? ==> i0 <= r.value <= |lines| && Contains(lines[r.value - 1], ListStartMarker)
    ensures r.Ok? ==> MarkerAbsent(lines, i0 - 1, r.value - 1, ListStartMarker)
    ensures r.Ok? ==> Run(Start, lines[..r.value], c) == Ok(ParseState(InPeerList, Some(last), locs, users, sights))
    ensures r.Err? ==> r.error == UnexpectedEnd && Ingest(lines, c) == Err(UnexpectedEnd)
  {
    var i := i0;
    var line := lines[i - 1];
    while !Contains(line, ListStartMarker)
      invariant i0 <= i <= |lines| && line == lines[i - 1]
      invariant MarkerAbsent(lines, i0 - 1, i - 1, ListStartMarker)
      invariant Run(Start, lines[..i], c) == Ok(ParseState(AfterFix(line), Some(last), locs, users, sights))
      decreases |lines| - i
    {
      if i == |lines| {
        assert lines[..i] == lines;
        EndsInside(lines, c, ParseState(SeekListStart, Some(last), locs, users, sights));
        return Err(UnexpectedEnd);
      }
      MarkerAbsentExtend(lines, i0 - 1, i - 1, ListStartMarker);
      line := lines[i];
      i := i + 1;
      AwaitStart(lines, i, c, ParseState(SeekListStart, Some(last), locs, users, sights));
    }
    r := Ok(i);
  }

  /** The list loop of `main`: `lines[..i0]` ends with the list start; scans
      from `lines[i0]` up to the list end, returning the cursor past it and the
      extended user and sighting lists. */
  method ScanPeerList(lines: seq<string>, c: Coercion, i0: nat, last: Fix,
                      locs: seq<LocTuple>, users0: seq<UserTuple>, sights0: seq<SightTuple>)
    returns (r: Result<(nat, seq<UserTuple>, seq<SightTuple>), IngestError>)
    requires i0 < |lines|
    requires Run(Start, lines[..i0], c) == Ok(ParseState(InPeerList, Some(last), locs, users0, sights0))
    ensures r.Ok? ==> i0 < r.value.0 <= |lines| && Contains(lines[r.value.0 - 1], ListEndMarker)
    ensures r.Ok? ==> MarkerAbsent(lines, i0, r.value.0 - 1, ListEndMarker)
    ensures r.Ok? ==>
      Run(Start, lines[..r.value.0], c) == Ok(ParseState(SeekLocation, Some(last), locs, r.value.1, r.value.2))
    ensures r.Err? ==> Ingest(lines, c) == Err(r.error)
  {
    var i := i0 + 1;
    var line := lines[i0];
    var users, sights := users0, sights0;
    while !Contains(line, ListEndMarker)
      invariant i0 < i <= |lines| && line == lines[i - 1]
      invariant MarkerAbsent(lines, i0, i - 1, ListEndMarker)
      invariant Run(Start, lines[..i - 1], c) == Ok(ParseState(InPeerList, Some(last), locs, users, sights))
      decreases |lines| - i
    {
      var taken := PeerLine(lines, c, i, last, locs, users, sights);
      if taken.Err? {
        return Err(taken.error);
      }
      users, sights := taken.value.0, taken.value.1;
      if i == |lines| {
        assert lines[..i] == lines;
        EndsInside(lines, c, ParseState(InPeerList, Some(last), locs, users, sights));
        return Err(UnexpectedEnd);
      }
      MarkerAbsentExtend(lines, i0, i - 1, ListEndMarker);
      line := lines[i];
      i := i + 1;
    }
    CloseList(lines, i, c, ParseState(InPeerList, Some(last), locs, users, sights));
    r := Ok((i, users, sights));
  }

  /** One line inside the peer list, other than its end: a `peer update` line
      adds its user and sighting, any other line is skipped. */
  method PeerLine(lines: seq<string>, c: Coercion, i: nat, last: Fix,
                  locs: seq<LocTuple>, users: seq<UserTuple>, sights: seq<SightTuple>)
    returns (r: Result<(seq<UserTuple>, seq<SightTuple>), IngestError>)
    requires 0 < i <= |lines| && !Contains(lines[i - 1], ListEndMarker)
    requires Run(Start, lines[..i - 1], c) == Ok(ParseState(InPeerList, Some(last), locs, users, sights))
    ensures r.Ok? ==> Run(Start, lines[..i], c) == Ok(ParseState(InPeerList, Some(last), locs, r.value.0, r.value.1))
    ensures r.Ok? && !Contains(lines[i - 1], PeerMarker) ==> r.value == (users, sights)
    ensures r.Err? ==> Ingest(lines, c) == Err(r.error)
  {
    ghost var st := ParseState(InPeerList, Some(last), locs, users, sights);
    var line := lines[i - 1];
    if !Contains(line, PeerMarker) {
      // noise inside the list is skipped
      SkipNoise(lines, i, c, st);
      return Ok((users, sights));
    }
    var p := ExplodeLine(line);
    if p.Err? {
      AbortAt(lines, i, c, st);
      return Err(BadLine(p.error));
    }
    var peer := MakePeer(p.value, last.ts, c);
    if peer.Err? {
      AbortAt(lines, i, c, st);
      return Err(peer.error);
    }
    TakePeer(lines, i, c, st, p.value, peer.value.0, peer.value.1);
    r := Ok((users + [peer.value.0], sights + [peer.value.1]));
  }
}
