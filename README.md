# tg-nearby core, modelled in Dafny

tg-nearby records the "people nearby" feature of a Telegram client. A log
ingester (`ingest.py`) reads a debug log in which each GPS fix produces a
`location update` line, followed by a `peer update list start` line, one
`peer update` line per nearby user, and a `peer update list end` line. It turns
these lines into location, user and sighting tuples and writes them to three
SQLite tables. A small HTTP server (`server/server.py`) answers queries about
one user. It filters that user's sightings by distance and by GPS accuracy and
splits them at 100 m. It picks an initial guess for the user's position and
then hands a mean-squared-error objective to a numerical minimizer.

The model covers:

- `Text`: the string primitives the ingester relies on. These are Python's
  `in`, `str.index` and `str.split` with a separator, plus `str.join` as the
  inverse of `split`.
- `LineFormat`: `explode_line`, the `[k=v, k="v", ...]` field parser, with
  every error it can raise.
- `LogParser`: the parse loop of `main`. The specification is a left fold of
  one `Step` per line over a three-phase state: looking for a location line,
  looking for the list start, and inside the peer list. The implementation
  (`Parse` with `LocationLine`, `SkipToListStart`, `ScanPeerList` and
  `PeerLine`) advances one line cursor exactly as the nested `while` loops do.
  Each of these methods is proved against the fold.
- `Store`: the three tables as a class. `locations` and `users` are maps keyed
  by primary key, filled with `INSERT OR IGNORE`. `sightings` is an
  append-only sequence with an autoincrement counter. `IngestLog` parses first
  and writes only after a complete parse.
- `Query`: `handle_api_query` and `mse`. `FilterRows` is the row loop,
  `Centroid` the averaging loop and `HandleQuery` the decision. `geopy`'s
  distance and `scipy`'s `minimize` are function parameters.

Python's `int()` and `float()` on field strings are a parameter too (the
`Coercion` value): `None` stands for the inputs on which they raise
`ValueError`. `bool()` on a string is modelled exactly: a string is truthy iff
it is non-empty.

Behaviour of the code that is easy to miss, and how the model treats it:

- Accuracy: `acc > max_acc` with `acc = None` raises `TypeError`, so the
  request fails. The model returns `Err(AccuracyMissing)` for such a row.
- Optional fields: altitude and accuracy are read when `bool()` of the raw
  flag string is true, so a flag `"false"` also reads the field.
- Repeated fixes: a `location update` line that repeats the last accepted
  `fixTs` hits `continue`, which returns to the outer `for` loop. The rest of
  that block is then read by the outer loop, which skips every line without
  `location update`. Two consequences follow. Any line of the dropped block
  that contains `location update` is parsed as a new location line; this
  includes lines before the list start, noise lines in the list and the list
  start and end lines. Input that ends inside the dropped block ends the `for`
  loop normally, so the parse succeeds instead of raising `StopIteration`. The
  model follows the code; `StepDuplicateFix` and `DuplicateBlockDropped`
  state it.
- No initial guess: with no near row and every far distance at or above the
  starting 1e9, `initial_guess` stays `None`, and `minimize` would be called
  without a starting point. The model returns `Err(NoInitialGuess)` there.
- Integer width: SQLite INTEGER columns hold signed 64-bit values. An `int()`
  result outside that range makes `executemany` raise `OverflowError` before
  `commit`, so nothing from that log is kept. `IngestLog` reports this with
  `committed = false` and leaves every table unchanged.

## Model

| member | source | states |
|---|---|---|
| Text.FindFrom | ingest.py:35 | the result is the first occurrence of the pattern at or after the start, and None means there is no occurrence there |
| Text.Find | ingest.py:35 | the first occurrence of the pattern anywhere, and none before it; None iff the pattern does not occur |
| Text.ContainsMeansOccurs | ingest.py:35 | any occurrence of the pattern makes the `in` test true |
| Text.OccursAtChar | ingest.py:8 | a one-character pattern occurs at i iff position i holds that character |
| Text.IndexOf | ingest.py:8 | `str.index`: the position holds the character and no earlier position does; None (ValueError) iff the character is absent |
| Text.Split | ingest.py:10-11 | `str.split` always yields at least one piece |
| Text.JoinSplit | ingest.py:10-11 | joining the pieces of a split with the separator gives the input back |
| Text.SplitPiecesFree | ingest.py:10-11 | no piece of a split contains the separator |
| Text.SplitHead | ingest.py:11-13 | without a separator the split is the input itself; otherwise the first piece is the text before the first separator and the second is the first piece of the rest |
| LineFormat.Unquote | ingest.py:15-16 | a value that starts and ends with `"` loses exactly those two characters (a lone `"` becomes empty); any other value is unchanged |
| LineFormat.UnquoteQuoted | ingest.py:15-16 | unquoting a quoted string gives the string back |
| LineFormat.KeyAndRaw | ingest.py:11-13 | None (IndexError on `kv[1]`) iff the segment has no `=`; otherwise the key is the `=`-free text before the first `=`, and the raw value is the `=`-free text after it up to the next `=` or the end |
| LineFormat.KeyAndRawParts | ingest.py:11-13 | the first two pieces of `seg.split("=")`, located by the positions of the first and second `=` |
| LineFormat.FirstPiece | ingest.py:11-12 | the first piece of a split on one character runs up to the first occurrence of that character; the remaining pieces are the split of what follows it |
| LineFormat.Entry | ingest.py:11-16 | a segment fails with `MissingEquals` iff it has no `=`, and with `EmptyValue` iff its raw value is empty (IndexError on `v[0]`); otherwise it yields its key and the unquoted raw value |
| LineFormat.Fill | ingest.py:10-18 | a successful fill keeps every key it started with and holds the key of every segment, each of which parsed |
| LineFormat.Explode | ingest.py:4-20 | a line without `[` fails with NoOpenBracket, one with `[` but no `]` with NoCloseBracket; on success every segment between the brackets parsed |
| LineFormat.Inner | ingest.py:7-8 | NoOpenBracket iff the line has no `[`; NoCloseBracket iff it has a `[` but no `]` |
| LineFormat.ExplodeLine | ingest.py:4-20 | the `for seg` loop fills the dictionary exactly as the fold `Explode` does, error for error |
| LineFormat.IndexOfAt | ingest.py:8 | a character present at i and absent before i is what `str.index` finds |
| LineFormat.ExplodeReadsBracketOnly | ingest.py:7-10 | only the text between the first `[` and the first `]` is parsed; any bracket-free prefix and any suffix are ignored |
| LineFormat.InnerOfBracketed | ingest.py:8 | the slice taken between the brackets is exactly the bracketed body |
| LineFormat.OpenBracketAt | ingest.py:8 | `line.index("[")` is the position just after a `[`-free prefix |
| LineFormat.CloseBracketAt | ingest.py:8 | `line.index("]")` is the position just after a `]`-free prefix and body |
| LineFormat.FillSnoc | ingest.py:10-18 | one more segment adds one more dictionary assignment after the others, or fails |
| LineFormat.FillLastWins | ingest.py:18 | a key is in the dictionary iff some segment sets it; its value is the one from its last segment, so a later repeat overwrites an earlier one |
| LineFormat.FillFailsIff | ingest.py:10-18 | the line fails iff some segment fails |
| LogParser.Field | ingest.py:36-51 | a lookup succeeds iff the key is present, and it returns that key's value (KeyError otherwise) |
| LogParser.IntField | ingest.py:45-47 | succeeds iff the key is present and `int()` accepts its value, and returns that integer |
| LogParser.RealField | ingest.py:48-49 | succeeds iff the key is present and `float()` accepts its value, and returns that number |
| LogParser.OptionalReal | ingest.py:50-51 | the value is present iff the flag string is truthy (non-empty); a falsy flag gives None without reading the value |
| LogParser.FlagStrings | ingest.py:50-51 | `bool()` of a flag string: "false", "False" and "0" all count as set; only the empty string counts as unset |
| LogParser.MakeLocation | ingest.py:44-52 | succeeds iff `fixTs`, `currentTs` and `cmTs` are present and `int()` accepts them, `lat` and `lng` are present and `float()` accepts them, the two flags are present, and `alt`/`acc` are readable where their flag is truthy; the tuple holds those converted values, with altitude and accuracy None where the flag is the empty string |
| LogParser.MakePeer | ingest.py:69-78 | succeeds iff `id`, `distance` and `expires` are present and `int()` accepts them and `displayName` is present; the user tuple is the converted id and the name, and the sighting carries the same id, the given fix timestamp, and the converted distance and expiry |
| LogParser.Accept | ingest.py:42-52 | accepting a fix moves to the given phase, appends its location tuple and makes it `last_loc`; users and sightings are unchanged and the parser stays consistent |
| LogParser.Record | ingest.py:69-78 | a peer line appends one user tuple and one sighting tuple together and changes nothing else |
| LogParser.Step | ingest.py:34-79 | one line moves the parser between the three phases of `main` and keeps it consistent: every sighting names its user and an emitted fix |
| LogParser.StepOutsideBlock | ingest.py:34-35 | outside a block, a line without `location update` changes nothing |
| LogParser.StepDuplicateFix | ingest.py:38-40 | a location line whose raw `fixTs` equals that of the last accepted fix emits nothing and leaves `last_loc` and the phase unchanged |
| LogParser.StepNewFix | ingest.py:39-55 | a location line whose raw `fixTs` differs from the last accepted one is accepted, whatever fixes came before; the list-start search begins with that same line |
| LogParser.StepAwaitStart | ingest.py:55-56 | while looking for the list start, every line is consumed and only the marker moves the parser on |
| LogParser.StepListEnds | ingest.py:62 | inside the list, the scan ends iff the line holds `peer update list end` |
| LogParser.StepListNoise | ingest.py:63-66 | inside the list, a line without `peer update` is skipped and the scan goes on |
| LogParser.StepPeer | ingest.py:68-79 | a `peer update` line adds one user and one sighting; the sighting carries the `fixTs` of the most recently accepted location |
| LogParser.Run | ingest.py:34-79 | consuming any input keeps the parser consistent |
| LogParser.Ingest | ingest.py:31-79 | the three tuple lists of a complete parse: users and sightings have equal length, pair up by id, and every sighting's `fixTs` is an emitted location's; input ending inside a block is UnexpectedEnd |
| LogParser.RunPrefix | ingest.py:34 | consuming one more line is one more step |
| LogParser.RunErrSticks | ingest.py:36-79 | once a line fails, the whole parse fails with that error |
| LogParser.RunAppend | ingest.py:34 | consuming two pieces of input in turn is consuming their concatenation |
| LogParser.RunOutsideBlocks | ingest.py:34-35 | outside a block, lines without `location update` leave the parser as it is |
| LogParser.DuplicateBlockDropped | ingest.py:35-40 | a repeated fix's location line and all its peer lines up to the next location line leave the parser unchanged: no location, user or sighting is emitted |
| LogParser.Advance | ingest.py:34 | from the state reached after `lines[..i-1]`, the next line is one `Step` |
| LogParser.AbortAt | ingest.py:36-79 | a failing line makes the whole parse fail with its error |
| LogParser.EndsInside | ingest.py:55-79 | input ending inside a block fails with UnexpectedEnd (`next(f)` raises StopIteration) |
| LogParser.SkipOutside | ingest.py:34-35 | the cursor passes a line that is not a location line, with no other effect |
| LogParser.SkipDuplicate | ingest.py:39-40 | the cursor passes a repeated fix's location line, with no other effect |
| LogParser.TakeFix | ingest.py:42-55 | the cursor accepts a new fix |
| LogParser.AwaitStart | ingest.py:55-56 | the cursor advances while it looks for the list start |
| LogParser.SkipNoise | ingest.py:64-66 | the cursor passes a list line that is not a peer line |
| LogParser.TakePeer | ingest.py:68-79 | the cursor records a peer line |
| LogParser.CloseList | ingest.py:62 | the cursor leaves the list at its end marker |
| LogParser.Parse | ingest.py:31-79 | the nested-loop parse returns exactly what the fold `Ingest` specifies, the errors included |
| LogParser.LocationLine | ingest.py:35-52 | one location line: the accepted fix with the parser state after it, None for a repeated fix, or the error that stops `main` |
| LogParser.SkipToListStart | ingest.py:54-56 | the cursor stops just past a line holding the list start, no line from the location line up to it holds the marker, and the run then stands in the peer list; or the parse fails with UnexpectedEnd |
| LogParser.ScanPeerList | ingest.py:58-79 | the list loop stops just past a line holding the list end, no earlier list line holds that marker, and the run there has the users and sightings the fold gives; or the parse fails with the fold's error |
| LogParser.PeerLine | ingest.py:62-79 | one list line: a peer line adds its user and sighting, any other line leaves both lists unchanged |
| Store.InsertOrIgnore | ingest.py:114-120 | one `INSERT OR IGNORE`: the key set gains the key, every existing row is kept, and a new key gets the given row |
| Store.AddAll | ingest.py:114-120 | `executemany` of `INSERT OR IGNORE`: no existing key is lost or overwritten |
| Store.FirstValueSnoc | ingest.py:113-120 | the first row for a key in a longer list is the first row in the shorter list, if there is one, and otherwise the new row |
| Store.FirstWins | ingest.py:113-120 | after `INSERT OR IGNORE` a key holds its old row if it had one, otherwise the first inserted row with that key; later rows change nothing |
| Store.KeysAfterAddAll | ingest.py:114-120 | no key is lost and every inserted key is present afterwards |
| Store.FirstValueFound | ingest.py:114-120 | every key of the inserted rows has a first row |
| Store.AddAllIdempotent | ingest.py:113-120 | inserting the same rows twice leaves a keyed table as inserting them once |
| Store.Numbered | ingest.py:121 | one stored row per sighting tuple, in order; the ids lie in `[start, start + n)` and strictly increase |
| Store.CommitResolves | ingest.py:114-121 | after the three inserts of one commit, every sighting row, old or new, names a stored user and a stored location |
| Store.RecordStore.constructor | ingest.py:83-111 | the three tables start empty and the first id is 1 |
| Store.RecordStore.InsertLocation | ingest.py:115-116 | a location row is added only if its `fix_ts` is new; nothing else changes, and the sighting-id invariant `Valid` is kept |
| Store.RecordStore.InsertUser | ingest.py:120 | a user row is added only if its `id` is new; nothing else changes, and `Valid` is kept |
| Store.RecordStore.InsertSighting | ingest.py:121 | a sighting is always appended, under the next id, and ids stay increasing |
| Store.RecordStore.InsertLocations | ingest.py:114-117 | `executemany` over the location tuples: first row per `fix_ts` |
| Store.RecordStore.InsertUsers | ingest.py:120 | `executemany` over the user tuples: first row per `id` |
| Store.RecordStore.InsertSightings | ingest.py:121 | `executemany` over the sighting tuples: all appended in order with consecutive ids |
| Store.RecordStore.IngestLog | ingest.py:31-122 | the result is the parse; it commits iff the parse completed and every integer fits an SQLite INTEGER; otherwise every table is untouched; a commit inserts locations, then users, then sightings; a store in which every sighting names a stored user and location stays so |
| Query.Passes | server/server.py:114-118 | the distance test comes first; a row raises iff it is within the distance bound and has no accuracy; otherwise it passes iff it meets both bounds |
| Query.Kept | server/server.py:113-125 | the kept rows are at most as many as the query's rows, each one of them and each within both bounds |
| Query.Near | server/server.py:129-130 | the near set is drawn from the kept rows, each within 100 m |
| Query.Far | server/server.py:134-135 | the far set is drawn from the kept rows, each beyond 100 m |
| Query.Track | server/server.py:103-141 | `distance_min` never exceeds its starting 1e9, and a guess, when present, is the position of some far row |
| Query.FilterRows | server/server.py:108-141 | the row loop computes exactly the kept sightings, the far set's points and distances, the near points, `distance_min` and `initial_guess` that the specification functions give; it raises iff the filter does |
| Query.ScanStep | server/server.py:121-141 | one more kept row appends its sighting, then either joins the near set and sets the minimum to 100, or joins the far set and becomes the guess if strictly closer |
| Query.KeptStep | server/server.py:114-118 | a row beyond either bound is skipped, a qualifying row is appended, and a row within the distance bound without accuracy makes the whole filter raise |
| Query.KeptErrSticks | server/server.py:117 | once a row raises, the whole request raises |
| Query.Centroid | server/server.py:155-168 | the averaging loop computes the mean latitude and the mean longitude of the near points |
| Query.KeptFailsIff | server/server.py:114-118 | the filter raises iff some row is within the distance bound and has no accuracy |
| Query.KeptMembers | server/server.py:113-125 | a row reaches `all_sightings` iff it is one of the query's rows with distance and accuracy within their bounds |
| Query.KeptAppend | server/server.py:108-125 | filtering keeps query order: the kept rows of a concatenation are the kept rows of each part in turn |
| Query.PartitionExact | server/server.py:129-135 | every kept row goes to exactly one of the two sets (as multisets); near rows are within 100 m and far rows beyond it |
| Query.SnocSeqs | server/server.py:121-141 | appending a row extends each derived list by that row's entry and updates the tracked minimum as the loop does |
| Query.TrackWithNear | server/server.py:129-139 | once a near row has been seen, `distance_min` ends at 100 |
| Query.TrackWithoutNear | server/server.py:103-141 | with no near row, `distance_min` is the least far distance capped at 1e9; the guess is absent iff no distance is below 1e9; otherwise it is the first row with the least distance, so ties keep the earlier row |
| Query.SumLatBounds | server/server.py:160-161 | the sum of the latitudes lies between n times their lower and upper bounds |
| Query.SumLngBounds | server/server.py:160-162 | the sum of the longitudes lies between n times their lower and upper bounds |
| Query.Mean | server/server.py:158-168 | the centroid times the number of near points is the sum of their latitudes and of their longitudes |
| Query.MeanWithinBounds | server/server.py:164-168 | the centroid lies in every latitude/longitude box that holds all the near points |
| Query.SumSquares | server/server.py:22-26 | the sum of squared residuals over the first n pairs is never negative |
| Query.SquarePositive | server/server.py:26 | a non-zero residual has a positive square |
| Query.SumSquaresZeroIff | server/server.py:22-26 | the sum of squared residuals is zero iff every computed distance matches its reported distance |
| Query.Mse | server/server.py:13-28 | `mse` over `zip`: None (ZeroDivisionError) iff there are no distances; otherwise a non-negative value whose product with the number of distances is the sum of squared residuals |
| Query.MseZeroIffExact | server/server.py:22-28 | for reference lists of equal length, the objective is zero exactly at a point that matches every reported distance |
| Query.QueryResponse | server/server.py:83-94 | the reason is `""` and a result is present iff success; a failure carries the given reason |
| Query.HandleQuery | server/server.py:96-181 | no kept rows gives an empty response with the "No sightings" reason; fewer than three far rows gives all kept sightings with the "need at least three" reason and no solver call; otherwise the solver starts from the near centroid, or from the closest far row when there are no near rows, and its result is reported; a missing accuracy or a missing guess raises |

## Left out

- HTTP plumbing: `do_GET` routing, the index page, the 404 path, `send_json` and JSON encoding are transport only. The users and locations listings are plain SQL reads with no logic to model.
- SQL handling: connections, SQL text, `executescript` and the join query are not modelled. The query's rows are a parameter (`Row` sequence). The foreign key clauses are declared in the schema but not enforced, since foreign-key checking stays off unless `PRAGMA foreign_keys = ON` is issued, and the ingester never issues it. The store's `Referential` predicate, which `IngestLog` preserves, holds because of the order in which the parse emits its tuples (every sighting after its location and its user), not because of SQLite.
- Transactions: `commit` and rollback are not modelled as operations. What matters to the model is that every write comes after a complete parse and is kept only when no integer overflows, which `IngestLog` states.
- Reading the log: `open(in_path, encoding="utf-8")` and `for line in f` are outside the model, which takes the decoded lines as a `seq<string>`. UTF-8 decoding, the `UnicodeDecodeError` that aborts a run on invalid bytes, and the trailing newline each line keeps are not modelled; the newline cannot change a result, since no marker and neither bracket contains it.
- `line.strip()` in `explode_line` is omitted because it cannot change the result: `[` and `]` are not whitespace, so the text between the first `[` and the first `]` is the same with or without it.
- `int()` and `float()` on field strings are the abstract `Coercion` parameter. Their exact grammar and float rounding are not modelled.
- IngestLog, MakeLocation: NaN and the infinities, which `float()` accepts (`"nan"`, `"inf"`), are outside `real`, so `Coercion.toReal` cannot return them. SQLite binds a NaN as NULL. A NaN latitude or longitude therefore violates `REAL NOT NULL`, and `INSERT OR IGNORE` silently drops that location while the plain `INSERT` still stores its sightings. `IngestLog`'s committed `locations ==` clause and its `Referential` conclusion assume every coordinate is a real number. A NaN `alt` or `acc` is likewise stored as NULL, and a NaN `acc` then raises at query time like a missing one.
- Passes: a NaN `max_acc` makes `acc > max_acc` false for every row, so every row passes the accuracy test; no `real` bound does this, and `Passes` does not model it.
- Numerics: `geopy.distance` and `scipy.optimize.minimize` (L-BFGS-B, its options) are parameters with no properties assumed. Coordinates, accuracies and the centroid use exact `real` arithmetic, without float rounding.
- Command line and threading: argv checks, the existence check on the input path, `serve_forever` and the threaded shutdown are left out.
