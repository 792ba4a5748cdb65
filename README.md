# SuperheroesDatabase loaders, modelled in Dafny

`SuperheroesDatabase` is a JDBC front end to a MySQL database of superhero
films. This project models its three pieces of sequential logic:

- **`loadEscenas` with `insertEscena`.** This is the scene loader. It reads a
  file line by line and splits each line on `;`. A line with exactly four
  fields goes into `escena` under auto-commit, and the loader counts the rows
  that went in.
- **`loadProtagoniza` with `insertProtagoniza` and `insert`.** This is the
  association loader. With auto-commit off it does the following:
  - inserts every line into `protagoniza`, stopping at the first failure;
  - meanwhile collects the distinct `"hero,villain"` keys in an `ArrayList`;
  - inserts each key, split back on `,`, into `rival`;
  - then commits and returns lines plus keys, or rolls back and returns 0;
  - in its `finally` block, switches auto-commit back on.
- **`rsToString`.** This writes the rows of a one-column result as
  `{r1, r2, ..., rn}`, or `{}` when there are none.

## How the model is built

- **The database** is a value `Tables` holding three sequences of rows. An
  `Oracle` decides whether the server accepts a row into a table that holds
  given rows; it stands in for MySQL's key and type checks.
- **The JDBC session** is a class `Connection` with the following fields:
  - `data`, what the session sees;
  - `committed`, what is durable;
  - the auto-commit flag.

  `SetAutoCommit(true)` commits the open transaction, as JDBC specifies.
- **A `PreparedStatement`** is a class whose parameters keep their values
  from one execution to the next until they are set again.
- **A file** is an `Option<seq<string>>`; `None` is a file that cannot be
  opened.
- **Java's behaviour:**
  - `String.split` with a one-character delimiter drops trailing empty
    strings.
  - `Integer.parseInt` works on a 32-bit range; `None` is its
    `NumberFormatException`.
  - An exception that escapes a call is an `Outcome.Thrown`.
- **The exceptions the code does not catch:**
  - `NumberFormatException` from `parseInt`;
  - `ArrayIndexOutOfBoundsException` when insertProtagoniza builds a key from
    a line that splits into fewer than two fields.

  Both leave the loaders abruptly, as they do in Java.

Each loader has two forms:

- **A function in module `Loaders`** gives what the call returns or throws,
  and the tables it leaves.
- **A method of class `Loaders.SuperheroesDatabase`** takes the Java code's
  steps on a `Connection` and a `PreparedStatement`, with loops and
  invariants. It is proved to agree with that function.

The properties are proved about the functions in modules `InsertTheorems`,
`EscenaTheorems`, `ProtagonizaTheorems`, `TransactionTheorems` and `Dedup`.
Module `Findings` works through concrete files.

Verifying the natural contracts showed four places where the loaders do not
do what their documentation or their evident intent says (see Findings). The model therefore also holds
corrected loaders, which the theorems cover alongside the loaders as written:

- `LoadEscenasSkipping`, where a field that does not parse makes
  `insertEscena` return false;
- `LoadProtagonizaAtomic`, where `insert` clears the parameters first, keys
  are compared as integers, and an exception rolls back.

The `corrected` flag of the shared functions selects between the two forms.

**Where the code and its documentation differ,** the model follows the code.

- The doc comment of loadEscenas (lines 157-159) says a line that cannot be
  inserted is skipped and loading continues. The code catches only
  `SQLException`, so a value that does not parse propagates out of the
  loader.
- The doc comment of loadProtagoniza (line 201) says that when an insertion
  fails, none of the earlier ones is kept. The code rolls back only when an
  insert returns false; when something throws, the partial rows are
  committed.

## Model

| member | source | states |
|---|---|---|
| JavaLang.ParseInt | SuperheroesDatabase.java:263-266 | a parsed value lies in the 32-bit range and comes from an optional sign followed by decimal digits |
| JavaLang.ParseDecimal | SuperheroesDatabase.java:317 | parseInt reads back every 32-bit integer that Integer.toString writes |
| JavaLang.ParsedHasNoDelimiter | SuperheroesDatabase.java:317 | a value parseInt accepts contains neither `;` nor `,`, so it survives being joined into a key and split again |
| JavaLang.SplitJoin | SuperheroesDatabase.java:223 | split undoes join when no field holds the delimiter and the last field is not empty |
| Store.Bound | SuperheroesDatabase.java:319 | executeUpdate has a row to send exactly when every parameter is set, and the row is the values set, in order |
| Store.PreparedStatement.SetInt | SuperheroesDatabase.java:317 | setInt succeeds exactly for an index from 1 to the parameter count; it changes that parameter and keeps all the others |
| Store.Connection.ExecuteUpdate | SuperheroesDatabase.java:319 | the row is added exactly when the server accepts it, and it is durable at once in auto-commit mode |
| Store.Connection.SetAutoCommit | SuperheroesDatabase.java:237 | switching auto-commit on commits the open transaction; the session's data is unchanged |
| Store.Connection.Commit | SuperheroesDatabase.java:230 | everything the session holds becomes durable |
| Store.Connection.Rollback | SuperheroesDatabase.java:228 | the session returns to the last durable state |
| Loaders.BindIntsOutcome | SuperheroesDatabase.java:316-318 | the setInt loop throws NumberFormatException only when a value does not parse; it fails with an SQL error only when there are more values than parameters; otherwise it binds every value |
| Loaders.BindIntsParams | SuperheroesDatabase.java:316-318 | a complete setInt loop sets parameters 1 to the number of values to the parsed values and leaves the later parameters as an earlier call set them |
| Loaders.StringList.Contains | SuperheroesDatabase.java:294 | contains is true exactly when the key is in the list |
| Loaders.StringList.Add | SuperheroesDatabase.java:295 | add appends the key at the end |
| Loaders.SuperheroesDatabase.InsertEscena | SuperheroesDatabase.java:255-273 | the call agrees with `InsertEscenaSpec`; a line that does not split into four fields returns false and changes nothing |
| Loaders.SuperheroesDatabase.Insert | SuperheroesDatabase.java:313-326 | the bind-then-execute loop agrees with `InsertSpec`; the parameters it leaves set are part of its result |
| Loaders.SuperheroesDatabase.LoadEscenas | SuperheroesDatabase.java:163-195 | the read loop agrees with `LoadEscenasSpec`, and the connection stays in auto-commit mode with everything durable |
| Loaders.SuperheroesDatabase.LoadEscenasSkipping | SuperheroesDatabase.java:171-180 | the loop of the corrected scene loader agrees with `LoadEscenasSkippingSpec` and never throws |
| Loaders.SuperheroesDatabase.InsertProtagoniza | SuperheroesDatabase.java:282-305 | the read loop, including its key list and statement parameters, agrees with `InsertProtagonizaSpec`; a file that cannot be opened gives -1 |
| Loaders.SuperheroesDatabase.InsertRivals | SuperheroesDatabase.java:219-225 | the rival loop agrees with `RivalLoop`: keys are inserted in order until one fails |
| Loaders.SuperheroesDatabase.LoadProtagonizaTransaction | SuperheroesDatabase.java:213-232 | the try block agrees with `ProtagonizaTransaction`; afterwards auto-commit is off, and the durable state is the new data, or the old data when it threw |
| Loaders.SuperheroesDatabase.FinishTransaction | SuperheroesDatabase.java:218-232 | after insertProtagoniza, the method commits and returns lines plus keys, or rolls back to the durable state and returns 0 |
| Loaders.SuperheroesDatabase.LoadProtagoniza | SuperheroesDatabase.java:205-244 | the whole call, finally block included, agrees with `LoadProtagonizaSpec`; the connection ends in auto-commit mode with everything durable |
| Loaders.SuperheroesDatabase.LoadProtagonizaAtomic | SuperheroesDatabase.java:205-244 | the corrected loader agrees with `LoadProtagonizaAtomicSpec` and ends in auto-commit mode |
| InsertTheorems.InsertOutcome | SuperheroesDatabase.java:313-326 | insert throws exactly when a value that is reached does not parse, and then only NumberFormatException; it returns true only for parsed values that fit the parameters, and the row then bound is accepted and added; otherwise nothing changes |
| InsertTheorems.InsertBindsValues | SuperheroesDatabase.java:316-319 | with one integer per parameter, insert binds exactly those values, whatever was left bound before, and adds that row when the server accepts it |
| InsertTheorems.InsertClearedExact | SuperheroesDatabase.java:313-326 | from cleared parameters, insert succeeds exactly when the line has one integer per parameter and the row is accepted; the row added is the parsed row |
| InsertTheorems.InsertRerun | SuperheroesDatabase.java:316-319 | binding does not depend on the tables: on other tables the same insert binds the same row and only its execution differs |
| EscenaTheorems.InsertEscenaStep | SuperheroesDatabase.java:255-273 | one insertEscena leaves the tables as they were, or adds one row to escena and returns true |
| EscenaTheorems.EscenasCount | SuperheroesDatabase.java:171-180 | the loop only appends to escena, at most one row per line; a count it returns is the number of rows it added; it can throw only NumberFormatException |
| EscenaTheorems.EscenasThrows | SuperheroesDatabase.java:263-266 | the loop throws exactly when some line has four fields and a numeric field that does not parse |
| EscenaTheorems.EscenasAppendThrown | SuperheroesDatabase.java:173-178 | once a line throws, the lines after it are never read |
| EscenaTheorems.EscenasAppendNormal | SuperheroesDatabase.java:173-178 | reading `a + b` reads `b` from where `a` left the tables, and the counts add up |
| EscenaTheorems.EscenasSkipsWrongArity | SuperheroesDatabase.java:257-261 | a line without four fields is passed over and changes nothing |
| EscenaTheorems.EscenasLoadsAll | SuperheroesDatabase.java:171-180 | when no line has a bad number and the server accepts the rows, the loop adds exactly the rows of the four-field lines and returns their number |
| EscenaTheorems.LoadEscenasOutcome | SuperheroesDatabase.java:163-195 | a file that cannot be opened gives 0 and no change; otherwise rows are only appended, the value is the number added, and the call throws exactly when some line has a bad number |
| EscenaTheorems.EscenasSkippingCount | SuperheroesDatabase.java:171-180 | the corrected loop never throws, only appends to escena, and returns the number of rows it added |
| EscenaTheorems.EscenasSkippingAgrees | SuperheroesDatabase.java:171-180 | wherever the loader as written returns normally, the corrected loader does exactly the same |
| EscenaTheorems.EscenasSkippingSkips | SuperheroesDatabase.java:174-176 | the corrected loop passes over every line that is not a well-formed scene and goes on |
| EscenaTheorems.EscenasSkippingLoadsAll | SuperheroesDatabase.java:171-180 | when the server accepts the scene rows, the corrected loop adds exactly the rows of the well-formed lines, whatever else the file holds |
| Dedup.AddAllGrows | SuperheroesDatabase.java:294-296 | the contains-then-add step keeps the list duplicate-free, keeps its earlier elements in place, and holds exactly the old elements plus the new keys |
| Dedup.AddAllDistinct | SuperheroesDatabase.java:294-296 | the key loop started from an empty list builds the distinct keys, and a later start continues the same list |
| Dedup.DistinctFirstSeen | SuperheroesDatabase.java:293-296 | the key list holds every key seen exactly once, in order of first occurrence, and nothing else |
| ProtagonizaTheorems.PrimaryLoads | SuperheroesDatabase.java:288-297 | over well-formed lines the server accepts, the read loop inserts every row in order and records every new key |
| ProtagonizaTheorems.PrimaryFrame | SuperheroesDatabase.java:288-297 | the read loop only appends to protagoniza, at most one row per line |
| ProtagonizaTheorems.PrimaryCount | SuperheroesDatabase.java:288-298 | when every line went in, one row was added per line and the list holds every line's key |
| ProtagonizaTheorems.PrimaryCleared | SuperheroesDatabase.java:288-297 | once the corrected read loop has inserted every line, every line was three integers and every row was accepted |
| ProtagonizaTheorems.PrimaryThrownAt | SuperheroesDatabase.java:288-297 | a read loop that throws stopped at line `k`, a line that throws (fewer than two fields, or a reached value that does not parse); it inserted `k` or `k + 1` rows, and each of the first `k` lines was read without throwing, a well-formed one as its own row |
| ProtagonizaTheorems.PrimaryStops | SuperheroesDatabase.java:288-297 | once the read loop has thrown or failed on `a`, the lines after `a` are never read |
| ProtagonizaTheorems.RivalStops | SuperheroesDatabase.java:222-224 | once the rival loop has thrown or failed on keys `a`, the keys after `a` are never inserted |
| ProtagonizaTheorems.LineKeyIsKey | SuperheroesDatabase.java:293 | the key of a line whose first two values are integers splits on `,` back into exactly those two values, which the rival insert then binds |
| ProtagonizaTheorems.TwoIntKey | SuperheroesDatabase.java:223 | two integers joined by `,` split back into themselves |
| ProtagonizaTheorems.CanonicalLineKey | SuperheroesDatabase.java:293 | under the corrected loader a line's key is the canonical key of its (hero, villain) pair, and it reads back as that pair |
| ProtagonizaTheorems.CanonicalKeysDistinct | SuperheroesDatabase.java:293-296 | deduplicating the corrected keys is the same as deduplicating the (hero, villain) pairs |
| ProtagonizaTheorems.KeysAreKeys | SuperheroesDatabase.java:223 | for well-formed lines, every key, as written or corrected, is two integers the rival loop reads back |
| ProtagonizaTheorems.PrimaryKeys | SuperheroesDatabase.java:293-296 | a read loop that inserted every line recorded only such keys |
| ProtagonizaTheorems.PrimaryDistinctKeys | SuperheroesDatabase.java:293-296 | when every line went in, the key list is the distinct keys of the lines, in first-seen order |
| ProtagonizaTheorems.RivalLoads | SuperheroesDatabase.java:222-224 | over keys the server accepts, the rival loop inserts the pair of every key, in order |
| ProtagonizaTheorems.RivalFrame | SuperheroesDatabase.java:222-224 | the rival loop only appends to rival, at most one row per key, and one row per key when it went through |
| ProtagonizaTheorems.RivalCleared | SuperheroesDatabase.java:222-224 | once the corrected rival loop went through, every key was two integers and each pair was accepted |
| ProtagonizaTheorems.RivalNoThrow | SuperheroesDatabase.java:223 | the rival loop never throws on keys the read loop recorded |
| TransactionTheorems.InsertProtagonizaResult | SuperheroesDatabase.java:282-298 | insertProtagoniza only appends to protagoniza; it returns -1, unchanged, for a file that cannot be opened; any other count is the number of lines, all inserted, with the key list their distinct keys |
| TransactionTheorems.TransactionCommits | SuperheroesDatabase.java:219-232 | once both loops went through, both runs of rows are committed and the sum is returned |
| TransactionTheorems.TransactionLoadsAll | SuperheroesDatabase.java:213-232 | on well-formed lines whose rows and pairs the server accepts, the try block inserts one row per line and one per distinct key, and returns their number |
| TransactionTheorems.LoadProtagonizaLoadsAll | SuperheroesDatabase.java:205-244 | the same for loadProtagoniza as written, finally block included |
| TransactionTheorems.TransactionCounted | SuperheroesDatabase.java:213-232 | a returned value counts the rows added to protagoniza and rival, so 0 means nothing changed; escena is untouched; a file that cannot be opened gives 0 |
| TransactionTheorems.CountedZero | SuperheroesDatabase.java:232 | a counted result of 0 leaves the tables as they were |
| TransactionTheorems.TransactionThrows | SuperheroesDatabase.java:213-242 | when the try block throws, the file was opened, some line of it throws, escena and rival are unchanged, the earlier protagoniza rows are kept, and the tables left are those of the read loop that threw |
| TransactionTheorems.TransactionThrowsAt | SuperheroesDatabase.java:213-232 | when the try block throws, the read loop threw at line `k`; the rows of the `k` lines before it, or `k + 1` rows, stay in protagoniza, each of those lines was read without throwing and a well-formed one is its own row, and escena and rival are unchanged |
| TransactionTheorems.TransactionCases | SuperheroesDatabase.java:218-232 | the try block as written throws, or rolls back and returns 0 with no change, or both loops ran to the end and it commits what the rival loop left and returns lines plus keys |
| TransactionTheorems.CorrectedTransactionCases | SuperheroesDatabase.java:213-232 | the corrected try block either throws, or rolls back with 0, or was given a loadable file |
| TransactionTheorems.AtomicLoads | SuperheroesDatabase.java:213-232 | on a loadable file the corrected loader commits every association and every distinct pair, and returns their number |
| TransactionTheorems.AtomicRejects | SuperheroesDatabase.java:226-232 | on any other file, or one that cannot be opened, the corrected loader leaves the tables as they were and returns 0 |
| TransactionTheorems.AtomicLoadExact | SuperheroesDatabase.java:201 | all or nothing, both ways: a readable file is committed completely when loadable and otherwise not at all |
| TransactionTheorems.PrimaryRerun | SuperheroesDatabase.java:288-297 | a second read loop over lines that all went in binds the same rows: it stops at a refused row, or records the same keys |
| TransactionTheorems.RivalRerun | SuperheroesDatabase.java:94 | under rival's primary key, a second rival loop over keys that went in is refused at its first key |
| TransactionTheorems.TransactionRerun | SuperheroesDatabase.java:213-232 | loading the same file again after a load that added rows rolls back and returns 0, as written and corrected |
| TransactionTheorems.LoadProtagonizaRerun | SuperheroesDatabase.java:205-244 | loadProtagoniza run twice on one file: the second run adds nothing and returns 0 |
| TransactionTheorems.AtomicRerun | SuperheroesDatabase.java:205-244 | the corrected loader run twice on one file: the second run adds nothing and returns 0 |
| ResultFormat.RsToString | SuperheroesDatabase.java:461-469 | the loop builds `{}` for no rows, otherwise `{` then the rows in order separated by `, ` then `}` |
| ResultFormat.UnbracedBraced | SuperheroesDatabase.java:461-469 | the format reads back to the rows when no row contains a comma and the rows are not a single empty one |
| ResultFormat.BracedAmbiguous | SuperheroesDatabase.java:461-469 | hence those conditions: no rows and one empty row both give `{}`, and `["a, b"]` prints like `["a", "b"]` |
| Findings.RivalUniqueIsKeyed | SuperheroesDatabase.java:94 | a server that refuses a pair rival already holds has the primary key the theorems assume |
| Findings.LoadEscenasAborts | SuperheroesDatabase.java:263-266 | on `1;2;Intro;five` then `1;3;Fight;10`, loadEscenas throws NumberFormatException and loads nothing |
| Findings.LoadEscenasSkippingLoadsRest | SuperheroesDatabase.java:171-180 | the corrected loader skips the bad line and loads the second: 1 returned |
| Findings.LoadProtagonizaKeepsPartial | SuperheroesDatabase.java:235-237 | on `1;2;3` then `x;2;3`, loadProtagoniza throws and row (1,2,3) stays in protagoniza |
| Findings.AtomicRollsBackPartial | SuperheroesDatabase.java:201 | the corrected loader rolls it back: no change, 0 returned |
| Findings.LoadProtagonizaStaleParameter | SuperheroesDatabase.java:316-319 | on `1;2;3` then `4;5`, loadProtagoniza inserts (1,2,3) and (4,5,3), where the 3 is left over from the first line, and returns 4 |
| Findings.AtomicRefusesShortLine | SuperheroesDatabase.java:316-319 | the corrected loader refuses the short line: no change, 0 returned |
| Findings.LoadProtagonizaRefusesPaddedPair | SuperheroesDatabase.java:293-296 | on `5;7;1` then `05;7;2` under rival's primary key, the keys `5,7` and `05,7` are both inserted as (5,7), so loadProtagoniza rolls back and returns 0 |
| Findings.AtomicLoadsPaddedPair | SuperheroesDatabase.java:293-296 | the corrected loader records the pair once and loads the file: two associations, one pair, 3 returned |

## Left out

- The following are not part of this model:
  - `openConnection` and `closeConnection`; the connection is always open;
  - the `pst == null` guards, because a statement is always prepared;
  - SQLExceptions from `prepareStatement`, `close`, `commit`, `rollback` and
    `setAutoCommit`; these are assumed not to happen, so the catch block at
    lines 233-234 is never reached.
- Table creation, `tableExists` and the DDL are left out. The one exception
  is rival's primary key, which appears as the oracle property
  `RivalKeyed`.
- `catalogo`, `duracionPelicula`, `getEscenas`, `desenmascara` and `getData`
  are left out: they are SQL queries and BLOB and file I/O.
- File reading with `BufferedReader` is left out. A file that cannot be
  opened is `None`. An `IOException` in the middle of a read is not modelled.
- All logging to `System.err` is left out.
- MySQL's own constraint checks are left out. Whether the server accepts a
  row is the `Oracle` parameter.
- `setString(3, values[2])` binds the title as a text value. The server's
  handling of it is up to the oracle.
- ResultFormat.RsToString takes the rows the cursor yields as a sequence. A
  null `ResultSet`, an `SQLException` while reading (both give null), and
  SQL NULL values are not modelled.
- Loaders.SuperheroesDatabase.LoadEscenas and the other loaders keep their
  `total` counters as unbounded integers. In Java, loadEscenas and
  insertProtagoniza wrap once a file has more than 2^31 - 1 lines.
  loadProtagoniza adds the number of distinct hero-villain keys to the line
  count (SuperheroesDatabase.java:221), so it wraps once lines plus keys pass
  2^31 - 1, which can happen from about 2^30 lines.
- JavaLang.ParseInt accepts ASCII digits only. Java's `Character.digit` also
  accepts other Unicode decimal digits.
- JavaLang.Split models `String.split` only for a delimiter that is not a
  regular-expression metacharacter, which covers `;` and `,`.
- TransactionTheorems.AtomicLoadExact is stated for a file that was opened. A
  file that cannot be opened is covered by `AtomicRejects`.

## Findings

| source | as written | input that shows it | evidently intended | confidence | as-written member | corrected member |
|---|---|---|---|---|---|---|
| SuperheroesDatabase.java:263-266 | `Integer.parseInt` throws NumberFormatException, which neither insertEscena nor loadEscenas catches, so loading stops at the first bad number and the call throws | file `1;2;Intro;five`, `1;3;Fight;10` on empty tables | the line is skipped as a failed insert and loading continues (documented at lines 157-159): 1 returned | not executed | Findings.LoadEscenasAborts | Findings.LoadEscenasSkippingLoadsRest |
| SuperheroesDatabase.java:235-237 | an exception from the read loop leaves the try block without a rollback, and the finally block's `setAutoCommit(true)` commits the rows already inserted | file `1;2;3`, `x;2;3` on empty tables: (1,2,3) stays in protagoniza | no row of a failed load is kept (documented at line 201): nothing changed, 0 | not executed | Findings.LoadProtagonizaKeepsPartial | Findings.AtomicRollsBackPartial |
| SuperheroesDatabase.java:316-319 | insert sets only as many parameters as the line has values, and the statement keeps the rest from the previous line, so a short line is inserted with a stale value | file `1;2;3`, `4;5`: rows (1,2,3) and (4,5,3), 4 returned | a short line fails to insert, so the load rolls back and returns 0 | not executed | Findings.LoadProtagonizaStaleParameter | Findings.AtomicRefusesShortLine |
| SuperheroesDatabase.java:293-296 | hero-villain keys are compared as strings, so `5,7` and `05,7` are two keys for one pair; the second rival insert breaks rival's primary key (line 94) and the whole load is rolled back | file `5;7;1`, `05;7;2` under that key: 0 returned, nothing loaded | one key per distinct integer pair: two associations, one pair, 3 returned | not executed | Findings.LoadProtagonizaRefusesPaddedPair | Findings.AtomicLoadsPaddedPair |
