# pdooci8 in Dafny

pdooci8 is a PDO-compatible driver for Oracle written in PHP. It implements the `\PDO` and
`\PDOStatement` interfaces on top of the OCI8 extension, through a thin wrapper layer
(`Jpina\Oci8`). This project models the driver's deterministic logic and proves properties of it.
It covers three parts.

- **`OracleSqlStateCode`** (`sqlstate.dfy`). The first-match cascade that maps an Oracle error
  code to a SQLSTATE class. The classes are those of Oracle's "Oracle Error Codes to SQLSTATE
  Mapping" appendix for ISO/IEC 9075.
- **`PdoOci8Statement`** (`statement.dfy`). The bookkeeping a prepared statement does around the
  native cursor:
  - its options map, with the read-only `ATTR_AUTOCOMMIT`;
  - the bound-parameter table and its `debugDumpParams` dump;
  - the bind-name mapping and the commit-mode choice of `execute`;
  - the fetch-style dispatch and `fetchColumn`;
  - the table-name extraction and the column-metadata record;
  - the lazily cached row iterator.
- **`PdoOci8`** (`connection.dfy`). The connection facade:
  - its options map with the read-only list;
  - the transaction flag carried by `ATTR_AUTOCOMMIT`;
  - the SQL literal quoter and the `SELECT` guard of `exec`;
  - the error-mode dispatch of `prepare`;
  - the `//host:port/db` connection string with its defaults.

The error array that `errorInfo` and `errorCode` build, the same in both classes, is in
`errors.dfy`. The supporting modules are:

- `php.dfy`: PHP values, truthiness, loose comparison, the `PDO::*` constants, and option arrays merged into default maps;
- `strings.dfy`: `strpos`, `strrpos`, `str_replace`, `trim`, `substr`, `strtoupper` and `strtolower` on byte strings, and the reading of an integer numeric string;
- `native.dfy`: the boundary to OCI8;
- `option.dfy`: an `Option` type.

The two classes keep the source's form. `PdoOci8Statement.Statement` and `PdoOci8.Connection` are
Dafny classes. Their fields are the PHP object's `$options`, `$boundParameters` and `$iterator`,
and their methods change those fields as the PHP methods do. Each method is proved against a pure
function of the old state, and the properties are proved about those functions as lemmas.

The native OCI8 layer is not part of this model. Every native call is an input:

- an `Answer` (returned a value, or raised an exception) passed as a parameter;
- a function parameter for the native bind, the native execute and the column description;
- the `pending` sequence of rows the native cursor still holds.

The source's mutable statement handle therefore becomes "the rows not yet fetched", and a fetch
hands over the head of that sequence.

## Model

| member | source | states |
|---|---|---|
| OracleSqlStateCode.ClassifyBasics | src/OracleSqlStateCode.php:18-179 | `getSqlStateErrorCode` gives successful completion exactly for code 0 (lines 21-22). It never gives invalid open-or-prepare: that case's only code, 2122 (line 162), is caught first by the invalid-cursor-state case (line 61). |
| OracleSqlStateCode.ClassifyIsListed | src/OracleSqlStateCode.php:20-176 | Whatever class other than the general error the cascade returns is one of the classes a case of the table lists for that code. |
| OracleSqlStateCode.GeneralErrorIffUnlisted | src/OracleSqlStateCode.php:178 | The general-error class is returned exactly for the codes no case of the table covers. |
| OracleSqlStateCode.ListedOnce | src/OracleSqlStateCode.php:20-176 | A code listed under one class only is classified as that class. |
| OracleSqlStateCode.UnlistedExamples | src/OracleSqlStateCode.php:178 | -1, 22000 and 99999 fall through to the general error. |
| OracleSqlStateCode.DatetimeFieldOverflowRange | src/OracleSqlStateCode.php:40-41 | Datetime field overflow is returned exactly for 1800..1899, and 1799 and 1900 give the syntax/access-rule class (lines 69-70). |
| OracleSqlStateCode.DebugEventsRange | src/OracleSqlStateCode.php:174-175 | Debug events is returned exactly for 10000..10999. |
| OracleSqlStateCode.NoDataCodes | src/OracleSqlStateCode.php:23-24 | No data is returned exactly for 1095 and 1403. |
| OracleSqlStateCode.InvalidCursorStateCodes | src/OracleSqlStateCode.php:58-62 | Invalid cursor state is returned exactly for the codes of its case. 2122 is also listed for invalid open-or-prepare (line 162), yet classifies as invalid cursor state. |
| OracleSqlStateCode.TransactionRollbackBeatsSyntax | src/OracleSqlStateCode.php:63-70 | 2091 and 2092 lie in the syntax range 1900..2099, yet classify as transaction rollback, the earlier case. |
| OracleSqlStateCode.ExecutePhasePriority | src/OracleSqlStateCode.php:116 | Within 1000..1099 the earlier exact cases win: 1001-1003 give a cursor state, 1025 an invalid parameter, 1031 syntax, 1095 no data. Every other code gives execute-phase error. |
| OracleSqlStateCode.CursorStateWithinExecuteRange | src/OracleSqlStateCode.php:123 | Within 8000..8190, 8006 is an invalid cursor state (line 59), and every other code is an execute-phase error. |
| OracleSqlStateCode.CaseIndex | src/OracleSqlStateCode.php:18-179 | Each class has its own rank, the place of its case in the cascade (`ClassAt` reads it back), the general error last. |
| OracleSqlStateCode.EarlierCasesMiss | src/OracleSqlStateCode.php:20-176 | For every code, no case ranked before the class `Classify` returns lists that code. |
| OracleSqlStateCode.ClassifyIsFirstListed | src/OracleSqlStateCode.php:18-179 | The cascade returns the first case that lists the code. The returned class lists the code, no case of lower rank lists it, and the general error comes back exactly when no case lists it. |
| OracleSqlStateCode.Text | src/OracleSqlStateCode.php:21-22 | A class's SQLSTATE text, where one is given, is five digits. |
| OracleSqlStateCode.Code942IsSyntaxClass | src/OracleSqlStateCode.php:66 | 942 is the syntax/access-rule class with text "42000", and 0 gives "00000". |
| Php.Lookup | src/PdoOci8Statement.php:431-438 | getAttribute gives the stored value for a key the options hold, and null for any other key. |
| Php.GivenValue | src/PdoOci8Statement.php:62-66 | The value a caller's option array gives a key is its last entry for that key. There is none exactly when no entry has that key. |
| Php.GivenValueAt | src/PdoOci8Statement.php:67-70 | With distinct keys, each entry's value is the one the array gives its key, so the setAttribute loop sees the merged value. |
| Php.Merge | src/PdoOci8Statement.php:62-66 | Merging caller options into the defaults keeps exactly the default keys. |
| Php.MergeOptions | src/PdoOci8Statement.php:62-66 | The merging loop computes the merge of the whole option array. |
| Strings.IntegerValueOfText | src/PdoOci8.php:345-356 | The decimal text of an integer is an integer numeric string denoting it, so loose comparison with its text behaves as with the number. |
| Php.MergeAt | src/PdoOci8Statement.php:62-66 | After the merge, a known key holds the caller's value if given, else its default. An unknown key reads as null, so unknown caller keys are ignored. |
| PdoOci8Statement.ConstructorSetsAutocommit | src/PdoOci8Statement.php:45-70 | The constructor's merge gives `ATTR_AUTOCOMMIT` the caller's value (default true), which setAttribute could not change. |
| PdoOci8Statement.Statement.constructor | src/PdoOci8Statement.php:36-77 | A new statement holds the merged options, no bound parameters and no cached iterator. |
| PdoOci8Statement.Statement.SetAttribute | src/PdoOci8Statement.php:510-524 | It succeeds exactly for a known key other than `ATTR_AUTOCOMMIT`. On success it stores the value; otherwise nothing changes. |
| PdoOci8Statement.Upsert | src/PdoOci8Statement.php:126-131 | Storing under an existing key replaces that entry in place and keeps the keys unique. A new key is appended. |
| PdoOci8Statement.UpsertKeeps | src/PdoOci8Statement.php:126-131 | The stored entry is in the table afterwards, and so is every entry under another key. |
| PdoOci8Statement.Bind | src/PdoOci8Statement.php:112-138 | The bind succeeds exactly when the native bind returns true. A failed bind leaves the table unchanged; a successful one stores the entry under the parameter. |
| PdoOci8Statement.BindStores | src/PdoOci8Statement.php:126-131 | A bind whose native call returns true stores its PARAM_STR entry. |
| PdoOci8Statement.BindKeepsOthers | src/PdoOci8Statement.php:126-131 | A bind, successful or not, keeps every entry under another key. |
| PdoOci8Statement.BindRecords | src/PdoOci8Statement.php:126-131 | After a successful bind, the table's entry for the key has name "" for an integer key, the last position of the name in the SQL text, the value and the type (PARAM_STR when none is given). Every other entry is unchanged. |
| PdoOci8Statement.RebindOverwrites | src/PdoOci8Statement.php:126 | Binding the same key twice leaves what the second bind alone would leave. |
| PdoOci8Statement.UpsertCommutes | src/PdoOci8Statement.php:126 | Binds of two different keys give the same set of entries in either order. |
| PdoOci8Statement.DriverDataType | src/PdoOci8Statement.php:608-638 | The driver type is always SQLT_CHR, whatever parameter type is asked for, because the switch tests the local null. |
| PdoOci8Statement.DriverDataTypeIgnoresArgument | src/PdoOci8Statement.php:610-635 | A switch on the argument would give SQLT_INT, SQLT_BOL and SQLT_CLOB, and would throw for PARAM_STMT and INPUT_OUTPUT. The code as written does none of these. |
| PdoOci8Statement.Statement.BindParam | src/PdoOci8Statement.php:112-138 | The method performs `Bind` on the statement's table and changes nothing else. |
| PdoOci8Statement.Statement.BindValue | src/PdoOci8Statement.php:148-151 | It is bindParam with no length. |
| PdoOci8Statement.InsertSorted | src/PdoOci8Statement.php:179-189 | Inserting into a list sorted by stored position keeps it sorted. |
| PdoOci8Statement.SortByPosition | src/PdoOci8Statement.php:179-189 | Sorting by position is a permutation of the bound parameters. |
| PdoOci8Statement.SortByPositionSorted | src/PdoOci8Statement.php:179-189 | The sorted list is ordered by stored position. |
| PdoOci8Statement.SortedUnique | src/PdoOci8Statement.php:179-189 | Two sorted permutations of the same entries with distinct positions are equal. |
| PdoOci8Statement.DumpIgnoresBindOrder | src/PdoOci8Statement.php:174-209 | The dump of the same entries is the same text whatever their order in the table. |
| PdoOci8Statement.BindOrderIrrelevant | src/PdoOci8Statement.php:174-209 | Binding two different parameters in either order gives the same dump. |
| PdoOci8Statement.Statement.DebugDumpParams | src/PdoOci8Statement.php:174-209 | The emitted text is the header "SQL: [len] text" and "Params: n", then one block per parameter in position order with its 1-based rank. |
| PdoOci8Statement.BindName | src/PdoOci8Statement.php:262-268 | An integer input key k is bound under k+1, a string key under itself. |
| PdoOci8Statement.BindInputs | src/PdoOci8Statement.php:262-269 | Binding the inputs keeps the keys unique and adds entries only under their bind names. |
| PdoOci8Statement.LastInputBound | src/PdoOci8Statement.php:262-268 | For the last input bound under a name, when the native bind of that name succeeds, the table holds that input's value as a PARAM_STR entry. |
| PdoOci8Statement.Statement.BindInputValues | src/PdoOci8Statement.php:262-269 | The loop binds every input under its bind name, in order. |
| PdoOci8Statement.CommitModeFor | src/PdoOci8Statement.php:271-275 | The native commit flag is "no auto-commit" exactly when `ATTR_AUTOCOMMIT` is truthy, and "commit on success" exactly when it is not. |
| PdoOci8Statement.Statement.Execute | src/PdoOci8Statement.php:259-286 | The inputs are bound, then the native execute runs with the inverted commit flag. The result is its success, or false if it raised, and its rows become the pending rows. |
| PdoOci8Statement.FetchDispatch | src/PdoOci8Statement.php:310-355 | Each fetch style selects its branch (ASSOC, NUM, BOUND, OBJ), and exactly the other styles end in the OCI_BOTH array fetch. |
| PdoOci8Statement.DefaultStyleFetchesBoth | src/PdoOci8Statement.php:296-297 | The default style argument reaches the OCI_BOTH fetch. |
| PdoOci8Statement.FetchFrom | src/PdoOci8Statement.php:296-361 | With no rows left a fetch gives false and changes nothing. Otherwise it consumes exactly one row and gives a non-false result. |
| PdoOci8Statement.FetchNumRow | src/PdoOci8Statement.php:340-345 | A numeric fetch gives the first row keyed by column number. Index c is present exactly when column c exists and is not NULL, since the fetch-array call has no OCI_RETURN_NULLS. It holds that column's value. |
| PdoOci8Statement.Statement.Fetch | src/PdoOci8Statement.php:296-361 | The method performs the dispatched fetch on the pending rows. A native exception gives false and consumes nothing. |
| PdoOci8Statement.AssocRows | src/PdoOci8Statement.php:371-377 | fetchAll returns every row, in order, keyed by column name, with NULL columns kept as null. |
| PdoOci8Statement.FetchAllKeepsColumns | src/PdoOci8Statement.php:374 | Every column of every row, NULL ones included, is a key of the row fetchAll returns. |
| PdoOci8Statement.NullColumnExamples | src/PdoOci8Statement.php:385-398 | For the row (A = 1, B = NULL), fetchColumn(1) gives false and fetchColumn(0) gives 1, while fetchAll holds B as null. |
| PdoOci8Statement.Statement.FetchAll | src/PdoOci8Statement.php:371-377 | The method returns all pending rows keyed by name and leaves none pending. |
| PdoOci8Statement.ColumnOf | src/PdoOci8Statement.php:392-397 | A row gives a column exactly when the fetch gave an array holding that index, and then it is the value under it. |
| PdoOci8Statement.Statement.FetchColumn | src/PdoOci8Statement.php:385-398 | A value is returned exactly when there is a next row whose column c exists and is not NULL, and it is that column's value. A NULL column gives false, as `array_key_exists` fails. One row is consumed unless the fetch failed. |
| PdoOci8Statement.TableName | src/PdoOci8Statement.php:548-570 | A non-SELECT statement gives "". A SELECT gives the first word of the trimmed text after the first " FROM " of the upper-cased SQL (from position 6 when there is none). Any result contains no space and no parenthesis. |
| PdoOci8Statement.FirstWord | src/PdoOci8Statement.php:560-569 | Text holding "(" gives "". Otherwise the result is the text's prefix up to the first space, or the whole text. |
| PdoOci8Statement.TableNameAfterFrom | src/PdoOci8Statement.php:548-570 | For `head FROM table rest`, where head holds no " FROM " in any case, the result is the table. The table is a word without white space or "(", and the rest holds no "(" and starts with a space or is only white space, so the table may end the text. |
| PdoOci8Statement.TableNameAtEnd | src/PdoOci8Statement.php:548-570 | A SELECT ending in " FROM SYS.DUAL", with no earlier " FROM ", names SYS.DUAL. |
| PdoOci8Statement.TableNameOfSubquery | src/PdoOci8Statement.php:555-562 | A SELECT whose first " FROM " is followed by "(" names no table. |
| PdoOci8Statement.PdoDataType | src/PdoOci8Statement.php:577-601 | NUMBER gives PARAM_INT and LOB, CLOB, BLOB and NCLOB give PARAM_LOB. BOOLEAN gives PARAM_BOOL, and every other name gives PARAM_STR (each an iff). |
| PdoOci8Statement.MetaOf | src/PdoOci8Statement.php:464-478 | The metadata record carries the field's raw type, declared type, size and table. Its PDO type is the one getPDODataType gives the declared type. Its precision is the field's precision minus its scale, with no flags. Under CASE_LOWER its name is the field's name lower-cased, and otherwise the field's name. |
| PdoOci8Statement.MetaOfLowerCase | src/PdoOci8Statement.php:465-467 | Under CASE_LOWER the name holds no capital letter, lower-casing it again changes nothing, and each letter is the field's or its lower-case form. |
| PdoOci8Statement.Statement.ColumnMetaOf | src/PdoOci8Statement.php:448-482 | A record exists exactly for a SELECT whose 1-based field c+1 is described, and it is built from that field. |
| PdoOci8Statement.Statement.Attribute | src/PdoOci8Statement.php:431-438 | getAttribute gives the option for a key the statement holds, and null otherwise. |
| PdoOci8Statement.Statement.GetInternalIterator | src/PdoOci8Statement.php:651-666 | The first call fetches all rows once into the cache, positioned at 0. Later calls reuse the cache and fetch nothing. |
| PdoOci8Statement.Statement.Current | src/PdoOci8Statement.php:671-676 | It returns the cached row at the position, or none past the end, after caching as above. |
| PdoOci8Statement.Statement.Next | src/PdoOci8Statement.php:678-683 | It advances the position by one over the same cached rows. |
| PdoOci8Statement.Statement.Key | src/PdoOci8Statement.php:688-693 | It returns the position while it is within the rows, and none otherwise. |
| PdoOci8Statement.Statement.Valid | src/PdoOci8Statement.php:698-703 | It is true exactly while the position is within the cached rows. |
| PdoOci8Statement.Statement.Rewind | src/PdoOci8Statement.php:705-710 | The position goes back to 0 over the same cached rows, with no new fetch. |
| Errors.InfoOf | src/PdoOci8Statement.php:232-251 | The error array holds the driver code and message exactly when the native layer has an error. Its SQLSTATE is the class of the driver code, with a missing code read as 0, so it is successful completion exactly when there is no error or the code is 0. The same code is at src/PdoOci8.php:236-255. |
| Errors.ListedErrorInfo | src/PdoOci8Statement.php:243 | For a code the table covers, the error array's SQLSTATE is the first case of the cascade that lists the code. |
| Errors.CodeOf | src/PdoOci8Statement.php:215-226 | errorCode is null exactly when there is no native error, and otherwise the error array's SQLSTATE. The same code is at src/PdoOci8.php:219-230. |
| Errors.NoErrorInfo | src/PdoOci8Statement.php:243 | With no error, the array is (success, null, null) and its text is "00000". |
| Errors.MissingTableInfo | src/PdoOci8Statement.php:243-248 | A 942 error gives SQLSTATE "42000". |
| Errors.UnlistedErrorInfo | src/PdoOci8Statement.php:243 | The error array holds the general error exactly for codes the table does not cover. |
| PdoOci8.InTransactionOf | src/PdoOci8.php:307-311 | A connection is in a transaction exactly when its autocommit option is falsy. A missing option counts as in a transaction. |
| PdoOci8.ReadOnlyFromConstructorOnly | src/PdoOci8.php:60-68 | The constructor's merge gives a read-only key such as `ATTR_PERSISTENT` the caller's value, which setAttribute then cannot change. |
| PdoOci8.NewConnectionTransaction | src/PdoOci8.php:39-58 | A new connection is in a transaction exactly when the caller's options give `ATTR_AUTOCOMMIT` a falsy value. |
| PdoOci8.Connection.constructor | src/PdoOci8.php:37-75 | The options are the merge of the caller's into the 18 defaults. The version writes at lines 71-72 change nothing. |
| PdoOci8.Connection.SetAttribute | src/PdoOci8.php:434-453 | It succeeds exactly for a known key outside the six read-only keys. On success it stores the value; otherwise nothing changes. |
| PdoOci8.Connection.Attribute | src/PdoOci8.php:285-292 | getAttribute gives the option for a key the connection holds, and null otherwise. |
| PdoOci8.Connection.InTransaction | src/PdoOci8.php:307-311 | inTransaction is the negated truthiness of `getAttribute(ATTR_AUTOCOMMIT)`. |
| PdoOci8.Connection.BeginTransaction | src/PdoOci8.php:193-196 | It always returns true, sets `ATTR_AUTOCOMMIT` to false and leaves the connection in a transaction. |
| PdoOci8.Connection.Commit | src/PdoOci8.php:202-213 | The result is the native commit's true, or false when it returns false or raises. `ATTR_AUTOCOMMIT` is true afterwards, so the connection is not in a transaction. |
| PdoOci8.Connection.Rollback | src/PdoOci8.php:414-425 | It is the same as commit, with the native rollback. |
| PdoOci8.Quote | src/PdoOci8.php:387-408 | It gives false exactly for a non-scalar value. Otherwise the result is wrapped in single quotes, and for a non-PARAM_STR type it is the plain string value inside them. |
| PdoOci8.UnescapeDoubled | src/PdoOci8.php:405 | Reading back a text with every ' doubled gives the original text. |
| PdoOci8.QuoteReadsBack | src/PdoOci8.php:403-407 | A PARAM_STR literal reads back as the value with each \' turned into '. |
| PdoOci8.QuoteRoundTrip | src/PdoOci8.php:403-407 | A string without \' reads back unchanged from its PARAM_STR literal. |
| PdoOci8.UnescapedQuoteBreaksLiteral | src/PdoOci8.php:395-398 | A non-PARAM_STR quote of text holding a lone ' is not a well-formed SQL literal. |
| PdoOci8.Exec | src/PdoOci8.php:263-277 | exec gives false exactly when the text starts with "SELECT", and otherwise the drawn row count. |
| PdoOci8.ExecGuardIsCaseSensitive | src/PdoOci8.php:266-268 | The guard is case-sensitive and anchored at 0, so lower-case or space-led SELECTs pass it. |
| PdoOci8.FailureSwitch | src/PdoOci8.php:345-356 | A failed prepare throws exactly when the error mode loosely equals ERRMODE_EXCEPTION. It calls `trigger_error` with the warning arm's level exactly when the mode loosely equals ERRMODE_WARNING but not ERRMODE_EXCEPTION, and otherwise fails silently. |
| PdoOci8.FailureModeAsWritten | src/PdoOci8.php:345-356 | The switch as written: its warning arm passes E_WARNING, so it never warns, and the ValueError escapes prepare. |
| PdoOci8.FailureMode | src/PdoOci8.php:345-356 | The switch with E_USER_WARNING: throw, warn and return false, or fail, by the same loose tests. |
| PdoOci8.WarningArmRefused | src/PdoOci8.php:350 | The as-written and corrected switches agree on every error mode except the warning arm, which the code as written turns into a ValueError. |
| PdoOci8.FailureModes | src/PdoOci8.php:345-356 | Exception, warning and silent modes map to throw, warn and fail. Loose equality makes `true`, "2" and " 02" throw, an object warn, and null fail. |
| PdoOci8.FailureModeOfText | src/PdoOci8.php:345-356 | An error mode given as the decimal text of a number behaves as that number. |
| PdoOci8.Connection.Prepare | src/PdoOci8.php:334-357 | A successful parse gives a new statement over the SQL text with the driver options merged into the statement defaults, with no bound parameters, no pending rows and no cached iterator. A failed one gives the outcome of `FailureMode`, whose warning arm uses the user-level warning (see "## Findings"). |
| PdoOci8.ItemsFromMatches | src/PdoOci8.php:141-174 | The database is always set. The charset comes from 16 captures, else the default. For 16 or 14 captures the host, port (or 1521 when empty or 0) and database come from the captures; otherwise they are the defaults. The port never exceeds PHP_INT_MAX. |
| PdoOci8.PortValue | src/PdoOci8.php:160 | `(int)` of the captured port is the value of its digits, saturated at PHP_INT_MAX (9223372036854775807), so it never exceeds that bound. |
| PdoOci8.PortSaturates | src/PdoOci8.php:160 | Every port capture of twenty or more digits without a leading zero, such as "99999999999999999999", reads as PHP_INT_MAX. |
| PdoOci8.PortZeroIsDefault | src/PdoOci8.php:160-163 | A port capture of "0" gives 1521. |
| PdoOci8.DefaultPortAndCharset | src/PdoOci8.php:150-166 | With 14 captures and no port, the connection string uses port 1521 and the charset is AL32UTF8. |
| PdoOci8.ConnectionString | src/PdoOci8.php:130-139 | The connection string starts with "//host:" and ends with "/" and the database, or with "/" alone when the database is null. |
| PdoOci8.EndpointOfConnectionString | src/PdoOci8.php:130-139 | The connection string `//host:port/db` parses back into the same host, port and database, for a host without ':'. |

## Left out

- The OCI8 layer (connection, parse, native bind, execute, fetch, getField, getError, commit, rollback, getType) is external. Each call is a parameter of the model: an `Answer`, a function, or the `pending` row stream.
- getOracleConnection (persistent or plain connection, src/PdoOci8.php:98-128) and a failing connect are left out: they are calls into OCI8.
- The DSN regex (getDsnRegex and preg_match, src/PdoOci8.php:141-187) depends on PCRE. `ItemsFromMatches` takes the captures as input and models only the switch on their count and the defaults. getCharset's own regex is left out as well.
- PdoOci8.Exec: `rand(0, 100)` is nondeterministic, so the row count is the `drawn` parameter, required to lie in 0..100.
- fetchObject's reflection instantiation and the unimplemented FETCH_CLASS, INTO, LAZY and NAMED branches are left out. Those branches only break, so the native fetchArray receives a `$mode` that was never assigned. `FetchDispatch` keeps them as their own path (`UnsetModePath`), and `FetchFrom` takes that fetch as OCI_BOTH, because what OCI8 does with the unset mode is not part of this model.
- nextRowset, columnCount (always 0), bindColumn, closeCursor, rowCount, setFetchMode, lastInsertId, query and getAvailableDrivers are left out. They are stubs, thin wrappers or native calls.
- `&$variable` in bindParam is stored as a value. PHP reference aliasing, where a later change to the variable becomes visible in the table, is not modelled.
- `trigger_error` and exceptions are result variants (`Answer.Raised`, `OnFailure.Triggers`, `OnFailure.Throw`). Warnings are not emitted; `Triggered` records only whether the call reports and goes on, ends the script, or throws a ValueError.
- Floats are not modelled. String keys that PHP would turn into integer array keys ("7") are not modelled either.
- The constructor's `is_string` check of the SQL text is left out, because the model's text is always a string.
- The unused `$autoCommitMode` field of PdoOci8 is left out.
- PdoOci8.ItemsFromMatches: the `(int)` cast of the port is modelled on a leading run of decimal digits, saturated at PHP_INT_MAX as 64-bit PHP does. Signs and leading white space are not modelled, since the regex captures digits only.
- PHP's integers are 64-bit, while the model's are unbounded outside the port cast. So the overflow into a float of `$key + 1` in debugDumpParams and execute (src/PdoOci8Statement.php:195, :264) and of `$column + 1` in getColumnMeta (:460) at PHP_INT_MAX is not captured.
- OracleSqlStateCode.Text: the text of the SQLSTATE constants is not part of this model. Only "00000" and "42000" are given; the other classes are distinct enum cases.
- PdoOci8Statement.Statement.DebugDumpParams: PHP compares a false position from `strrpos` with an integer as booleans. The model orders a missing position before every stored one. That agrees with PHP except against position 0, where PHP's comparison is not consistent. The order-independence of the dump is stated only for entries with distinct positions.
- Differences between PHP 7 and PHP 8 follow PHP 8: `strrpos` with an empty needle; loose comparison of a string with an integer, which is numeric exactly for an integer numeric string and otherwise compares texts; and `trigger_error`, which refuses a level other than E_USER_* with a ValueError.
- PdoOci8.FailureMode and PdoOci8Statement.DriverTypeSwitch: a numeric string with a fraction or an exponent ("2.0", "2e0") is a float in PHP and would equal the integer; the model treats it as non-numeric, so it equals no integer. Floats are not modelled.
- getColumnMeta's re-parse and describe-only execute (src/PdoOci8Statement.php:458-459) are native calls whose exceptions are not caught; the model takes only the described field, as `describe`, and has no path for those exceptions.
- getColumnMeta's column argument is an integer in the model. PHP would accept a numeric string and raise a TypeError for `$column + 1` on a non-numeric one; neither is modelled.
- PHP_EOL in debugDumpParams is fixed to "\n"; the platform's line end is not modelled.
- Where the source and its documentation differ, the model follows the code:
  - beginTransaction always returns true;
  - rewind restarts over the cached rows without fetching again;
  - a PARAM_STMT or INPUT_OUTPUT bind does not fail, since getDriverDataType never reaches its throws;
  - fetch's comparison `$fetch_style === null` is a statement with no effect, and null and ATTR_DEFAULT_FETCH_MODE both reach the OCI_BOTH fetch.

## Findings

| source | as written | input that shows it | evidently intended | confidence | as-written member | corrected member |
|---|---|---|---|---|---|---|
| src/PdoOci8.php:350 | `trigger_error($exception->getMessage(), E_WARNING)`; PHP 8 accepts only E_USER_* levels and throws a ValueError, which no `catch` in `prepare` takes | a parse that fails while ATTR_ERRMODE is ERRMODE_WARNING: `FailureModeAsWritten(Int(ERRMODE_WARNING)) == Triggers(LevelRefused)` (`WarningArmRefused`) | emit a warning with E_USER_WARNING and return false | not executed | PdoOci8.FailureModeAsWritten | PdoOci8.FailureMode |
