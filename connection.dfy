/** The connection facade PdoOci8 (src/PdoOci8.php): its option bag with a read-only list, the
    transaction flag it keeps in ATTR_AUTOCOMMIT, the SQL literal quoter, the SELECT guard of
    `exec`, the error-mode dispatch of `prepare`, and the `//host:port/database` string built from
    the items of the DSN. The native connection is an oracle: each method receives what the native
    call it makes returns. */
module PdoOci8 {
  import opened Optional
  import opened Strings
  import opened Php
  import opened Native
  import opened PdoOci8Statement

  // ================================================================ options

  /** The defaults of the constructor (src/PdoOci8.php:39-58). */
  function ConnectionDefaults(): map<int, Value>
  {
    map[
      ATTR_AUTOCOMMIT := Bool(true),
      ATTR_CASE := Int(CASE_NATURAL),
      ATTR_CLIENT_VERSION := Str(""),
      ATTR_CONNECTION_STATUS := Str(""),
      ATTR_DRIVER_NAME := Str("oci"),
      ATTR_ERRMODE := Int(ERRMODE_SILENT),
      ATTR_ORACLE_NULLS := Int(NULL_NATURAL),
      ATTR_PERSISTENT := Bool(false),
      ATTR_PREFETCH := Int(100),
      ATTR_SERVER_INFO := Str(""),
      ATTR_SERVER_VERSION := Str(""),
      ATTR_TIMEOUT := Int(600),
      ATTR_STRINGIFY_FETCHES := Bool(false),
      ATTR_STATEMENT_CLASS := Null,
      ATTR_EMULATE_PREPARES := Bool(false),
      ATTR_DEFAULT_FETCH_MODE := Int(FETCH_BOTH),
      OCI_ATTR_SESSION_MODE := Int(OCI_DEFAULT),
      OCI_ATTR_RETURN_LOBS := Bool(false)
    ]
  }

  /** The attributes `setAttribute` refuses (src/PdoOci8.php:436-443). */
  predicate ReadOnly(key: int)
  {
    key == ATTR_CLIENT_VERSION || key == ATTR_CONNECTION_STATUS || key == ATTR_DRIVER_NAME
    || key == ATTR_PERSISTENT || key == ATTR_SERVER_INFO || key == ATTR_SERVER_VERSION
  }

  /** `setAttribute` stores a value exactly for a known key that is not read-only. */
  predicate Writable(options: map<int, Value>, key: int)
  {
    !ReadOnly(key) && key in options
  }

  /** `inTransaction()`: the negation of the autocommit option, under PHP's truthiness. */
  function InTransactionOf(options: map<int, Value>): (r: bool)
    ensures ATTR_AUTOCOMMIT !in options ==> r
    ensures ATTR_AUTOCOMMIT in options ==> (r <==> !Truthy(options[ATTR_AUTOCOMMIT]))
  {
    !Truthy(Lookup(options, ATTR_AUTOCOMMIT))
  }

  /** A read-only attribute holds what the caller's options gave it, or its default: the constructor
      copies every known key before `setAttribute` runs, and nothing can change it afterwards. In
      particular the constructor's own `setAttribute` calls for the two versions (src/PdoOci8.php:71-72)
      leave them as they were. */
  lemma ReadOnlyFromConstructorOnly(given: OptionArray, key: int)
    requires ReadOnly(key)
    ensures Lookup(Merge(ConnectionDefaults(), given), key) == GivenValue(given, key).GetOr(ConnectionDefaults()[key])
    ensures !Writable(Merge(ConnectionDefaults(), given), key)
  {
    MergeAt(ConnectionDefaults(), given, key);
  }

  /** A new connection is in a transaction exactly when the caller's options set autocommit to a
      falsy value. */
  lemma NewConnectionTransaction(given: OptionArray)
    ensures InTransactionOf(Merge(ConnectionDefaults(), given))
        <==> GivenValue(given, ATTR_AUTOCOMMIT).Some? && !Truthy(GivenValue(given, ATTR_AUTOCOMMIT).value)
  {
    MergeAt(ConnectionDefaults(), given, ATTR_AUTOCOMMIT);
  }

  // ================================================================ quote

  /** `quote($string, $parameter_type)` (src/PdoOci8.php:387-408); `None` is PHP's false. Only the
      exact integer PARAM_STR escapes: first every backslash-quote becomes a quote, then every quote
      is doubled. Any other type wraps the text in quotes as it is. */
  function Quote(v: Value, parameterType: Value): (r: Option<string>)
    ensures r.None? <==> !IsScalar(v)
    ensures r.Some? ==> |r.value| >= 2 && r.value[0] == '\'' && r.value[|r.value| - 1] == '\''
    ensures r.Some? && parameterType != Int(PARAM_STR) ==> r.value[1..|r.value| - 1] == ToStr(v)
  {
    if !IsScalar(v) then None
    else if parameterType != Int(PARAM_STR) then Some("'" + ToStr(v) + "'")
    else Some("'" + Replace(Replace(ToStr(v), "\\'", "'"), "'", "''") + "'")
  }

  /** How SQL reads the body of a quoted literal: a doubled quote stands for one quote and a lone
      quote ends the literal early, so such a body is not one literal. */
  function Unescape(body: string): (r: Option<string>)
    decreases |body|
  {
    if body == [] then Some([])
    else if body[0] != '\'' then
      match Unescape(body[1..]) case None => None case Some(t) => Some([body[0]] + t)
    else if |body| >= 2 && body[1] == '\'' then
      match Unescape(body[2..]) case None => None case Some(t) => Some("'" + t)
    else None
  }

  /** The string a single-quoted SQL literal denotes, if the text is one such literal. */
  function ReadLiteral(q: string): Option<string>
  {
    if |q| >= 2 && q[0] == '\'' && q[|q| - 1] == '\'' then Unescape(q[1..|q| - 1]) else None
  }

  /** Doubling every quote is undone by reading the text as a literal body. */
  lemma {:induction false} UnescapeDoubled(s: string)
    ensures Unescape(Replace(s, "'", "''")) == Some(s)
    decreases |s|
  {
    if s != [] {
      assert s == [s[0]] + s[1..];
      ReplaceCharCons(s[0], s[1..], '\'', "''");
      var rest := Replace(s[1..], "'", "''");
      UnescapeDoubled(s[1..]);
      if s[0] == '\'' {
        assert Replace(s, "'", "''") == "''" + rest;
        assert ("''" + rest)[2..] == rest;
      } else {
        assert Replace(s, "'", "''") == [s[0]] + rest;
        assert ([s[0]] + rest)[1..] == rest;
      }
    }
  }

  /** With PARAM_STR, the quoted text is one SQL literal, and it denotes the input with each
      backslash-quote reduced to a quote. */
  lemma QuoteReadsBack(v: Value)
    requires IsScalar(v)
    ensures ReadLiteral(Quote(v, Int(PARAM_STR)).value) == Some(Replace(ToStr(v), "\\'", "'"))
  {
    var unescaped := Replace(ToStr(v), "\\'", "'");
    var q := Quote(v, Int(PARAM_STR)).value;
    assert q[1..|q| - 1] == Replace(unescaped, "'", "''");
    UnescapeDoubled(unescaped);
  }

  /** A string without a backslash-quote comes back exactly. */
  lemma QuoteRoundTrip(s: string)
    requires forall j :: !OccursAt(s, "\\'", j)
    ensures ReadLiteral(Quote(Str(s), Int(PARAM_STR)).value) == Some(s)
  {
    ReplaceAbsent(s, "\\'", "'");
    QuoteReadsBack(Str(s));
  }

  /** With any other type a quote inside the value is not escaped, so the result is no literal. */
  lemma UnescapedQuoteBreaksLiteral(prefix: string, suffix: string)
    requires forall j :: 0 <= j < |prefix| ==> prefix[j] != '\''
    requires suffix == [] || suffix[0] != '\''
    ensures ReadLiteral(Quote(Str(prefix + "'" + suffix), Int(PARAM_INT)).value) == None
  {
    var body := prefix + "'" + suffix;
    var q := Quote(Str(body), Int(PARAM_INT)).value;
    assert q[1..|q| - 1] == body;
    UnescapeLoneQuote(prefix, suffix);
  }

  /** A body whose first quote is not doubled does not read as a literal body. */
  lemma {:induction false} UnescapeLoneQuote(prefix: string, suffix: string)
    requires forall j :: 0 <= j < |prefix| ==> prefix[j] != '\''
    requires suffix == [] || suffix[0] != '\''
    ensures Unescape(prefix + "'" + suffix) == None
    decreases |prefix|
  {
    var body := prefix + "'" + suffix;
    if prefix == [] {
      assert body == "'" + suffix;
    } else {
      assert body[0] == prefix[0];
      assert body[1..] == prefix[1..] + "'" + suffix;
      UnescapeLoneQuote(prefix[1..], suffix);
    }
  }

  // ================================================================ exec

  /** `exec($statement)` (src/PdoOci8.php:263-277): false when the text starts with "SELECT" (case
      sensitive), else the number `rand(0, 100)` drew, passed in as `drawn`. */
  function Exec(sqlText: string, drawn: int): (r: Option<int>)
    requires 0 <= drawn <= 100
    ensures r.None? <==> StartsWith(sqlText, "SELECT")
    ensures r.Some? ==> r.value == drawn
  {
    assert StartsWith(sqlText, "SELECT") <==> OccursAt(sqlText, "SELECT", 0);
    if Strpos(sqlText, "SELECT") == Some(0) then None else Some(drawn)
  }

  /** The guard is a plain prefix test: lower case or leading blanks pass it. */
  lemma ExecGuardIsCaseSensitive(drawn: int)
    requires 0 <= drawn <= 100
    ensures Exec("SELECT * FROM DUAL", drawn) == None
    ensures Exec("select * from dual", drawn) == Some(drawn)
    ensures Exec(" SELECT * FROM DUAL", drawn) == Some(drawn)
  {
    assert !StartsWith("select * from dual", "SELECT") by {
      assert "select * from dual"[0] != "SELECT"[0];
    }
    assert !StartsWith(" SELECT * FROM DUAL", "SELECT") by {
      assert " SELECT * FROM DUAL"[0] != "SELECT"[0];
    }
  }

  // ================================================================ prepare

  /** PHP's `E_WARNING` and its `E_USER_*` error levels. */
  const E_WARNING := 2
  const E_USER_ERROR := 256
  const E_USER_WARNING := 512
  const E_USER_NOTICE := 1024
  const E_USER_DEPRECATED := 16384

  /** What `trigger_error($message, $level)` does in PHP 8 under the default handler. */
  datatype Triggered =
    | Emitted        // a user warning, notice or deprecation is reported and execution goes on
    | Halted         // E_USER_ERROR is fatal and ends the script
    | LevelRefused   // any other level throws a ValueError, an \Error that no `catch (\Exception)` takes

  function TriggerError(level: int): (t: Triggered)
    ensures t == Emitted <==> level in {E_USER_WARNING, E_USER_NOTICE, E_USER_DEPRECATED}
    ensures t == Halted <==> level == E_USER_ERROR
    ensures t == LevelRefused <==> level !in {E_USER_ERROR, E_USER_WARNING, E_USER_NOTICE, E_USER_DEPRECATED}
  {
    if level == E_USER_WARNING || level == E_USER_NOTICE || level == E_USER_DEPRECATED then Emitted
    else if level == E_USER_ERROR then Halted
    else LevelRefused
  }

  /** What `prepare` does when the statement cannot be built (src/PdoOci8.php:345-356): rethrow, call
      `trigger_error` and then return false if it returns, or just return false. */
  datatype OnFailure = Throw | Triggers(triggered: Triggered) | Fail

  /** The `switch` on ATTR_ERRMODE, which compares loosely, with the level the warning arm hands to
      `trigger_error`: the first matching case wins, and anything matching neither EXCEPTION nor
      WARNING just fails. */
  function FailureSwitch(errorMode: Value, warningLevel: int): (f: OnFailure)
    ensures f == Throw <==> LooseEqualsInt(errorMode, ERRMODE_EXCEPTION)
    ensures f.Triggers? <==> !LooseEqualsInt(errorMode, ERRMODE_EXCEPTION) && LooseEqualsInt(errorMode, ERRMODE_WARNING)
    ensures f.Triggers? ==> f.triggered == TriggerError(warningLevel)
  {
    if LooseEqualsInt(errorMode, ERRMODE_EXCEPTION) then Throw
    else if LooseEqualsInt(errorMode, ERRMODE_WARNING) then Triggers(TriggerError(warningLevel))
    else Fail
  }

  /** The switch as written, which passes E_WARNING (src/PdoOci8.php:350): in PHP 8 the warning arm
      never warns, and its ValueError leaves `prepare`. */
  function FailureModeAsWritten(errorMode: Value): (f: OnFailure)
    ensures f == Throw <==> LooseEqualsInt(errorMode, ERRMODE_EXCEPTION)
    ensures f == Triggers(LevelRefused) <==> !LooseEqualsInt(errorMode, ERRMODE_EXCEPTION) && LooseEqualsInt(errorMode, ERRMODE_WARNING)
    ensures f != Triggers(Emitted)
  {
    FailureSwitch(errorMode, E_WARNING)
  }

  /** The switch with the user-level E_USER_WARNING that the warning mode calls for: it warns and
      `prepare` returns false. */
  function FailureMode(errorMode: Value): (f: OnFailure)
    ensures f == Throw <==> LooseEqualsInt(errorMode, ERRMODE_EXCEPTION)
    ensures f == Triggers(Emitted) <==> !LooseEqualsInt(errorMode, ERRMODE_EXCEPTION) && LooseEqualsInt(errorMode, ERRMODE_WARNING)
    ensures f in {Throw, Triggers(Emitted), Fail}
  {
    FailureSwitch(errorMode, E_USER_WARNING)
  }

  /** The two switches agree except in the warning arm, where the code as written throws a
      ValueError instead of warning. */
  lemma WarningArmRefused(errorMode: Value)
    ensures FailureMode(errorMode) != Triggers(Emitted) ==> FailureModeAsWritten(errorMode) == FailureMode(errorMode)
    ensures FailureMode(errorMode) == Triggers(Emitted) <==> FailureModeAsWritten(errorMode) == Triggers(LevelRefused)
    ensures FailureModeAsWritten(Int(ERRMODE_WARNING)) == Triggers(LevelRefused)
  {
  }

  /** The three PDO error modes behave as documented; because the comparison is loose, `true`, the
      text "2" and a padded " 02" also throw, an object (which converts to 1) warns, and an unset
      mode (null) fails silently. */
  lemma FailureModes()
    ensures FailureMode(Int(ERRMODE_EXCEPTION)) == Throw
    ensures FailureMode(Int(ERRMODE_WARNING)) == Triggers(Emitted)
    ensures FailureMode(Int(ERRMODE_SILENT)) == Fail
    ensures FailureMode(Bool(true)) == Throw && FailureMode(Str("2")) == Throw
    ensures FailureMode(Str(" 02\n")) == Throw
    ensures FailureMode(Obj) == Triggers(Emitted)
    ensures FailureMode(Null) == Fail
  {
    IntegerValueOfText(2);
    assert IntToString(2) == "2";
    PaddedIntegerValue();
  }

  /** Every error mode given as the decimal text of a number behaves as that number. */
  lemma {:induction false} FailureModeOfText(n: int)
    ensures FailureMode(Str(IntToString(n))) == FailureMode(Int(n))
  {
    IntegerValueOfText(n);
  }

  /** The result of `prepare`: a new statement, or the failure the error mode chooses. */
  datatype PrepareOutcome = Prepared(statement: Statement) | Failed(onFailure: OnFailure)

  // ================================================================ connection string

  /** The items `getConnectionStringItems` collects from the DSN. */
  datatype Items = Items(hostname: string, port: nat, database: Option<string>, charset: string)

  /** The values the items start from (src/PdoOci8.php:150-153). */
  const DEFAULT_ITEMS: Items := Items("localhost", 1521, None, "AL32UTF8")

  /** PHP's `empty()` on a string. */
  predicate EmptyText(s: string)
  {
    s == "" || s == "0"
  }

  /** PHP's `(int)` on the digits the DSN pattern captures for the port: the value of the leading
      digits, saturated at PHP_INT_MAX as 64-bit PHP's string-to-integer conversion is. */
  function PortValue(s: string): (r: nat)
    ensures r <= PHP_INT_MAX
    ensures ParseDigits(LeadingDigits(s)) <= PHP_INT_MAX ==> r == ParseDigits(LeadingDigits(s))
    ensures ParseDigits(LeadingDigits(s)) > PHP_INT_MAX ==> r == PHP_INT_MAX
  {
    var n := ParseDigits(LeadingDigits(s));
    if n > PHP_INT_MAX then PHP_INT_MAX else n
  }

  /** A port of twenty or more digits without a leading zero is beyond 64-bit PHP and reads as
      PHP_INT_MAX, as "99999999999999999999" does. */
  lemma PortSaturates(s: string)
    requires |s| >= 20 && s[0] != '0'
    requires forall i :: 0 <= i < |s| ==> IsDigit(s[i])
    ensures PortValue(s) == PHP_INT_MAX
  {
    AllDigitsLead(s);
    LeadingDigitValue(s);
    Pow10Grows(19, |s| - 1);
    assert Pow10(19) > PHP_INT_MAX by { Pow10Sum(9, 10); }
  }

  /** The `switch (count($matches))` of `getConnectionStringItems` (src/PdoOci8.php:150-173) on the
      capture groups of a successful match, which always holds the whole match and group 1. With 16
      groups a charset was given and the case falls through to the one for 14 groups, which reads
      host, port and database; any other count names only the database. */
  function ItemsFromMatches(matches: seq<string>): (r: Items)
    requires |matches| >= 2
    ensures r.database.Some?
    ensures r.port <= PHP_INT_MAX
    ensures |matches| == 16 ==> r.charset == (if EmptyText(matches[15]) then DEFAULT_ITEMS.charset else matches[15])
    ensures |matches| != 16 ==> r.charset == DEFAULT_ITEMS.charset
    ensures |matches| == 16 || |matches| == 14 ==>
      && r.hostname == matches[4]
      && r.database == Some(matches[13])
      && r.port == (if EmptyText(matches[12]) then DEFAULT_ITEMS.port else PortValue(matches[12]))
    ensures |matches| != 16 && |matches| != 14 ==>
      r == DEFAULT_ITEMS.(database := Some(matches[1]))
  {
    var charset := if |matches| == 16 && !EmptyText(matches[15]) then matches[15] else DEFAULT_ITEMS.charset;
    if |matches| == 16 || |matches| == 14 then
      var port := if EmptyText(matches[12]) then DEFAULT_ITEMS.port else PortValue(matches[12]);
      Items(matches[4], port, Some(matches[13]), charset)
    else
      DEFAULT_ITEMS.(database := Some(matches[1]))
  }

  /** A port written as "0" is `empty()` in PHP and gives the default port. */
  lemma PortZeroIsDefault(matches: seq<string>)
    requires |matches| == 14 && matches[12] == "0"
    ensures ItemsFromMatches(matches).port == 1521
  {
  }

  /** `getConnectionString` (src/PdoOci8.php:130-139): `//host:port/database`, a null database
      interpolating as nothing. */
  function ConnectionString(items: Items): (r: string)
    ensures StartsWith(r, "//" + items.hostname + ":")
    ensures var tail := "/" + items.database.GetOr(""); |tail| <= |r| && r[|r| - |tail|..] == tail
  {
    "//" + items.hostname + ":" + NatToString(items.port) + "/" + items.database.GetOr("")
  }

  /** Reading a connection string back: the host up to the first colon after "//", the digits after
      it, a slash, and the database. */
  function Endpoint(s: string): Option<(string, nat, string)>
  {
    if !StartsWith(s, "//") then None
    else
      var rest := s[2..];
      match Strpos(rest, ":")
      case None => None
      case Some(i) =>
        match PortAndDatabase(rest[i + 1..])
        case None => None
        case Some(pd) => Some((rest[..i], pd.0, pd.1))
  }

  /** The digits up to a slash, and the database after it. */
  function PortAndDatabase(after: string): Option<(nat, string)>
  {
    var digits := LeadingDigits(after);
    if digits == [] || |digits| == |after| || after[|digits|] != '/' then None
    else Some((ParseDigits(digits), after[|digits| + 1..]))
  }

  /** The connection string keeps host, port and database apart whenever the host has no colon,
      which holds for every host name or address the DSN pattern accepts. */
  lemma EndpointOfConnectionString(items: Items)
    requires forall i :: 0 <= i < |items.hostname| ==> items.hostname[i] != ':'
    ensures Endpoint(ConnectionString(items)) == Some((items.hostname, items.port, items.database.GetOr("")))
  {
    var host, digits, db := items.hostname, NatToString(items.port), items.database.GetOr("");
    var s := ConnectionString(items);
    var tail := digits + "/" + db;
    assert s == "//" + (host + ":" + tail);
    assert s[2..] == host + ":" + tail;
    ColonAfterHost(host, tail);
    PortAndDatabaseOf(digits, db);
    ParseNatToString(items.port);
  }

  /** `PortAndDatabase` splits "digits/db" at the slash. */
  lemma PortAndDatabaseOf(digits: string, db: string)
    requires digits != [] && forall i :: 0 <= i < |digits| ==> IsDigit(digits[i])
    ensures PortAndDatabase(digits + "/" + db) == Some((ParseDigits(digits), db))
  {
    var after := digits + "/" + db;
    assert after == digits + ("/" + db);
    LeadingDigitsOfNumber(digits, "/" + db);
    assert after[|digits|] == '/';
    assert after[|digits| + 1..] == db;
  }

  /** The first colon of "host:tail" ends a colon-free host. */
  lemma ColonAfterHost(host: string, tail: string)
    requires forall i :: 0 <= i < |host| ==> host[i] != ':'
    ensures Strpos(host + ":" + tail, ":") == Some(|host|)
    ensures (host + ":" + tail)[..|host|] == host
    ensures (host + ":" + tail)[|host| + 1..] == tail
  {
    var rest := host + ":" + tail;
    StrposChar(rest, ':');
    assert rest[|host|] == ':';
    forall j | 0 <= j < |host| ensures rest[j] != ':' {
      assert rest[j] == host[j];
    }
  }

  /** With no port and no charset in the DSN the defaults hold: `//host:1521/db` over AL32UTF8. */
  lemma DefaultPortAndCharset(matches: seq<string>)
    requires |matches| == 14 && matches[12] == ""
    ensures ConnectionString(ItemsFromMatches(matches)) == "//" + matches[4] + ":1521/" + matches[13]
    ensures ItemsFromMatches(matches).charset == "AL32UTF8"
  {
    assert NatToString(1521) == "1521";
  }

  // ================================================================ the connection

  class Connection {
    var options: map<int, Value>

    ghost predicate Wellformed()
      reads this
    {
      options.Keys == ConnectionDefaults().Keys
    }

    /** The constructor (src/PdoOci8.php:37-75) once the native connection is open: the merge, the
        `setAttribute` pass, and the two version writes with what the native connection reports,
        which the read-only list refuses. */
    constructor (given: OptionArray, clientVersion: Value, serverVersion: Value)
      requires DistinctKeys(given)
      ensures options == Merge(ConnectionDefaults(), given)
      ensures Wellformed()
    {
      var merged := MergeOptions(ConnectionDefaults(), given);
      options := merged;
      new;
      for i := 0 to |given|
        invariant options == Merge(ConnectionDefaults(), given)
      {
        var (attribute, value) := given[i];
        MergeAt(ConnectionDefaults(), given, attribute);
        GivenValueAt(given, i);
        var _ := SetAttribute(attribute, value);
      }
      var _ := SetAttribute(ATTR_CLIENT_VERSION, clientVersion);
      var _ := SetAttribute(ATTR_SERVER_VERSION, serverVersion);
    }

    /** `getAttribute($attribute)` (src/PdoOci8.php:285-292). */
    function Attribute(key: int): (r: Value)
      reads this
      ensures key in options ==> r == options[key]
      ensures key !in options ==> r == Null
    {
      Lookup(options, key)
    }

    /** `setAttribute($attribute, $value)` (src/PdoOci8.php:434-453). */
    method SetAttribute(key: int, value: Value) returns (ok: bool)
      modifies this
      ensures ok <==> Writable(old(options), key)
      ensures options == if ok then old(options)[key := value] else old(options)
    {
      if ReadOnly(key) || key !in options {
        return false;
      }
      options := options[key := value];
      return true;
    }

    /** `inTransaction()` (src/PdoOci8.php:307-311). */
    function InTransaction(): (r: bool)
      reads this
      ensures r <==> !Truthy(Attribute(ATTR_AUTOCOMMIT))
    {
      InTransactionOf(options)
    }

    /** `beginTransaction()` (src/PdoOci8.php:193-196): switches autocommit off, which always
        succeeds, so a second call succeeds as well. */
    method BeginTransaction() returns (ok: bool)
      modifies this
      requires Wellformed()
      ensures Wellformed()
      ensures ok
      ensures options == old(options)[ATTR_AUTOCOMMIT := Bool(false)]
      ensures InTransaction()
    {
      ok := SetAttribute(ATTR_AUTOCOMMIT, Bool(false));
    }

    /** `commit()` (src/PdoOci8.php:202-213): the native result, false when the native commit
        throws, and autocommit back on in either case. */
    method Commit(native: Answer<bool>) returns (ok: bool)
      modifies this
      requires Wellformed()
      ensures Wellformed()
      ensures ok <==> native == Returned(true)
      ensures options == old(options)[ATTR_AUTOCOMMIT := Bool(true)]
      ensures !InTransaction()
    {
      ok := if native.Returned? then native.value else false;
      var _ := SetAttribute(ATTR_AUTOCOMMIT, Bool(true));
    }

    /** `rollback()` (src/PdoOci8.php:414-425): as `commit`, with the native rollback. */
    method Rollback(native: Answer<bool>) returns (ok: bool)
      modifies this
      requires Wellformed()
      ensures Wellformed()
      ensures ok <==> native == Returned(true)
      ensures options == old(options)[ATTR_AUTOCOMMIT := Bool(true)]
      ensures !InTransaction()
    {
      ok := if native.Returned? then native.value else false;
      var _ := SetAttribute(ATTR_AUTOCOMMIT, Bool(true));
    }

    /** `prepare($statement, $driver_options)` (src/PdoOci8.php:334-357). `parsed` is what the
        native parse gives: the statement's type, or an exception, which the error mode handles
        through `FailureMode`, the switch with the user-level warning (`FailureModeAsWritten` is the
        switch as written). */
    method Prepare(sqlText: string, driverOptions: OptionArray, parsed: Answer<string>) returns (outcome: PrepareOutcome)
      requires DistinctKeys(driverOptions)
      ensures parsed.Returned? ==>
        && outcome.Prepared?
        && fresh(outcome.statement)
        && outcome.statement.sqlText == sqlText
        && outcome.statement.statementType == parsed.value
        && outcome.statement.options == Merge(StatementDefaults(), driverOptions)
        && outcome.statement.boundParameters == []
        && outcome.statement.pending == []
        && outcome.statement.cursor == None
        && outcome.statement.Wellformed()
      ensures parsed.Raised? ==> outcome == Failed(FailureMode(Attribute(ATTR_ERRMODE)))
    {
      match parsed {
        case Returned(statementType) =>
          var statement := new Statement(sqlText, statementType, driverOptions);
          return Prepared(statement);
        case Raised =>
          return Failed(FailureMode(Attribute(ATTR_ERRMODE)));
      }
    }
  }
}
