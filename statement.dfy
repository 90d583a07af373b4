/** `PdoOci8Statement` (src/PdoOci8Statement.php): a prepared statement in front of a native OCI8
    statement. It keeps its attribute options, a table of bound parameters, and, once iterated, a
    cache of all remaining rows. The native statement is an oracle: each method receives what the
    native calls it makes give back, and the rows of the native cursor are the field `pending`. */
module PdoOci8Statement {
  import opened Optional
  import opened Strings
  import opened Php
  import opened Native

  // ================================================================ attribute defaults

  /** The attributes a statement starts with (src/PdoOci8Statement.php:45-60). */
  function StatementDefaults(): map<int, Value>
  {
    map[
      ATTR_AUTOCOMMIT := Bool(true),
      ATTR_CASE := Int(CASE_NATURAL),
      ATTR_ERRMODE := Int(ERRMODE_SILENT),
      ATTR_ORACLE_NULLS := Int(NULL_NATURAL),
      ATTR_PREFETCH := Int(100),
      ATTR_TIMEOUT := Int(600),
      ATTR_STRINGIFY_FETCHES := Bool(false),
      ATTR_STATEMENT_CLASS := Null,
      ATTR_EMULATE_PREPARES := Bool(false),
      ATTR_DEFAULT_FETCH_MODE := Int(FETCH_BOTH),
      ATTR_FETCH_TABLE_NAMES := Bool(false),
      ATTR_FETCH_CATALOG_NAMES := Bool(false),
      ATTR_MAX_COLUMN_LEN := Int(0),
      OCI_ATTR_RETURN_LOBS := Bool(false)
    ]
  }

  /** `setAttribute` refuses `ATTR_AUTOCOMMIT` and every key the defaults do not hold. */
  predicate Settable(options: map<int, Value>, key: int)
  {
    key != ATTR_AUTOCOMMIT && key in options
  }

  /** Autocommit is on unless the caller's options switch it off: the constructor is the only way a
      statement's autocommit differs from the default. */
  lemma ConstructorSetsAutocommit(given: OptionArray)
    ensures Lookup(Merge(StatementDefaults(), given), ATTR_AUTOCOMMIT) == GivenValue(given, ATTR_AUTOCOMMIT).GetOr(Bool(true))
    ensures !Settable(Merge(StatementDefaults(), given), ATTR_AUTOCOMMIT)
  {
    MergeAt(StatementDefaults(), given, ATTR_AUTOCOMMIT);
  }

  // ================================================================ bound parameters

  /** One entry of `boundParameters`: the key it was bound under, the name shown by the dump (empty
      for integer keys), the last position of the key's text in the SQL (`None` for PHP's false), the
      bound value and the PDO type. */
  datatype BoundParameter = BoundParameter(key: ArrayKey, name: string, position: Option<nat>, value: Value, dataType: int)

  /** The text PHP searches for when the key is used as a `strrpos` needle: an integer key is read as
      its decimal text. */
  function KeyText(k: ArrayKey): string
  {
    match k
    case IntKey(i) => IntToString(i)
    case StrKey(s) => s
  }

  /** The entry a successful bind stores (src/PdoOci8Statement.php:126-131). */
  function Entry(sqlText: string, parameter: ArrayKey, value: Value, dataType: int): BoundParameter
  {
    BoundParameter(parameter, if parameter.IntKey? then "" else parameter.s,
                   Strrpos(sqlText, KeyText(parameter)), value, dataType)
  }

  /** A PHP array holds each key once. */
  predicate UniqueKeys(t: seq<BoundParameter>)
  {
    forall i, j :: 0 <= i < j < |t| ==> t[i].key != t[j].key
  }

  predicate HasKey(t: seq<BoundParameter>, k: ArrayKey)
  {
    exists i :: 0 <= i < |t| && t[i].key == k
  }

  /** `$this->boundParameters[$key] = $entry`: an existing key is overwritten where it stands, a new
      key is appended at the end. */
  function Upsert(t: seq<BoundParameter>, e: BoundParameter): (r: seq<BoundParameter>)
    ensures HasKey(t, e.key) && UniqueKeys(t) ==>
      |r| == |t| && forall i :: 0 <= i < |t| ==> r[i] == (if t[i].key == e.key then e else t[i])
    ensures !HasKey(t, e.key) ==> r == t + [e]
    ensures UniqueKeys(t) ==> UniqueKeys(r)
    ensures forall x :: x in r ==> x == e || x in t
    decreases |t|
  {
    if t == [] then [e]
    else if t[0].key == e.key then [e] + t[1..]
    else [t[0]] + Upsert(t[1..], e)
  }

  /** The stored entry is in the table afterwards, and so is every entry under another key. */
  lemma {:induction false} UpsertKeeps(t: seq<BoundParameter>, e: BoundParameter)
    ensures e in Upsert(t, e)
    ensures forall x :: x in t && x.key != e.key ==> x in Upsert(t, e)
    decreases |t|
  {
    if t != [] && t[0].key != e.key {
      UpsertKeeps(t[1..], e);
      assert forall x :: x in t ==> x == t[0] || x in t[1..];
    }
  }

  /** What `bindParam` receives from the native `bindByName` for a key, a length and a bind type. */
  type NativeBind = (ArrayKey, int, Option<Sqlt>) -> Answer<bool>

  /** The switch of `getDriverDataType` (src/PdoOci8Statement.php:611-635) evaluated on a subject
      with PHP's loose comparison, case by case in source order. `Raised` is the exception for the
      unsupported types; `None` is the null returned when no case matches. */
  function DriverTypeSwitch(subject: Value): Answer<Option<Sqlt>>
  {
    if LooseEqualsInt(subject, PARAM_BOOL) then Returned(Some(SqltBol))
    else if LooseEqualsInt(subject, PARAM_INT) then Returned(Some(SqltInt))
    else if LooseEqualsInt(subject, PARAM_LOB) then Returned(Some(SqltClob))
    else if LooseEqualsInt(subject, PARAM_STMT) then Raised
    else if LooseEqualsInt(subject, PARAM_NULL) || LooseEqualsInt(subject, PARAM_STR) then Returned(Some(SqltChr))
    else if LooseEqualsInt(subject, PARAM_INPUT_OUTPUT)
         || LooseEqualsInt(subject, PARAM_INPUT_OUTPUT + PARAM_BOOL)
         || LooseEqualsInt(subject, PARAM_INPUT_OUTPUT + PARAM_INT)
         || LooseEqualsInt(subject, PARAM_INPUT_OUTPUT + PARAM_LOB)
         || LooseEqualsInt(subject, PARAM_INPUT_OUTPUT + PARAM_STMT)
         || LooseEqualsInt(subject, PARAM_INPUT_OUTPUT + PARAM_NULL)
         || LooseEqualsInt(subject, PARAM_INPUT_OUTPUT + PARAM_STR)
    then Raised
    else Returned(None)
  }

  /** `getDriverDataType($type)` as written: it switches on its local `$dataType`, which is null, so
      the PARAM_NULL label matches loosely and every type is bound as SQLT_CHR, without exception. */
  function DriverDataType(dataType: int): (r: Answer<Option<Sqlt>>)
    ensures r == Returned(Some(SqltChr))
  {
    DriverTypeSwitch(Null)
  }

  /** The mapping the switch encodes, had it been applied to the argument: it differs from what
      `getDriverDataType` returns for the integer, boolean and LOB types and for the unsupported ones. */
  lemma DriverDataTypeIgnoresArgument()
    ensures DriverTypeSwitch(Int(PARAM_INT)) == Returned(Some(SqltInt)) != DriverDataType(PARAM_INT)
    ensures DriverTypeSwitch(Int(PARAM_BOOL)) == Returned(Some(SqltBol)) != DriverDataType(PARAM_BOOL)
    ensures DriverTypeSwitch(Int(PARAM_LOB)) == Returned(Some(SqltClob)) != DriverDataType(PARAM_LOB)
    ensures DriverTypeSwitch(Int(PARAM_STMT)) == Raised != DriverDataType(PARAM_STMT)
    ensures DriverTypeSwitch(Int(PARAM_INPUT_OUTPUT + PARAM_STR)) == Raised
    ensures DriverTypeSwitch(Int(PARAM_STR)) == DriverDataType(PARAM_STR)
  {
  }

  /** The outcome of one `bindParam` call: its result and the new table. */
  datatype BindResult = BindResult(bound: bool, table: seq<BoundParameter>)

  /** `bindParam($parameter, $variable, $dataType, $length)` (src/PdoOci8Statement.php:112-138): a
      null type stands for PARAM_STR and a null length for -1; the entry is stored only when the
      native bind returns true, and a native exception is swallowed into false. */
  function Bind(t: seq<BoundParameter>, sqlText: string, parameter: ArrayKey, value: Value,
                dataType: Option<int>, length: Option<int>, native: NativeBind): (r: BindResult)
    ensures r.bound <==> native(parameter, length.GetOr(-1), Some(SqltChr)) == Returned(true)
    ensures !r.bound ==> r.table == t
    ensures r.bound ==> r.table == Upsert(t, Entry(sqlText, parameter, value, dataType.GetOr(PARAM_STR)))
  {
    var pdoType := if dataType.None? then PARAM_STR else dataType.value;
    match DriverDataType(pdoType)
    case Raised => BindResult(false, t)
    case Returned(sqlt) =>
      var len := if length.Some? then length.value else -1;
      match native(parameter, len, sqlt)
      case Raised => BindResult(false, t)
      case Returned(ok) => if ok then BindResult(true, Upsert(t, Entry(sqlText, parameter, value, pdoType))) else BindResult(false, t)
  }

  /** What a successful bind records: exactly one entry for the key, named after it (empty for an
      integer key), at the last occurrence of its text in the SQL, with the given value and type;
      every other entry is kept. */
  lemma {:induction false} BindRecords(t: seq<BoundParameter>, sqlText: string, parameter: ArrayKey, value: Value,
                                        dataType: Option<int>, length: Option<int>, native: NativeBind)
    requires UniqueKeys(t)
    requires Bind(t, sqlText, parameter, value, dataType, length, native).bound
    ensures var r := Bind(t, sqlText, parameter, value, dataType, length, native).table;
      UniqueKeys(r) &&
      exists i ::
        && 0 <= i < |r| && r[i].key == parameter
        && r[i].name == (if parameter.IntKey? then "" else parameter.s)
        && r[i].value == value && r[i].dataType == dataType.GetOr(PARAM_STR)
        && (r[i].position.Some? ==> OccursAt(sqlText, KeyText(parameter), r[i].position.value))
        && (forall j :: OccursAt(sqlText, KeyText(parameter), j) ==> r[i].position.Some? && j <= r[i].position.value)
    ensures var r := Bind(t, sqlText, parameter, value, dataType, length, native).table;
      forall x :: x in t && x.key != parameter ==> x in r
  {
    var e := Entry(sqlText, parameter, value, dataType.GetOr(PARAM_STR));
    var r := Bind(t, sqlText, parameter, value, dataType, length, native).table;
    assert r == Upsert(t, e);
    UpsertKeeps(t, e);
    var i :| 0 <= i < |r| && r[i] == e;
  }

  /** Binding again under the same key overwrites the earlier entry: the table is as if only the
      later bind had happened. */
  lemma {:induction false} RebindOverwrites(t: seq<BoundParameter>, e: BoundParameter, e2: BoundParameter)
    requires e2.key == e.key
    ensures Upsert(Upsert(t, e), e2) == Upsert(t, e2)
    decreases |t|
  {
    if t != [] && t[0].key != e.key {
      var r := Upsert(t[1..], e);
      assert Upsert(t, e) == [t[0]] + r;
      assert ([t[0]] + r)[1..] == r;
      RebindOverwrites(t[1..], e, e2);
    }
  }

  /** One step of `Upsert` on a table that starts with `h`. */
  lemma UpsertCons(h: BoundParameter, rest: seq<BoundParameter>, e: BoundParameter)
    ensures h.key == e.key ==> Upsert([h] + rest, e) == [e] + rest
    ensures h.key != e.key ==> Upsert([h] + rest, e) == [h] + Upsert(rest, e)
  {
    assert ([h] + rest)[0] == h;
    assert ([h] + rest)[1..] == rest;
  }

  /** Binding two different keys in either order gives the same entries. */
  lemma {:induction false} UpsertCommutes(t: seq<BoundParameter>, a: BoundParameter, b: BoundParameter)
    requires a.key != b.key
    ensures multiset(Upsert(Upsert(t, a), b)) == multiset(Upsert(Upsert(t, b), a))
    decreases |t|
  {
    if t == [] {
      assert Upsert(Upsert(t, a), b) == [a, b];
      assert Upsert(Upsert(t, b), a) == [b, a];
    } else {
      var rest := t[1..];
      assert t == [t[0]] + rest;
      if t[0].key == a.key {
        CommuteAtHead(t[0], rest, a, b);
      } else if t[0].key == b.key {
        CommuteAtHead(t[0], rest, b, a);
      } else {
        UpsertCommutes(rest, a, b);
        CommuteBehindHead(t[0], rest, a, b);
      }
    }
  }

  /** `UpsertCommutes` when the table starts with the key of `a`: both orders give the same table. */
  lemma CommuteAtHead(h: BoundParameter, rest: seq<BoundParameter>, a: BoundParameter, b: BoundParameter)
    requires h.key == a.key && a.key != b.key
    ensures Upsert(Upsert([h] + rest, a), b) == Upsert(Upsert([h] + rest, b), a)
  {
    UpsertCons(h, rest, a);
    UpsertCons(h, rest, b);
    UpsertCons(a, rest, b);
    UpsertCons(h, Upsert(rest, b), a);
  }

  /** `UpsertCommutes` when the table starts with a third key: the head stays and the rest commutes. */
  lemma CommuteBehindHead(h: BoundParameter, rest: seq<BoundParameter>, a: BoundParameter, b: BoundParameter)
    requires h.key != a.key && h.key != b.key
    requires multiset(Upsert(Upsert(rest, a), b)) == multiset(Upsert(Upsert(rest, b), a))
    ensures multiset(Upsert(Upsert([h] + rest, a), b)) == multiset(Upsert(Upsert([h] + rest, b), a))
  {
    UpsertCons(h, rest, a);
    UpsertCons(h, rest, b);
    UpsertCons(h, Upsert(rest, a), b);
    UpsertCons(h, Upsert(rest, b), a);
    ConsSameMultiset(h, Upsert(Upsert(rest, a), b), Upsert(Upsert(rest, b), a));
  }

  /** The same first element in front of two sequences with equal multisets. */
  lemma ConsSameMultiset(h: BoundParameter, u: seq<BoundParameter>, v: seq<BoundParameter>)
    requires multiset(u) == multiset(v)
    ensures multiset([h] + u) == multiset([h] + v)
  {
  }

  /** The placeholder `execute` binds an input under (src/PdoOci8Statement.php:263-267): the
      1-based number after an integer key, the key itself otherwise. */
  function BindName(k: ArrayKey): (r: ArrayKey)
    ensures k.IntKey? ==> r == IntKey(k.i + 1)
    ensures k.StrKey? ==> r == k
  {
    match k
    case IntKey(i) => IntKey(i + 1)
    case StrKey(_) => k
  }

  /** The table after `execute` has bound its inputs in order (src/PdoOci8Statement.php:262-269):
      an integer key k binds the 1-based placeholder k+1 and a string key binds itself, each as a
      PARAM_STR `bindValue` whose result is ignored. */
  function BindInputs(t: seq<BoundParameter>, sqlText: string, inputs: seq<(ArrayKey, Value)>, native: NativeBind): (r: seq<BoundParameter>)
    ensures UniqueKeys(t) ==> UniqueKeys(r)
    ensures forall x :: x in r ==> x in t || exists i :: 0 <= i < |inputs| && x.key == BindName(inputs[i].0)
    decreases |inputs|
  {
    if inputs == [] then t
    else
      var last := inputs[|inputs| - 1];
      var r := BindInputs(t, sqlText, inputs[..|inputs| - 1], native);
      Bind(r, sqlText, BindName(last.0), last.1, Some(PARAM_STR), None, native).table
  }

  /** A bind whose native call succeeds stores its entry. */
  lemma BindStores(t: seq<BoundParameter>, sqlText: string, parameter: ArrayKey, value: Value, native: NativeBind)
    requires native(parameter, -1, Some(SqltChr)) == Returned(true)
    ensures Entry(sqlText, parameter, value, PARAM_STR) in Bind(t, sqlText, parameter, value, Some(PARAM_STR), None, native).table
  {
    UpsertKeeps(t, Entry(sqlText, parameter, value, PARAM_STR));
  }

  /** A bind keeps every entry under another key, whether or not it succeeds. */
  lemma BindKeepsOthers(t: seq<BoundParameter>, sqlText: string, parameter: ArrayKey, value: Value, native: NativeBind,
                        x: BoundParameter)
    requires x in t && x.key != parameter
    ensures x in Bind(t, sqlText, parameter, value, Some(PARAM_STR), None, native).table
  {
    UpsertKeeps(t, Entry(sqlText, parameter, value, PARAM_STR));
  }

  /** The last input bound under a name is the one the table holds for it: when the native bind
      of that name succeeds, its PARAM_STR entry survives every later input, each of which binds a
      different name. */
  lemma {:induction false} LastInputBound(t: seq<BoundParameter>, sqlText: string, inputs: seq<(ArrayKey, Value)>,
                                          native: NativeBind, i: nat)
    requires i < |inputs|
    requires forall j :: i < j < |inputs| ==> BindName(inputs[j].0) != BindName(inputs[i].0)
    requires native(BindName(inputs[i].0), -1, Some(SqltChr)) == Returned(true)
    ensures Entry(sqlText, BindName(inputs[i].0), inputs[i].1, PARAM_STR) in BindInputs(t, sqlText, inputs, native)
    decreases |inputs|
  {
    var n := |inputs|;
    var last := inputs[n - 1];
    var prefix := inputs[..n - 1];
    var r := BindInputs(t, sqlText, prefix, native);
    assert BindInputs(t, sqlText, inputs, native) == Bind(r, sqlText, BindName(last.0), last.1, Some(PARAM_STR), None, native).table;
    if i < n - 1 {
      assert prefix[i] == inputs[i];
      forall j | i < j < |prefix| ensures BindName(prefix[j].0) != BindName(prefix[i].0) {
        assert prefix[j] == inputs[j];
      }
      LastInputBound(t, sqlText, prefix, native, i);
      BindKeepsOthers(r, sqlText, BindName(last.0), last.1, native, Entry(sqlText, BindName(inputs[i].0), inputs[i].1, PARAM_STR));
    } else {
      BindStores(r, sqlText, BindName(last.0), last.1, native);
    }
  }

  /** Binding one more input extends the table of the inputs before it. */
  lemma BindInputsStep(t: seq<BoundParameter>, sqlText: string, inputs: seq<(ArrayKey, Value)>, i: nat, native: NativeBind)
    requires i < |inputs|
    ensures BindInputs(t, sqlText, inputs[..i + 1], native)
         == Bind(BindInputs(t, sqlText, inputs[..i], native), sqlText, BindName(inputs[i].0), inputs[i].1, Some(PARAM_STR), None, native).table
  {
    assert inputs[..i + 1][..i] == inputs[..i];
  }

  // ================================================================ debugDumpParams

  /** The sort key of `usort` in `debugDumpParams`: a missing position (PHP's false) comes first. */
  function SortKey(p: BoundParameter): int
  {
    match p.position
    case None => -1
    case Some(n) => n
  }

  predicate Sorted(s: seq<BoundParameter>)
  {
    forall i, j :: 0 <= i < j < |s| ==> SortKey(s[i]) <= SortKey(s[j])
  }

  /** Insert `x` after every element whose key is not greater than its own. */
  function Insert(x: BoundParameter, s: seq<BoundParameter>): (r: seq<BoundParameter>)
    ensures multiset(r) == multiset(s) + multiset{x}
    decreases |s|
  {
    if s == [] then [x]
    else if SortKey(x) < SortKey(s[0]) then [x] + s
    else
      assert s == [s[0]] + s[1..];
      [s[0]] + Insert(x, s[1..])
  }

  /** Every key of `Insert(x, s)` is at least `bound` when the keys of `x` and of `s` are. */
  lemma {:induction false} InsertAbove(x: BoundParameter, s: seq<BoundParameter>, bound: int)
    requires SortKey(x) >= bound
    requires forall i :: 0 <= i < |s| ==> SortKey(s[i]) >= bound
    ensures forall i :: 0 <= i < |Insert(x, s)| ==> SortKey(Insert(x, s)[i]) >= bound
    decreases |s|
  {
    if s != [] && SortKey(x) >= SortKey(s[0]) {
      InsertAbove(x, s[1..], bound);
    }
  }

  /** A sorted sequence stays sorted under a new first element no greater than any of its keys. */
  lemma SortedCons(h: BoundParameter, rest: seq<BoundParameter>)
    requires Sorted(rest)
    requires forall i :: 0 <= i < |rest| ==> SortKey(rest[i]) >= SortKey(h)
    ensures Sorted([h] + rest)
  {
    var r := [h] + rest;
    forall i, j | 0 <= i < j < |r| ensures SortKey(r[i]) <= SortKey(r[j]) {
      assert r[j] == rest[j - 1];
      if i > 0 {
        assert r[i] == rest[i - 1];
      }
    }
  }

  /** Inserting into a sorted sequence keeps it sorted. */
  lemma {:induction false} InsertSorted(x: BoundParameter, s: seq<BoundParameter>)
    requires Sorted(s)
    ensures Sorted(Insert(x, s))
    decreases |s|
  {
    if s != [] && SortKey(x) >= SortKey(s[0]) {
      assert Sorted(s[1..]) by {
        forall i, j | 0 <= i < j < |s[1..]| ensures SortKey(s[1..][i]) <= SortKey(s[1..][j]) {
          assert s[1..][i] == s[i + 1] && s[1..][j] == s[j + 1];
        }
      }
      assert forall i :: 0 <= i < |s[1..]| ==> SortKey(s[1..][i]) >= SortKey(s[0]) by {
        forall i | 0 <= i < |s[1..]| ensures SortKey(s[1..][i]) >= SortKey(s[0]) {
          assert s[1..][i] == s[i + 1];
        }
      }
      InsertSorted(x, s[1..]);
      InsertAbove(x, s[1..], SortKey(s[0]));
      SortedCons(s[0], Insert(x, s[1..]));
    }
  }

  /** The parameters ordered by stored position, equal positions keeping their binding order. */
  function SortByPosition(s: seq<BoundParameter>): (r: seq<BoundParameter>)
    ensures multiset(r) == multiset(s)
    decreases |s|
  {
    if s == [] then []
    else
      assert s == s[..|s| - 1] + [s[|s| - 1]];
      Insert(s[|s| - 1], SortByPosition(s[..|s| - 1]))
  }

  /** The dump's order is sorted by position. */
  lemma {:induction false} SortByPositionSorted(s: seq<BoundParameter>)
    ensures Sorted(SortByPosition(s))
    decreases |s|
  {
    if s != [] {
      SortByPositionSorted(s[..|s| - 1]);
      InsertSorted(s[|s| - 1], SortByPosition(s[..|s| - 1]));
    }
  }

  /** No two of the entries share a position. */
  predicate DistinctPositions(m: multiset<BoundParameter>)
  {
    forall x, y :: x in m && y in m && x != y ==> SortKey(x) != SortKey(y)
  }

  /** Entries with distinct positions have one sorted order only. */
  lemma {:induction false} SortedUnique(a: seq<BoundParameter>, b: seq<BoundParameter>)
    requires Sorted(a) && Sorted(b) && multiset(a) == multiset(b) && DistinctPositions(multiset(a))
    ensures a == b
    decreases |a|
  {
    if a != [] {
      assert b != [] by {
        assert a[0] in multiset(b);
      }
      SameHead(a, b);
      assert a == [a[0]] + a[1..] && b == [b[0]] + b[1..];
      SortedTail(a);
      SortedTail(b);
      DistinctTail(a);
      SortedUnique(a[1..], b[1..]);
    }
  }

  lemma SortedTail(s: seq<BoundParameter>)
    requires s != [] && Sorted(s)
    ensures Sorted(s[1..])
  {
    forall i, j | 0 <= i < j < |s| - 1 ensures SortKey(s[1..][i]) <= SortKey(s[1..][j]) {
      assert s[1..][i] == s[i + 1] && s[1..][j] == s[j + 1];
    }
  }

  lemma DistinctTail(s: seq<BoundParameter>)
    requires s != [] && DistinctPositions(multiset(s))
    ensures DistinctPositions(multiset(s[1..]))
    ensures multiset(s[1..]) == multiset(s) - multiset{s[0]}
  {
    assert s == [s[0]] + s[1..];
    forall x, y | x in multiset(s[1..]) && y in multiset(s[1..]) && x != y ensures SortKey(x) != SortKey(y) {
      assert x in multiset(s) && y in multiset(s);
    }
  }

  /** Two non-empty sorted orders of the same entries with distinct positions start alike. */
  lemma SameHead(a: seq<BoundParameter>, b: seq<BoundParameter>)
    requires a != [] && b != []
    requires Sorted(a) && Sorted(b) && multiset(a) == multiset(b) && DistinctPositions(multiset(a))
    ensures a[0] == b[0]
  {
    assert a[0] in multiset(b);
    var i :| 0 <= i < |b| && b[i] == a[0];
    assert SortKey(b[0]) <= SortKey(a[0]);
    assert b[0] in multiset(a);
    var j :| 0 <= j < |a| && a[j] == b[0];
    assert SortKey(a[0]) <= SortKey(b[0]);
  }

  /** The value of `{$position}` in the dump: PHP prints false as nothing. */
  function PositionText(p: Option<nat>): string
  {
    match p
    case None => ""
    case Some(n) => NatToString(n)
  }

  /** PHP_EOL on the platforms the driver targets. */
  const EOL: string := "\n"

  /** The first two lines of the dump. */
  function DumpHeader(sqlText: string, count: nat): string
  {
    "SQL: [" + NatToString(|sqlText|) + "] " + sqlText + EOL + "Params: " + NatToString(count)
  }

  /** The block printed for the parameter of 0-based rank `index` (src/PdoOci8Statement.php:198-207). */
  function DumpBlock(p: BoundParameter, index: nat): string
  {
    EOL
    + (if p.name == "" then "Key: Position #" + PositionText(p.position) + ":" + EOL
       else "Key: Name: [" + NatToString(|p.name|) + "] " + p.name + EOL)
    + "paramno=" + NatToString(index + 1) + EOL
    + "name=[" + NatToString(|p.name|) + "]" + p.name + EOL
    + "is_param=1" + EOL
    + "param_type=" + IntToString(p.dataType)
  }

  /** The blocks of the first `n` parameters, in order. */
  function DumpBlocks(ps: seq<BoundParameter>, n: nat): string
    requires n <= |ps|
  {
    if n == 0 then "" else DumpBlocks(ps, n - 1) + DumpBlock(ps[n - 1], n - 1)
  }

  /** The header and the blocks of the first `n` parameters: what the dump has printed after `n`
      rounds of its loop. */
  function DumpPrefix(sqlText: string, ps: seq<BoundParameter>, n: nat): string
    requires n <= |ps|
  {
    DumpHeader(sqlText, |ps|) + DumpBlocks(ps, n)
  }

  /** One more round of the loop appends the next block. */
  lemma DumpPrefixStep(sqlText: string, ps: seq<BoundParameter>, n: nat)
    requires n < |ps|
    ensures DumpPrefix(sqlText, ps, n + 1) == DumpPrefix(sqlText, ps, n) + DumpBlock(ps[n], n)
  {
    var h := DumpHeader(sqlText, |ps|);
    assert DumpBlocks(ps, n + 1) == DumpBlocks(ps, n) + DumpBlock(ps[n], n);
    assert h + (DumpBlocks(ps, n) + DumpBlock(ps[n], n)) == (h + DumpBlocks(ps, n)) + DumpBlock(ps[n], n);
  }

  /** The whole text `debugDumpParams` prints for parameters already in output order. */
  function DumpText(sqlText: string, ps: seq<BoundParameter>): string
  {
    DumpPrefix(sqlText, ps, |ps|)
  }

  /** The dump does not depend on the order in which parameters with distinct positions were bound. */
  lemma DumpIgnoresBindOrder(sqlText: string, s1: seq<BoundParameter>, s2: seq<BoundParameter>)
    requires multiset(s1) == multiset(s2) && DistinctPositions(multiset(s1))
    ensures DumpText(sqlText, SortByPosition(s1)) == DumpText(sqlText, SortByPosition(s2))
  {
    SortByPositionSorted(s1);
    SortByPositionSorted(s2);
    SortedUnique(SortByPosition(s1), SortByPosition(s2));
  }

  /** Binding `:a` then `:b` dumps the same text as binding `:b` then `:a`, when their positions differ. */
  lemma BindOrderIrrelevant(sqlText: string, t: seq<BoundParameter>, a: BoundParameter, b: BoundParameter)
    requires a.key != b.key
    requires DistinctPositions(multiset(Upsert(Upsert(t, a), b)))
    ensures DumpText(sqlText, SortByPosition(Upsert(Upsert(t, a), b)))
         == DumpText(sqlText, SortByPosition(Upsert(Upsert(t, b), a)))
  {
    UpsertCommutes(t, a, b);
    DumpIgnoresBindOrder(sqlText, Upsert(Upsert(t, a), b), Upsert(Upsert(t, b), a));
  }

  // ================================================================ execute

  /** The commit flag `execute` hands to the native layer (src/PdoOci8Statement.php:271-275): with
      autocommit on it asks for no automatic commit, and with autocommit off for a commit on success. */
  function CommitModeFor(autocommit: Value): (m: CommitMode)
    ensures m == NoAutoCommit <==> Truthy(autocommit)
    ensures m == CommitOnSuccess <==> !Truthy(autocommit)
  {
    if Truthy(autocommit) then NoAutoCommit else CommitOnSuccess
  }

  // ================================================================ fetch

  /** Where `fetch` sends a fetch style (src/PdoOci8Statement.php:310-355). */
  datatype FetchPath =
    | ArrayPath(mode: OciMode)  // fetchArray with that mode
    | BoundPath                 // the native fetch(), for bound columns
    | ObjectPath                // fetchObject()
    | UnsetModePath             // a case that only breaks: fetchArray with `$mode` never assigned

  /** The switch on the fetch style, in source order; `FETCH_BOTH + FETCH_OBJ` is 9, the value of
      FETCH_INTO, and its label changes nothing. */
  function FetchDispatch(style: int): (p: FetchPath)
    ensures p == ArrayPath(OciAssoc) <==> style == FETCH_ASSOC
    ensures p == ArrayPath(OciNum) <==> style == FETCH_NUM
    ensures p == BoundPath <==> style == FETCH_BOUND
    ensures p == ObjectPath <==> style == FETCH_OBJ
    ensures p == UnsetModePath <==>
      style in {FETCH_CLASS, FETCH_CLASS_CLASSTYPE, FETCH_INTO, FETCH_LAZY, FETCH_NAMED}
    ensures p == ArrayPath(OciBoth) <==>
      style !in {FETCH_ASSOC, FETCH_NUM, FETCH_BOUND, FETCH_OBJ, FETCH_CLASS, FETCH_CLASS_CLASSTYPE,
                 FETCH_INTO, FETCH_LAZY, FETCH_NAMED}
  {
    if style == FETCH_ASSOC then ArrayPath(OciAssoc)
    else if style == FETCH_BOUND then BoundPath
    else if style == FETCH_CLASS then UnsetModePath
    else if style == FETCH_CLASS_CLASSTYPE then UnsetModePath
    else if style == FETCH_INTO then UnsetModePath
    else if style == FETCH_LAZY || style == FETCH_BOTH + FETCH_OBJ then UnsetModePath
    else if style == FETCH_NAMED then UnsetModePath
    else if style == FETCH_NUM then ArrayPath(OciNum)
    else if style == FETCH_OBJ then ObjectPath
    else ArrayPath(OciBoth)
  }

  /** `fetch()` with no argument passes ATTR_DEFAULT_FETCH_MODE itself (19), which no label
      matches: it fetches both numbered and named keys, whatever the option holds. */
  lemma DefaultStyleFetchesBoth()
    ensures FetchDispatch(ATTR_DEFAULT_FETCH_MODE) == ArrayPath(OciBoth)
  {
  }

  /** The result of one fetch and the rows still to come. */
  datatype FetchStep = FetchStep(result: Fetched, rest: seq<Row>)

  /** One fetch along a path from the cursor's remaining rows. A fetch with the mode left unset is
      taken as OCI_BOTH. */
  function FetchFrom(path: FetchPath, rows: seq<Row>): (r: FetchStep)
    ensures rows == [] ==> r == FetchStep(FalseResult, [])
    ensures rows != [] ==> r.rest == rows[1..] && r.result != FalseResult
  {
    if rows == [] then FetchStep(FalseResult, [])
    else
      var row := rows[0];
      var result := match path
        case ArrayPath(mode) => ArrayResult(Shape(mode, row))
        case UnsetModePath => ArrayResult(Shape(OciBoth, row))
        case BoundPath => TrueResult
        case ObjectPath => ObjectResult(Properties(row));
      FetchStep(result, rows[1..])
  }

  /** FETCH_NUM yields the next row keyed by column number: exactly its non-NULL columns, since the
      native fetch-array call is made without OCI_RETURN_NULLS. */
  lemma FetchNumRow(rows: seq<Row>, c: int)
    requires rows != []
    ensures FetchFrom(FetchDispatch(FETCH_NUM), rows).result.ArrayResult?
    ensures var m := FetchFrom(FetchDispatch(FETCH_NUM), rows).result.row;
      && (IntKey(c) in m <==> 0 <= c < |rows[0]| && rows[0][c].value != Null)
      && (IntKey(c) in m ==> m[IntKey(c)] == rows[0][c].value)
  {
    ByNumberAt(rows[0], false, c);
  }

  /** `array_key_exists($column, $row) ? $row[$column] : false` on what the fetch gave back. */
  function ColumnOf(f: Fetched, column: int): (r: Option<Value>)
    ensures r.Some? <==> f.ArrayResult? && IntKey(column) in f.row
    ensures r.Some? ==> r.value == f.row[IntKey(column)]
  {
    if f.ArrayResult? && IntKey(column) in f.row then Some(f.row[IntKey(column)]) else None
  }

  /** The rows `fetchAll` returns: every remaining row keyed by column name (src/PdoOci8Statement.php:374).
      `oci_fetch_all` creates an element for a NULL column too. */
  function AssocRows(rows: seq<Row>): (r: seq<map<ArrayKey, Value>>)
    ensures |r| == |rows|
    ensures forall i :: 0 <= i < |rows| ==> r[i] == ByName(rows[i], true)
  {
    seq(|rows|, i requires 0 <= i < |rows| => ByName(rows[i], true))
  }

  /** Every column of every row, NULL ones included, has its name as a key in what `fetchAll` returns. */
  lemma FetchAllKeepsColumns(rows: seq<Row>, i: int, c: int)
    requires 0 <= i < |rows| && 0 <= c < |rows[i]|
    ensures StrKey(rows[i][c].name) in AssocRows(rows)[i]
  {
    ByNameKeepsNames(rows[i], c);
  }

  /** For the row (A = 1, B = NULL), fetchColumn(1) finds no element 1 and gives false, while
      fetchAll gives B as null. */
  lemma NullColumnExamples()
    ensures var rows := [[Column("A", Int(1)), Column("B", Null)]];
      && ColumnOf(FetchFrom(FetchDispatch(FETCH_NUM), rows).result, 1) == None
      && ColumnOf(FetchFrom(FetchDispatch(FETCH_NUM), rows).result, 0) == Some(Int(1))
      && AssocRows(rows)[0] == map[StrKey("A") := Int(1), StrKey("B") := Null]
  {
    var rows := [[Column("A", Int(1)), Column("B", Null)]];
    FetchNumRow(rows, 1);
    FetchNumRow(rows, 0);
    var row := rows[0];
    assert row[..1] == [Column("A", Int(1))] && row[..1][..0] == [];
    assert ByName(row[..1], true) == map[StrKey("A") := Int(1)];
    assert ByName(row, true) == ByName(row[..1], true)[StrKey("B") := Null];
  }

  // ================================================================ getTableName, getPDODataType

  /** `getTableName()` (src/PdoOci8Statement.php:548-570): for a SELECT, the text after the first
      case-insensitive " FROM ", trimmed; nothing if it holds a parenthesis, else its first word.
      Without " FROM " the search gives false, and false + 6 cuts at offset 6. */
  function TableName(statementType: string, sqlText: string): (r: string)
    ensures statementType != "SELECT" ==> r == ""
    ensures statementType == "SELECT" ==>
      r == FirstWord(Trim(Substr(sqlText, Strpos(Upper(sqlText), " FROM ").GetOr(0) + 6)))
    ensures forall i :: 0 <= i < |r| ==> r[i] != ' ' && r[i] != '('
  {
    if statementType != "SELECT" then ""
    else
      FirstWord(Trim(Substr(sqlText, Strpos(Upper(sqlText), " FROM ").GetOr(0) + 6)))
  }

  /** The end of `getTableName()` on the trimmed text after " FROM ": nothing if it holds a
      parenthesis, else the text up to its first space. */
  function FirstWord(table: string): (r: string)
    ensures Strpos(table, "(").Some? ==> r == ""
    ensures forall i :: 0 <= i < |r| ==> r[i] != ' ' && r[i] != '('
    ensures Strpos(table, "(").None? ==> StartsWith(table, r) && (|r| == |table| || table[|r|] == ' ')
  {
    StrposChar(table, '(');
    StrposChar(table, ' ');
    if Strpos(table, "(").Some? then ""
    else match Strpos(table, " ")
      case Some(i) => table[..i]
      case None => table
  }

  /** A plain table name: no white space and no parenthesis. */
  predicate PlainName(table: string)
  {
    table != [] && forall i :: 0 <= i < |table| ==> !IsTrimmed(table[i]) && table[i] != '('
  }

  /** What may follow the table name: nothing but white space, or a space and a parenthesis-free rest. */
  predicate AfterName(rest: string)
  {
    && (forall i :: 0 <= i < |rest| ==> rest[i] != '(')
    && ((|rest| > 0 && rest[0] == ' ') || forall i :: 0 <= i < |rest| ==> IsTrimmed(rest[i]))
  }

  /** A SELECT whose first " FROM " (in any case) is followed by a plain table name, and then by the
      end of the text, trailing white space, or a space and a parenthesis-free rest, gives that name. */
  lemma TableNameAfterFrom(head: string, table: string, rest: string)
    requires forall j :: 0 <= j < |head| ==> !OccursAt(Upper(head + " FROM " + table + rest), " FROM ", j)
    requires PlainName(table) && AfterName(rest)
    ensures TableName("SELECT", head + " FROM " + table + rest) == table
  {
    assert head + " FROM " + table + rest == head + " FROM " + (table + rest);
    FromFound(head, table + rest);
    TrimAfterName(table, rest);
    WordOfTrimmed(table, Trim(table + rest));
  }

  /** The first " FROM " of the upper-cased text lies right after `head`, and what follows it is the
      rest of the text. */
  lemma FromFound(head: string, after: string)
    requires forall j :: 0 <= j < |head| ==> !OccursAt(Upper(head + " FROM " + after), " FROM ", j)
    ensures Strpos(Upper(head + " FROM " + after), " FROM ") == Some(|head|)
    ensures Substr(head + " FROM " + after, |head| + 6) == after
  {
    var sql := head + " FROM " + after;
    var u := Upper(sql);
    forall k | 0 <= k < 6 ensures u[|head| + k] == " FROM "[k] {
      assert sql[|head| + k] == " FROM "[k];
    }
    assert u[|head|..|head| + 6] == " FROM ";
    assert OccursAt(u, " FROM ", |head|);
    assert sql[|head| + 6..] == after;
  }

  /** Trimming a plain name and what may follow it keeps the name, followed by nothing or a space,
      and brings in no parenthesis. */
  lemma TrimAfterName(table: string, rest: string)
    requires PlainName(table) && AfterName(rest)
    ensures var t := Trim(table + rest);
      && |table| <= |t| && t[..|table|] == table
      && (|t| == |table| || t[|table|] == ' ')
      && forall i :: 0 <= i < |t| ==> t[i] != '('
  {
    var x := table + rest;
    assert x[0] == table[0];
    assert TrimLeft(x) == x;
    var t := TrimRight(x);
    assert !IsTrimmed(x[|table| - 1]);
    assert t[..|table|] == table;
    if |rest| > 0 && rest[0] == ' ' {
      if |t| > |table| {
        assert t[|table|] == x[|table|] == rest[0];
      }
    } else {
      forall i | |table| <= i < |x| ensures IsTrimmed(x[i]) {
        assert x[i] == rest[i - |table|];
      }
      assert t[|t| - 1] == x[|t| - 1];
    }
    forall i | 0 <= i < |t| ensures t[i] != '(' {
      assert t[i] == x[i];
    }
  }

  /** A trimmed text that starts with a space-free word, followed by nothing or a space, and holds no
      parenthesis has that word as its first word. */
  lemma WordOfTrimmed(table: string, t: string)
    requires PlainName(table)
    requires |table| <= |t| && t[..|table|] == table
    requires |t| == |table| || t[|table|] == ' '
    requires forall i :: 0 <= i < |t| ==> t[i] != '('
    ensures FirstWord(t) == table
  {
    StrposChar(t, '(');
    StrposChar(t, ' ');
    forall j | 0 <= j < |table| ensures t[j] != ' ' {
      assert t[j] == table[j];
    }
    if |t| == |table| {
      assert t == table;
    } else {
      assert Strpos(t, " ") == Some(|table|);
    }
  }

  /** The table of the SELECT in the statement tests: the name ends the text. */
  lemma TableNameAtEnd(head: string)
    requires forall j :: 0 <= j < |head| ==> !OccursAt(Upper(head + " FROM SYS.DUAL"), " FROM ", j)
    ensures TableName("SELECT", head + " FROM SYS.DUAL") == "SYS.DUAL"
  {
    assert head + " FROM SYS.DUAL" == head + " FROM " + "SYS.DUAL" + "";
    TableNameAfterFrom(head, "SYS.DUAL", "");
  }

  /** A SELECT from a parenthesised subquery has no table name. */
  lemma {:induction false} TableNameOfSubquery(head: string, rest: string)
    requires forall j :: 0 <= j < |head| ==> !OccursAt(Upper(head + " FROM (" + rest), " FROM ", j)
    ensures TableName("SELECT", head + " FROM (" + rest) == ""
  {
    assert head + " FROM (" + rest == head + " FROM " + ("(" + rest);
    FromFound(head, "(" + rest);
    var x := "(" + rest;
    assert x[0] == '(' && !IsTrimmed(x[0]);
    assert TrimLeft(x) == x;
    var t := TrimRight(x);
    assert t[0] == '(';
    StrposChar(t, '(');
  }

  /** `getPDODataType` (src/PdoOci8Statement.php:577-601): the PDO type reported for a column's
      declared Oracle type name. */
  function PdoDataType(typeName: string): (t: int)
    ensures t == PARAM_INT <==> typeName == "NUMBER"
    ensures t == PARAM_LOB <==> typeName in {"LOB", "CLOB", "BLOB", "NCLOB"}
    ensures t == PARAM_BOOL <==> typeName == "BOOLEAN"
    ensures t == PARAM_STR <==> typeName !in {"NUMBER", "LOB", "CLOB", "BLOB", "NCLOB", "BOOLEAN"}
  {
    if typeName == "NUMBER" then PARAM_INT
    else if typeName in {"CHAR", "VARCHAR2", "NVARCHAR2"} then PARAM_STR
    else if typeName in {"LOB", "CLOB", "BLOB", "NCLOB"} then PARAM_LOB
    else if typeName == "BOOLEAN" then PARAM_BOOL
    else PARAM_STR
  }

  // ================================================================ getColumnMeta

  /** The record `getColumnMeta` returns (src/PdoOci8Statement.php:469-478); `flags` is always empty. */
  datatype ColumnMeta = ColumnMeta(nativeType: int, declaredType: string, flags: seq<Value>, name: string,
                                   table: string, len: int, precision: int, pdoType: int)

  /** The metadata of a described field: the name lower-cased only when ATTR_CASE is exactly
      CASE_LOWER, the precision net of the scale, the PDO type from the declared type name. */
  function MetaOf(f: Field, table: string, caseOption: Value): (m: ColumnMeta)
    ensures m.precision + f.scale == f.precision
    ensures |m.name| == |f.name|
    ensures caseOption != Int(CASE_LOWER) ==> m.name == f.name
    ensures caseOption == Int(CASE_LOWER) ==> m.name == Lower(f.name)
    ensures m.pdoType == PdoDataType(f.declaredType)
    ensures m.pdoType in {PARAM_INT, PARAM_STR, PARAM_LOB, PARAM_BOOL}
    ensures m.nativeType == f.rawType && m.declaredType == f.declaredType && m.len == f.size && m.table == table
    ensures m.flags == []
  {
    ColumnMeta(f.rawType, f.declaredType, [], if caseOption == Int(CASE_LOWER) then Lower(f.name) else f.name,
               table, f.size, f.precision - f.scale, PdoDataType(f.declaredType))
  }

  /** Under CASE_LOWER the reported name holds no capital letter, so lower-casing it again changes
      nothing, and it differs from the field's name only in the case of its letters. */
  lemma {:induction false} MetaOfLowerCase(f: Field, table: string)
    ensures var name := MetaOf(f, table, Int(CASE_LOWER)).name;
      && (forall i :: 0 <= i < |name| ==> !('A' <= name[i] <= 'Z'))
      && Lower(name) == name
      && forall i :: 0 <= i < |name| ==> name[i] == f.name[i] || name[i] as int == f.name[i] as int + 32
  {
    var name := MetaOf(f, table, Int(CASE_LOWER)).name;
    assert name == Lower(f.name);
    assert Lower(name) == name;
  }

  // ================================================================ the statement object

  /** The ArrayIterator over the cached rows: the rows and the current position. */
  datatype Cursor = Cursor(rows: seq<map<ArrayKey, Value>>, position: nat)

  class Statement {
    const sqlText: string
    /** What the native `getType()` reports for the parsed statement. */
    const statementType: string
    var options: map<int, Value>
    var boundParameters: seq<BoundParameter>
    /** The rows the native cursor has yet to deliver. */
    var pending: seq<Row>
    /** The lazily created cursor over all rows. */
    var cursor: Option<Cursor>

    ghost predicate Wellformed()
      reads this
    {
      && options.Keys == StatementDefaults().Keys
      && UniqueKeys(boundParameters)
      && (cursor.Some? ==> cursor.value.position <= |cursor.value.rows|)
    }

    /** The constructor (src/PdoOci8Statement.php:36-77) after a successful native parse: the caller's
        known options override the defaults (autocommit included), and the `setAttribute` pass that
        follows changes nothing more. */
    constructor (sqlText: string, statementType: string, given: OptionArray)
      requires DistinctKeys(given)
      ensures this.sqlText == sqlText && this.statementType == statementType
      ensures options == Merge(StatementDefaults(), given)
      ensures boundParameters == [] && pending == [] && cursor == None
      ensures Wellformed()
    {
      this.sqlText := sqlText;
      this.statementType := statementType;
      var merged := MergeOptions(StatementDefaults(), given);
      options := merged;
      boundParameters := [];
      pending := [];
      cursor := None;
      new;
      for i := 0 to |given|
        invariant options == Merge(StatementDefaults(), given)
        invariant boundParameters == [] && pending == [] && cursor == None
      {
        var (attribute, value) := given[i];
        MergeAt(StatementDefaults(), given, attribute);
        GivenValueAt(given, i);
        var _ := SetAttribute(attribute, value);
      }
    }

    /** `getAttribute($key)`: the option, or null for an unknown key. */
    function Attribute(key: int): (r: Value)
      reads this
      ensures key in options ==> r == options[key]
      ensures key !in options ==> r == Null
    {
      Lookup(options, key)
    }

    /** `setAttribute($key, $value)` (src/PdoOci8Statement.php:510-524). */
    method SetAttribute(key: int, value: Value) returns (ok: bool)
      modifies this
      ensures ok <==> Settable(old(options), key)
      ensures options == if ok then old(options)[key := value] else old(options)
      ensures boundParameters == old(boundParameters) && pending == old(pending) && cursor == old(cursor)
    {
      if key == ATTR_AUTOCOMMIT || key !in options {
        return false;
      }
      options := options[key := value];
      return true;
    }

    /** `bindParam` (src/PdoOci8Statement.php:112-138); `native` is the native `bindByName`. */
    method BindParam(parameter: ArrayKey, value: Value, dataType: Option<int>, length: Option<int>, native: NativeBind)
      returns (isBound: bool)
      modifies this
      requires Wellformed()
      ensures Wellformed()
      ensures isBound == Bind(old(boundParameters), sqlText, parameter, value, dataType, length, native).bound
      ensures boundParameters == Bind(old(boundParameters), sqlText, parameter, value, dataType, length, native).table
      ensures options == old(options) && pending == old(pending) && cursor == old(cursor)
    {
      isBound := false;
      var pdoType := if dataType == None then PARAM_STR else dataType.value;
      var driverType := DriverDataType(pdoType);
      if driverType.Raised? {
        return;
      }
      var len := if length != None then length.value else -1;
      var answer := native(parameter, len, driverType.value);
      if answer.Returned? {
        isBound := answer.value;
        if isBound {
          boundParameters := Upsert(boundParameters, Entry(sqlText, parameter, value, pdoType));
        }
      }
    }

    /** `bindValue` (src/PdoOci8Statement.php:148-151). */
    method BindValue(parameter: ArrayKey, value: Value, dataType: int, native: NativeBind) returns (isBound: bool)
      modifies this
      requires Wellformed()
      ensures Wellformed()
      ensures isBound == Bind(old(boundParameters), sqlText, parameter, value, Some(dataType), None, native).bound
      ensures boundParameters == Bind(old(boundParameters), sqlText, parameter, value, Some(dataType), None, native).table
      ensures options == old(options) && pending == old(pending) && cursor == old(cursor)
    {
      isBound := BindParam(parameter, value, Some(dataType), None, native);
    }

    /** `debugDumpParams()` (src/PdoOci8Statement.php:174-209): the text it prints. */
    method DebugDumpParams() returns (out: string)
      ensures out == DumpText(sqlText, SortByPosition(boundParameters))
    {
      var parameters := SortByPosition(boundParameters);
      out := DumpHeader(sqlText, |parameters|);
      var key := 0;
      while key < |parameters|
        invariant 0 <= key <= |parameters|
        invariant out == DumpPrefix(sqlText, parameters, key)
      {
        DumpPrefixStep(sqlText, parameters, key);
        out := out + DumpBlock(parameters[key], key);
        key := key + 1;
      }
    }

    /** `execute($inputs)` (src/PdoOci8Statement.php:259-286): binds the inputs, then runs the native
        statement with the commit flag chosen from ATTR_AUTOCOMMIT; an exception gives false. On
        success the native cursor holds the rows the native execute reports. */
    method Execute(inputs: seq<(ArrayKey, Value)>, nativeBind: NativeBind, nativeExecute: CommitMode -> Answer<Executed>)
      returns (result: bool)
      modifies this
      requires Wellformed()
      ensures Wellformed()
      ensures boundParameters == BindInputs(old(boundParameters), sqlText, inputs, nativeBind)
      ensures result <==> (nativeExecute(CommitModeFor(Attribute(ATTR_AUTOCOMMIT))).Returned?
                        && nativeExecute(CommitModeFor(Attribute(ATTR_AUTOCOMMIT))).value.ok)
      ensures pending == match nativeExecute(CommitModeFor(Attribute(ATTR_AUTOCOMMIT)))
                         case Returned(e) => e.rows
                         case Raised => old(pending)
      ensures options == old(options) && cursor == old(cursor)
    {
      BindInputValues(inputs, nativeBind);
      var mode := if Truthy(Attribute(ATTR_AUTOCOMMIT)) then NoAutoCommit else CommitOnSuccess;
      var answer := nativeExecute(mode);
      match answer {
        case Raised =>
          result := false;
        case Returned(e) =>
          pending := e.rows;
          result := e.ok;
      }
    }

    /** The loop of `execute` that binds its inputs (src/PdoOci8Statement.php:262-269). */
    method BindInputValues(inputs: seq<(ArrayKey, Value)>, nativeBind: NativeBind)
      modifies this
      requires Wellformed()
      ensures Wellformed()
      ensures boundParameters == BindInputs(old(boundParameters), sqlText, inputs, nativeBind)
      ensures options == old(options) && pending == old(pending) && cursor == old(cursor)
    {
      for i := 0 to |inputs|
        invariant Wellformed()
        invariant boundParameters == BindInputs(old(boundParameters), sqlText, inputs[..i], nativeBind)
        invariant options == old(options) && pending == old(pending) && cursor == old(cursor)
      {
        var (key, value) := inputs[i];
        var parameterName := if key.IntKey? then IntKey(key.i + 1) else key;
        BindInputsStep(old(boundParameters), sqlText, inputs, i, nativeBind);
        var _ := BindValue(parameterName, value, PARAM_STR, nativeBind);
      }
      assert inputs[..|inputs|] == inputs;
    }

    /** `fetch($style)` (src/PdoOci8Statement.php:296-361); `raises` says that the native fetch
        throws, which `fetch` turns into false. */
    method Fetch(style: int, raises: bool) returns (result: Fetched)
      modifies this
      ensures raises ==> result == FalseResult && pending == old(pending)
      ensures !raises ==> FetchStep(result, pending) == FetchFrom(FetchDispatch(style), old(pending))
      ensures options == old(options) && boundParameters == old(boundParameters) && cursor == old(cursor)
    {
      if raises {
        return FalseResult;
      }
      var path := FetchDispatch(style);
      if pending == [] {
        return FalseResult;
      }
      var row := pending[0];
      pending := pending[1..];
      match path {
        case ArrayPath(mode) => result := ArrayResult(Shape(mode, row));
        case UnsetModePath => result := ArrayResult(Shape(OciBoth, row));
        case BoundPath => result := TrueResult;
        case ObjectPath => result := ObjectResult(Properties(row));
      }
    }

    /** `fetchAll()` (src/PdoOci8Statement.php:371-377): every remaining row, keyed by column name. */
    method FetchAll() returns (rows: seq<map<ArrayKey, Value>>)
      modifies this
      ensures rows == AssocRows(old(pending)) && pending == []
      ensures options == old(options) && boundParameters == old(boundParameters) && cursor == old(cursor)
    {
      rows := AssocRows(pending);
      pending := [];
    }

    /** `fetchColumn($column)` (src/PdoOci8Statement.php:385-398): the column of the next row, or
        false (`None`) when there is no row, the fetch throws, or the row has no such column. */
    method FetchColumn(column: int, raises: bool) returns (value: Option<Value>)
      modifies this
      ensures value.Some? <==> !raises && old(pending) != [] && 0 <= column < |old(pending)[0]|
                                 && old(pending)[0][column].value != Null
      ensures value.Some? ==> value.value == old(pending)[0][column].value
      ensures pending == if raises || old(pending) == [] then old(pending) else old(pending)[1..]
      ensures options == old(options) && boundParameters == old(boundParameters) && cursor == old(cursor)
    {
      if !raises && pending != [] {
        FetchNumRow(pending, column);
      }
      var row := Fetch(FETCH_NUM, raises);
      value := ColumnOf(row, column);
    }

    /** `getColumnMeta($column)` (src/PdoOci8Statement.php:448-482); `describe` is the native field
        lookup after a describe-only execution, which `getColumnMeta` asks for column + 1. */
    function ColumnMetaOf(column: int, describe: int -> Option<Field>): (r: Option<ColumnMeta>)
      reads this
      ensures r.Some? <==> statementType == "SELECT" && describe(column + 1).Some?
      ensures r.Some? ==> r.value == MetaOf(describe(column + 1).value, TableName(statementType, sqlText), Attribute(ATTR_CASE))
    {
      if statementType != "SELECT" then None
      else match describe(column + 1)
        case None => None
        case Some(f) => Some(MetaOf(f, TableName(statementType, sqlText), Attribute(ATTR_CASE)))
    }

    /** `getInternalIterator()` (src/PdoOci8Statement.php:651-666): the first call drains the cursor
        through `fetchAll` into a cursor; every later call reuses it. */
    method GetInternalIterator()
      modifies this
      requires Wellformed()
      ensures Wellformed() && cursor.Some?
      ensures old(cursor).Some? ==> cursor == old(cursor) && pending == old(pending)
      ensures old(cursor).None? ==> cursor == Some(Cursor(AssocRows(old(pending)), 0)) && pending == []
      ensures options == old(options) && boundParameters == old(boundParameters)
    {
      if cursor.Some? {
        return;
      }
      var rows := FetchAll();
      cursor := Some(Cursor(rows, 0));
    }

    /** `current()`: the row under the cursor, or null past the end. */
    method Current() returns (row: Option<map<ArrayKey, Value>>)
      modifies this
      requires Wellformed()
      ensures Wellformed() && cursor.Some?
      ensures old(cursor).Some? ==> cursor == old(cursor) && pending == old(pending)
      ensures old(cursor).None? ==> cursor == Some(Cursor(AssocRows(old(pending)), 0)) && pending == []
      ensures row == if cursor.value.position < |cursor.value.rows|
                     then Some(cursor.value.rows[cursor.value.position]) else None
      ensures options == old(options) && boundParameters == old(boundParameters)
    {
      GetInternalIterator();
      var c := cursor.value;
      row := if c.position < |c.rows| then Some(c.rows[c.position]) else None;
    }

    /** `next()`: moves the cursor one row on. */
    method Next()
      modifies this
      requires Wellformed()
      ensures Wellformed() && cursor.Some?
      ensures old(cursor).Some? ==> pending == old(pending) && cursor.value.rows == old(cursor).value.rows
      ensures old(cursor).None? ==> cursor.value.rows == AssocRows(old(pending)) && pending == []
      ensures var before := if old(cursor).Some? then old(cursor).value.position else 0;
        cursor.value.position == if before < |cursor.value.rows| then before + 1 else before
      ensures options == old(options) && boundParameters == old(boundParameters)
    {
      GetInternalIterator();
      var c := cursor.value;
      if c.position < |c.rows| {
        cursor := Some(c.(position := c.position + 1));
      }
    }

    /** `key()`: the position of the cursor, or null past the end. */
    method Key() returns (key: Option<nat>)
      modifies this
      requires Wellformed()
      ensures Wellformed() && cursor.Some?
      ensures old(cursor).Some? ==> cursor == old(cursor) && pending == old(pending)
      ensures old(cursor).None? ==> cursor == Some(Cursor(AssocRows(old(pending)), 0)) && pending == []
      ensures key == if cursor.value.position < |cursor.value.rows| then Some(cursor.value.position) else None
      ensures options == old(options) && boundParameters == old(boundParameters)
    {
      GetInternalIterator();
      var c := cursor.value;
      key := if c.position < |c.rows| then Some(c.position) else None;
    }

    /** `valid()`: whether the cursor is on a row. */
    method Valid() returns (valid: bool)
      modifies this
      requires Wellformed()
      ensures Wellformed() && cursor.Some?
      ensures old(cursor).Some? ==> cursor == old(cursor) && pending == old(pending)
      ensures old(cursor).None? ==> cursor == Some(Cursor(AssocRows(old(pending)), 0)) && pending == []
      ensures valid <==> cursor.value.position < |cursor.value.rows|
      ensures options == old(options) && boundParameters == old(boundParameters)
    {
      GetInternalIterator();
      valid := cursor.value.position < |cursor.value.rows|;
    }

    /** `rewind()`: back to the first cached row; the rows are not fetched again. */
    method Rewind()
      modifies this
      requires Wellformed()
      ensures Wellformed() && cursor.Some?
      ensures old(cursor).Some? ==> pending == old(pending) && cursor == Some(old(cursor).value.(position := 0))
      ensures old(cursor).None? ==> cursor == Some(Cursor(AssocRows(old(pending)), 0)) && pending == []
      ensures options == old(options) && boundParameters == old(boundParameters)
    {
      GetInternalIterator();
      cursor := Some(cursor.value.(position := 0));
    }
  }
}
