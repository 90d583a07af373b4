/** The PHP values and PDO constants the core compares and stores, and the option bag both PDO
    classes keep: a map from attribute number to value, filled from defaults at construction. */
module Php {
  import opened Optional
  import opened Strings

  /** A PHP value as far as the core distinguishes values. Floats are not modelled; an array is known
      only by its size and an object not at all: the core never looks inside either. */
  datatype Value = Null | Bool(b: bool) | Int(i: int) | Str(s: string) | Arr(size: nat) | Obj

  /** PHP's conversion to bool, as `if ($v)` and `!$v` apply it. */
  predicate Truthy(v: Value)
  {
    match v
    case Null => false
    case Bool(b) => b
    case Int(i) => i != 0
    case Str(s) => s != "" && s != "0"
    case Arr(n) => n > 0
    case Obj => true
  }

  /** `is_scalar($v)`: booleans, integers and strings (floats are not modelled). */
  predicate IsScalar(v: Value)
  {
    v.Bool? || v.Int? || v.Str?
  }

  /** `(string)$v` for a scalar. */
  function ToStr(v: Value): string
    requires IsScalar(v)
  {
    match v
    case Bool(b) => if b then "1" else ""
    case Int(i) => IntToString(i)
    case Str(s) => s
  }

  /** PHP 8's loose comparison `$v == $n` against an integer constant, as `switch` uses it. Null and
      booleans compare as booleans; a string equals the integer it denotes as an integer numeric
      string, and a non-numeric string compares with the integer's text, which it cannot equal; an
      object converts to 1 and an array is greater than every integer. */
  predicate LooseEqualsInt(v: Value, n: int)
  {
    match v
    case Null => n == 0
    case Bool(b) => b == (n != 0)
    case Int(i) => i == n
    case Str(s) => IntegerValue(s) == Some(n)
    case Arr(size) => false
    case Obj => n == 1
  }

  /** The largest integer of 64-bit PHP. */
  const PHP_INT_MAX: int := 0x7FFF_FFFF_FFFF_FFFF

  // ---------------------------------------------------------------- PDO constants (their PHP values)

  const ATTR_AUTOCOMMIT: int := 0
  const ATTR_PREFETCH: int := 1
  const ATTR_TIMEOUT: int := 2
  const ATTR_ERRMODE: int := 3
  const ATTR_SERVER_VERSION: int := 4
  const ATTR_CLIENT_VERSION: int := 5
  const ATTR_SERVER_INFO: int := 6
  const ATTR_CONNECTION_STATUS: int := 7
  const ATTR_CASE: int := 8
  const ATTR_ORACLE_NULLS: int := 11
  const ATTR_PERSISTENT: int := 12
  const ATTR_STATEMENT_CLASS: int := 13
  const ATTR_FETCH_TABLE_NAMES: int := 14
  const ATTR_FETCH_CATALOG_NAMES: int := 15
  const ATTR_DRIVER_NAME: int := 16
  const ATTR_STRINGIFY_FETCHES: int := 17
  const ATTR_MAX_COLUMN_LEN: int := 18
  const ATTR_DEFAULT_FETCH_MODE: int := 19
  const ATTR_EMULATE_PREPARES: int := 20
  /** The two driver-specific attributes PdoOci8 declares (src/PdoOci8.php:17-19). */
  const OCI_ATTR_SESSION_MODE: int := 8000
  const OCI_ATTR_RETURN_LOBS: int := 8001

  const CASE_NATURAL: int := 0
  const CASE_UPPER: int := 1
  const CASE_LOWER: int := 2

  const ERRMODE_SILENT: int := 0
  const ERRMODE_WARNING: int := 1
  const ERRMODE_EXCEPTION: int := 2

  const NULL_NATURAL: int := 0

  const PARAM_NULL: int := 0
  const PARAM_INT: int := 1
  const PARAM_STR: int := 2
  const PARAM_LOB: int := 3
  const PARAM_STMT: int := 4
  const PARAM_BOOL: int := 5
  const PARAM_INPUT_OUTPUT: int := 0x8000_0000

  const FETCH_LAZY: int := 1
  const FETCH_ASSOC: int := 2
  const FETCH_NUM: int := 3
  const FETCH_BOTH: int := 4
  const FETCH_OBJ: int := 5
  const FETCH_BOUND: int := 6
  const FETCH_CLASS: int := 8
  const FETCH_INTO: int := 9
  const FETCH_NAMED: int := 11
  const FETCH_CLASSTYPE: int := 0x4_0000
  /** `PDO::FETCH_CLASS | PDO::FETCH_CLASSTYPE`: the two flags occupy different bits. */
  const FETCH_CLASS_CLASSTYPE: int := FETCH_CLASS + FETCH_CLASSTYPE

  /** OCI8's OCI_DEFAULT, the default session mode. */
  const OCI_DEFAULT: int := 0

  // ---------------------------------------------------------------- option bag

  /** An options array as a caller passes it: (key, value) pairs in PHP's insertion order. */
  type OptionArray = seq<(int, Value)>

  /** The value the caller's array gives `key`: that of its last entry with that key, as a PHP
      array built from those entries would hold it. */
  function GivenValue(given: OptionArray, key: int): (r: Option<Value>)
    ensures r.None? <==> forall i :: 0 <= i < |given| ==> given[i].0 != key
    ensures r.Some? ==> exists i :: 0 <= i < |given| && given[i] == (key, r.value)
  {
    if given == [] then None
    else if given[|given| - 1].0 == key then Some(given[|given| - 1].1)
    else GivenValue(given[..|given| - 1], key)
  }

  /** A PHP array holds each key once. */
  predicate DistinctKeys(given: OptionArray)
  {
    forall i, j :: 0 <= i < j < |given| ==> given[i].0 != given[j].0
  }

  /** In a PHP array every entry is the value of its key. */
  lemma {:induction false} GivenValueAt(given: OptionArray, i: int)
    requires DistinctKeys(given) && 0 <= i < |given|
    ensures GivenValue(given, given[i].0) == Some(given[i].1)
    decreases |given|
  {
    if i < |given| - 1 {
      GivenValueAt(given[..|given| - 1], i);
    }
  }

  /** The options an object starts with: the defaults, each overridden in turn by the caller's entry
      for its key wherever the defaults hold that key. Caller keys absent from the defaults are
      dropped. */
  function Merge(defaults: map<int, Value>, given: OptionArray): (m: map<int, Value>)
    ensures m.Keys == defaults.Keys
  {
    if given == [] then defaults
    else
      var m := Merge(defaults, given[..|given| - 1]);
      if given[|given| - 1].0 in m then m[given[|given| - 1].0 := given[|given| - 1].1] else m
  }

  /** The first `foreach` of both constructors: each caller entry whose key the defaults hold
      replaces the value of that key. */
  method MergeOptions(defaults: map<int, Value>, given: OptionArray) returns (merged: map<int, Value>)
    ensures merged == Merge(defaults, given)
  {
    merged := defaults;
    for i := 0 to |given|
      invariant merged == Merge(defaults, given[..i])
    {
      var (option, value) := given[i];
      assert given[..i + 1][..i] == given[..i];
      if option in merged {
        merged := merged[option := value];
      }
    }
    assert given[..|given|] == given;
  }

  /** `getAttribute($key)`: the stored value, or null for a key the bag does not hold. */
  function Lookup(options: map<int, Value>, key: int): (r: Value)
    ensures key in options ==> r == options[key]
    ensures key !in options ==> r == Null
  {
    if key in options then options[key] else Null
  }

  /** What the merge means for a single key: the caller's value wins where both have the key, the
      default stays where the caller is silent, and an unknown key stays unknown. */
  lemma {:induction false} MergeAt(defaults: map<int, Value>, given: OptionArray, key: int)
    ensures key in defaults && GivenValue(given, key).Some? ==> Lookup(Merge(defaults, given), key) == GivenValue(given, key).value
    ensures key in defaults && GivenValue(given, key).None? ==> Lookup(Merge(defaults, given), key) == defaults[key]
    ensures key !in defaults ==> Lookup(Merge(defaults, given), key) == Null
  {
    if given != [] {
      MergeAt(defaults, given[..|given| - 1], key);
    }
  }
}
