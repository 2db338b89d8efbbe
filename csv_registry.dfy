/**
 * Settings and table registry of the CSV engine (app/csv.js:6-10, 19-26, 45-52).
 * The environment is passed in as a map; `os.EOL` is passed in as `eol`.
 */
module CsvRegistry {
  import opened JsString

  /** The module-level constants `NEW_LINE`, `SC`, `DATA_DIR` and `IGNORE_EMPTY`. */
  datatype Config = Config(newLine: string, separator: string, dataDir: string, ignoreEmpty: bool)

  /** `env[key] || fallback`: an absent or empty variable falls back. */
  function EnvOr(env: map<string, string>, key: string, fallback: string): string
  {
    if key in env && env[key] != "" then env[key] else fallback
  }

  /** Reads the four settings the way the module does when it is loaded. */
  function LoadConfig(env: map<string, string>, eol: string): (c: Config)
    ensures c.separator != "" && c.dataDir != ""
    ensures eol != "" ==> c.newLine != ""
    ensures "NEW_LINE" in env && env["NEW_LINE"] != "" ==> c.newLine == env["NEW_LINE"]
    ensures ("NEW_LINE" !in env || env["NEW_LINE"] == "") ==> c.newLine == eol
    ensures "SEPARATE_CHAR" in env && env["SEPARATE_CHAR"] != "" ==> c.separator == env["SEPARATE_CHAR"]
    ensures ("SEPARATE_CHAR" !in env || env["SEPARATE_CHAR"] == "") ==> c.separator == ","
    ensures "DATA_DIR" in env && env["DATA_DIR"] != "" ==> c.dataDir == env["DATA_DIR"]
    ensures ("DATA_DIR" !in env || env["DATA_DIR"] == "") ==> c.dataDir == "/data"
    ensures ("IGNORE_EMPTY" !in env || env["IGNORE_EMPTY"] == "") ==> c.ignoreEmpty
    ensures "IGNORE_EMPTY" in env && env["IGNORE_EMPTY"] != "" ==>
              (c.ignoreEmpty <==> ToLower(env["IGNORE_EMPTY"]) == "true")
  {
    Config(
      EnvOr(env, "NEW_LINE", eol),
      EnvOr(env, "SEPARATE_CHAR", ","),
      EnvOr(env, "DATA_DIR", "/data"),
      ToLower(EnvOr(env, "IGNORE_EMPTY", "true")) == "true")
  }

  /** A table: its lower-cased name and its ordered column names. */
  datatype Table = Table(name: string, columns: seq<string>)

  /** `v.startsWith('T_')`. */
  predicate IsTableVar(v: string)
  {
    |v| >= 2 && v[..2] == "T_"
  }

  /** The table defined by `T_<X>=<value>`: one column per comma-separated piece, trimmed. */
  function TableOf(v: string, value: string): (t: Table)
    requires IsTableVar(v)
    ensures |t.name| == |v| - 2
    ensures forall i :: 0 <= i < |t.name| ==> t.name[i] == LowerChar(v[i + 2]) && !IsUpper(t.name[i])
    ensures |t.columns| == |Split(value, ',')| == CountChar(value, ',') + 1
    ensures forall i :: 0 <= i < |t.columns| ==> t.columns[i] == Trim(Split(value, ',')[i])
  {
    SplitCount(value, ',');
    Table(ToLower(v[2..]), TrimAll(Split(value, ',')))
  }

  /** `vars.filter(e => e.startsWith('T_'))`. */
  function TableVars(vars: seq<string>): (r: seq<string>)
    ensures forall v :: v in r <==> v in vars && IsTableVar(v)
    ensures StrictlySorted(vars) ==> StrictlySorted(r)
  {
    if |vars| == 0 then []
    else
      var rest := TableVars(vars[1..]);
      if IsTableVar(vars[0]) then
        assert StrictlySorted(vars) ==> StrictlySorted([vars[0]] + rest) by {
          if StrictlySorted(vars) {
            assert StrictlySorted(vars[1..]);
            forall j | 0 <= j < |rest| ensures Less(vars[0], rest[j]) {
              assert rest[j] in vars[1..];
              var k :| 0 <= k < |vars[1..]| && vars[1..][k] == rest[j];
              assert vars[k + 1] == rest[j];
            }
          }
        }
        [vars[0]] + rest
      else rest
  }

  /** `getTables()` applied to the listed variable names: filter, then map. */
  function TablesOf(env: map<string, string>, vars: seq<string>): seq<Table>
    requires forall v :: v in vars ==> v in env
  {
    var tv := TableVars(vars);
    seq(|tv|, i requires 0 <= i < |tv| => TableOf(tv[i], env[tv[i]]))
  }

  /** `getEnvVars()`: every variable name, once each, in sorted order. */
  method GetEnvVars(env: map<string, string>) returns (vars: seq<string>)
    ensures StrictlySorted(vars)
    ensures forall k :: k in vars <==> k in env
    ensures vars == SortedKeys(env.Keys)
  {
    var arr: seq<string> := [];
    var rest := env.Keys;
    while rest != {}
      invariant rest <= env.Keys
      invariant multiset(arr) + multiset(rest) == multiset(env.Keys)
      decreases |rest|
    {
      var v :| v in rest;
      assert rest == (rest - {v}) + {v};
      arr := arr + [v];
      rest := rest - {v};
    }
    vars := SortStrings(arr);
    SortedEnumeration(vars, env.Keys);
    SortedKeysUnique(vars, SortedKeys(env.Keys), env.Keys);
  }

  /** `getTables()`: the registry built from the environment. */
  method GetTables(env: map<string, string>) returns (tables: seq<Table>)
    ensures tables == TablesOf(env, SortedKeys(env.Keys))
  {
    var vars := GetEnvVars(env);
    var tv := TableVars(vars);
    tables := [];
    var i := 0;
    while i < |tv|
      invariant 0 <= i <= |tv|
      invariant |tables| == i
      invariant forall j :: 0 <= j < i ==> tables[j] == TableOf(tv[j], env[tv[j]])
    {
      tables := tables + [TableOf(tv[i], env[tv[i]])];
      i := i + 1;
    }
  }

  /**
   * The registry holds exactly one table per `T_` variable, in sorted
   * variable-name order; `TableOf` gives each table's name and columns.
   */
  lemma RegistryShape(env: map<string, string>)
    ensures var vars := SortedKeys(env.Keys);
            && StrictlySorted(TableVars(vars))
            && (forall v :: v in TableVars(vars) <==> v in env && IsTableVar(v))
            && |TablesOf(env, vars)| == |TableVars(vars)| == |set v | v in env && IsTableVar(v)|
  {
    var vars := SortedKeys(env.Keys);
    var tv := TableVars(vars);
    var defined := set v | v in env && IsTableVar(v);
    assert IsSortedKeys(tv, defined);
    ListingSize(tv, defined);
  }

  /** No registry name holds an upper-case ASCII letter. */
  lemma RegistryNamesLowerCase(env: map<string, string>, vars: seq<string>, i: int, k: int)
    requires forall v :: v in vars ==> v in env
    requires 0 <= i < |TablesOf(env, vars)|
    requires 0 <= k < |TablesOf(env, vars)[i].name|
    ensures !IsUpper(TablesOf(env, vars)[i].name[k])
  {
  }
}
