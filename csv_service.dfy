/**
 * Request handling in front of the write queue: `isObj` and `addCsvEntry`
 * (app/csv.js:14, 58-71).
 */
module CsvService {
  import opened Wrappers
  import opened JsString
  import opened CsvRegistry
  import opened CsvEncoding
  import opened CsvWriter

  /**
   * A parsed request body: `null`, a non-object value (string, number,
   * boolean), a single object, or an array of objects.
   */
  datatype Body = Null | Scalar(text: string) | Object(record: Record) | Array(items: seq<Record>)

  /** `isObj(v)`: `typeof v === 'object' && v !== null`, so objects and arrays. */
  predicate IsObj(body: Body)
  {
    body.Object? || body.Array?
  }

  /** An error `ctx.throw` answers with: an HTTP status and a message. */
  datatype HttpError = HttpError(status: nat, message: string)

  function UnknownTableMessage(tableName: string): string
  {
    "Provided table: \"" + tableName + "\" does not exist."
  }

  const InvalidBodyMessage := "Provided body is not valid json."

  /** `TABLES.map(e => e.name)`. */
  function Names(tables: seq<Table>): (r: seq<string>)
    ensures |r| == |tables|
    ensures forall i :: 0 <= i < |r| ==> r[i] == tables[i].name
  {
    if |tables| == 0 then [] else [tables[0].name] + Names(tables[1..])
  }

  /** `TABLES.find(e => e.name === name)`, as the index of the first table so named. */
  function FindIndex(tables: seq<Table>, name: string): (r: Option<nat>)
    ensures r.Some? ==> r.value < |tables| && tables[r.value].name == name
    ensures r.Some? ==> forall j :: 0 <= j < r.value ==> tables[j].name != name
    ensures r.None? ==> forall j :: 0 <= j < |tables| ==> tables[j].name != name
  {
    if |tables| == 0 then None
    else if tables[0].name == name then Some(0)
    else match FindIndex(tables[1..], name)
      case None => None
      case Some(i) => Some(i + 1)
  }

  /** A request that passed the checks: the table it names and the batch to write. */
  datatype Request = Request(table: Table, entries: seq<Record>)

  /**
   * The checks `addCsvEntry` makes before any write: an unknown table name
   * is answered 400 first, then a body that is not an object or array is
   * answered 400; otherwise the first table so named is used, with an array
   * body as the batch and a single object as a batch of one.
   */
  function Validate(tables: seq<Table>, tableName: string, body: Body): (r: Result<Request, HttpError>)
    ensures r.Success? <==> tableName in Names(tables) && IsObj(body)
    ensures r.Failure? ==> r.error.status == 400
    ensures tableName !in Names(tables) ==> r.error == HttpError(400, UnknownTableMessage(tableName))
    ensures tableName in Names(tables) && !IsObj(body) ==> r.error == HttpError(400, InvalidBodyMessage)
    ensures r.Success? ==>
              exists i :: 0 <= i < |tables| && tables[i] == r.value.table && tables[i].name == tableName
                          && forall j :: 0 <= j < i ==> tables[j].name != tableName
    ensures r.Success? && body.Object? ==> r.value.entries == [body.record]
    ensures r.Success? && body.Array? ==> r.value.entries == body.items
  {
    // `includes` and `find` agree on whether the name is known.
    match FindIndex(tables, tableName)
    case None => Failure(HttpError(400, UnknownTableMessage(tableName)))
    case Some(i) =>
      if !IsObj(body) then Failure(HttpError(400, InvalidBodyMessage))
      else Success(Request(tables[i], if body.Array? then body.items else [body.record]))
  }

  /**
   * `addCsvEntry`: a request that fails the checks is answered with its
   * error and leaves the queue as it was; one that passes puts exactly one
   * job, for the first table so named, at the back of the queue. The answer
   * is the ticket at which the job's outcome will be settled.
   */
  method AddCsvEntry(queue: WriteQueue, tables: seq<Table>, tableName: string, body: Body)
    returns (r: Result<nat, HttpError>)
    modifies queue`pending
    ensures match Validate(tables, tableName, body)
            case Failure(e) => r == Failure(e) && queue.pending == old(queue.pending)
            case Success(req) =>
              && r == Success(|queue.settled| + |old(queue.pending)|)
              && queue.pending == old(queue.pending) + [Job(req.table, Payload(queue.cfg, req.table, req.entries))]
  {
    var i := FindIndex(tables, tableName);
    if i.None? {
      assert Validate(tables, tableName, body).Failure?;
      return Failure(HttpError(400, UnknownTableMessage(tableName)));
    }
    if !IsObj(body) {
      assert Validate(tables, tableName, body).Failure?;
      return Failure(HttpError(400, InvalidBodyMessage));
    }
    var entries := if body.Array? then body.items else [body.record];
    assert Validate(tables, tableName, body) == Success(Request(tables[i.value], entries));
    var ticket := queue.WriteToFile(tables[i.value], entries);
    r := Success(ticket);
  }

  /**
   * Table names are matched exactly: registry names are lower-cased, so a
   * name holding an upper-case ASCII letter is always an unknown table.
   */
  lemma UpperCaseNameUnknown(env: map<string, string>, tableName: string, body: Body, k: int)
    requires 0 <= k < |tableName| && IsUpper(tableName[k])
    ensures Validate(TablesOf(env, SortedKeys(env.Keys)), tableName, body)
         == Failure(HttpError(400, UnknownTableMessage(tableName)))
  {
    var tables := TablesOf(env, SortedKeys(env.Keys));
    forall i | 0 <= i < |tables| ensures tables[i].name != tableName {
      if |tables[i].name| == |tableName| {
        RegistryNamesLowerCase(env, SortedKeys(env.Keys), i, k);
      }
    }
  }

  /** The registry for `T_A=x` and `T_a=y`: both variables give a table named `a`. */
  lemma DuplicateNamesRegistry(env: map<string, string>)
    requires env == map["T_A" := "x", "T_a" := "y"]
    ensures TablesOf(env, SortedKeys(env.Keys)) == [Table("a", ["x"]), Table("a", ["y"])]
  {
    KeysExample(env);
    SortedKeysExample(env.Keys);
    TablesExample(env);
  }

  /** The key set of the two-variable environment of `DuplicateNamesRegistry`. */
  lemma KeysExample(env: map<string, string>)
    requires env == map["T_A" := "x", "T_a" := "y"]
    ensures env.Keys == {"T_A", "T_a"}
  {
  }

  /** The tables built from the two-variable environment's sorted listing, for `DuplicateNamesRegistry`. */
  lemma TablesExample(env: map<string, string>)
    requires env == map["T_A" := "x", "T_a" := "y"]
    ensures TablesOf(env, ["T_A", "T_a"]) == [Table("a", ["x"]), Table("a", ["y"])]
  {
    TableVarsExample();
    TableOfExample("T_A", "x", "a");
    TableOfExample("T_a", "y", "a");
    var tables := TablesOf(env, ["T_A", "T_a"]);
    assert |tables| == 2;
    assert tables[0] == TableOf("T_A", env["T_A"]);
    assert tables[1] == TableOf("T_a", env["T_a"]);
  }

  /** Both variables of `DuplicateNamesRegistry`'s environment are table variables. */
  lemma TableVarsExample()
    ensures TableVars(["T_A", "T_a"]) == ["T_A", "T_a"]
  {
    var listing := ["T_A", "T_a"];
    assert IsTableVar("T_A") && IsTableVar("T_a");
    assert listing[1..] == ["T_a"] && listing[1..][1..] == [];
  }

  /** One table built from a three-character variable and a one-character value, for `DuplicateNamesRegistry`. */
  lemma TableOfExample(v: string, value: string, name: string)
    requires |v| == 3 && v[..2] == "T_" && |value| == 1 && value[0] != ',' && !IsSpace(value[0])
    requires name == [LowerChar(v[2])]
    ensures TableOf(v, value) == Table(name, [value])
  {
    SplitWithout(value, ',');
    assert TrimAll([value]) == [value];
  }

  /** The sorted listing of the two variables of `DuplicateNamesRegistry`'s environment. */
  lemma SortedKeysExample(keys: set<string>)
    requires keys == {"T_A", "T_a"}
    ensures SortedKeys(keys) == ["T_A", "T_a"]
  {
    var listing := ["T_A", "T_a"];
    assert Less("T_A", "T_a") by {
      assert "T_A"[1..] == "_A" && "T_a"[1..] == "_a";
      assert "_A"[1..] == "A" && "_a"[1..] == "a";
    }
    assert IsSortedKeys(listing, keys);
    SortedKeysUnique(listing, SortedKeys(keys), keys);
  }

  /** With two tables named `a`, a request for `a` goes to the first in sorted variable order. */
  lemma DuplicateNamesFirstWins(record: Record)
    ensures Validate([Table("a", ["x"]), Table("a", ["y"])], "a", Object(record))
         == Success(Request(Table("a", ["x"]), [record]))
  {
  }
}
