/**
 * The inventory file as load_data sees it once json.load has run: the parsed
 * value, the check that every entry maps a name to an integer, and the ledger
 * that results. File access and JSON text are not modelled; `Saved` gives the
 * value that reading back a file written by save_data yields.
 */
module InventoryFile {
  import opened Inventory

  /**
   * A value of the object json.load returns, as far as the entry check can
   * tell values apart. `Other` stands for a string, a float, null, an array or
   * a nested object.
   */
  datatype Value = Int(i: int) | Bool(b: bool) | Other

  /** What opening and parsing the inventory file gives load_data. */
  datatype Parsed =
    | Object(fields: map<string, Value>)  // json.load returned a dict (JSON object keys are always str)
    | NonObject                           // the top-level JSON value is not an object
    | FileMissing                         // open raised FileNotFoundError
    | Undecodable                         // json.load raised JSONDecodeError
    | Unreadable                          // any other exception while opening or reading

  /**
   * The entry check, as intended: the file is accepted exactly when every
   * value is a JSON integer, and the ledger then holds exactly those entries.
   */
  function Validated(fields: map<string, Value>): (r: Result<Stock>)
    ensures r.Ok? <==> forall k :: k in fields ==> fields[k].Int?
    ensures r.Err? ==> r.error == BadEntry
    ensures r.Ok? ==> r.value.Keys == fields.Keys
    ensures r.Ok? ==> forall k :: k in fields ==> r.value[k] == fields[k].i
  {
    if forall k :: k in fields ==> fields[k].Int? then
      Ok(map k | k in fields :: fields[k].i)
    else
      Err(BadEntry)
  }

  /** The integer Python sees in a value that passes `isinstance(v, int)`. */
  function IntOf(v: Value): int
    requires v.Int? || v.Bool?
  {
    match v
    case Int(i) => i
    case Bool(b) => if b then 1 else 0
  }

  /**
   * The entry check as written: Python's bool is a subclass of int, so
   * `isinstance(True, int)` holds and a JSON `true` or `false` passes.
   */
  function ValidatedAsWritten(fields: map<string, Value>): (r: Result<Stock>)
    ensures r.Ok? <==> forall k :: k in fields ==> fields[k].Int? || fields[k].Bool?
    ensures r.Err? ==> r.error == BadEntry
    ensures r.Ok? ==> r.value.Keys == fields.Keys
    ensures r.Ok? ==> forall k :: k in fields && fields[k].Int? ==> r.value[k] == fields[k].i
    ensures r.Ok? ==> forall k :: k in fields && fields[k].Bool? ==> r.value[k] == (if fields[k].b then 1 else 0)
  {
    if forall k :: k in fields ==> fields[k].Int? || fields[k].Bool? then
      Ok(map k | k in fields :: IntOf(fields[k]))
    else
      Err(BadEntry)
  }

  /** The file {"x": true} is loaded as written as one unit of "x"; the intended check refuses it. */
  lemma BooleanEntryAccepted()
    ensures ValidatedAsWritten(map["x" := Bool(true)]) == Ok(map["x" := 1])
    ensures Validated(map["x" := Bool(true)]) == Err(BadEntry)
  {
    var fields := map["x" := Bool(true)];
    assert "x" in fields && !fields["x"].Int?;
    assert (map k | k in fields :: IntOf(fields[k])) == map["x" := 1];
  }

  /**
   * The loop of load_data that copies each checked entry into a fresh mapping
   * and stops at the first entry that is not str -> int.
   */
  method Validate(fields: map<string, Value>) returns (r: Result<Stock>)
    ensures r == Validated(fields)
  {
    var validated: Stock := map[];
    var todo := fields.Keys;
    while todo != {}
      invariant todo <= fields.Keys
      invariant validated.Keys == fields.Keys - todo
      invariant forall k :: k in validated ==> fields[k].Int? && validated[k] == fields[k].i
      decreases todo
    {
      var k :| k in todo;
      if !fields[k].Int? {
        return Err(BadEntry);
      }
      validated := validated[k := fields[k].i];
      todo := todo - {k};
    }
    assert validated == map k | k in fields :: fields[k].i;
    return Ok(validated);
  }

  /**
   * The ledger load_data installs, or the exception it raises. A missing file
   * gives the empty ledger; any other failure leaves the ledger to the caller
   * unchanged (see InventoryLedger.Ledger.LoadData).
   */
  function Loaded(p: Parsed): (r: Result<Stock>)
    ensures r.Ok? <==> p.FileMissing? || (p.Object? && forall k :: k in p.fields ==> p.fields[k].Int?)
    ensures r.Ok? && p.FileMissing? ==> r.value == map[]
    ensures r.Ok? && p.Object? ==> r.value.Keys == p.fields.Keys
    ensures r.Ok? && p.Object? ==> forall k :: k in p.fields ==> r.value[k] == p.fields[k].i
    ensures p.NonObject? ==> r == Err(NotAnObject)
    ensures p.Object? && r.Err? ==> r.error == BadEntry
    ensures p.Undecodable? ==> r == Err(UndecodableJson)
    ensures p.Unreadable? ==> r == Err(ReadFailure)
  {
    match p
    case Object(fields) => Validated(fields)
    case NonObject => Err(NotAnObject)
    case FileMissing => Ok(map[])
    case Undecodable => Err(UndecodableJson)
    case Unreadable => Err(ReadFailure)
  }

  /** The value json.load gives back for a file that save_data wrote from `s`. */
  function Saved(s: Stock): (p: Parsed)
    ensures p.Object? && p.fields.Keys == s.Keys
    ensures forall k :: k in s ==> p.fields[k] == Int(s[k])
  {
    Object(map k | k in s :: Int(s[k]))
  }

  /** Saving and loading again gives back the same ledger. */
  lemma LoadAfterSave(s: Stock)
    ensures Loaded(Saved(s)) == Ok(s)
  {
    var loaded := Loaded(Saved(s));
    assert loaded.Ok?;
    assert loaded.value == s;
  }
}
