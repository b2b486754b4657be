/**
 * The inventory ledger as an object: the module-level `stock_data` mapping
 * becomes the `stock` field of a Ledger, and each function of the inventory
 * module that reads or updates it becomes a method. Every method that may
 * raise returns a Result instead, and on an error leaves the ledger as it was.
 */
module InventoryLedger {
  import opened Inventory
  import opened InventoryFile

  /** The caller-supplied `logs` list that add_item appends to. */
  class LogBuffer {
    var entries: seq<string>

    constructor ()
      ensures entries == []
    {
      entries := [];
    }
  }

  /** The number a string of decimal digits spells, most significant digit first. */
  function DigitsValue(d: string): nat
    requires forall i :: 0 <= i < |d| ==> '0' <= d[i] <= '9'
    decreases |d|
  {
    if d == [] then 0 else DigitsValue(d[..|d| - 1]) * 10 + (d[|d| - 1] - '0') as nat
  }

  /** The decimal digits of `n`, as Python's str(n) writes them: no leading zero. */
  function Decimal(n: nat): (d: string)
    ensures |d| > 0
    ensures forall i :: 0 <= i < |d| ==> '0' <= d[i] <= '9'
    ensures DigitsValue(d) == n
    ensures d[0] == '0' ==> n == 0
  {
    var last := ['0' + (n % 10) as char];
    if n < 10 then last
    else
      var front := Decimal(n / 10);
      assert (front + last)[..|front|] == front;
      front + last
  }

  /** The log line `f"{datetime.now()}: Added {qty} of {item}"`, the clock reading given as `now`. */
  function AddedMessage(now: string, qty: nat, item: string): string
  {
    now + ": Added " + Decimal(qty) + " of " + item
  }

  /**
   * A call that may raise, against the value that specifies it: on success
   * the call returns normally and the ledger becomes the specified value; on
   * an error the call raises that error and the ledger is unchanged.
   */
  ghost predicate Commits(r: Result<()>, spec: Result<Stock>, before: Stock, after: Stock)
  {
    match spec
    case Ok(s) => r == Ok(()) && after == s
    case Err(e) => r == Err(e) && after == before
  }

  class Ledger {
    /** Item name to quantity. */
    var stock: Stock

    /** A fresh ledger starts empty, as `stock_data` does at import. */
    constructor ()
      ensures stock == map[]
    {
      stock := map[];
    }

    /**
     * add_item. `logs` is the caller's list or null (Python's None, for which
     * add_item appends to a throw-away list); `now` is the clock reading.
     */
    method AddItem(item: string, qty: int, logs: LogBuffer?, now: string) returns (r: Result<()>)
      modifies this, logs
      ensures Commits(r, Add(old(stock), item, qty), old(stock), stock)
      ensures logs != null && r.Ok? ==> qty >= 0 && logs.entries == old(logs.entries) + [AddedMessage(now, qty, item)]
      ensures logs != null && r.Err? ==> logs.entries == old(logs.entries)
    {
      if item == "" {
        return Err(EmptyItemName);
      }
      if qty < 0 {
        return Err(NegativeQuantity);
      }
      stock := stock[item := Quantity(stock, item) + qty];
      if logs != null {
        logs.entries := logs.entries + [AddedMessage(now, qty, item)];
      }
      r := Ok(());
    }

    /** remove_item. */
    method RemoveItem(item: string, qty: int) returns (r: Result<()>)
      modifies this
      ensures Commits(r, Remove(old(stock), item, qty), old(stock), stock)
    {
      if qty < 0 {
        return Err(NegativeQuantity);
      }
      if item !in stock {
        return Err(ItemNotFound);
      }
      if stock[item] < qty {
        return Err(NotEnoughStock);
      }
      stock := stock[item := stock[item] - qty];
      if stock[item] == 0 {
        stock := stock - {item};
      }
      r := Ok(());
    }

    /** get_qty: the stored quantity, 0 for an item that is not stocked. */
    method GetQty(item: string) returns (q: int)
      ensures item in stock ==> q == stock[item]
      ensures item !in stock ==> q == 0
    {
      q := Quantity(stock, item);
    }

    /**
     * check_low_items: every stocked name whose quantity is below `threshold`,
     * each once. The order of the names is left open.
     */
    method CheckLowItems(threshold: int) returns (names: seq<string>)
      ensures forall i, j :: 0 <= i < j < |names| ==> names[i] != names[j]
      ensures forall k :: k in names <==> k in LowItems(stock, threshold)
    {
      names := [];
      var rest := stock.Keys;
      while rest != {}
        invariant rest <= stock.Keys
        invariant forall i, j :: 0 <= i < j < |names| ==> names[i] != names[j]
        invariant forall k :: k in names <==> k in stock && k !in rest && stock[k] < threshold
        decreases rest
      {
        var k :| k in rest;
        if stock[k] < threshold {
          names := names + [k];
        }
        rest := rest - {k};
      }
    }

    /**
     * load_data, given what opening and parsing the file produced: the ledger
     * is replaced only once every entry has passed the check, and becomes
     * empty when the file does not exist.
     */
    method LoadData(data: Parsed) returns (r: Result<()>)
      modifies this
      ensures Commits(r, Loaded(data), old(stock), stock)
    {
      match data {
        case FileMissing =>
          stock := map[];
          r := Ok(());
        case NonObject =>
          r := Err(NotAnObject);
        case Undecodable =>
          r := Err(UndecodableJson);
        case Unreadable =>
          r := Err(ReadFailure);
        case Object(fields) =>
          var validated := Validate(fields);
          if validated.Err? {
            return Err(validated.error);
          }
          stock := validated.value;
          r := Ok(());
      }
    }

    /** save_data, given the file's content back as json.load would read it. */
    method SaveData() returns (written: Parsed)
      ensures written == Saved(stock)
      ensures Loaded(written) == Ok(stock)
    {
      written := Saved(stock);
      LoadAfterSave(stock);
    }
  }
}
