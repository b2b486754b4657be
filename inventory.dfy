/**
 * The stock ledger of the inventory system, as values: a mapping from item
 * name to quantity, the checks `add_item` and `remove_item` make before they
 * touch it, and the mapping each of them leaves behind. The class in
 * ledger.dfy updates its `stock` field to exactly these values.
 */
module Inventory {

  /** The exceptions the ledger raises, one constructor per kind of raise. */
  datatype Error =
    | EmptyItemName      // ValueError: add_item with an empty name
    | NegativeQuantity   // ValueError: add_item or remove_item with qty < 0
    | ItemNotFound       // KeyError: remove_item of an item that is not stocked
    | NotEnoughStock     // ValueError: remove_item of more than is stocked
    | NotAnObject        // ValueError: the inventory file holds no JSON object
    | BadEntry           // ValueError: an entry of the inventory file is not str -> int
    | UndecodableJson    // json.JSONDecodeError, logged and re-raised by load_data
    | ReadFailure        // any other exception while reading the file, logged and re-raised

  datatype Result<+T> = Ok(value: T) | Err(error: Error)

  /** The ledger: item name to quantity (Python ints, so unbounded). */
  type Stock = map<string, int>

  /** `stock_data.get(item, 0)`: the stored quantity, 0 for an absent item. */
  function Quantity(s: Stock, item: string): int
  {
    if item in s then s[item] else 0
  }

  /** No negative quantity: add_item and remove_item keep this, load_data does not. */
  ghost predicate NonNegative(s: Stock)
  {
    forall k :: k in s ==> s[k] >= 0
  }

  /**
   * add_item: an empty name is refused first, then a negative quantity; otherwise
   * the item's quantity grows by `qty`, creating the entry (possibly with 0) if
   * it was absent, and no other entry changes.
   */
  function Add(s: Stock, item: string, qty: int): (r: Result<Stock>)
    ensures item == "" ==> r == Err(EmptyItemName)
    ensures item != "" && qty < 0 ==> r == Err(NegativeQuantity)
    ensures r.Ok? <==> item != "" && qty >= 0
    ensures r.Ok? ==> r.value.Keys == s.Keys + {item}
    ensures r.Ok? ==> r.value[item] == Quantity(s, item) + qty
    ensures r.Ok? ==> forall k :: k in s && k != item ==> r.value[k] == s[k]
    ensures r.Ok? && NonNegative(s) ==> NonNegative(r.value)
  {
    if item == "" then Err(EmptyItemName)
    else if qty < 0 then Err(NegativeQuantity)
    else Ok(s[item := Quantity(s, item) + qty])
  }

  /**
   * remove_item: a negative quantity is refused first, then an absent item, then
   * a quantity above the stored one; otherwise the item's quantity drops by
   * `qty` and the entry disappears exactly when it reaches 0. No other entry
   * changes.
   */
  function Remove(s: Stock, item: string, qty: int): (r: Result<Stock>)
    ensures qty < 0 ==> r == Err(NegativeQuantity)
    ensures qty >= 0 && item !in s ==> r == Err(ItemNotFound)
    ensures qty >= 0 && item in s && s[item] < qty ==> r == Err(NotEnoughStock)
    ensures r.Ok? <==> qty >= 0 && item in s && qty <= s[item]
    ensures r.Ok? ==> Quantity(r.value, item) == s[item] - qty
    ensures r.Ok? ==> (item in r.value <==> s[item] != qty)
    ensures r.Ok? ==> forall k :: k != item ==> (k in r.value <==> k in s)
    ensures r.Ok? ==> forall k :: k in s && k != item ==> r.value[k] == s[k]
    ensures r.Ok? && NonNegative(s) ==> NonNegative(r.value)
  {
    if qty < 0 then Err(NegativeQuantity)
    else if item !in s then Err(ItemNotFound)
    else if s[item] < qty then Err(NotEnoughStock)
    else if s[item] - qty == 0 then Ok(s - {item})
    else Ok(s[item := s[item] - qty])
  }

  /** The names check_low_items reports: those stocked strictly below `threshold`. */
  function LowItems(s: Stock, threshold: int): set<string>
  {
    set k | k in s && s[k] < threshold
  }

  /**
   * Removing what was just added gives the ledger back when the item was
   * absent or stocked above 0 (a zero entry would be deleted by the removal).
   */
  lemma RemoveUndoesAdd(s: Stock, item: string, qty: int)
    requires item != "" && qty >= 0
    requires item in s ==> s[item] > 0
    ensures Add(s, item, qty).Ok?
    ensures Remove(Add(s, item, qty).value, item, qty) == Ok(s)
  {
    var added := Add(s, item, qty).value;
    assert added[item] == Quantity(s, item) + qty >= qty;
    var back := Remove(added, item, qty).value;
    if item in s {
      assert back[item] == s[item];
    }
    assert back.Keys == s.Keys;
    assert forall k :: k in s ==> back[k] == s[k];
    assert back == s;
  }

  /** Adding back what was just removed gives the ledger back. */
  lemma AddUndoesRemove(s: Stock, item: string, qty: int)
    requires item != ""
    requires Remove(s, item, qty).Ok?
    ensures Add(Remove(s, item, qty).value, item, qty) == Ok(s)
  {
    var removed := Remove(s, item, qty).value;
    assert Quantity(removed, item) == s[item] - qty;
    var back := Add(removed, item, qty).value;
    assert back[item] == s[item];
    assert back.Keys == s.Keys;
    assert forall k :: k in s ==> back[k] == s[k];
    assert back == s;
  }

  /** One call of add_item or remove_item. */
  datatype Op = Added(item: string, qty: int) | Removed(item: string, qty: int)

  function Apply(s: Stock, op: Op): Result<Stock>
  {
    match op
    case Added(item, qty) => Add(s, item, qty)
    case Removed(item, qty) => Remove(s, item, qty)
  }

  /** A sequence of calls; the first exception ends it, as it would a caller that does not catch. */
  function Replay(s: Stock, ops: seq<Op>): Result<Stock>
    decreases |ops|
  {
    if ops == [] then Ok(s)
    else
      match Apply(s, ops[0])
      case Err(e) => Err(e)
      case Ok(next) => Replay(next, ops[1..])
  }

  /** What the calls in `ops` add to `item`, minus what they remove from it. */
  function NetChange(ops: seq<Op>, item: string): int
    decreases |ops|
  {
    if ops == [] then 0
    else
      var here := match ops[0]
        case Added(i, q) => if i == item then q else 0
        case Removed(i, q) => if i == item then -q else 0;
      here + NetChange(ops[1..], item)
  }

  /** After calls that all succeed, an item holds what it held plus its additions minus its removals. */
  lemma {:induction false} ReplayTracksNetChange(s: Stock, ops: seq<Op>, item: string)
    requires Replay(s, ops).Ok?
    ensures Quantity(Replay(s, ops).value, item) == Quantity(s, item) + NetChange(ops, item)
    decreases |ops|
  {
    if ops != [] {
      var next := Apply(s, ops[0]).value;
      ReplayTracksNetChange(next, ops[1..], item);
    }
  }

  /** Successful calls never make a quantity negative. */
  lemma {:induction false} ReplayKeepsNonNegative(s: Stock, ops: seq<Op>)
    requires NonNegative(s)
    requires Replay(s, ops).Ok?
    ensures NonNegative(Replay(s, ops).value)
    decreases |ops|
  {
    if ops != [] {
      var next := Apply(s, ops[0]).value;
      ReplayKeepsNonNegative(next, ops[1..]);
    }
  }
}
