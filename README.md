# Inventory ledger

A model of the inventory ledger in `inventory_system1.py`. The ledger maps
item names to integer quantities. Items are added with `add_item` and removed
with `remove_item`. The ledger is queried with `get_qty` and
`check_low_items`, and it is replaced wholesale by `load_data` from a JSON
file.

The model has three modules:

- `Inventory` (inventory.dfy) describes the ledger as a value of type
  `map<string, int>`. It gives what `add_item` and `remove_item` leave behind,
  or the exception they raise, as the functions `Add` and `Remove`. It proves
  that each undoes the other, and what any sequence of successful calls does
  to one item's quantity and to non-negativity.
- `InventoryFile` (inventory_file.dfy) covers what `load_data` sees once
  `json.load` has run: an object of values, a non-object, a missing file, or
  a decode or read failure. It holds the entry check (the function
  `Validated` and the loop `Validate`), the resulting ledger (`Loaded`) and
  the value a file written by `save_data` reads back as (`Saved`).
- `InventoryLedger` (ledger.dfy) holds the class `Ledger`. Its `stock` field
  takes the place of the module-level `stock_data` dictionary. The methods
  `AddItem`, `RemoveItem` and `LoadData` update the field in place and return
  `Ok(())` or `Err(e)` where Python returns or raises; `GetQty`,
  `CheckLowItems` and `SaveData` only read it. The ghost predicate `Commits`
  ties each updating method to its specification function: on success the
  ledger becomes the specified value, and on an error it is unchanged.

Python's exceptions are the constructors of `Inventory.Error`:

| exception | constructor |
|---|---|
| ValueError "item must be a non-empty string" | `EmptyItemName` |
| ValueError "qty must be non-negative" | `NegativeQuantity` |
| KeyError "not found in inventory" | `ItemNotFound` |
| ValueError "Not enough quantity" | `NotEnoughStock` |
| ValueError "must contain a JSON object" | `NotAnObject` |
| ValueError "entries must be str->int" | `BadEntry` |
| json.JSONDecodeError, re-raised by load_data | `UndecodableJson` |
| any other exception while loading, re-raised | `ReadFailure` |

The code does not enforce the following, and neither does the model:

- Non-empty names and non-negative quantities on load: `load_data` checks only
  that each value is an integer. So "every quantity is at least 0" is kept by
  `add_item` and `remove_item`, but not by loading.
- No zero entries: `add_item(x, 0)` on an absent item creates a zero entry.
- Non-empty names on removal: `remove_item` does not refuse an empty item
  name. With qty >= 0 such a call fails with `ItemNotFound` unless a loaded
  file stocked the name "" (with qty < 0 it fails with `NegativeQuantity`
  first).

## Model

| member | source | states |
|---|---|---|
| `Inventory.Add` | inventory_system1.py:31-44 | An empty name fails with EmptyItemName. Otherwise a negative qty fails with NegativeQuantity. The call succeeds exactly when neither applies. On success the item's quantity is its old `get(item, 0)` plus qty, an absent item gets an entry (0 included), every other entry is unchanged, and non-negative quantities stay non-negative. |
| `Inventory.Remove` | inventory_system1.py:58-69 | The checks run in source order: qty < 0 fails with NegativeQuantity, an absent item with ItemNotFound, and a stored quantity below qty with NotEnoughStock. The call succeeds exactly when none applies. On success the quantity read back is the old one minus qty, and the entry is gone exactly when that is 0. No other key appears, disappears or changes, and non-negative quantities stay non-negative. |
| `Inventory.RemoveUndoesAdd` | inventory_system1.py:44-69 | If the item is absent or stocked above 0, removing what was just added restores the ledger exactly. |
| `Inventory.AddUndoesRemove` | inventory_system1.py:44-69 | After a successful removal of a non-empty name, adding the same quantity back restores the ledger exactly (a deleted entry comes back too). |
| `Inventory.ReplayTracksNetChange` | inventory_system1.py:44-69 | After any sequence of add/remove calls that all succeed, an item's quantity is its starting quantity plus the quantities added to it minus those removed from it. |
| `Inventory.ReplayKeepsNonNegative` | inventory_system1.py:40-67 | Successful add/remove calls never turn a ledger without negative quantities into one with a negative quantity. |
| `InventoryFile.Validated` | inventory_system1.py:92-96 | The entry check, as intended. It succeeds exactly when every value is a JSON integer, and the result then has exactly the file's keys with their values. Otherwise it fails with BadEntry. |
| `InventoryFile.Validate` | inventory_system1.py:92-96 | The loop that copies checked entries into a fresh mapping and stops at the first bad one returns exactly `Validated`'s result, whatever order the keys are visited in. |
| `InventoryFile.ValidatedAsWritten` | inventory_system1.py:93-96 | The entry check as the code is written. It succeeds exactly when every value passes `isinstance(v, int)`, that is, is a JSON integer or a JSON boolean, and the result then has exactly the file's keys, a boolean read as 1 or 0. Otherwise it fails with BadEntry. |
| `InventoryFile.BooleanEntryAccepted` | inventory_system1.py:94 | As written, the check accepts `{"x": true}` as one unit of "x". The intended check refuses it with BadEntry. |
| `InventoryFile.Loaded` | inventory_system1.py:86-108 | load_data succeeds exactly for a missing file (giving the empty ledger) or an object whose values are all integers (giving exactly those entries). A non-object fails with NotAnObject, a bad entry with BadEntry, and decode and read failures with their own errors. |
| `InventoryFile.Saved` | inventory_system1.py:114-116 | The file save_data writes reads back as an object with exactly the ledger's keys, each mapped to its integer quantity. |
| `InventoryFile.LoadAfterSave` | inventory_system1.py:86-116 | Loading what save_data wrote gives back exactly the saved ledger. |
| `InventoryLedger.Ledger.constructor` | inventory_system1.py:22 | A new ledger is empty. |
| `InventoryLedger.Ledger.AddItem` | inventory_system1.py:24-46 | add_item on the object. The ledger becomes `Add`'s result, or is unchanged on an error. On success exactly one entry, "<now>: Added <qty> of <item>", is appended to the caller's logs. On an error the logs are unchanged. |
| `InventoryLedger.Ledger.RemoveItem` | inventory_system1.py:48-71 | remove_item on the object. The ledger becomes `Remove`'s result, or is unchanged on an error, and the error is `Remove`'s. |
| `InventoryLedger.Ledger.GetQty` | inventory_system1.py:73-79 | Returns the stored quantity of a stocked item and 0 otherwise. It changes nothing. |
| `InventoryLedger.Ledger.CheckLowItems` | inventory_system1.py:128-132 | Returns each name whose quantity is strictly below the threshold, and no other name. No name appears twice. It changes nothing. |
| `InventoryLedger.Ledger.LoadData` | inventory_system1.py:81-108 | load_data on the object. The ledger is replaced by `Loaded`'s result only when every entry passed the check, becomes empty for a missing file, and is untouched on every error. |
| `InventoryLedger.Ledger.SaveData` | inventory_system1.py:110-120 | Returns the content save_data writes, as the value it reads back as, and loading that content gives back the current ledger. The JSON encoding in between is abstracted away: `Saved` wraps each quantity as an integer value, which the entry check unwraps. |

## Findings

| source | as written | input that shows it | evidently intended | confidence | as-written member | corrected member |
|---|---|---|---|---|---|---|
| inventory_system1.py:94 | `isinstance(v, int)` also holds for Python's `True` and `False`, because bool is a subclass of int, so JSON booleans pass the entry check and are stored as quantities | a file holding `{"x": true}` loads, and `get_qty("x")` then returns `True` (one unit) | only JSON integers are accepted, and anything else fails with the "str->int" ValueError | medium, not executed | `InventoryFile.BooleanEntryAccepted` (with `InventoryFile.ValidatedAsWritten`) | `InventoryFile.Validated` (used by `Validate`, `Loaded` and `Ledger.LoadData`) |

## Left out

- Logging (`logger.*` calls and the logging configuration): it has no behavioural contract. The one log the caller can see, the `logs` list of `add_item`, is modelled.
- The clock: `datetime.now()` is the `now` parameter of `AddItem`, given as the text Python prints for it.
- File access and JSON text: opening, `json.load`, and `json.dump` with `indent=2` and `sort_keys=True`. Loading starts from the parsed value. Saving yields the value the written file reads back as. The layout and key order of the written file are not modelled.
- Duplicate keys in the file: `json.load` keeps the last value for a key, and the model starts from the dictionary that results.
- The `isinstance` checks that raise TypeError in add_item, remove_item, get_qty and check_low_items: Dafny's types already guarantee a string name and integer quantities. The key check of load_data is vacuous for the same reason, since JSON object keys are always strings.
- `InventoryLedger.Ledger.CheckLowItems`: does not promise Python's order, which is the dictionary's insertion order. The ledger is a map with no order, so the names come back in an unspecified order.
- Default arguments (`item="default"`, `qty=0`, `threshold=5`, `file="inventory.json"`): every call passes its arguments.
- The failure path of save_data (inventory_system1.py:118-120): an error while opening or writing the file is logged and re-raised. `SaveData` always succeeds, since file writing is not modelled.
- `print_data` and `main`: console output and a demonstration script.
