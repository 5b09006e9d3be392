# Registry and command relay (gtnet `webserver.js`)

This project models the small registry service in `webserver.js`. The service keeps two tables in an in-memory SQLite database:

- `clients`: rows `(id, key)`. The key is a random 16-character string.
- `commands`: rows `(id, command, target, clientKey, room)`. A command is a "join room" directive. Its `clientKey` may be `NULL`.

Five HTTP endpoints work on these tables: add a client, list clients, remove a client (which first deletes that key's commands), submit a join-room command, and read the latest command.

The model is split into three modules:

- `KeyGen` (`keygen.dfy`) models `genkey` as a pure function. It takes the alphabet positions `genkey` draws, one per character, each below 50. `CharIndex` states the bound of the position computation for a draw in `[0, 1)`.
- `Tables` (`tables.dfy`) gives the meaning of `DELETE FROM t WHERE …` on a table held as a sequence of rows in rowid order. It also models the `changes` count SQLite reports for the delete. Its lemmas cover that count, the case where the condition matches nothing, order preservation, and rowid order.
- `Relay` (`registry.dfy`) holds the row datatypes and the answers each handler can give. The `Registry` class holds the two tables as `seq` fields. Each table has an AUTOINCREMENT counter, modelled as its `sqlite_sequence` entry (`clientSeq`, `commandSeq`: the largest id ever assigned). Ghost sets record every id ever issued. Each SQL statement is a method: the two `INSERT`s return `lastID` and the two `DELETE`s return `changes`. Each endpoint is a method that validates the request body and then runs its statements in the source's order. `Valid()` states the invariants every method keeps:
  - both tables are in strictly increasing id order;
  - every row id has been issued;
  - every issued id lies between 1 and the counter.

`Scenarios` (`scenarios.dfy`) states the outcomes of a few request sequences against a fresh `Registry`. Each outcome is proved from the handler contracts alone.

Modelling choices:

- A request-body field is an `Option<string>`. JavaScript truthiness becomes `Truthy`: the field must be present and not `""`.
- A handler's answer is `Result<T>`: either `Ok(body)` or `Err(BadRequest(text))` / `Err(NotFound(text))`. The error texts are the source's.
- `/commands` answers `Option<Command>`. `None` stands for the empty object `{}`.

- `SELECT * FROM clients` has no `ORDER BY` (`webserver.js:31`). So `ListClients` promises only the same multiset of rows.
- Nothing ties a command's `clientKey` to a client: `/joinroom` stores any truthy `clientKey` (`webserver.js:71`). `Scenarios.CascadeBeforeNotFound` stores one that no client ever had.

## Model

| member | source | states |
|---|---|---|
| KeyGen.CharIndex | webserver.js:17 | `Math.floor(r * chars.length)` for a draw `0 <= r < 1` is a valid position in the 50-character alphabet and is at most `r * 50` |
| KeyGen.GenKey | webserver.js:15-18 | the key has one character per drawn position; the i-th character is the alphabet character at the i-th position, so every character is from the alphabet |
| KeyGen.PositionIn | webserver.js:16 | the first position of a character of the alphabet holds that character |
| KeyGen.PositionsFor | webserver.js:16-17 | for every string over the alphabet there are positions below 50, one per character, each holding that character |
| KeyGen.EveryKeyIsReachable | webserver.js:15-18 | every string over the alphabet is a key `genkey` can produce |
| Tables.DeleteWhere | webserver.js:46 | after `DELETE ... WHERE`, the table holds exactly the rows that do not match, and no more rows than before |
| Tables.MatchCount | webserver.js:55 | the number of matching rows is zero exactly when no row matches |
| Tables.DeleteWhereChanges | webserver.js:51-55 | the number of rows a `DELETE` removes (`this.changes`) is the number of matching rows |
| Tables.DeleteWhereNothingMatches | webserver.js:51-56 | a `DELETE` whose condition matches no row leaves the table exactly as it was |
| Tables.DeleteWhereKeepsOrder | webserver.js:46 | the rows a `DELETE` leaves keep their original relative order |
| Tables.DeleteWhereKeepsIdsIncreasing | webserver.js:11-12 | a table in strictly increasing rowid order stays so after a `DELETE` |
| Relay.Truthy | webserver.js:42 | JavaScript truthiness of a string field (`!key` here, `!room \|\| !target` at line 66): an absent field and `""` are falsy, a present non-empty string is truthy |
| Relay.HttpError.Status | webserver.js:43 | a caller error is answered with 400 and a missing client with 404 (lines 43, 56, 67); both are 4xx codes |
| Relay.RemovedMessage | webserver.js:58 | the success message is `client with key `, then the key, then ` removed`, so the key can be read back from it |
| Relay.OrNull | webserver.js:71 | `clientKey \|\| null` stores a truthy key as given and anything else as NULL; a stored key is never empty |
| Relay.HasKey | webserver.js:51 | the condition `key = ?` holds of every client with that key and of no other |
| Relay.IssuedWithKey | webserver.js:46 | the condition `clientKey = ?` holds of exactly the commands whose `clientKey` is that key, and never of a NULL `clientKey` |
| Relay.Registry.constructor | webserver.js:8-13 | a fresh database has two empty tables and no id issued yet |
| Relay.Registry.InsertClient | webserver.js:11 | an insert into `clients` appends one row whose id is the counter plus one, larger than every id ever issued including deleted ones, and leaves `commands` alone |
| Relay.Registry.InsertCommand | webserver.js:12 | an insert into `commands` appends one row with a fresh id larger than every id ever issued, and leaves `clients` alone |
| Relay.Registry.DeleteCommandsWithKey | webserver.js:46 | the command cascade removes exactly the commands whose `clientKey` equals the key, keeps the others (including NULL keys) in order, and returns their number |
| Relay.Registry.DeleteClientsWithKey | webserver.js:51 | every client row holding the key is removed, the others are kept in order, and zero changes means the table is unchanged |
| Relay.Registry.AddClient | webserver.js:20-27 | `/addclient` answers a 16-character key over the alphabet and a new id larger than every id ever issued; `clients` gains exactly that row; `commands` is unchanged |
| Relay.Registry.ListClients | webserver.js:30-37 | `/clients` answers all client rows, with no promise about their order |
| Relay.Registry.RemoveClient | webserver.js:39-61 | a falsy key gets "no client key" and nothing changes; otherwise the key's commands are deleted first; the answer is 404 "client not found" exactly when no client held the key, and then `clients` is unchanged; otherwise every client with the key goes and the message names the key |
| Relay.Registry.JoinRoom | webserver.js:63-79 | a falsy room or target gets "invalid params" and nothing changes; otherwise one `joinroom` row is appended with the target, the room and the client key or NULL, and its fresh, larger-than-ever id is the answered `commandID` |
| Relay.Registry.LatestCommand | webserver.js:81-88 | `/commands` answers a command row whose id is the largest in the table, or `{}` exactly when the table is empty |
| Scenarios.ClientLifecycle | webserver.js:20-88 | add a client, join a room with its key, read the command, remove the client: ids start at 1, the read returns the stored fields, and the cascade empties the log |
| Scenarios.CascadeBeforeNotFound | webserver.js:46-56 | removing a key no client holds answers 404 after its commands have already been deleted |
| Scenarios.LatestIsLastAccepted | webserver.js:63-88 | the latest command is the last accepted one; an empty client key is stored as NULL; a rejected submission does not change the latest command |
| Scenarios.IdsAreNeverReused | webserver.js:11 | after the first client is removed, the next client gets id 2, not 1 |

## Left out

- Express routing, JSON body parsing, the HTTP status plumbing and the listening port (`webserver.js:1-6`, `91-95`). Answers are values of `Result`, and `HttpError.Status` gives their status codes.
- Storage faults: the 500 branches (`webserver.js:23-25`, `32-34`, `47-49`, `52-54`, `73-75`, `83-85`). These are failures of the foreign SQLite library, and the model's statements always succeed.
- SQL execution itself. Each statement is stated by its effect on the rows.
- `Math.random`. It is non-deterministic and floating-point, so the positions it leads to are a parameter of `GenKey` and `AddClient`.
- KeyGen.CharIndex: takes the product `r * 50` exactly, as a real. The source floors the rounded double product. When that product rounds up to an integer, the source picks the next position. For example, the draw `0.7` gives position 35 (`'9'`) in the source and 34 in `CharIndex`. Only the bound of fewer than 50 positions is promised of the source.
- Strings that are not sequences of Unicode scalar values. Request fields and stored text are Dafny `string`s. JavaScript strings are UTF-16 code units, so a field holding an unpaired surrogate such as `"\ud800"` has no counterpart in the model. The model also does not cover how SQLite stores and compares such text as UTF-8.
- Request fields that are JSON values other than strings, such as numbers, booleans or objects. JavaScript truthiness and SQLite's TEXT affinity would apply to them. The model takes string fields, absent or present.
- `Relay.Registry.InsertClient`, `Relay.Registry.InsertCommand`: does not model the exhaustion of 64-bit rowids (SQLITE_FULL), because ids are unbounded integers.
- Callback interleaving between requests. The two deletes of `/removeclient` are not atomic in the source, and the model runs every handler as one sequential step.
