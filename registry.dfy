/**
 * The registry and command relay of webserver.js: an in-memory SQLite
 * database with a `clients` table and a `commands` table, and one HTTP
 * handler per endpoint. The database becomes a `Registry` object whose two
 * tables are sequences of rows in rowid order; each SQL statement a handler
 * runs is a method of its own, and each handler is a method that validates the
 * request body and runs its statements in the order the source does.
 */
module Relay {
  import opened KeyGen
  import opened Tables

  datatype Option<T> = None | Some(value: T)

  /** A row of `clients (id INTEGER PRIMARY KEY AUTOINCREMENT, key TEXT)`. */
  datatype Client = Client(id: nat, key: string)

  /** A row of `commands (id ..., command TEXT, target TEXT, clientKey TEXT, room TEXT)`; `None` is SQL NULL. */
  datatype Command = Command(id: nat, command: string, target: string, clientKey: Option<string>, room: string)

  /** The 4xx answers a handler gives, with the text of their `error` field. */
  datatype HttpError = BadRequest(error: string) | NotFound(error: string) {
    /** The status code the handler sends: 400 for a caller error, 404 for a missing client. */
    function Status(): (code: nat)
      ensures 400 <= code < 500
      ensures code == 400 <==> BadRequest?
      ensures NotFound? ==> code == 404
    {
      match this
      case BadRequest(_) => 400
      case NotFound(_) => 404
    }
  }

  /** A handler's answer: the body of a 200 response, or a 4xx error. */
  datatype Result<T> = Ok(value: T) | Err(error: HttpError)

  /** The body `{ index, key }` that `/addclient` answers with. */
  datatype AddClientReply = AddClientReply(index: nat, key: string)

  const NoClientKey: HttpError := BadRequest("no client key")
  const ClientNotFound: HttpError := NotFound("client not found")
  const InvalidParams: HttpError := BadRequest("invalid params")

  /** The only `command` value this service writes. */
  const JoinRoomCommand: string := "joinroom"

  /** The success message of `/removeclient`. */
  function RemovedMessage(key: string): (message: string)
    ensures |message| == |key| + 24
    ensures message[..16] == "client with key " && message[|message| - 8..] == " removed"
    ensures message[16..|message| - 8] == key
  {
    "client with key " + key + " removed"
  }

  /** JavaScript truthiness of a string field of the request body: present and not empty. */
  function Truthy(field: Option<string>): (truthy: bool)
    ensures field == None ==> !truthy
    ensures field == Some("") ==> !truthy
    ensures truthy <==> field.Some? && |field.value| > 0
  {
    field.Some? && field.value != ""
  }

  /** `field || null`: a falsy field is stored as SQL NULL. */
  function OrNull(field: Option<string>): (stored: Option<string>)
    ensures stored.Some? ==> stored == field && stored.value != ""
    ensures Truthy(field) ==> stored == field
  {
    if Truthy(field) then field else None
  }

  function ClientId(c: Client): int { c.id }
  function CommandId(c: Command): int { c.id }

  /** The condition of `DELETE FROM clients WHERE key = ?`. */
  function HasKey(key: string): (matches: Client -> bool)
    ensures forall id: nat :: matches(Client(id, key))
    ensures forall c: Client :: matches(c) ==> c.key == key
  {
    (c: Client) => c.key == key
  }

  /** The condition of `DELETE FROM commands WHERE clientKey = ?`; a NULL clientKey never equals a key. */
  function IssuedWithKey(key: string): (matches: Command -> bool)
    ensures forall c: Command :: c.clientKey.None? ==> !matches(c)
    ensures forall c: Command :: matches(c) ==> c.clientKey == Some(key)
    ensures forall c: Command :: c.clientKey == Some(key) ==> matches(c)
  {
    (c: Command) => c.clientKey == Some(key)
  }


  class Registry {
    /** The rows of `clients`, in rowid order. */
    var clients: seq<Client>
    /** The rows of `commands`, in rowid order. */
    var commands: seq<Command>
    /** The `sqlite_sequence` entry of `clients`: the largest id ever assigned in it (0 at first). */
    var clientSeq: nat
    /** The `sqlite_sequence` entry of `commands`. */
    var commandSeq: nat
    /** Every id ever assigned to a client, including those whose rows were deleted. */
    ghost var issuedClientIds: set<nat>
    /** Every id ever assigned to a command. */
    ghost var issuedCommandIds: set<nat>

    ghost predicate Valid()
      reads this
    {
      && IdsIncreasing(clients, ClientId)
      && IdsIncreasing(commands, CommandId)
      && (forall id :: id in issuedClientIds ==> 1 <= id <= clientSeq)
      && (forall id :: id in issuedCommandIds ==> 1 <= id <= commandSeq)
      && (forall i :: 0 <= i < |clients| ==> clients[i].id in issuedClientIds)
      && (forall i :: 0 <= i < |commands| ==> commands[i].id in issuedCommandIds)
    }

    /** `new sqlite3.Database(':memory:')` followed by the two `CREATE TABLE` statements. */
    constructor ()
      ensures Valid()
      ensures clients == [] && commands == []
      ensures clientSeq == 0 && commandSeq == 0
      ensures issuedClientIds == {} && issuedCommandIds == {}
    {
      clients, commands := [], [];
      clientSeq, commandSeq := 0, 0;
      issuedClientIds, issuedCommandIds := {}, {};
    }

    /** `INSERT INTO clients (key) VALUES (?)`; the result is `this.lastID`. */
    method InsertClient(key: string) returns (lastID: nat)
      requires Valid()
      modifies this
      ensures Valid()
      ensures lastID == old(clientSeq) + 1
      ensures lastID !in old(issuedClientIds)
      ensures forall id :: id in old(issuedClientIds) ==> id < lastID
      ensures clients == old(clients) + [Client(lastID, key)]
      ensures clientSeq == lastID && issuedClientIds == old(issuedClientIds) + {lastID}
      ensures commands == old(commands) && commandSeq == old(commandSeq)
      ensures issuedCommandIds == old(issuedCommandIds)
    {
      lastID := clientSeq + 1;
      clients := clients + [Client(lastID, key)];
      clientSeq := lastID;
      issuedClientIds := issuedClientIds + {lastID};
    }

    /** `INSERT INTO commands (command, target, clientKey, room) VALUES (?, ?, ?, ?)`; the result is `this.lastID`. */
    method InsertCommand(command: string, target: string, clientKey: Option<string>, room: string)
      returns (lastID: nat)
      requires Valid()
      modifies this
      ensures Valid()
      ensures lastID == old(commandSeq) + 1
      ensures lastID !in old(issuedCommandIds)
      ensures forall id :: id in old(issuedCommandIds) ==> id < lastID
      ensures commands == old(commands) + [Command(lastID, command, target, clientKey, room)]
      ensures commandSeq == lastID && issuedCommandIds == old(issuedCommandIds) + {lastID}
      ensures clients == old(clients) && clientSeq == old(clientSeq)
      ensures issuedClientIds == old(issuedClientIds)
    {
      lastID := commandSeq + 1;
      commands := commands + [Command(lastID, command, target, clientKey, room)];
      commandSeq := lastID;
      issuedCommandIds := issuedCommandIds + {lastID};
    }

    /** `DELETE FROM commands WHERE clientKey = ?`; the result is `this.changes`. */
    method DeleteCommandsWithKey(key: string) returns (changes: nat)
      requires Valid()
      modifies this
      ensures Valid()
      ensures commands == DeleteWhere(old(commands), IssuedWithKey(key))
      ensures IsSubsequence(commands, old(commands))
      ensures changes == MatchCount(old(commands), IssuedWithKey(key))
      ensures changes == |old(commands)| - |commands|
      ensures clients == old(clients) && clientSeq == old(clientSeq) && commandSeq == old(commandSeq)
      ensures issuedClientIds == old(issuedClientIds) && issuedCommandIds == old(issuedCommandIds)
    {
      var before := commands;
      commands := DeleteWhere(commands, IssuedWithKey(key));
      DeleteWhereChanges(before, IssuedWithKey(key));
      DeleteWhereKeepsOrder(before, IssuedWithKey(key));
      DeleteWhereKeepsIdsIncreasing(before, IssuedWithKey(key), CommandId);
      changes := |before| - |commands|;
    }

    /** `DELETE FROM clients WHERE key = ?`; the result is `this.changes`. */
    method DeleteClientsWithKey(key: string) returns (changes: nat)
      requires Valid()
      modifies this
      ensures Valid()
      ensures clients == DeleteWhere(old(clients), HasKey(key))
      ensures IsSubsequence(clients, old(clients))
      ensures changes == MatchCount(old(clients), HasKey(key))
      ensures changes == |old(clients)| - |clients|
      ensures changes == 0 ==> clients == old(clients)
      ensures commands == old(commands) && clientSeq == old(clientSeq) && commandSeq == old(commandSeq)
      ensures issuedClientIds == old(issuedClientIds) && issuedCommandIds == old(issuedCommandIds)
    {
      var before := clients;
      clients := DeleteWhere(clients, HasKey(key));
      DeleteWhereChanges(before, HasKey(key));
      DeleteWhereKeepsOrder(before, HasKey(key));
      DeleteWhereKeepsIdsIncreasing(before, HasKey(key), ClientId);
      changes := |before| - |clients|;
      if changes == 0 {
        DeleteWhereNothingMatches(before, HasKey(key));
      }
    }

    /**
     * `POST /addclient`: generate a 16-character key from `indices` (the
     * alphabet positions `genkey` draws) and insert a client row holding it.
     */
    method AddClient(indices: seq<nat>) returns (reply: AddClientReply)
      requires Valid()
      requires |indices| == DefaultLength && AllPositions(indices)
      modifies this
      ensures Valid()
      ensures reply.key == GenKey(indices)
      ensures |reply.key| == DefaultLength && OverAlphabet(reply.key)
      ensures reply.index == old(clientSeq) + 1
      ensures reply.index !in old(issuedClientIds)
      ensures forall id :: id in old(issuedClientIds) ==> id < reply.index
      ensures clients == old(clients) + [Client(reply.index, reply.key)]
      ensures clientSeq == reply.index && issuedClientIds == old(issuedClientIds) + {reply.index}
      ensures commands == old(commands) && commandSeq == old(commandSeq)
      ensures issuedCommandIds == old(issuedCommandIds)
    {
      var key := GenKey(indices);
      var lastID := InsertClient(key);
      reply := AddClientReply(lastID, key);
    }

    /** `GET /clients`: every client row. There is no `ORDER BY`, so no order is promised. */
    method ListClients() returns (rows: seq<Client>)
      ensures multiset(rows) == multiset(clients)
    {
      rows := clients;
    }

    /**
     * `POST /removeclient`: a falsy `key` is rejected before anything changes.
     * Otherwise the commands issued with the key are deleted first, whatever
     * happens next; then every client holding the key is deleted, and the
     * answer is 404 when there was none.
     */
    method RemoveClient(key: Option<string>) returns (r: Result<string>)
      requires Valid()
      modifies this
      ensures Valid()
      ensures clientSeq == old(clientSeq) && commandSeq == old(commandSeq)
      ensures issuedClientIds == old(issuedClientIds) && issuedCommandIds == old(issuedCommandIds)
      ensures !Truthy(key) ==> r == Err(NoClientKey)
      ensures r.Err? ==> r.error.Status() == (if Truthy(key) then 404 else 400)
      ensures !Truthy(key) ==> clients == old(clients) && commands == old(commands)
      ensures Truthy(key) ==> commands == DeleteWhere(old(commands), IssuedWithKey(key.value))
      ensures Truthy(key) ==> clients == DeleteWhere(old(clients), HasKey(key.value))
      ensures Truthy(key) ==> IsSubsequence(commands, old(commands)) && IsSubsequence(clients, old(clients))
      ensures r == Err(ClientNotFound) <==>
                Truthy(key) && forall i :: 0 <= i < |old(clients)| ==> old(clients)[i].key != key.value
      ensures r == Err(ClientNotFound) ==> clients == old(clients)
      ensures r.Ok? <==> Truthy(key) && exists i :: 0 <= i < |old(clients)| && old(clients)[i].key == key.value
      ensures r.Ok? ==> r.value == RemovedMessage(key.value)
    {
      if !Truthy(key) {
        return Err(NoClientKey);
      }
      var k := key.value;
      var _ := DeleteCommandsWithKey(k);
      var changes := DeleteClientsWithKey(k);
      if changes == 0 {
        return Err(ClientNotFound);
      }
      r := Ok(RemovedMessage(k));
    }

    /**
     * `POST /joinroom`: a falsy `room` or `target` is rejected before anything
     * changes; otherwise one `joinroom` command is appended, with a falsy
     * `clientKey` stored as NULL, and its new id is the answer's `commandID`.
     */
    method JoinRoom(room: Option<string>, target: Option<string>, clientKey: Option<string>)
      returns (r: Result<nat>)
      requires Valid()
      modifies this
      ensures Valid()
      ensures clients == old(clients) && clientSeq == old(clientSeq)
      ensures issuedClientIds == old(issuedClientIds)
      ensures r.Ok? <==> Truthy(room) && Truthy(target)
      ensures r.Err? ==> r.error == InvalidParams && r.error.Status() == 400
      ensures r.Err? ==> commands == old(commands) && commandSeq == old(commandSeq)
      ensures r.Err? ==> issuedCommandIds == old(issuedCommandIds)
      ensures r.Ok? ==> r.value == old(commandSeq) + 1 && r.value !in old(issuedCommandIds)
      ensures r.Ok? ==> forall id :: id in old(issuedCommandIds) ==> id < r.value
      ensures r.Ok? ==>
                commands == old(commands) + [Command(r.value, JoinRoomCommand, target.value, OrNull(clientKey), room.value)]
      ensures r.Ok? ==> commandSeq == r.value && issuedCommandIds == old(issuedCommandIds) + {r.value}
    {
      if !Truthy(room) || !Truthy(target) {
        return Err(InvalidParams);
      }
      var lastID := InsertCommand(JoinRoomCommand, target.value, OrNull(clientKey), room.value);
      r := Ok(lastID);
    }

    /**
     * `GET /commands`: `SELECT * FROM commands ORDER BY id DESC LIMIT 1`, the
     * row with the largest id; `None` is the empty object `{}`.
     */
    method LatestCommand() returns (row: Option<Command>)
      requires Valid()
      ensures row.None? <==> commands == []
      ensures row.Some? ==> row.value in commands
      ensures row.Some? ==> forall i :: 0 <= i < |commands| ==> commands[i].id <= row.value.id
    {
      if |commands| == 0 {
        return None;
      }
      row := Some(commands[|commands| - 1]);
      assert forall i :: 0 <= i < |commands| - 1 ==> CommandId(commands[i]) < CommandId(commands[|commands| - 1]);
    }
  }
}
