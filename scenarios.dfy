/**
 * Request sequences against a fresh registry, whose outcomes follow from the
 * handlers' contracts alone.
 */
module Scenarios {
  import opened KeyGen
  import opened Relay

  /**
   * Add a client, submit a join-room command with its key, read it back,
   * remove the client, and read the command log again: the only command went
   * with the client.
   */
  method ClientLifecycle(indices: seq<nat>)
    returns (added: AddClientReply, joined: Result<nat>, before: Option<Command>,
             removed: Result<string>, after: Option<Command>)
    requires |indices| == DefaultLength && AllPositions(indices)
    ensures added == AddClientReply(1, GenKey(indices))
    ensures joined == Ok(1)
    ensures before == Some(Command(1, JoinRoomCommand, "peerA", Some(added.key), "lobby"))
    ensures removed == Ok(RemovedMessage(added.key))
    ensures after == None
  {
    var registry := new Registry();
    added := registry.AddClient(indices);
    joined := registry.JoinRoom(Some("lobby"), Some("peerA"), Some(added.key));
    before := registry.LatestCommand();
    assert registry.clients[0].key == added.key;
    removed := registry.RemoveClient(Some(added.key));
    after := registry.LatestCommand();
  }

  /**
   * A command may carry a key no client ever had, and removing that key
   * answers 404 although the command has already been deleted.
   */
  method CascadeBeforeNotFound() returns (joined: Result<nat>, removed: Result<string>, after: Option<Command>)
    ensures joined == Ok(1)
    ensures removed == Err(ClientNotFound)
    ensures after == None
  {
    var registry := new Registry();
    joined := registry.JoinRoom(Some("lobby"), Some("peerA"), Some("orphan"));
    removed := registry.RemoveClient(Some("orphan"));
    after := registry.LatestCommand();
  }

  /**
   * Of two valid submissions the second is the latest command; a rejected
   * submission and a falsy client key leave the latest command as it was.
   */
  method LatestIsLastAccepted() returns (first: Option<Command>, second: Option<Command>, third: Option<Command>)
    ensures first == Some(Command(1, JoinRoomCommand, "peerA", None, "lobby"))
    ensures second == Some(Command(2, JoinRoomCommand, "peerB", Some("k"), "hall"))
    ensures third == second
  {
    var registry := new Registry();
    var _ := registry.JoinRoom(Some("lobby"), Some("peerA"), Some(""));
    first := registry.LatestCommand();
    var _ := registry.JoinRoom(Some("hall"), Some("peerB"), Some("k"));
    assert |registry.commands| == 2 && registry.commands[1].id == 2;
    second := registry.LatestCommand();
    var rejected := registry.JoinRoom(None, Some("peerC"), Some("k"));
    assert rejected == Err(InvalidParams);
    third := registry.LatestCommand();
  }

  /** Removing a client keeps its id retired: the next client gets a larger one. */
  method IdsAreNeverReused(first: seq<nat>, second: seq<nat>) returns (a: AddClientReply, b: AddClientReply)
    requires |first| == DefaultLength && AllPositions(first)
    requires |second| == DefaultLength && AllPositions(second)
    ensures a.index == 1 && b.index == 2
  {
    var registry := new Registry();
    a := registry.AddClient(first);
    var _ := registry.RemoveClient(Some(a.key));
    b := registry.AddClient(second);
  }
}
