/**
 * Handler sequences on a fresh server, proved from the handlers' contracts alone.
 */
module Scenarios {
  import opened Identifiers
  import opened AccessRegistry
  import opened Presence
  import opened History
  import opened Server

  /**
   * "u1" (Alice) creates a channel and "u2" (Bob) joins with the code: the
   * member list is ["u1", "u2"], the channel is private and "u3" holds no grant.
   */
  method CreateAndJoin(codeDraw: nat, nowMillis: nat, randomPart: string, createdAt: string)
    returns (server: ChatServer, channelId: ChannelName, joined: Response<Joined>)
    requires codeDraw < CodeSpan
    ensures fresh(server) && server.Valid()
    ensures joined.Ok? && joined.value.members == ["u1", "u2"] && joined.value.channelId == channelId
    ensures channelId != "" && IsPrivate(channelId)
    ensures server.HasChannelAccess(channelId, "u2") && !server.HasChannelAccess(channelId, "u3")
    ensures server.messageHistory == map[]
  {
    server := new ChatServer();
    var created := server.CreateChannel("u1", "Alice", codeDraw, nowMillis, randomPart, createdAt);
    channelId := created.value.channelId;
    var code := created.value.channelCode;
    assert code in server.channelCodes && server.channelCodes[code].members == ["u1"];
    joined := server.JoinChannel(code, "u2", "Bob");
    assert "u2" !in ["u1"];
    assert joined.value.members == ["u1"] + ["u2"];
    assert "u3" != "u1" && "u3" != "u2";
  }

  /**
   * On the channel above, a send by "u3" is refused and leaves the history
   * empty, while a send by the member "u2" is stored.
   */
  method InviteScenario(codeDraw: nat, nowMillis: nat, randomPart: string, createdAt: string, ts: string, id: string)
    returns (joined: Response<Joined>, outsider: Response<Sent>, afterOutsider: seq<Message>, member: Response<Sent>)
    requires codeDraw < CodeSpan
    ensures joined.Ok? && joined.value.members == ["u1", "u2"]
    ensures outsider == Forbidden && afterOutsider == []
    ensures member == Ok(Sent(id, ts))
  {
    var server, channelId;
    server, channelId, joined := CreateAndJoin(codeDraw, nowMillis, randomPart, createdAt);
    outsider := server.SendMessage(channelId, "message", "hello", "u3", "Carol", ts, id, ts);
    assert server.messageHistory == map[];
    afterOutsider := server.GetMessages(channelId, 50).messages;
    member := server.SendMessage(channelId, "message", "hello", "u2", "Bob", ts, id, ts);
  }

  /**
   * A heartbeat followed by a disconnect leaves the user off the channel's
   * listing, and disconnecting a user who was never online succeeds and
   * changes nothing.
   */
  method PresenceScenario(channel: string, lastSeen: string)
    returns (afterDisconnect: seq<Entry>, stray: Response<()>, afterStray: seq<Entry>)
    requires channel != ""
    ensures Absent(afterDisconnect, "u1")
    ensures stray == Ok(()) && afterStray == afterDisconnect
  {
    var server := new ChatServer();
    var _ := server.Heartbeat(channel, "u1", "Alice", lastSeen);
    var _ := server.Heartbeat(channel, "u2", "Bob", lastSeen);
    var _ := server.Disconnect(channel, "u1");
    afterDisconnect := server.GetOnlineUsers(channel);
    stray := server.Disconnect(channel, "u9");
    afterStray := server.GetOnlineUsers(channel);
  }
}
