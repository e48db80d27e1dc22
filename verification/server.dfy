/**
 * The relay's process-wide state and its request handlers.
 *
 * One `ChatServer` holds the four maps the handlers share and update in place:
 * messageHistory, channelCodes, channelAccess and onlineUsers. Each handler runs
 * to completion before the next starts, so each is a method on the object.
 * Missing or empty request fields arrive as "" (the source tests them with `!x`);
 * values drawn from the clock or the random source arrive as parameters.
 */
module Server {
  import opened Identifiers
  import opened AccessRegistry
  import opened Presence
  import opened History

  /** A handler's answer: its success payload, or the HTTP error it replies with. */
  datatype Response<T> = Ok(value: T) | BadRequest | NotFound | Forbidden

  datatype Created = Created(channelCode: string, channelId: ChannelName)
  datatype Joined = Joined(channelId: ChannelName, creatorName: string, members: seq<UserId>)
  datatype Info = Info(channelId: ChannelName, creatorName: string, memberCount: nat, createdAt: string)
  datatype Sent = Sent(messageId: string, timestamp: string)
  datatype MessagesView = MessagesView(messages: seq<Message>, total: nat)

  /** The message a send stores: absent sender fields fall back to the anonymous stand-ins. */
  function NewMessage(data: string, userId: UserId, userName: string, ts: string, id: string, timestamp: string): (m: Message)
    ensures m.data == data && m.ts == ts && m.id == id && m.timestamp == timestamp
    ensures m.from == m.userId && m.userId != "" && m.userName != ""
    ensures userId != "" ==> m.userId == userId
    ensures userId == "" ==> m.userId == AnonymousId
    ensures userName != "" ==> m.userName == userName
    ensures userName == "" ==> m.userName == AnonymousName
  {
    var sender := if userId == "" then AnonymousId else userId;
    Message(data, sender, ts, id, sender, if userName == "" then AnonymousName else userName, timestamp)
  }

  class ChatServer {
    var messageHistory: Log
    var channelCodes: map<string, ChannelRecord>
    var channelAccess: Access
    var onlineUsers: Online

    /**
     * What every handler preserves: each stored channel record is well formed
     * (creator first, no duplicate members, every member granted access); the
     * empty user id is never granted; each channel's presence lists a user at
     * most once; no channel keeps more than 100 messages.
     */
    ghost predicate Valid()
      reads this
    {
      && (forall code | code in channelCodes :: WellFormed(channelCodes[code], channelAccess))
      && (forall c | c in channelAccess :: "" !in channelAccess[c])
      && (forall c | c in onlineUsers :: UniqueKeys(onlineUsers[c]))
      && (forall c | c in messageHistory :: |messageHistory[c]| <= Capacity)
    }

    /** The state at process start: all four maps empty. */
    constructor ()
      ensures Valid()
      ensures messageHistory == map[] && channelCodes == map[]
      ensures channelAccess == map[] && onlineUsers == map[]
    {
      messageHistory := map[];
      channelCodes := map[];
      channelAccess := map[];
      onlineUsers := map[];
    }

    /** hasChannelAccess over the current access map. */
    predicate HasChannelAccess(channelName: ChannelName, userId: UserId)
      reads this
      ensures channelName !in channelAccess ==> !HasChannelAccess(channelName, userId)
      ensures Valid() && userId == "" ==> !HasChannelAccess(channelName, userId)
    {
      HasAccess(channelAccess, channelName, userId)
    }

    /** grantChannelAccess: only the access map changes, by exactly one grant. */
    method GrantChannelAccess(channelName: ChannelName, userId: UserId)
      modifies this
      ensures channelAccess == Grant(old(channelAccess), channelName, userId)
      ensures HasChannelAccess(channelName, userId)
      ensures messageHistory == old(messageHistory) && channelCodes == old(channelCodes)
      ensures onlineUsers == old(onlineUsers)
    {
      if channelName !in channelAccess {
        channelAccess := channelAccess[channelName := {}];
      }
      channelAccess := channelAccess[channelName := channelAccess[channelName] + {userId}];
    }

    /** addOnlineUser: insert or overwrite the one (channel, user) entry. */
    method AddOnlineUser(channelName: string, userId: UserId, userName: string, lastSeen: string)
      modifies this
      ensures onlineUsers == MarkOnline(old(onlineUsers), channelName, Entry(userId, userName, lastSeen))
      ensures messageHistory == old(messageHistory) && channelCodes == old(channelCodes)
      ensures channelAccess == old(channelAccess)
    {
      if channelName !in onlineUsers {
        onlineUsers := onlineUsers[channelName := []];
      }
      onlineUsers := onlineUsers[channelName := Put(onlineUsers[channelName], Entry(userId, userName, lastSeen))];
    }

    /** removeOnlineUser: delete the one (channel, user) entry if it is there. */
    method RemoveOnlineUser(channelName: string, userId: UserId)
      modifies this
      ensures onlineUsers == MarkOffline(old(onlineUsers), channelName, userId)
      ensures messageHistory == old(messageHistory) && channelCodes == old(channelCodes)
      ensures channelAccess == old(channelAccess)
    {
      if channelName in onlineUsers {
        onlineUsers := onlineUsers[channelName := Delete(onlineUsers[channelName], userId)];
      }
    }

    /** getOnlineUsers: the channel's entries in insertion order, one per user. */
    function GetOnlineUsers(channelName: string): (users: seq<Entry>)
      reads this
      requires Valid()
      ensures users == EntriesOf(onlineUsers, channelName)
      ensures channelName !in onlineUsers ==> users == []
      ensures UniqueKeys(users)
    {
      EntriesOf(onlineUsers, channelName)
    }

    /**
     * POST /create-channel. Without both fields nothing changes. Otherwise the
     * record, with the creator as sole member, is stored under the drawn code
     * (replacing whatever was there) and the creator is granted the new channel.
     */
    method CreateChannel(userId: UserId, userName: string, codeDraw: nat, nowMillis: nat, randomPart: string, createdAt: string)
      returns (r: Response<Created>)
      requires Valid()
      requires codeDraw < CodeSpan
      modifies this
      ensures Valid()
      ensures messageHistory == old(messageHistory) && onlineUsers == old(onlineUsers)
      ensures userId == "" || userName == "" ==>
        r == BadRequest && channelCodes == old(channelCodes) && channelAccess == old(channelAccess)
      ensures userId != "" && userName != "" ==>
        var code, id := InviteCode(codeDraw), ChannelId(nowMillis, randomPart);
        && r == Ok(Created(code, id))
        && channelCodes == old(channelCodes)[code := NewRecord(id, userId, userName, createdAt)]
        && channelAccess == Grant(old(channelAccess), id, userId)
      ensures r.Ok? ==> IsPrivate(r.value.channelId) && HasChannelAccess(r.value.channelId, userId)
    {
      if userId == "" || userName == "" {
        return BadRequest;
      }
      var channelCode := InviteCode(codeDraw);
      var channelId := ChannelId(nowMillis, randomPart);
      channelCodes := channelCodes[channelCode := NewRecord(channelId, userId, userName, createdAt)];
      ghost var before := channelAccess;
      GrantChannelAccess(channelId, userId);
      forall code | code in channelCodes && code != channelCode
        ensures WellFormed(channelCodes[code], channelAccess)
      {
        GrantKeepsWellFormed(channelCodes[code], before, channelId, userId);
      }
      r := Ok(Created(channelCode, channelId));
    }

    /**
     * POST /join-channel. Missing fields are refused before the lookup; an
     * unknown code answers NotFound; in both cases nothing changes. Otherwise
     * the joiner is granted the channel and appended to the members unless
     * already there, and the updated member list is returned.
     */
    method JoinChannel(channelCode: string, userId: UserId, userName: string) returns (r: Response<Joined>)
      requires Valid()
      modifies this
      ensures Valid()
      ensures messageHistory == old(messageHistory) && onlineUsers == old(onlineUsers)
      ensures channelCode == "" || userId == "" || userName == "" ==>
        r == BadRequest && channelCodes == old(channelCodes) && channelAccess == old(channelAccess)
      ensures channelCode != "" && userId != "" && userName != "" && channelCode !in old(channelCodes) ==>
        r == NotFound && channelCodes == old(channelCodes) && channelAccess == old(channelAccess)
      ensures channelCode != "" && userId != "" && userName != "" && channelCode in old(channelCodes) ==>
        var rec := old(channelCodes)[channelCode];
        var rec' := JoinedRecord(rec, userId);
        && channelCodes == old(channelCodes)[channelCode := rec']
        && channelAccess == Grant(old(channelAccess), rec.channelId, userId)
        && r == Ok(Joined(rec.channelId, rec.creatorName, rec'.members))
      ensures r.Ok? ==>
        && HasChannelAccess(r.value.channelId, userId)
        && userId in r.value.members
        && NoDuplicates(r.value.members)
        && r.value.members[0] == old(channelCodes)[channelCode].creatorId
    {
      if channelCode == "" || userId == "" || userName == "" {
        return BadRequest;
      }
      if channelCode !in channelCodes {
        return NotFound;
      }
      var channelInfo := channelCodes[channelCode];
      ghost var before := channelAccess;
      GrantChannelAccess(channelInfo.channelId, userId);
      if userId !in channelInfo.members {
        channelInfo := channelInfo.(members := channelInfo.members + [userId]);
      }
      channelCodes := channelCodes[channelCode := channelInfo];
      JoinKeepsWellFormed(old(channelCodes)[channelCode], before, userId);
      forall code | code in channelCodes && code != channelCode
        ensures WellFormed(channelCodes[code], channelAccess)
      {
        GrantKeepsWellFormed(channelCodes[code], before, channelInfo.channelId, userId);
      }
      r := Ok(Joined(channelInfo.channelId, channelInfo.creatorName, channelInfo.members));
    }

    /**
     * GET /channel-info/:code: read-only and open to anyone. An unknown code is
     * NotFound; a known one reports at least one member, the creator.
     */
    function ChannelInfo(code: string): (r: Response<Info>)
      reads this
      requires Valid()
      ensures r.Ok? || r.NotFound?
      ensures r.NotFound? <==> code !in channelCodes
      ensures r.Ok? ==> r.value.memberCount >= 1
      ensures r.Ok? ==>
        var rec := channelCodes[code];
        && r.value.channelId == rec.channelId && r.value.creatorName == rec.creatorName
        && r.value.memberCount == |rec.members| && r.value.createdAt == rec.createdAt
    {
      if code !in channelCodes then NotFound
      else
        var rec := channelCodes[code];
        Ok(Info(rec.channelId, rec.creatorName, |rec.members|, rec.createdAt))
    }

    /**
     * POST /pusher/auth, the access rule only. A private channel needs a user id
     * holding a grant, and an accepted subscriber is marked online; any other
     * channel is accepted without a check and without touching presence.
     */
    method Authenticate(socketId: string, channelName: string, userId: UserId, userName: string, lastSeen: string)
      returns (r: Response<()>)
      requires Valid()
      modifies this
      ensures Valid()
      ensures messageHistory == old(messageHistory) && channelCodes == old(channelCodes)
      ensures channelAccess == old(channelAccess)
      ensures socketId == "" || channelName == "" ==> r == BadRequest && onlineUsers == old(onlineUsers)
      ensures socketId != "" && channelName != "" && !IsPrivate(channelName) ==>
        r == Ok(()) && onlineUsers == old(onlineUsers)
      ensures socketId != "" && channelName != "" && IsPrivate(channelName) && userId == "" ==>
        r == BadRequest && onlineUsers == old(onlineUsers)
      ensures socketId != "" && channelName != "" && IsPrivate(channelName) && userId != "" ==>
        if HasChannelAccess(channelName, userId)
        then r == Ok(()) && onlineUsers == MarkOnline(old(onlineUsers), channelName, Entry(userId, userName, lastSeen))
        else r == Forbidden && onlineUsers == old(onlineUsers)
      ensures r.Ok? && IsPrivate(channelName) ==> HasChannelAccess(channelName, userId)
    {
      if socketId == "" || channelName == "" {
        return BadRequest;
      }
      if IsPrivate(channelName) {
        if userId == "" {
          return BadRequest;
        }
        if !HasChannelAccess(channelName, userId) {
          return Forbidden;
        }
        AddOnlineUser(channelName, userId, userName, lastSeen);
      }
      r := Ok(());
    }

    /**
     * The history update of a send: create the channel's list when missing, push
     * the message, and cut the list back to its newest 100. Only the history changes.
     */
    method StoreMessage(channel: string, messageData: Message)
      modifies this
      ensures messageHistory == Record(old(messageHistory), channel, messageData)
      ensures channelCodes == old(channelCodes) && channelAccess == old(channelAccess)
      ensures onlineUsers == old(onlineUsers)
    {
      ghost var stored := StoredOf(messageHistory, channel);
      if channel !in messageHistory {
        messageHistory := messageHistory[channel := []];
      }
      messageHistory := messageHistory[channel := messageHistory[channel] + [messageData]];
      var channelMessages := messageHistory[channel];
      if |channelMessages| > Capacity {
        messageHistory := messageHistory[channel := channelMessages[|channelMessages| - Capacity..]];
      }
      assert channelMessages == stored + [messageData];
    }

    /**
     * POST /send-message. Missing channel, event or data is refused; on a
     * private channel a sender without a grant is refused; both leave the
     * history as it was. Otherwise the message is appended to the channel's
     * history, which is cut back to its newest 100.
     */
    method SendMessage(channel: string, event: string, data: string, userId: UserId, userName: string,
                       ts: string, id: string, timestamp: string)
      returns (r: Response<Sent>)
      requires Valid()
      modifies this
      ensures Valid()
      ensures channelCodes == old(channelCodes) && channelAccess == old(channelAccess)
      ensures onlineUsers == old(onlineUsers)
      ensures r.Ok? <==> channel != "" && event != "" && data != "" && (IsPrivate(channel) ==> HasChannelAccess(channel, userId))
      ensures channel == "" || event == "" || data == "" ==> r == BadRequest
      ensures channel != "" && event != "" && data != "" && IsPrivate(channel) && !HasChannelAccess(channel, userId) ==>
        r == Forbidden
      ensures !r.Ok? ==> messageHistory == old(messageHistory)
      ensures r.Ok? ==>
        && r == Ok(Sent(id, timestamp))
        && messageHistory == Record(old(messageHistory), channel, NewMessage(data, userId, userName, ts, id, timestamp))
      ensures IsPrivate(channel) && userId == "" ==> !r.Ok?
    {
      if channel == "" || event == "" || data == "" {
        return BadRequest;
      }
      if IsPrivate(channel) {
        if !HasChannelAccess(channel, userId) {
          return Forbidden;
        }
      }
      var messageData := NewMessage(data, userId, userName, ts, id, timestamp);
      StoreMessage(channel, messageData);
      RecordKeepsCapacity(old(messageHistory), channel, messageData);
      r := Ok(Sent(id, timestamp));
    }

    /**
     * GET /messages/:channelName with the parsed limit: the newest messages up
     * to the limit, oldest first, and the number stored; an unknown channel
     * reads as empty.
     */
    function GetMessages(channelName: string, limit: int): (v: MessagesView)
      reads this
      requires Valid()
      ensures v.total == |StoredOf(messageHistory, channelName)| && v.total <= Capacity
      ensures channelName !in messageHistory ==> v.messages == [] && v.total == 0
      ensures IsSuffix(v.messages, StoredOf(messageHistory, channelName))
      ensures limit > 0 ==> |v.messages| == Min(limit, v.total)
      ensures limit == 0 ==> v.messages == StoredOf(messageHistory, channelName)
    {
      var messages := StoredOf(messageHistory, channelName);
      MessagesView(Recent(messages, limit), |messages|)
    }

    /** POST /user-heartbeat: needs channel and user id; then marks the user online. */
    method Heartbeat(channel: string, userId: UserId, userName: string, lastSeen: string) returns (r: Response<()>)
      requires Valid()
      modifies this
      ensures Valid()
      ensures messageHistory == old(messageHistory) && channelCodes == old(channelCodes)
      ensures channelAccess == old(channelAccess)
      ensures channel == "" || userId == "" ==> r == BadRequest && onlineUsers == old(onlineUsers)
      ensures channel != "" && userId != "" ==>
        r == Ok(()) && onlineUsers == MarkOnline(old(onlineUsers), channel, Entry(userId, userName, lastSeen))
    {
      if channel == "" || userId == "" {
        return BadRequest;
      }
      AddOnlineUser(channel, userId, userName, lastSeen);
      r := Ok(());
    }

    /** POST /user-disconnect: needs channel and user id; then removes the user's entry, if any. */
    method Disconnect(channel: string, userId: UserId) returns (r: Response<()>)
      requires Valid()
      modifies this
      ensures Valid()
      ensures messageHistory == old(messageHistory) && channelCodes == old(channelCodes)
      ensures channelAccess == old(channelAccess)
      ensures channel == "" || userId == "" ==> r == BadRequest && onlineUsers == old(onlineUsers)
      ensures channel != "" && userId != "" ==>
        r == Ok(()) && onlineUsers == MarkOffline(old(onlineUsers), channel, userId)
    {
      if channel == "" || userId == "" {
        return BadRequest;
      }
      RemoveOnlineUser(channel, userId);
      r := Ok(());
    }
  }
}
