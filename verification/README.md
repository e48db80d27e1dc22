# Chat relay: access registry, presence tracker and message history

A Dafny model of the in-memory bookkeeping of a small chat relay (an Express
server in `index.js` that hands actual delivery to the Pusher pub/sub
network). The server keeps four process-wide maps and updates them in place:

- `channelCodes`: invite code -> channel record (channel id, creator id and
  name, creation time, ordered member list);
- `channelAccess`: channel -> set of user ids granted access;
- `onlineUsers`: channel -> JavaScript `Map` from user id to presence entry;
- `messageHistory`: channel -> messages in arrival order, at most 100.

The model is one class, `Server.ChatServer`, with these four fields and one
method per handler (create-channel, join-channel, the access rule of the Pusher
subscription handshake, send-message, heartbeat, disconnect) plus the helpers
`grantChannelAccess`, `addOnlineUser` and `removeOnlineUser`. The read-only
handlers (channel-info, messages, online-users) are functions over the object.
Each state-changing method states its entire new state in terms of pure
functions of the old one, kept in four modules:

- `Identifiers`: invite codes (six decimal digits drawn from 100000-999999),
  generated channel ids (`private-channel-<millis>-<random>`) and the rule that
  names starting with `private-` are access-controlled;
- `AccessRegistry`: channel records, `HasAccess`, `Grant`, the join's member
  update and the record invariant (creator first, no duplicates, every member
  granted);
- `Presence`: a channel's presence as a JavaScript `Map` (insertion-ordered
  entries, one per user id), with `set`, `delete` and `get`;
- `History`: the 100-message cap (push, then cut from the front), `slice(-limit)`
  and lemmas about runs of sends.

`ChatServer.Valid()` is the invariant every handler keeps: each stored record is
well formed, the empty user id is never granted, presence lists each user at
most once per channel, and no channel holds more than 100 messages.

Conventions. A request field that is missing or empty is the empty string
(the source tests fields with `!x`). Values the source takes from the clock or
from `Math.random` are parameters: the invite-code draw (an integer below
900000, added to 100000), the millisecond clock and random suffix of a channel
id, the ISO timestamps, and the message id. Nothing is claimed about their
uniqueness: a create whose code is already in use replaces that code's record,
as `channelCodes.set` does, and the replaced channel's grants stay.
The `limit` of GET /messages is the already-parsed integer; a caller passes 50
when the query has none.

## Model

| member | source | states |
|---|---|---|
| Identifiers.Decimal | index.js:20 | the rendering of a non-negative integer is non-empty, all decimal digits, has no leading zero for a positive number, and reads back as the number it renders |
| Identifiers.DecimalLength | index.js:20 | a number with k+1 decimal digits renders as a string of length k+1 |
| Identifiers.InviteCode | index.js:18-21 | every generated invite code is exactly six decimal digits with no leading zero, and denotes 100000 plus the draw |
| Identifiers.PrivateByPrefix | index.js:228 | a name is private exactly when it is `private-` followed by something; any name built on that prefix is private, and appending to a private name keeps it private |
| Identifiers.ChannelId | index.js:23-26 | every generated channel id starts with `private-channel-`, so it falls under the private-channel access rule |
| AccessRegistry.HasAccess | index.js:28-31 | a channel without an access set grants nobody; otherwise access holds exactly for the user ids in the channel's set |
| AccessRegistry.Grant | index.js:28-38 | after a grant the user has access; access afterwards holds for exactly the old pairs plus the new one; other channels keep their sets; granting an existing grant changes nothing |
| AccessRegistry.AddMember | index.js:152-154 | the joiner is in the list, nothing else is added, earlier members keep their places, a present user leaves the list unchanged, and a duplicate-free list stays duplicate-free |
| AccessRegistry.NewRecord | index.js:101-110 | a new record stores the channel id, the creator's id and name and the creation time as given, has the creator as its only member, and is well formed once the creator is granted its channel |
| AccessRegistry.JoinedRecord | index.js:149-154 | a join changes only the member list, which becomes `AddMember` of the old list (push the joiner unless already present) and so contains the joiner |
| AccessRegistry.GrantKeepsWellFormed | index.js:33-38 | grants are never revoked, so a well-formed record stays well formed under any grant |
| AccessRegistry.JoinKeepsWellFormed | index.js:149-154 | after a join the record is still well formed and still starts with its creator |
| AccessRegistry.JoinTwice | index.js:152-154 | joining twice leaves the same record as joining once |
| Presence.Lookup | index.js:15 | a found entry carries the requested user id; nothing is found exactly when no entry has that id |
| Presence.LookupFindsFirst | index.js:15 | what `get` finds is an entry stored in the map, the first one under the requested id |
| Presence.Put | index.js:44-48 | after `set` the user's entry is the new one, every other user's entry is unchanged, ids stay unique, and the map grows by one exactly when the user was absent |
| Presence.Delete | index.js:53 | after `delete` the user is absent, every other user's entry is unchanged, ids stay unique, and deleting an absent user is a no-op |
| Presence.PutOverwritesInPlace | index.js:44-48 | overwriting a present user replaces its entry at the same position, so listing order is kept |
| Presence.PutAppendsNew | index.js:44-48 | a user not yet present is added at the end of the listing |
| Presence.DeleteRemovesInPlace | index.js:53 | deleting a present user removes just that position; the others keep their order |
| Presence.MarkOnline | index.js:40-49 | addOnlineUser inserts or overwrites exactly the one (channel, user) entry and touches no other channel |
| Presence.MarkOffline | index.js:51-55 | removeOnlineUser leaves the user absent from the channel, changes no other entry or channel, and is a no-op when the user or channel is unknown |
| Presence.OnlineThenOffline | index.js:40-55 | marking a user online then offline leaves the channel's listing without that user |
| History.Trim | index.js:308-312 | the cut keeps the newest min(length, 100) messages, as a suffix of the log |
| History.Append | index.js:303-312 | after a push and cut the log holds at most 100, ends with the new message, is a suffix of old log plus message, loses nothing below capacity and drops exactly the oldest at capacity |
| History.Recent | index.js:354-355 | `slice(-limit)` is a suffix of the log; a positive limit yields min(limit, length) messages, a limit of 0 the whole log, a negative one drops that many from the front |
| History.Record | index.js:302-312 | a send changes only its own channel's log, by one push-and-cut |
| History.RecordKeepsCapacity | index.js:302-312 | if every channel holds at most 100 messages, a send keeps it so |
| History.SuffixTrimsAlike | index.js:308-312 | a suffix at least as long as the kept part cuts to the same log |
| History.TrimConcat | index.js:308-312 | cutting before further pushes keeps the same messages as cutting once at the end |
| History.AppendAllIsTrim | index.js:303-312 | any run of sends leaves exactly the newest min(total, 100) messages in arrival order |
| History.KeepsLastHundred | index.js:308-312 | from an empty log, 100 or more sends leave exactly the last 100, and reading 100 returns them oldest first |
| History.EvictsOldestFirst | index.js:308-312 | after 101 sends a read of 100 or more returns 100 messages starting with the second sent, and a read of 1 returns only the newest |
| History.NewestAfterSend | index.js:355 | reading one message right after a send returns exactly that message |
| Server.NewMessage | index.js:292-300 | the stored message carries the payload, both timestamps and the id as given; `from` and `user_id` are the sender's id, or `anónimo` when it is missing; the name is the sender's, or `Anónimo`; neither is ever empty |
| Server.ChatServer.constructor | index.js:10-15 | the server starts with all four maps empty and its invariant holding |
| Server.ChatServer.GrantChannelAccess | index.js:33-38 | only the access map changes, to `Grant` of the old one, and the user then has access |
| Server.ChatServer.AddOnlineUser | index.js:40-49 | only the presence map changes, to `MarkOnline` of the old one |
| Server.ChatServer.RemoveOnlineUser | index.js:51-55 | only the presence map changes, to `MarkOffline` of the old one |
| Server.ChatServer.HasChannelAccess | index.js:28-31 | a channel without an access set grants nobody, and in a valid state the empty user id never has access |
| Server.ChatServer.GetOnlineUsers | index.js:57-62 | the listing is the channel's stored entries in insertion order (the entries `MarkOnline` and `MarkOffline` are stated over); an unknown channel lists nobody, and a listing names each user at most once |
| Server.ChatServer.CreateChannel | index.js:89-124 | missing user id or name is refused with no change; otherwise the record with members [creator] is stored under the code (replacing any earlier one), the creator is granted the new private channel, and the invariant is kept |
| Server.ChatServer.JoinChannel | index.js:127-169 | missing fields are refused and an unknown code is not found, both with no change; otherwise the joiner is granted access and appended only if absent, and the returned list is duplicate-free, contains the joiner and starts with the creator |
| Server.ChatServer.ChannelInfo | index.js:172-193 | an unknown code is not found; a known one reports the record's id, creator, creation time and member count, which is at least 1 |
| Server.ChatServer.Authenticate | index.js:218-252 | missing socket or channel is refused; a private channel needs a user id with a grant, otherwise 400 or 403 with no change; an accepted private subscriber is marked online; other channels pass unchecked and unchanged |
| Server.ChatServer.StoreMessage | index.js:302-312 | only the history changes, to `Record` of the old one: the channel's list is created when missing, the message pushed and the list cut to its newest 100 |
| Server.ChatServer.SendMessage | index.js:276-346 | a send succeeds exactly when channel, event and data are present and, on a private channel, the sender holds a grant; refusals leave the history unchanged; success pushes the message and cuts the channel's log to 100; with a missing id written as the empty string, which no handler grants, a sender without id never posts on a private channel (see the `String(undefined)` line under Left out) |
| Server.ChatServer.GetMessages | index.js:349-367 | the total is the number stored (at most 100, 0 for an unknown channel) and the messages are the newest up to the limit, oldest first |
| Server.ChatServer.Heartbeat | index.js:460-474 | missing channel or user id is refused with no change; otherwise the user is marked online |
| Server.ChatServer.Disconnect | index.js:477-492 | missing channel or user id is refused with no change; otherwise the user's entry is removed, and an unknown user is a successful no-op |
| Scenarios.CreateAndJoin | index.js:89-169 | after "u1" creates a channel and "u2" joins it, the members are ["u1", "u2"], the channel is private, "u2" has access and "u3" has none |
| Scenarios.InviteScenario | index.js:285-312 | on that channel a send by "u3" is refused and the history stays empty, while a send by "u2" succeeds |
| Scenarios.PresenceScenario | index.js:460-492 | a heartbeat then a disconnect leaves the user off the listing, and disconnecting a user never seen succeeds and changes nothing |

## Left out

- HTTP routing, body parsing, CORS, status codes and JSON shapes: a handler returns `Response<T>` (`Ok`, `BadRequest`, `NotFound`, `Forbidden`) instead.
- The `try`/`catch` branches answering 500. None of the modelled map operations can throw, but the Pusher calls can, and they run after the state has changed: `pusher.trigger` after the history push in /send-message, `pusher.authenticate` after `addOnlineUser` in /pusher/auth. A handler's `Ok` therefore means that the state was updated as stated, not that the HTTP answer was a success.
- The Pusher client (`pusher.authenticate`, `pusher.trigger`, `pusher.get`) and GET /channel/:channelName: foreign network calls whose behaviour is not visible. Authenticate returning `Ok` means the request is handed to the gateway for signing.
- The 500 answer of /pusher/auth when the Pusher credentials are not configured, the start-up environment check, GET /health and the /debug endpoints: configuration and readouts only.
- The webhook endpoint: HMAC-SHA256 over `JSON.stringify` needs a crypto library, and its event handling only logs.
- `Math.random`, `Date.now` and `new Date().toISOString()`: passed in as parameters; the floating-point message id `Date.now() + Math.random()` is an opaque string.
- Server.ChatServer.GetMessages: `parseInt` of the query string, including a limit that parses to NaN (which JavaScript reads as slice(0)), is not modelled; the function takes the parsed integer.
- Server.ChatServer.SendMessage: the payload `data` is one opaque value; the spread `...data` merging its own fields under the server-assigned ones is not modelled.
- Server.ChatServer.SendMessage: a send without `user_id` is checked in the source with the key `String(undefined)`, that is "undefined"; here it is the empty string, which no handler ever grants. So the model does not capture that, in the source, once a user who registered with the id "undefined" holds a grant, senders without an id may post on that private channel.
- User ids and invite codes are strings. The source stores `user_id` as sent in `members` but as `String(user_id)` in the access and presence maps, so a numeric id sent once as a number and once as a string would be two members in the source; a numeric `channelCode` in a join body would miss the string-keyed `channelCodes`.
- The GET /online-users response's `count` is the length of the listing that `GetOnlineUsers` returns and is not modelled separately.
- Logging (`console.log`, `console.error`) and `app.listen`.
- Concurrency: Node runs each handler to completion on one thread, so handlers are sequential method calls.
