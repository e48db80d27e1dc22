/**
 * The access registry's value-level vocabulary: channel records kept under an
 * invite code, the access relation (channel -> set of user ids) and the
 * operations on them that the server's handlers perform.
 */
module AccessRegistry {

  type UserId = string
  type ChannelName = string

  /** channelAccess: for each channel, the user ids granted access to it. */
  type Access = map<ChannelName, set<UserId>>

  /** What the server stores under an invite code. */
  datatype ChannelRecord = ChannelRecord(
    channelId: ChannelName,
    creatorId: UserId,
    creatorName: string,
    createdAt: string,
    members: seq<UserId>)

  /** hasChannelAccess: false when the channel has no access set or the user is not in it. */
  predicate HasAccess(access: Access, channel: ChannelName, user: UserId)
    ensures channel !in access ==> !HasAccess(access, channel, user)
    ensures channel in access ==> (HasAccess(access, channel, user) <==> user in access[channel])
  {
    channel in access && user in access[channel]
  }

  /**
   * grantChannelAccess: create the channel's set when it is missing, then add the user.
   * The new relation is exactly the old one plus the one pair; other channels keep
   * their sets, and granting an existing grant changes nothing.
   */
  function Grant(access: Access, channel: ChannelName, user: UserId): (r: Access)
    ensures HasAccess(r, channel, user)
    ensures forall c, u :: HasAccess(r, c, u) <==> HasAccess(access, c, u) || (c == channel && u == user)
    ensures r.Keys == access.Keys + {channel}
    ensures forall c | c in access && c != channel :: r[c] == access[c]
    ensures HasAccess(access, channel, user) ==> r == access
  {
    var existing := if channel in access then access[channel] else {};
    var r := access[channel := existing + {user}];
    assert HasAccess(access, channel, user) ==> existing + {user} == existing;
    r
  }

  predicate NoDuplicates(s: seq<UserId>) {
    forall i, j | 0 <= i < j < |s| :: s[i] != s[j]
  }

  /**
   * The membership update of a join: the user is pushed at the end unless the
   * list already includes it. Earlier members keep their places, so the list
   * still starts with whoever was first, and it stays free of duplicates.
   */
  function AddMember(members: seq<UserId>, user: UserId): (r: seq<UserId>)
    ensures user in r
    ensures forall x :: x in r <==> x in members || x == user
    ensures |members| <= |r| <= |members| + 1 && r[..|members|] == members
    ensures user in members ==> r == members
    ensures NoDuplicates(members) ==> NoDuplicates(r)
  {
    if user in members then members else members + [user]
  }

  /**
   * The invariant every stored record keeps: the creator heads a duplicate-free
   * member list, and every member may access the record's channel.
   */
  predicate WellFormed(rec: ChannelRecord, access: Access) {
    && rec.members != []
    && rec.members[0] == rec.creatorId
    && NoDuplicates(rec.members)
    && forall m | m in rec.members :: HasAccess(access, rec.channelId, m)
  }

  /** The record a successful create stores. */
  function NewRecord(channelId: ChannelName, creatorId: UserId, creatorName: string, createdAt: string): (rec: ChannelRecord)
    ensures WellFormed(rec, Grant(map[], channelId, creatorId))
    ensures rec.members == [creatorId] && rec.channelId == channelId
    ensures rec.creatorId == creatorId && rec.creatorName == creatorName && rec.createdAt == createdAt
  {
    ChannelRecord(channelId, creatorId, creatorName, createdAt, [creatorId])
  }

  /** The record after a successful join by `user`. */
  function JoinedRecord(rec: ChannelRecord, user: UserId): (r: ChannelRecord)
    ensures r.channelId == rec.channelId && r.creatorId == rec.creatorId
    ensures r.creatorName == rec.creatorName && r.createdAt == rec.createdAt
    ensures r.members == AddMember(rec.members, user)
    ensures user in r.members
  {
    rec.(members := AddMember(rec.members, user))
  }

  /** Grants are never revoked: a record well formed under `access` stays so under any grant. */
  lemma GrantKeepsWellFormed(rec: ChannelRecord, access: Access, channel: ChannelName, user: UserId)
    requires WellFormed(rec, access)
    ensures WellFormed(rec, Grant(access, channel, user))
  {
  }

  /** A join keeps the record well formed once the joiner has been granted access. */
  lemma JoinKeepsWellFormed(rec: ChannelRecord, access: Access, user: UserId)
    requires WellFormed(rec, access)
    ensures WellFormed(JoinedRecord(rec, user), Grant(access, rec.channelId, user))
    ensures JoinedRecord(rec, user).members[0] == rec.creatorId
  {
  }

  /** Joining twice is the same as joining once: the user appears in the list exactly once. */
  lemma JoinTwice(rec: ChannelRecord, user: UserId)
    ensures JoinedRecord(JoinedRecord(rec, user), user) == JoinedRecord(rec, user)
  {
  }
}
