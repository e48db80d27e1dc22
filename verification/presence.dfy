/**
 * The presence tracker's value-level vocabulary.
 *
 * Each channel's presence is a JavaScript Map from user id to entry. Such a map
 * remembers insertion order: `set` on a present key overwrites the entry where it
 * stands, `set` on a new key appends, `delete` removes the entry and `values()`
 * lists the entries in order. It is modelled as a sequence of entries with
 * pairwise distinct user ids.
 */
module Presence {
  import opened Wrappers

  datatype Entry = Entry(userId: string, userName: string, lastSeen: string)

  /** onlineUsers: channel -> that channel's entries. */
  type Online = map<string, seq<Entry>>

  predicate UniqueKeys(s: seq<Entry>) {
    forall i, j | 0 <= i < j < |s| :: s[i].userId != s[j].userId
  }

  predicate Absent(s: seq<Entry>, key: string) {
    forall i | 0 <= i < |s| :: s[i].userId != key
  }

  /** Map.get: the first entry stored under `key`. */
  function Lookup(s: seq<Entry>, key: string): (r: Option<Entry>)
    ensures r.Some? ==> r.value.userId == key
    ensures r.None? <==> Absent(s, key)
  {
    if s == [] then None
    else if s[0].userId == key then Some(s[0])
    else Lookup(s[1..], key)
  }

  /** What Map.get finds is the stored entry, the first one under `key`. */
  lemma {:induction false} LookupFindsFirst(s: seq<Entry>, key: string)
    ensures Lookup(s, key).Some? ==>
      exists i | 0 <= i < |s| :: s[i] == Lookup(s, key).value && Absent(s[..i], key)
  {
    if s != [] {
      if s[0].userId == key {
        assert s[..0] == [];
        assert s[0] == Lookup(s, key).value;
      } else if Lookup(s[1..], key).Some? {
        LookupFindsFirst(s[1..], key);
        var i :| 0 <= i < |s[1..]| && s[1..][i] == Lookup(s[1..], key).value && Absent(s[1..][..i], key);
        assert s[..i + 1] == [s[0]] + s[1..][..i];
        assert s[i + 1] == Lookup(s, key).value;
      }
    }
  }

  /** Map.set keyed by the entry's user id. */
  function Put(s: seq<Entry>, e: Entry): (r: seq<Entry>)
    ensures Lookup(r, e.userId) == Some(e)
    ensures forall k | k != e.userId :: Lookup(r, k) == Lookup(s, k)
    ensures UniqueKeys(s) ==> UniqueKeys(r)
    ensures |r| == if Lookup(s, e.userId).None? then |s| + 1 else |s|
  {
    if s == [] then [e]
    else if s[0].userId == e.userId then
      var r := [e] + s[1..];
      assert r[0] == e && r[1..] == s[1..];
      ConsKeepsUnique(s[0], s[1..]);
      ConsKeepsUnique(e, s[1..]);
      r
    else
      var rest := Put(s[1..], e);
      var r := [s[0]] + rest;
      assert r[0] == s[0] && r[1..] == rest;
      assert Lookup(r, e.userId) == Lookup(rest, e.userId);
      assert Lookup(rest, s[0].userId) == Lookup(s[1..], s[0].userId);
      ConsKeepsUnique(s[0], s[1..]);
      ConsKeepsUnique(s[0], rest);
      r
  }

  /** Map.delete: the entry under `key` is gone; nothing else moves or changes. */
  function Delete(s: seq<Entry>, key: string): (r: seq<Entry>)
    ensures Absent(r, key)
    ensures forall k | k != key :: Lookup(r, k) == Lookup(s, k)
    ensures UniqueKeys(s) ==> UniqueKeys(r)
    ensures Absent(s, key) ==> r == s
  {
    if s == [] then []
    else if s[0].userId == key then Delete(s[1..], key)
    else
      var rest := Delete(s[1..], key);
      var r := [s[0]] + rest;
      assert r[1..] == rest;
      assert Lookup(rest, s[0].userId) == Lookup(s[1..], s[0].userId);
      ConsKeepsUnique(s[0], s[1..]);
      ConsKeepsUnique(s[0], rest);
      r
  }

  lemma ConsKeepsUnique(e: Entry, s: seq<Entry>)
    ensures UniqueKeys([e] + s) <==> Absent(s, e.userId) && UniqueKeys(s)
  {
    var t := [e] + s;
    if Absent(s, e.userId) && UniqueKeys(s) {
      forall i, j | 0 <= i < j < |t| ensures t[i].userId != t[j].userId {
        if i > 0 { assert t[i] == s[i - 1]; }
        assert t[j] == s[j - 1];
      }
    }
    if UniqueKeys(t) {
      forall j | 0 <= j < |s| ensures s[j].userId != e.userId {
        assert t[0] == e && t[j + 1] == s[j];
      }
      forall i, j | 0 <= i < j < |s| ensures s[i].userId != s[j].userId {
        assert t[i + 1] == s[i] && t[j + 1] == s[j];
      }
    }
  }

  /** Overwriting a present user replaces its entry in place: the listing order is kept. */
  lemma {:induction false} PutOverwritesInPlace(s: seq<Entry>, e: Entry, i: nat)
    requires UniqueKeys(s)
    requires i < |s| && s[i].userId == e.userId
    ensures Put(s, e) == s[i := e]
  {
    if i > 0 {
      assert s[0].userId != e.userId;
      PutOverwritesInPlace(s[1..], e, i - 1);
      assert s[i := e] == [s[0]] + s[1..][i - 1 := e];
    }
  }

  /** A user not yet present is listed last. */
  lemma {:induction false} PutAppendsNew(s: seq<Entry>, e: Entry)
    requires Lookup(s, e.userId).None?
    ensures Put(s, e) == s + [e]
  {
    if s != [] {
      assert s[0].userId != e.userId;
      PutAppendsNew(s[1..], e);
      calc {
        Put(s, e);
        [s[0]] + Put(s[1..], e);
        [s[0]] + (s[1..] + [e]);
        { assert s == [s[0]] + s[1..]; }
        s + [e];
      }
    }
  }

  /** Deleting a present user closes the gap: the others keep their relative order. */
  lemma {:induction false} DeleteRemovesInPlace(s: seq<Entry>, key: string, i: nat)
    requires UniqueKeys(s)
    requires i < |s| && s[i].userId == key
    ensures Delete(s, key) == s[..i] + s[i + 1..]
  {
    if i == 0 {
      assert Absent(s[1..], key) by {
        forall j | 0 <= j < |s[1..]| ensures s[1..][j].userId != key {
          assert s[1..][j] == s[j + 1];
        }
      }
    } else {
      assert s[0].userId != key;
      DeleteRemovesInPlace(s[1..], key, i - 1);
      assert s[..i] + s[i + 1..] == [s[0]] + (s[1..][..i - 1] + s[1..][i..]);
    }
  }

  /** The entries of a channel, or none when the channel has never been seen. */
  function EntriesOf(online: Online, channel: string): seq<Entry> {
    if channel in online then online[channel] else []
  }

  /**
   * addOnlineUser: create the channel's map when missing, then set the user's entry.
   * Only that (channel, user) pair changes.
   */
  function MarkOnline(online: Online, channel: string, e: Entry): (r: Online)
    ensures Lookup(EntriesOf(r, channel), e.userId) == Some(e)
    ensures forall k | k != e.userId :: Lookup(EntriesOf(r, channel), k) == Lookup(EntriesOf(online, channel), k)
    ensures forall c | c != channel :: EntriesOf(r, c) == EntriesOf(online, c)
    ensures r.Keys == online.Keys + {channel}
  {
    online[channel := Put(EntriesOf(online, channel), e)]
  }

  /**
   * removeOnlineUser: delete the user's entry when the channel is known; a user
   * or channel that is not there is a no-op, not an error.
   */
  function MarkOffline(online: Online, channel: string, user: string): (r: Online)
    ensures Absent(EntriesOf(r, channel), user)
    ensures forall k | k != user :: Lookup(EntriesOf(r, channel), k) == Lookup(EntriesOf(online, channel), k)
    ensures forall c | c != channel :: EntriesOf(r, c) == EntriesOf(online, c)
    ensures Absent(EntriesOf(online, channel), user) ==> r == online
  {
    if channel in online then online[channel := Delete(online[channel], user)] else online
  }

  /** Marking a user online and then offline leaves the channel's listing without that user. */
  lemma OnlineThenOffline(online: Online, channel: string, e: Entry)
    ensures Absent(EntriesOf(MarkOffline(MarkOnline(online, channel, e), channel, e.userId), channel), e.userId)
    ensures Lookup(EntriesOf(MarkOnline(online, channel, e), channel), e.userId) == Some(e)
  {
  }
}
