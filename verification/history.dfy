/**
 * The bounded message history: per channel, the messages sent to it in arrival
 * order, cut from the front to at most 100 after every send.
 */
module History {

  /** The number of messages kept per channel. */
  const Capacity: nat := 100

  /** Stand-ins for a missing sender id and a missing sender name. */
  const AnonymousId: string := "anónimo"
  const AnonymousName: string := "Anónimo"

  /**
   * One stored message: the caller's payload and the server-assigned fields
   * (`from` and `userId` carry the same value, as do `ts` and `timestamp` up to
   * the two clock readings they come from).
   */
  datatype Message = Message(
    data: string,
    from: string,
    ts: string,
    id: string,
    userId: string,
    userName: string,
    timestamp: string)

  /** messageHistory: channel -> that channel's messages, oldest first. */
  type Log = map<string, seq<Message>>

  function Min(a: int, b: int): int {
    if a < b then a else b
  }

  predicate IsSuffix(t: seq<Message>, s: seq<Message>) {
    |t| <= |s| && forall i | 0 <= i < |t| :: t[i] == s[|s| - |t| + i]
  }

  /** `splice(0, length - 100)` when the log is longer than the capacity: the newest 100 survive. */
  function Trim(s: seq<Message>): (r: seq<Message>)
    ensures |r| == Min(|s|, Capacity)
    ensures IsSuffix(r, s)
  {
    if |s| > Capacity then s[|s| - Capacity..] else s
  }

  /**
   * One send: push the message, then trim. Below capacity nothing is lost; at
   * capacity exactly the oldest message is evicted.
   */
  function Append(h: seq<Message>, m: Message): (r: seq<Message>)
    ensures |r| <= Capacity
    ensures r != [] && r[|r| - 1] == m
    ensures IsSuffix(r, h + [m])
    ensures |h| < Capacity ==> r == h + [m]
    ensures |h| == Capacity ==> r == h[1..] + [m]
  {
    Trim(h + [m])
  }

  /** Several sends to one channel, in order. */
  function AppendAll(h: seq<Message>, ms: seq<Message>): seq<Message>
    decreases |ms|
  {
    if ms == [] then h else AppendAll(Append(h, ms[0]), ms[1..])
  }

  /**
   * `messages.slice(-limit)` for the parsed integer limit: a positive limit gives
   * the newest `limit` messages, oldest first; JavaScript reads a limit of 0 as
   * slice(0), the whole log; a negative limit drops that many from the front.
   */
  function Recent(h: seq<Message>, limit: int): (r: seq<Message>)
    ensures IsSuffix(r, h)
    ensures limit > 0 ==> |r| == Min(limit, |h|)
    ensures limit == 0 ==> r == h
    ensures limit < 0 ==> |r| == |h| - Min(-limit, |h|)
  {
    var from := if limit > 0 then |h| - Min(limit, |h|) else Min(-limit, |h|);
    h[from..]
  }

  /** The messages stored for a channel; `|| []` for a channel never written to. */
  function StoredOf(log: Log, channel: string): seq<Message> {
    if channel in log then log[channel] else []
  }

  /** One send on a channel's log: only that channel's messages change. */
  function Record(log: Log, channel: string, m: Message): (r: Log)
    ensures StoredOf(r, channel) == Append(StoredOf(log, channel), m)
    ensures forall c | c != channel :: StoredOf(r, c) == StoredOf(log, c)
    ensures r.Keys == log.Keys + {channel}
  {
    log[channel := Append(StoredOf(log, channel), m)]
  }

  /** A send never takes any channel's log past the capacity. */
  lemma RecordKeepsCapacity(log: Log, channel: string, m: Message)
    requires forall c | c in log :: |log[c]| <= Capacity
    ensures forall c | c in Record(log, channel, m) :: |Record(log, channel, m)[c]| <= Capacity
  {
  }

  /** A suffix at least as long as the kept part of `s` trims to the same log. */
  lemma SuffixTrimsAlike(t: seq<Message>, s: seq<Message>)
    requires IsSuffix(t, s) && |t| >= Min(|s|, Capacity)
    ensures Trim(t) == Trim(s)
  {
    var L := Min(|s|, Capacity);
    assert t[|t| - L..] == s[|s| - L..];
  }

  /** Trimming early loses nothing that a later trim would keep. */
  lemma TrimConcat(x: seq<Message>, y: seq<Message>)
    ensures Trim(Trim(x) + y) == Trim(x + y)
  {
    var t := Trim(x) + y;
    forall i | 0 <= i < |t| ensures t[i] == (x + y)[|x + y| - |t| + i] {
      if i < |Trim(x)| {
        assert t[i] == Trim(x)[i];
      } else {
        assert t[i] == y[i - |Trim(x)|];
      }
    }
    SuffixTrimsAlike(t, x + y);
  }

  /** Any run of sends leaves the newest min(total, 100) messages, in arrival order. */
  lemma {:induction false} AppendAllIsTrim(h: seq<Message>, ms: seq<Message>)
    requires |h| <= Capacity
    ensures AppendAll(h, ms) == Trim(h + ms)
    decreases |ms|
  {
    if ms == [] {
      assert h + ms == h;
    } else {
      var h' := Append(h, ms[0]);
      calc {
        AppendAll(h, ms);
        AppendAll(h', ms[1..]);
        { AppendAllIsTrim(h', ms[1..]); }
        Trim(h' + ms[1..]);
        { TrimConcat(h + [ms[0]], ms[1..]); }
        Trim(h + [ms[0]] + ms[1..]);
        { assert h + [ms[0]] + ms[1..] == h + ms; }
        Trim(h + ms);
      }
    }
  }

  /** From an empty log, at least 100 sends leave exactly the last 100 messages. */
  lemma KeepsLastHundred(ms: seq<Message>)
    requires |ms| >= Capacity
    ensures AppendAll([], ms) == ms[|ms| - Capacity..]
    ensures Recent(AppendAll([], ms), Capacity) == ms[|ms| - Capacity..]
  {
    calc {
      AppendAll([], ms);
      { AppendAllIsTrim([], ms); }
      Trim([] + ms);
      { assert [] + ms == ms; }
      Trim(ms);
      ms[|ms| - Capacity..];
    }
  }

  /**
   * After 101 sends to a fresh channel, reading with a large limit yields 100
   * messages starting with the second one sent, and reading with limit 1 yields
   * only the newest.
   */
  lemma EvictsOldestFirst(ms: seq<Message>, limit: int)
    requires |ms| == Capacity + 1
    requires limit >= Capacity
    ensures |Recent(AppendAll([], ms), limit)| == Capacity
    ensures Recent(AppendAll([], ms), limit)[0] == ms[1]
    ensures Recent(AppendAll([], ms), 1) == [ms[Capacity]]
  {
    KeepsLastHundred(ms);
  }

  /** Reading one message right after a send returns exactly that message. */
  lemma NewestAfterSend(h: seq<Message>, m: Message)
    ensures Recent(Append(h, m), 1) == [m]
  {
  }
}
