/**
 * Conversation memory: per user, a bounded FIFO of past exchanges. Appending
 * to a full queue drops its oldest exchange; an eviction pass drops expired
 * exchanges from the front of every queue and forgets users left with none.
 * Time is an integer number of seconds supplied by the caller.
 */
module Memory {
  import opened Text

  /** One recorded turn: when it was stored, the query and the answer. */
  datatype Exchange = Exchange(timestamp: int, query: string, response: string)

  type History = seq<Exchange>

  type Conversations = map<string, History>

  /** No user's queue is longer than `cap`. */
  ghost predicate Bounded(m: Conversations, cap: nat) {
    forall u :: u in m ==> |m[u]| <= cap
  }

  /** Timestamps never decrease from the front of the queue to its back. */
  ghost predicate Chronological(h: History) {
    forall i, j :: 0 <= i < j < |h| ==> h[i].timestamp <= h[j].timestamp
  }

  /** `deque(h, maxlen=cap).append(e)`: on overflow the front is dropped. */
  function Appended(h: History, e: Exchange, cap: nat): History {
    var full := h + [e];
    if |full| <= cap then full else full[|full| - cap..]
  }

  /** The history of `u`, or a fresh empty queue for an unknown user. */
  function HistoryOf(m: Conversations, u: string): History {
    if u in m then m[u] else []
  }

  /** The state after `add_exchange(u, ...)` stored exchange `e`. */
  function WithExchange(m: Conversations, u: string, e: Exchange, cap: nat): Conversations {
    m[u := Appended(HistoryOf(m, u), e, cap)]
  }

  /**
   * A queue within its bound stays within it: below the bound the exchange is
   * appended, at the bound the oldest exchange makes room, with no room at all
   * the queue stays empty.
   */
  lemma AppendedSpec(h: History, e: Exchange, cap: nat)
    requires |h| <= cap
    ensures |Appended(h, e, cap)| <= cap
    ensures |h| < cap ==> Appended(h, e, cap) == h + [e]
    ensures 0 < |h| == cap ==> Appended(h, e, cap) == h[1..] + [e]
    ensures cap == 0 ==> Appended(h, e, cap) == []
  {
    if 0 < |h| == cap {
      assert (h + [e])[1..] == h[1..] + [e];
    }
  }

  /**
   * After storing `e` for `u`: `u` is known, its newest exchange is `e` (unless
   * the capacity is zero), every queue respects the bound, and every other
   * user's history is exactly what it was.
   */
  lemma WithExchangeSpec(m: Conversations, u: string, e: Exchange, cap: nat)
    requires Bounded(m, cap)
    ensures var r := WithExchange(m, u, e, cap);
      && u in r
      && Bounded(r, cap)
      && (cap > 0 ==> r[u] != [] && r[u][|r[u]| - 1] == e)
      && (forall v :: v != u ==> (v in r <==> v in m) && (v in m ==> r[v] == m[v]))
  {
    AppendedSpec(HistoryOf(m, u), e, cap);
  }

  /** Storing an exchange no older than the queue's newest keeps the queue chronological. */
  lemma WithExchangeChronological(m: Conversations, u: string, e: Exchange, cap: nat)
    requires Bounded(m, cap) && Chronological(HistoryOf(m, u))
    requires forall x :: x in HistoryOf(m, u) ==> x.timestamp <= e.timestamp
    ensures Chronological(WithExchange(m, u, e, cap)[u])
  {
    var h := HistoryOf(m, u);
    var full := h + [e];
    assert Chronological(full) by {
      forall i, j | 0 <= i < j < |full| ensures full[i].timestamp <= full[j].timestamp {
        if j == |h| { assert full[i] in h; }
      }
    }
  }

  /** `h[-k:]` with Python's slice semantics (`k == 0` keeps everything). */
  function Window(h: History, k: int): History {
    if k > 0 then (if k >= |h| then h else h[|h| - k..])
    else if -k >= |h| then []
    else h[-k..]
  }

  /**
   * A positive `k` keeps the newest `min(k, |h|)` exchanges in order; `k == 0`
   * keeps them all; a negative `k` instead drops the `-k` oldest.
   */
  lemma WindowSpec(h: History, k: int)
    ensures k > 0 ==>
              && |Window(h, k)| == (if k < |h| then k else |h|)
              && Window(h, k) == h[|h| - |Window(h, k)|..]
    ensures k == 0 ==> Window(h, k) == h
    ensures k < 0 ==> Window(h, k) == h[(if -k < |h| then -k else |h|)..]
  {
  }

  /** The context lines of some exchanges: `User: q`, then `Assistant: r` and a newline. */
  function Parts(xs: History): seq<string> {
    if xs == [] then []
    else
      var e := xs[|xs| - 1];
      Parts(xs[..|xs| - 1]) + ["User: " + e.query, "Assistant: " + e.response + "\n"]
  }

  /** The context text for one history: the window's lines joined by newlines. */
  function Context(h: History, k: int): string {
    Join(Parts(Window(h, k)), "\n")
  }

  /** `get_context(u, k)` on a state: the empty string for an unknown user. */
  function UserContext(m: Conversations, u: string, k: int): string {
    if u in m then Context(m[u], k) else ""
  }

  /** Two lines per exchange, in chronological order. */
  lemma {:induction false} PartsSpec(xs: History)
    ensures |Parts(xs)| == 2 * |xs|
    ensures forall i :: 0 <= i < |xs| ==>
              Parts(xs)[2 * i] == "User: " + xs[i].query
              && Parts(xs)[2 * i + 1] == "Assistant: " + xs[i].response + "\n"
  {
    if xs != [] {
      var init := xs[..|xs| - 1];
      PartsSpec(init);
      forall i | 0 <= i < |xs| - 1
        ensures Parts(xs)[2 * i] == "User: " + xs[i].query
        ensures Parts(xs)[2 * i + 1] == "Assistant: " + xs[i].response + "\n"
      {
        assert xs[i] == init[i];
      }
    }
  }

  /** The context is empty exactly when the window holds no exchange. */
  lemma ContextEmpty(h: History, k: int)
    ensures Context(h, k) == "" <==> Window(h, k) == []
  {
    var w := Window(h, k);
    PartsSpec(w);
    if w != [] {
      var ps := Parts(w);
      assert ps[0] == "User: " + w[0].query;
      if |ps| > 1 {
        assert Join(ps, "\n")[0] == ps[0][0];
      }
    }
  }

  /** An unknown user gets no context. */
  lemma UnknownUserContext(m: Conversations, u: string, k: int)
    requires u !in m
    ensures UserContext(m, u, k) == ""
  {
  }

  /** An exchange counts as expired once it is strictly older than `maxAge`. */
  predicate Expired(e: Exchange, now: int, maxAge: int) {
    now - e.timestamp > maxAge
  }

  /** One user's part of an eviction pass: pop expired exchanges from the front. */
  function DropExpired(h: History, now: int, maxAge: int): History {
    if h != [] && Expired(h[0], now, maxAge) then DropExpired(h[1..], now, maxAge) else h
  }

  /**
   * The survivors are a suffix of the queue, in their original order; every
   * exchange removed was expired; the scan stops at the first unexpired one.
   */
  lemma {:induction false} DropExpiredSpec(h: History, now: int, maxAge: int)
    ensures var r := DropExpired(h, now, maxAge);
      && |r| <= |h| && r == h[|h| - |r|..]
      && (forall i :: 0 <= i < |h| - |r| ==> Expired(h[i], now, maxAge))
      && (r == [] || !Expired(r[0], now, maxAge))
  {
    if h != [] && Expired(h[0], now, maxAge) {
      DropExpiredSpec(h[1..], now, maxAge);
      var r := DropExpired(h, now, maxAge);
      forall i | 1 <= i < |h| - |r| ensures Expired(h[i], now, maxAge) {
        assert h[i] == h[1..][i - 1];
      }
    }
  }

  /** In a chronological queue no exchange left after the pass is expired. */
  lemma DropExpiredLeavesFresh(h: History, now: int, maxAge: int)
    requires Chronological(h)
    ensures forall e :: e in DropExpired(h, now, maxAge) ==> !Expired(e, now, maxAge)
  {
    DropExpiredSpec(h, now, maxAge);
    var r := DropExpired(h, now, maxAge);
    var d := |h| - |r|;
    forall e | e in r ensures !Expired(e, now, maxAge) {
      var j :| 0 <= j < |r| && r[j] == e;
      assert r[0] == h[d] && e == h[d + j];
    }
  }

  /** The state after an eviction pass at time `now`. */
  function Evicted(m: Conversations, now: int, maxAge: int): Conversations {
    map u | u in m && DropExpired(m[u], now, maxAge) != [] :: DropExpired(m[u], now, maxAge)
  }

  /**
   * After a pass a user is kept exactly when something of theirs survived, no
   * user is left with an empty queue, the bound still holds, and in chronological
   * queues every remaining exchange is within `maxAge` of `now`.
   */
  lemma EvictedSpec(m: Conversations, now: int, maxAge: int, cap: nat)
    requires Bounded(m, cap)
    ensures var r := Evicted(m, now, maxAge);
      && (forall u :: u in r <==> u in m && DropExpired(m[u], now, maxAge) != [])
      && (forall u :: u in r ==> r[u] != [])
      && Bounded(r, cap)
      && ((forall u :: u in m ==> Chronological(m[u])) ==>
            forall u, e :: u in r && e in r[u] ==> now - e.timestamp <= maxAge)
  {
    var r := Evicted(m, now, maxAge);
    forall u | u in m ensures |DropExpired(m[u], now, maxAge)| <= |m[u]| {
      DropExpiredSpec(m[u], now, maxAge);
    }
    if forall u :: u in m ==> Chronological(m[u]) {
      forall u, e: Exchange | u in r && e in r[u] ensures now - e.timestamp <= maxAge {
        DropExpiredLeavesFresh(m[u], now, maxAge);
      }
    }
  }

  /** The pass part-way through: users in `pending` not yet visited. */
  function EvictedExcept(m: Conversations, pending: set<string>, now: int, maxAge: int): Conversations {
    map u | u in m && (u in pending || DropExpired(m[u], now, maxAge) != []) ::
      if u in pending then m[u] else DropExpired(m[u], now, maxAge)
  }

  /** `ConversationMemory`: the per-user queues and the cleanup-task guard. */
  class ConversationMemory {
    var conversations: Conversations
    const maxHistory: nat
    /** `max_age_hours` in seconds. */
    const maxAge: int
    /** How many cleanup tasks `start_cleanup` has created. */
    var cleanupTasks: nat

    ghost predicate Valid()
      reads this
    {
      Bounded(conversations, maxHistory) && cleanupTasks <= 1
    }

    constructor (maxHistory: nat, maxAgeHours: int)
      ensures Valid()
      ensures conversations == map[] && cleanupTasks == 0
      ensures this.maxHistory == maxHistory && maxAge == maxAgeHours * 3600
    {
      conversations := map[];
      this.maxHistory := maxHistory;
      maxAge := maxAgeHours * 3600;
      cleanupTasks := 0;
    }

    /** Creates the cleanup task only if none exists: a second call changes nothing. */
    method StartCleanup()
      requires Valid()
      modifies this
      ensures Valid()
      ensures cleanupTasks == 1
      ensures conversations == old(conversations)
      ensures old(cleanupTasks) == 1 ==> cleanupTasks == old(cleanupTasks)
    {
      if cleanupTasks == 0 {
        cleanupTasks := cleanupTasks + 1;
      }
    }

    /** Stores `(now, query, response)` as `userId`'s newest exchange. */
    method AddExchange(userId: string, query: string, response: string, now: int)
      requires Valid()
      modifies this
      ensures Valid()
      ensures conversations == WithExchange(old(conversations), userId, Exchange(now, query, response), maxHistory)
      ensures cleanupTasks == old(cleanupTasks)
    {
      var h := if userId in conversations then conversations[userId] else [];
      WithExchangeSpec(conversations, userId, Exchange(now, query, response), maxHistory);
      conversations := conversations[userId := Appended(h, Exchange(now, query, response), maxHistory)];
    }

    /** The last `maxItems` exchanges of `userId` as context text; reads only. */
    method GetContext(userId: string, maxItems: int) returns (r: string)
      ensures r == UserContext(conversations, userId, maxItems)
    {
      if userId !in conversations {
        return "";
      }
      var recent := Window(conversations[userId], maxItems);
      var parts: seq<string> := [];
      for i := 0 to |recent|
        invariant parts == Parts(recent[..i])
      {
        assert recent[..i + 1][..i] == recent[..i];
        parts := parts + ["User: " + recent[i].query];
        parts := parts + ["Assistant: " + recent[i].response + "\n"];
      }
      assert recent[..|recent|] == recent;
      r := Join(parts, "\n");
    }

    /** One pass of the periodic cleanup at time `now`. */
    method EvictionPass(now: int)
      requires Valid()
      modifies this
      ensures Valid()
      ensures conversations == Evicted(old(conversations), now, maxAge)
      ensures cleanupTasks == old(cleanupTasks)
    {
      ghost var m0 := conversations;
      var users := conversations.Keys;
      assert conversations == EvictedExcept(m0, users, now, maxAge);
      while users != {}
        invariant users <= m0.Keys
        invariant conversations == EvictedExcept(m0, users, now, maxAge)
        invariant cleanupTasks == old(cleanupTasks)
        decreases users
      {
        var u :| u in users;
        var q := conversations[u];
        while q != []
          invariant DropExpired(q, now, maxAge) == DropExpired(m0[u], now, maxAge)
          decreases |q|
        {
          if now - q[0].timestamp > maxAge {
            q := q[1..];
          } else {
            break;
          }
        }
        if q == [] {
          conversations := conversations - {u};
        } else {
          conversations := conversations[u := q];
        }
        users := users - {u};
      }
      assert conversations == Evicted(m0, now, maxAge);
      EvictedSpec(m0, now, maxAge, maxHistory);
    }
  }
}
