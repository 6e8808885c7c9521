/** The chat server's two read queries over the stored messages: the messages
    newer than a timestamp, oldest first, and (without a timestamp) the oldest 50;
    and the list view's intended result, the newest 50 shown oldest first.
    Timestamps are modelled as integers, ordered as the database orders them. */
module ChatServer {
  import opened Wrappers

  datatype StoredMessage = StoredMessage(id: int, username: string, content: string, timestamp: int)

  /** Oldest first. */
  predicate Ascending(xs: seq<StoredMessage>) {
    forall i, j | 0 <= i < j < |xs| :: xs[i].timestamp <= xs[j].timestamp
  }

  /** `x` placed before the first message whose timestamp is not smaller. */
  function Insert(x: StoredMessage, xs: seq<StoredMessage>): seq<StoredMessage>
    decreases |xs|
  {
    if xs == [] then [x]
    else if x.timestamp <= xs[0].timestamp then [x] + xs
    else [xs[0]] + Insert(x, xs[1..])
  }

  /** Inserting adds exactly `x`. */
  lemma {:induction false} InsertMultiset(x: StoredMessage, xs: seq<StoredMessage>)
    ensures multiset(Insert(x, xs)) == multiset(xs) + multiset{x}
    decreases |xs|
  {
    if xs != [] && x.timestamp > xs[0].timestamp {
      InsertMultiset(x, xs[1..]);
      assert xs == [xs[0]] + xs[1..];
    }
  }

  /** The messages of `Insert(x, xs)` are `x` and those of `xs`. */
  lemma {:induction false} InsertMembers(x: StoredMessage, xs: seq<StoredMessage>)
    ensures forall y | y in Insert(x, xs) :: y == x || y in xs
    decreases |xs|
  {
    if xs != [] && x.timestamp > xs[0].timestamp {
      InsertMembers(x, xs[1..]);
    }
  }

  /** Every message after the first of an ascending list is at least as new. */
  lemma HeadIsOldest(xs: seq<StoredMessage>)
    requires Ascending(xs) && xs != []
    ensures forall y | y in xs[1..] :: xs[0].timestamp <= y.timestamp
  {
    forall y | y in xs[1..] ensures xs[0].timestamp <= y.timestamp {
      var j :| 0 <= j < |xs[1..]| && xs[1..][j] == y;
      assert xs[j + 1] == y;
    }
  }

  /** Inserting into an ascending list keeps it ascending. */
  lemma {:induction false} InsertAscending(x: StoredMessage, xs: seq<StoredMessage>)
    requires Ascending(xs)
    ensures Ascending(Insert(x, xs))
    decreases |xs|
  {
    if xs != [] && x.timestamp > xs[0].timestamp {
      var rest := Insert(x, xs[1..]);
      InsertAscending(x, xs[1..]);
      InsertMembers(x, xs[1..]);
      HeadIsOldest(xs);
      var r := [xs[0]] + rest;
      forall i, j | 0 <= i < j < |r| ensures r[i].timestamp <= r[j].timestamp {
        if i > 0 {
          assert r[i] == rest[i - 1] && r[j] == rest[j - 1];
        } else {
          assert r[j] in rest;
        }
      }
    } else if xs != [] {
      var r := [x] + xs;
      forall i, j | 0 <= i < j < |r| ensures r[i].timestamp <= r[j].timestamp {
        if i > 0 {
          assert r[i] == xs[i - 1] && r[j] == xs[j - 1];
        } else if j > 1 {
          assert r[j] == xs[j - 1];
        }
      }
    }
  }

  /** `order_by('timestamp')`, as an insertion sort. */
  function OrderByTimestamp(xs: seq<StoredMessage>): seq<StoredMessage>
    decreases |xs|
  {
    if xs == [] then [] else Insert(xs[0], OrderByTimestamp(xs[1..]))
  }

  /** Ordering returns the same messages, oldest first. */
  lemma {:induction false} OrderByTimestampSpec(xs: seq<StoredMessage>)
    ensures Ascending(OrderByTimestamp(xs))
    ensures multiset(OrderByTimestamp(xs)) == multiset(xs)
    ensures |OrderByTimestamp(xs)| == |xs|
    decreases |xs|
  {
    OrderAscending(xs);
    OrderMultiset(xs);
    OrderLength(xs);
  }

  lemma {:induction false} OrderAscending(xs: seq<StoredMessage>)
    ensures Ascending(OrderByTimestamp(xs))
    decreases |xs|
  {
    if xs != [] {
      OrderAscending(xs[1..]);
      InsertAscending(xs[0], OrderByTimestamp(xs[1..]));
    }
  }

  lemma {:induction false} OrderMultiset(xs: seq<StoredMessage>)
    ensures multiset(OrderByTimestamp(xs)) == multiset(xs)
    decreases |xs|
  {
    if xs != [] {
      OrderMultiset(xs[1..]);
      InsertMultiset(xs[0], OrderByTimestamp(xs[1..]));
      assert xs == [xs[0]] + xs[1..];
    }
  }

  lemma {:induction false} OrderLength(xs: seq<StoredMessage>)
    ensures |OrderByTimestamp(xs)| == |xs|
    decreases |xs|
  {
    if xs != [] {
      OrderLength(xs[1..]);
      InsertLength(xs[0], OrderByTimestamp(xs[1..]));
    }
  }

  /** Inserting adds one message. */
  lemma {:induction false} InsertLength(x: StoredMessage, xs: seq<StoredMessage>)
    ensures |Insert(x, xs)| == |xs| + 1
    decreases |xs|
  {
    if xs != [] && x.timestamp > xs[0].timestamp {
      InsertLength(x, xs[1..]);
    }
  }

  /** `filter(timestamp__gt=t)`. */
  function NewerThan(store: seq<StoredMessage>, t: int): (r: seq<StoredMessage>)
    ensures forall m | m in r :: m in store && m.timestamp > t
    ensures forall m | m in store && m.timestamp > t :: m in r
    ensures multiset(r) <= multiset(store)
    decreases |store|
  {
    if store == [] then []
    else
      var rest := NewerThan(store[1..], t);
      assert store == [store[0]] + store[1..];
      (if store[0].timestamp > t then [store[0]] else []) + rest
  }

  /** A slice of an ascending list is ascending. */
  lemma AscendingSlice(s: seq<StoredMessage>, lo: nat, hi: nat)
    requires Ascending(s) && lo <= hi <= |s|
    ensures Ascending(s[lo..hi])
  {
    forall i, j | 0 <= i < j < hi - lo ensures s[lo..hi][i].timestamp <= s[lo..hi][j].timestamp {
      assert s[lo..hi][i] == s[lo + i] && s[lo..hi][j] == s[lo + j];
    }
  }

  /** Cutting a list in two splits its messages. */
  lemma SplitMultiset(s: seq<StoredMessage>, k: nat)
    requires k <= |s|
    ensures multiset(s[..k]) + multiset(s[k..]) == multiset(s)
    ensures multiset(s[..k]) <= multiset(s) && multiset(s[k..]) <= multiset(s)
    ensures multiset(s) - multiset(s[..k]) == multiset(s[k..])
    ensures multiset(s) - multiset(s[k..]) == multiset(s[..k])
  {
    assert s == s[..k] + s[k..];
  }

  /** In an ascending list every message before a cut is at most as new as every
      message after it. */
  lemma CutIsOrdered(s: seq<StoredMessage>, k: nat)
    requires Ascending(s) && k <= |s|
    ensures forall m, n | m in s[..k] && n in multiset(s[k..]) :: m.timestamp <= n.timestamp
  {
    forall m, n | m in s[..k] && n in multiset(s[k..]) ensures m.timestamp <= n.timestamp {
      var i :| 0 <= i < k && s[..k][i] == m;
      assert n in s[k..];
      var j :| 0 <= j < |s| - k && s[k..][j] == n;
      assert s[i] == m && s[k + j] == n;
    }
  }

  /** The same cut, seen from the part after it. */
  lemma CutIsOrderedAfter(s: seq<StoredMessage>, k: nat)
    requires Ascending(s) && k <= |s|
    ensures forall m, n | m in s[k..] && n in multiset(s[..k]) :: n.timestamp <= m.timestamp
  {
    forall m, n | m in s[k..] && n in multiset(s[..k]) ensures n.timestamp <= m.timestamp {
      var j :| 0 <= j < |s| - k && s[k..][j] == m;
      assert n in s[..k];
      var i :| 0 <= i < k && s[..k][i] == n;
      assert s[i] == n && s[k + j] == m;
    }
  }

  /** At most 50. */
  function Cap(n: nat): (k: nat)
    ensures k <= n && k <= 50 && (n >= 50 ==> k == 50) && (n < 50 ==> k == n)
  {
    if n < 50 then n else 50
  }

  /** `get_recent_messages`: `timestamp` is the query parameter, `None` when it
      is missing or empty. */
  function RecentMessages(store: seq<StoredMessage>, timestamp: Option<int>): (r: seq<StoredMessage>)
    ensures Ascending(r)
    ensures multiset(r) <= multiset(store)
  {
    if timestamp.Some? then
      var n := NewerThan(store, timestamp.value);
      OrderByTimestampSpec(n);
      OrderByTimestamp(n)
    else
      var s := OrderByTimestamp(store);
      OrderByTimestampSpec(store);
      SplitMultiset(s, Cap(|s|));
      AscendingSlice(s, 0, Cap(|s|));
      assert s[0..Cap(|s|)] == s[..Cap(|s|)];
      s[..Cap(|s|)]
  }

  /** With a timestamp, exactly the stored messages newer than it are returned. */
  lemma RecentWithTimestamp(store: seq<StoredMessage>, t: int)
    ensures forall m | m in RecentMessages(store, Some(t)) :: m in store && m.timestamp > t
    ensures forall m | m in store && m.timestamp > t :: m in RecentMessages(store, Some(t))
  {
    var n := NewerThan(store, t);
    OrderByTimestampSpec(n);
    var r := OrderByTimestamp(n);
    assert multiset(r) == multiset(n);
    forall m | m in r ensures m in n {
      assert m in multiset(r);
    }
    forall m | m in n ensures m in r {
      assert m in multiset(n);
    }
  }

  /** Without a timestamp, at most 50 messages are returned, and no message left
      out is older than one returned: they are the oldest 50. */
  lemma RecentWithoutTimestamp(store: seq<StoredMessage>)
    ensures |RecentMessages(store, None)| == Cap(|store|)
    ensures forall m, n | m in RecentMessages(store, None) && n in multiset(store) - multiset(RecentMessages(store, None)) ::
      m.timestamp <= n.timestamp
  {
    var s := OrderByTimestamp(store);
    OrderByTimestampSpec(store);
    var k := Cap(|s|);
    assert RecentMessages(store, None) == s[..k];
    SplitMultiset(s, k);
    CutIsOrdered(s, k);
  }

  /** The list view as written: `order_by` on the sliced queryset raises, so
      every request ends in a server error and no list is sent. */
  function ListAsWritten(store: seq<StoredMessage>): (r: Option<seq<StoredMessage>>)
    ensures r.None?
  {
    None
  }

  /** Whenever there is a message, what the list view sends differs from what it
      is meant to send. */
  lemma ListAsWrittenShowsNothing(store: seq<StoredMessage>)
    requires |store| > 0
    ensures ListAsWritten(store) != Some(LatestMessages(store))
    ensures |LatestMessages(store)| > 0
  {
  }

  /** The list view's intent: the newest 50 messages, displayed oldest first. */
  function LatestMessages(store: seq<StoredMessage>): (r: seq<StoredMessage>)
    ensures Ascending(r)
    ensures |r| == Cap(|store|)
    ensures multiset(r) <= multiset(store)
  {
    var s := OrderByTimestamp(store);
    OrderByTimestampSpec(store);
    SplitMultiset(s, |s| - Cap(|s|));
    AscendingSlice(s, |s| - Cap(|s|), |s|);
    assert s[|s| - Cap(|s|)..|s|] == s[|s| - Cap(|s|)..];
    s[|s| - Cap(|s|)..]
  }

  /** No message left out of the list view is newer than one shown. */
  lemma LatestAreNewest(store: seq<StoredMessage>)
    ensures forall m, n | m in LatestMessages(store) && n in multiset(store) - multiset(LatestMessages(store)) ::
      n.timestamp <= m.timestamp
  {
    var s := OrderByTimestamp(store);
    OrderByTimestampSpec(store);
    var c := |s| - Cap(|s|);
    assert LatestMessages(store) == s[c..];
    SplitMultiset(s, c);
    CutIsOrderedAfter(s, c);
  }

  /** Polling again with the last timestamp of a result fetches only messages
      newer than everything that result held, so consecutive polls never fetch a
      message twice. */
  lemma ConsecutivePollsAreDisjoint(store: seq<StoredMessage>, t: int)
    requires |RecentMessages(store, Some(t))| > 0
    ensures var first := RecentMessages(store, Some(t));
      forall m, n | m in first && n in RecentMessages(store, Some(first[|first| - 1].timestamp)) ::
        m.timestamp < n.timestamp
  {
    var first := RecentMessages(store, Some(t));
    var last := first[|first| - 1].timestamp;
    LastIsNewest(first);
    RecentWithTimestamp(store, last);
  }

  /** No message of an ascending list is newer than its last one. */
  lemma LastIsNewest(xs: seq<StoredMessage>)
    requires Ascending(xs) && xs != []
    ensures forall m | m in xs :: m.timestamp <= xs[|xs| - 1].timestamp
  {
    forall m | m in xs ensures m.timestamp <= xs[|xs| - 1].timestamp {
      var i :| 0 <= i < |xs| && xs[i] == m;
      if i < |xs| - 1 {
        assert xs[i].timestamp <= xs[|xs| - 1].timestamp;
      }
    }
  }
}
