/** The sliding-window counter: a pruned list of timestamps that stands for the full history of requests. */
module SlidingWindow {
  import opened Prelude

  /** The timestamps later than `cut`, in order. */
  function After(ts: seq<Time>, cut: Time): (kept: seq<Time>)
    ensures |kept| <= |ts|
  {
    if ts == [] then []
    else
      var last := ts[|ts| - 1];
      After(ts[..|ts| - 1], cut) + if last > cut then [last] else []
  }

  /** The timestamps in the window that ends at `now`. */
  function Within(ts: seq<Time>, now: Time, window: Time): seq<Time> {
    After(ts, now - window)
  }

  lemma {:induction false} AfterMembers(ts: seq<Time>, cut: Time, t: Time)
    ensures t in After(ts, cut) <==> t in ts && t > cut
  {
    if ts != [] {
      AfterMembers(ts[..|ts| - 1], cut, t);
      assert ts == ts[..|ts| - 1] + [ts[|ts| - 1]];
    }
  }

  /** Pruning early never matters: what an earlier cut kept is enough for a later one. */
  lemma {:induction false} AfterAfter(ts: seq<Time>, early: Time, late: Time)
    requires early <= late
    ensures After(After(ts, early), late) == After(ts, late)
  {
    if ts != [] {
      var front, last := ts[..|ts| - 1], ts[|ts| - 1];
      AfterAfter(front, early, late);
      if last > early {
        assert After(ts, early)[..|After(ts, early)| - 1] == After(front, early);
      } else {
        assert After(ts, early) == After(front, early);
        assert After(ts, late) == After(front, late);
      }
    }
  }

  lemma AfterOneMore(ts: seq<Time>, t: Time, cut: Time)
    ensures After(ts + [t], cut) == After(ts, cut) + if t > cut then [t] else []
  {
    assert (ts + [t])[..|ts|] == ts;
  }

  ghost predicate UpTo(ts: seq<Time>, cut: Time) {
    forall i | 0 <= i < |ts| :: ts[i] <= cut
  }

  lemma UpToOneMore(ts: seq<Time>, t: Time, cut: Time)
    ensures UpTo(ts + [t], cut) <==> UpTo(ts, cut) && t <= cut
  {
    if UpTo(ts + [t], cut) {
      assert (ts + [t])[|ts|] == t;
      forall i | 0 <= i < |ts| ensures ts[i] <= cut { assert (ts + [t])[i] == ts[i]; }
    }
  }

  lemma {:induction false} AfterAll(ts: seq<Time>, cut: Time)
    requires UpTo(ts, cut)
    ensures After(ts, cut) == []
  {
    if ts != [] {
      AfterAll(ts[..|ts| - 1], cut);
    }
  }

  lemma {:induction false} AfterShrinks(ts: seq<Time>, early: Time, late: Time)
    requires early <= late
    ensures |After(ts, late)| <= |After(ts, early)|
  {
    if ts != [] { AfterShrinks(ts[..|ts| - 1], early, late); }
  }

  type Lists = map<string, seq<Time>>

  function ListOf(lists: Lists, key: string): seq<Time> {
    if key in lists then lists[key] else []
  }

  /** A list last pruned at `prunedAt` stands for the history, up to now and from now on. */
  ghost predicate Stands(list: seq<Time>, history: seq<Time>, prunedAt: Time, window: Time, clock: Time) {
    && prunedAt <= clock
    && UpTo(history, prunedAt)
    && list == After(history, prunedAt - window)
  }

  lemma PruneStands(list: seq<Time>, history: seq<Time>, prunedAt: Time, window: Time, now: Time)
    requires Stands(list, history, prunedAt, window, now)
    ensures After(list, now - window) == After(history, now - window)
    ensures Stands(After(list, now - window), history, now, window, now)
  {
    AfterAfter(history, prunedAt - window, now - window);
  }

  lemma AppendStands(list: seq<Time>, history: seq<Time>, window: Time, now: Time)
    requires Stands(list, history, now, window, now) && window > 0.0
    ensures Stands(list + [now], history + [now], now, window, now)
  {
    AfterOneMore(history, now, now - window);
  }

  function StampOf(stamps: map<string, Time>, key: string): Time {
    if key in stamps then stamps[key] else 0.0
  }

  ghost predicate AllStand(lists: Lists, history: Lists, pruned: map<string, Time>, window: Time, clock: Time) {
    forall key: string :: Stands(ListOf(lists, key), ListOf(history, key), StampOf(pruned, key), window, clock)
  }

  predicate SameBut(key: string, a: Lists, b: Lists) {
    (forall k: string | k != key && k in a :: k in b && a[k] == b[k]) && (forall k: string | k != key && k in b :: k in a)
  }

  lemma OneListChanged(lists: Lists, history: Lists, pruned: map<string, Time>, window: Time, clock: Time,
                       key: string, lists': Lists, history': Lists, now: Time)
    requires AllStand(lists, history, pruned, window, clock) && clock <= now
    requires SameBut(key, lists, lists') && SameBut(key, history, history')
    requires Stands(ListOf(lists', key), ListOf(history', key), now, window, now)
    ensures AllStand(lists', history', pruned[key := now], window, now)
  {
    forall k: string
      ensures Stands(ListOf(lists', k), ListOf(history', k), StampOf(pruned[key := now], k), window, now)
    {
      assert Stands(ListOf(lists, k), ListOf(history, k), StampOf(pruned, k), window, clock);
    }
  }

  class SlidingWindowCounter {
    const windowSize: Time
    var requests: Lists

    /** Every request ever recorded, the clock's last reading, and when each list was last pruned. */
    ghost var history: Lists
    ghost var clock: Time
    ghost var pruned: map<string, Time>

    constructor (windowSize: Time)
      requires windowSize > 0.0
      ensures Valid() && this.windowSize == windowSize && history == map[] && clock == 0.0
    {
      this.windowSize := windowSize;
      requests, history, clock, pruned := map[], map[], 0.0, map[];
    }

    ghost predicate Valid()
      reads this
    {
      windowSize > 0.0 && AllStand(requests, history, pruned, windowSize, clock)
    }

    /** The line both counting methods begin with. */
    method Prune(key: string, now: Time)
      requires Valid() && clock <= now
      modifies this
      ensures Valid() && clock == now && history == old(history)
      ensures key in requests && requests[key] == After(ListOf(history, key), now - windowSize)
      ensures key in pruned && pruned[key] == now
    {
      PruneStands(ListOf(requests, key), ListOf(history, key), StampOf(pruned, key), windowSize, now);
      var windowStart := now - windowSize;
      requests := requests[key := After(ListOf(requests, key), windowStart)];
      OneListChanged(old(requests), history, pruned, windowSize, clock, key, requests, history, now);
      pruned, clock := pruned[key := now], now;
    }

    method AddRequest(key: string, now: Time) returns (count: nat)
      requires Valid() && clock <= now
      modifies this
      ensures Valid() && clock == now
      ensures history == old(history)[key := ListOf(old(history), key) + [now]]
      ensures count == |Within(ListOf(old(history), key) + [now], now, windowSize)|
    {
      Prune(key, now);
      ghost var list, past := requests[key], ListOf(history, key);
      AppendStands(list, past, windowSize, now);
      OneListChanged(requests, history, pruned, windowSize, clock,
                     key, requests[key := list + [now]], history[key := past + [now]], now);
      assert pruned[key := now] == pruned;
      requests := requests[key := requests[key] + [now]];
      history := history[key := past + [now]];
      count := |requests[key]|;
    }

    method GetCount(key: string, now: Time) returns (count: nat)
      requires Valid() && clock <= now
      modifies this
      ensures Valid() && clock == now && history == old(history)
      ensures count == |Within(ListOf(history, key), now, windowSize)|
    {
      Prune(key, now);
      count := |requests[key]|;
    }

    /** One key of the clean-up: prune, and drop the list when nothing is left. */
    method Tidy(key: string, now: Time)
      requires Valid() && clock <= now && key in requests
      modifies this
      ensures Valid() && clock == now && history == old(history)
      ensures SameBut(key, old(requests), requests)
      ensures key in requests ==> requests[key] != [] && requests[key] == After(old(requests)[key], now - windowSize)
    {
      PruneStands(requests[key], ListOf(history, key), StampOf(pruned, key), windowSize, now);
      requests := requests[key := After(requests[key], now - windowSize)];
      if requests[key] == [] { requests := requests - {key}; }
      OneListChanged(old(requests), history, pruned, windowSize, clock, key, requests, history, now);
      pruned, clock := pruned[key := now], now;
    }

    ghost predicate Live(list: seq<Time>, now: Time) {
      list != [] && forall i | 0 <= i < |list| :: list[i] > now - windowSize
    }

    /** Afterwards only live timestamps are held, and no empty list. */
    method Cleanup(now: Time)
      requires Valid() && clock <= now
      modifies this
      ensures Valid() && clock == now && history == old(history)
      ensures forall k | k in requests :: Live(requests[k], now)
    {
      clock := now;
      var todo := requests.Keys;
      while todo != {}
        invariant Valid() && clock == now && history == old(history) && todo <= requests.Keys
        invariant forall k | k in requests && k !in todo :: Live(requests[k], now)
        decreases todo
      {
        var key :| key in todo;
        ghost var list := requests[key];
        Tidy(key, now);
        ghost var kept := After(list, now - windowSize);
        forall i | 0 <= i < |kept| ensures kept[i] > now - windowSize {
          AfterMembers(list, now - windowSize, kept[i]);
        }
        todo := todo - {key};
      }
    }
  }
}
