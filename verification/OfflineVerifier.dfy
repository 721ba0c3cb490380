/**
 The two objects behind the feed and the usage reports: the verifier's dictionaries, updated in place, and the server's
 usage columns. Each method is one atomic stretch of the source (between two awaits, or one request) and is tied to
 the step it is in `RevocationFeed` or `UsageReports`.
 */
module OfflineVerifier {
  import opened Prelude
  import Feed = RevocationFeed
  import U = UsageReports

  type Jti = string

  // ---------------------------------------------------------------- the server's side of a report

  /** A JSON field: absent (or null), of the wrong kind, or usable. */
  datatype Field<+T> = Missing | Bad | Good(value: T)

  datatype Event = NoJti | Event(jti: Jti, count: Field<int>, lastSeen: Field<Time>)

  datatype Usage = Usage(useCount: nat, lastUsed: Option<Time>)

  type Table = map<Jti, Usage>

  datatype Refusal = UnauthorizedClient | InvalidRequest

  datatype Receipt = Receipt(accepted: nat, unknown: seq<Jti>)

  predicate WellFormed(e: Event) {
    e.Event? && !e.count.Bad? && !e.lastSeen.Bad?
  }

  /** How many events come before the first malformed one. */
  function Usable(events: seq<Event>): (n: nat)
    ensures n <= |events| && forall i | 0 <= i < n :: WellFormed(events[i])
    ensures n < |events| ==> !WellFormed(events[n])
  {
    if events == [] || !WellFormed(events[0]) then 0 else 1 + Usable(events[1..])
  }

  function CountOf(e: Event): (n: nat)
    requires WellFormed(e)
    ensures n >= 1 && (n > 1 ==> e.count == Good(n)) && (n == 1 ==> e.count.Missing? || e.count.value <= 1)
  {
    if e.count.Good? then U.Max(1, e.count.value) else 1
  }

  predicate AllWellFormed(events: seq<Event>) {
    forall e | e in events :: WellFormed(e)
  }

  /** The verifications these events report for `j`. */
  function TotalFor(events: seq<Event>, j: Jti): nat
    requires AllWellFormed(events)
  {
    if events == [] then 0
    else
      var last := events[|events| - 1];
      assert last in events;
      TotalFor(events[..|events| - 1], j) + if last.jti == j then CountOf(last) else 0
  }

  /** The latest of `since` and the sightings these events report for `j`. */
  function LatestFor(events: seq<Event>, j: Jti, since: Option<Time>): Option<Time>
    requires AllWellFormed(events)
  {
    if events == [] then since
    else
      var last, before := events[|events| - 1], LatestFor(events[..|events| - 1], j, since);
      assert last in events;
      if last.jti == j && last.lastSeen.Good? && (before.None? || last.lastSeen.value > before.value)
      then Some(last.lastSeen.value) else before
  }

  function Reported(table: Table, events: seq<Event>): Table
    requires AllWellFormed(events)
  {
    map j | j in table :: Usage(table[j].useCount + TotalFor(events, j), LatestFor(events, j, table[j].lastUsed))
  }

  function UnknownIn(table: Table, events: seq<Event>): (unknown: seq<Jti>)
    requires AllWellFormed(events)
    ensures |unknown| <= |events| && forall j | j in unknown :: j !in table
  {
    if events == [] then []
    else
      var last := events[|events| - 1];
      assert last in events;
      UnknownIn(table, events[..|events| - 1]) + if last.jti in table then [] else [last.jti]
  }

  /** `apply_usage` on one row. */
  function Touched(rec: Usage, e: Event): Usage
    requires WellFormed(e)
  {
    Usage(rec.useCount + CountOf(e),
          if e.lastSeen.Good? && (rec.lastUsed.None? || e.lastSeen.value > rec.lastUsed.value)
          then Some(e.lastSeen.value) else rec.lastUsed)
  }

  lemma {:induction false} ReportedOneMore(table: Table, events: seq<Event>, i: nat)
    requires i < |events| && AllWellFormed(events[..i + 1])
    ensures AllWellFormed(events[..i]) && WellFormed(events[i])
    ensures var t, e := Reported(table, events[..i]), events[i];
            && t.Keys == table.Keys
            && Reported(table, events[..i + 1]) == (if e.jti in t then t[e.jti := Touched(t[e.jti], e)] else t)
            && UnknownIn(table, events[..i + 1])
               == UnknownIn(table, events[..i]) + if e.jti in table then [] else [e.jti]
  {
    assert events[..i + 1][..i] == events[..i];
    assert events[i] == events[..i + 1][i];
    forall e | e in events[..i] ensures WellFormed(e) { assert e in events[..i + 1]; }
  }

  /** The state of the loop before event `i`. */
  ghost predicate FoldedUpTo(start: Table, events: seq<Event>, i: nat, table: Table, unknown: seq<Jti>) {
    i <= Usable(events) && table == Reported(start, events[..i]) && unknown == UnknownIn(start, events[..i])
  }

  lemma {:induction false} FoldedOneMore(start: Table, events: seq<Event>, i: nat, table: Table, unknown: seq<Jti>)
    requires FoldedUpTo(start, events, i, table, unknown) && i < |events| && WellFormed(events[i])
    ensures events[i].jti in table ==>
              FoldedUpTo(start, events, i + 1, table[events[i].jti := Touched(table[events[i].jti], events[i])], unknown)
    ensures events[i].jti !in table ==> FoldedUpTo(start, events, i + 1, table, unknown + [events[i].jti])
  {
    ReportedOneMore(start, events, i);
  }

  class UsageServer {
    var table: Table

    constructor (table: Table)
      ensures this.table == table
    {
      this.table := table;
    }

    /** Look the token up; fold the event into its row if there is one. */
    method ApplyUsage(ev: Event) returns (known: bool)
      requires WellFormed(ev)
      modifies this
      ensures known == (ev.jti in old(table))
      ensures table == if known then old(table)[ev.jti := Touched(old(table)[ev.jti], ev)] else old(table)
    {
      known := ev.jti in table;
      if known { table := table[ev.jti := Touched(table[ev.jti], ev)]; }
    }

    /** Every event of a good report is folded; a malformed one ends the report, and those before it stay folded. */
    method ReportUsage(resourceServer: bool, events: Option<seq<Event>>) returns (r: Result<Receipt, Refusal>)
      modifies this
      ensures !resourceServer ==> r == Err(UnauthorizedClient) && table == old(table)
      ensures resourceServer && (events.None? || |events.value| > U.MAX_USAGE_EVENTS) ==>
                r == Err(InvalidRequest) && table == old(table)
      ensures resourceServer && events.Some? && |events.value| <= U.MAX_USAGE_EVENTS ==>
                var done := events.value[..Usable(events.value)];
                && table == Reported(old(table), done)
                && (if done == events.value
                    then var unknown := UnknownIn(old(table), done);
                      r == Ok(Receipt(|done| - |unknown|, unknown))
                    else r == Err(InvalidRequest))
      ensures r.Ok? <==>
                && resourceServer && events.Some? && |events.value| <= 1000
                && forall i | 0 <= i < |events.value| ::
                     events.value[i].Event? && !events.value[i].count.Bad? && !events.value[i].lastSeen.Bad?
    {
      if !resourceServer { return Err(UnauthorizedClient); }
      if events.None? || |events.value| > U.MAX_USAGE_EVENTS { return Err(InvalidRequest); }
      var accepted, unknown, good := FoldEvents(events.value);
      if !good { return Err(InvalidRequest); }
      r := Ok(Receipt(accepted, unknown));
    }

    /** The loop over the events, up to the first malformed one. */
    method FoldEvents(events: seq<Event>) returns (accepted: nat, unknown: seq<Jti>, good: bool)
      modifies this
      ensures good == (Usable(events) == |events|)
      ensures var done := events[..Usable(events)];
              && table == Reported(old(table), done)
              && unknown == UnknownIn(old(table), done) && accepted == |done| - |unknown|
    {
      accepted, unknown := 0, [];
      var i := 0;
      ghost var start := table;
      assert table == Reported(start, []);
      while i < |events|
        invariant FoldedUpTo(start, events, i, table, unknown) && accepted == i - |unknown|
      {
        var ev := events[i];
        if !WellFormed(ev) { return accepted, unknown, false; }
        FoldedOneMore(start, events, i, table, unknown);
        var known := ApplyUsage(ev);
        if known { accepted := accepted + 1; } else { unknown := unknown + [ev.jti]; }
        i := i + 1;
      }
      good := true;
    }
  }

  // ---------------------------------------------------------------- what a batch becomes on the wire

  function EventOf(j: Jti, entry: U.Entry): (e: Event)
    ensures WellFormed(e)
  {
    Event(j, Good(entry.count), Good(entry.lastSeen as real))
  }

  /** One event for each counter, in some order (the dictionary's). */
  ghost predicate Lists(events: seq<Event>, batch: U.Batch) {
    && (forall e | e in events :: e.Event? && e.jti in batch && e == EventOf(e.jti, batch[e.jti]))
    && (forall i, k | 0 <= i < k < |events| :: events[i] != events[k])
    && (forall j | j in batch :: EventOf(j, batch[j]) in events)
  }

  /** A listing reports each jti's counter, once: the server's `max(1, count)` changes nothing. */
  lemma {:induction false} ListingTotals(events: seq<Event>, batch: U.Batch, j: Jti)
    requires Lists(events, batch) && U.Positive(batch)
    ensures TotalFor(events, j) == U.EntryOf(batch, j).count
  {
    if events != [] {
      ListingFront(events, batch);
      ListingTotals(events[..|events| - 1], batch - {events[|events| - 1].jti}, j);
    }
  }

  lemma {:induction false} ListingFront(events: seq<Event>, batch: U.Batch)
    requires Lists(events, batch) && events != []
    ensures var last := events[|events| - 1];
            last.jti in batch && last == EventOf(last.jti, batch[last.jti])
            && Lists(events[..|events| - 1], batch - {last.jti})
  {
    var last, front := events[|events| - 1], events[..|events| - 1];
    assert last in events;
    var rest := batch - {last.jti};
    forall k | k in rest ensures EventOf(k, rest[k]) in front {
      var i :| 0 <= i < |events| && events[i] == EventOf(k, batch[k]);
      assert front[i] == events[i];
    }
    forall e | e in front ensures e.jti in rest && e == EventOf(e.jti, rest[e.jti]) { assert e in events; }
  }

  /** The later of a stored sighting and a reported one. */
  function Later(stored: Option<Time>, seen: Time): (r: Option<Time>)
    ensures r.Some? && r.value >= seen && (stored.Some? ==> r.value >= stored.value)
    ensures r == stored || r == Some(seen)
  {
    if stored.None? || seen > stored.value then Some(seen) else stored
  }

  /** A listing carries each jti's last sighting to the server, and nothing for a jti it does not list. */
  lemma {:induction false} ListingLatest(events: seq<Event>, batch: U.Batch, j: Jti, since: Option<Time>)
    requires Lists(events, batch)
    ensures LatestFor(events, j, since) == if j in batch then Later(since, batch[j].lastSeen as real) else since
  {
    if events != [] {
      ListingFront(events, batch);
      ListingLatest(events[..|events| - 1], batch - {events[|events| - 1].jti}, j, since);
    }
  }

  lemma {:induction false} ListingIsUsable(events: seq<Event>)
    requires AllWellFormed(events)
    ensures Usable(events) == |events| && events[..Usable(events)] == events
  {
    forall i | 0 <= i < |events| ensures WellFormed(events[i]) { assert events[i] in events; }
  }

  // ---------------------------------------------------------------- a poll's reply

  datatype Item = Item(jti: Jti, exp: Option<int>)

  function ExpiryOf(item: Item, now: int): int {
    if item.exp.Some? then item.exp.value else now + 3600
  }

  /** Items are taken in order: the last one for a jti wins. */
  function Extended(deny: Feed.DenyList, items: seq<Item>, now: int): Feed.DenyList {
    if items == [] then deny
    else
      var last := items[|items| - 1];
      Extended(deny, items[..|items| - 1], now)[last.jti := ExpiryOf(last, now)]
  }

  /** The last item for a jti tells its expiry; without one it is denied for an hour. Others keep theirs. */
  lemma {:induction false} ExtendedMeans(deny: Feed.DenyList, items: seq<Item>, now: int, j: Jti)
    ensures var after := Extended(deny, items, now);
            && (forall i | 0 <= i < |items| && items[i].jti == j && (forall k | i < k < |items| :: items[k].jti != j) ::
                  j in after && after[j] == if items[i].exp.None? then now + 3600 else items[i].exp.value)
            && ((forall i | 0 <= i < |items| :: items[i].jti != j) ==>
                  (j in after <==> j in deny) && (j in deny ==> after[j] == deny[j]))
  {
    if items != [] {
      var front := items[..|items| - 1];
      ExtendedMeans(deny, front, now, j);
      assert forall i | 0 <= i < |front| :: front[i] == items[i];
    }
  }

  /** The server's answer on the wire: exactly its jtis, each with its expiry. */
  ghost predicate Carries(items: seq<Item>, answer: Feed.DenyList) {
    && (forall i | i in items :: i.jti in answer && i.exp == Some(answer[i.jti]))
    && (forall j | j in answer :: Item(j, Some(answer[j])) in items)
  }

  lemma {:induction false} ExtendedLookup(deny: Feed.DenyList, items: seq<Item>, answer: Feed.DenyList, now: int,
                                          j: Jti)
    requires forall i | i in items :: i.jti in answer && i.exp == Some(answer[i.jti])
    ensures var listed := exists i :: i in items && i.jti == j;
            var after := Extended(deny, items, now);
            && (j in after <==> listed || j in deny)
            && (j in after ==> after[j] == if listed then answer[j] else deny[j])
  {
    if items != [] {
      var last, front := items[|items| - 1], items[..|items| - 1];
      assert last in items;
      ExtendedLookup(deny, front, answer, now, j);
    }
  }

  /** Applying an answer item by item is the feed's step. */
  lemma ItemsMakeTheStep(s: Feed.System, id: nat, items: seq<Item>)
    requires Feed.Enabled(s, Feed.Apply(id)) && Carries(items, s.polls[id].items)
    ensures var p, n := s.polls[id], Feed.Next(s, Feed.Apply(id));
            n.deny == Feed.Purged(Extended(s.deny, items, p.now), p.now) && n.lastPoll == Some(Feed.Cursor(p.now))
  {
    var p := s.polls[id];
    forall j
      ensures var x, y := Extended(s.deny, items, p.now), s.deny + p.items;
              (j in x <==> j in y) && (j in x ==> x[j] == y[j])
    {
      ExtendedLookup(s.deny, items, p.items, p.now, j);
    }
    assert Extended(s.deny, items, p.now) == s.deny + p.items;
  }

  // ---------------------------------------------------------------- the verifier

  datatype Delivery = Delivered | RequestLost | ReplyLost

  lemma PutBackOneMore(pending: U.Batch, batch: U.Batch, j: Jti, entry: U.Entry)
    requires j !in batch
    ensures var p := U.PutBack(pending, batch);
            U.PutBack(pending, batch[j := entry]) == p[j := U.Merged(U.EntryOf(p, j), entry)]
  {}

  lemma PutBackOnNothing(batch: U.Batch)
    requires forall j | j in batch :: batch[j].lastSeen >= 0
    ensures U.PutBack(map[], batch) == batch
  {}

  class MCPCenterVerifier {
    var revoked: Feed.DenyList
    var pending: U.Batch
    var lastPoll: Option<int>

    constructor ()
      ensures revoked == map[] && pending == map[] && lastPoll == None
    {
      revoked, pending, lastPoll := map[], map[], None;
    }

    ghost predicate Valid()
      reads this
    {
      U.Positive(pending) && forall j | j in pending :: pending[j].lastSeen >= 0
    }

    /** `genuine` is the verdict on signature, issuer, audience, expiry and scope; `jti` the claim, if it is there. */
    method VerifyToken(genuine: bool, jti: Option<Jti>, now: Time) returns (accepted: bool)
      requires Valid() && now >= 0.0
      modifies `pending
      ensures Valid()
      ensures accepted == (genuine && !(jti.Some? && jti.value != "" && jti.value in revoked))
      ensures pending == if accepted && jti.Some? && jti.value != "" then U.Counted(old(pending), jti.value, now.Floor)
                         else old(pending)
      ensures accepted && jti.Some? && jti.value != "" ==>
                && pending.Keys == old(pending).Keys + {jti.value}
                && (forall j | j in old(pending) && j != jti.value :: pending[j] == old(pending)[j])
                && pending[jti.value].lastSeen == now.Floor
                && pending[jti.value].count == 1 + if jti.value in old(pending) then old(pending)[jti.value].count else 0
    {
      if !genuine { return false; }
      if jti.Some? && jti.value != "" && jti.value in revoked { return false; }
      if jti.Some? && jti.value != "" {
        if jti.value !in pending { pending := pending[jti.value := U.BLANK]; }
        var entry := pending[jti.value];
        pending := pending[jti.value := U.Entry(entry.count + 1, Truncate(now))];
      }
      accepted := true;
    }

    /** The reply to a poll: see `ItemsMakeTheStep`. */
    method PollRevoked(items: seq<Item>, now: int)
      modifies `revoked, `lastPoll
      ensures revoked == Feed.Purged(Extended(old(revoked), items, now), now) && lastPoll == Some(Feed.Cursor(now))
      ensures forall j :: j in revoked <==>
                j in Extended(old(revoked), items, now) && Extended(old(revoked), items, now)[j] >= now
      ensures lastPoll == Some(if now > 5 then now - 5 else 0)
    {
      var i := 0;
      while i < |items|
        invariant 0 <= i <= |items| && revoked == Extended(old(revoked), items[..i], now)
      {
        assert items[..i + 1][..i] == items[..i];
        revoked := revoked[items[i].jti := ExpiryOf(items[i], now)];
        i := i + 1;
      }
      assert items[..i] == items;
      ghost var full := revoked;
      var expired := set j | j in revoked && revoked[j] < now;
      while expired != {}
        invariant expired <= revoked.Keys
        invariant forall j | j in revoked :: j in full && revoked[j] == full[j]
        invariant forall j | j in full :: j in revoked || full[j] < now
        invariant forall j | j in revoked :: revoked[j] < now <==> j in expired
        decreases expired
      {
        var j :| j in expired;
        revoked := revoked - {j};
        expired := expired - {j};
      }
      lastPoll := Some(if now - Feed.OVERLAP > 0 then now - Feed.OVERLAP else 0);
    }

    /** The swap that begins a flush. */
    method TakeBatch() returns (batch: U.Batch)
      requires Valid()
      modifies `pending
      ensures Valid() && batch == old(pending) && pending == map[]
    {
      batch, pending := pending, map[];
    }

    /** `setdefault`, add, keep the later sighting. */
    method RestoreOne(j: U.Jti, back: U.Entry)
      modifies `pending
      ensures pending == old(pending)[j := U.Merged(U.EntryOf(old(pending), j), back)]
    {
      if j !in pending { pending := pending[j := U.BLANK]; }
      var entry := pending[j];
      pending := pending[j := U.Entry(entry.count + back.count, U.Max(entry.lastSeen, back.lastSeen))];
    }

    /** The handler of a failed post. */
    method Restore(batch: U.Batch)
      requires Valid() && U.Positive(batch)
      modifies `pending
      ensures Valid() && pending == U.PutBack(old(pending), batch)
    {
      var todo := batch.Keys;
      ghost var done: U.Batch := map[];
      while todo != {}
        invariant todo <= batch.Keys && done.Keys == batch.Keys - todo
        invariant forall j | j in done :: done[j] == batch[j]
        invariant pending == U.PutBack(old(pending), done)
        decreases todo
      {
        var j :| j in todo;
        PutBackOneMore(old(pending), done, j, batch[j]);
        done := done[j := batch[j]];
        RestoreOne(j, batch[j]);
        todo := todo - {j};
      }
      assert done == batch;
    }

    static method EventsOf(batch: U.Batch) returns (events: seq<Event>)
      ensures Lists(events, batch) && |events| == |batch|
    {
      events := [];
      var todo := batch.Keys;
      while todo != {}
        invariant todo <= batch.Keys && |events| + |todo| == |batch|
        invariant Lists(events, map j | j in batch && j !in todo :: batch[j])
        decreases todo
      {
        var j :| j in todo;
        events := events + [EventOf(j, batch[j])];
        todo := todo - {j};
      }
      assert (map j | j in batch && j !in todo :: batch[j]) == batch;
    }

    /** A whole flush. When the server takes the report the counters move over, jti by jti; when it refuses, which is
        when the caller may not report or has more than MAX_USAGE_EVENTS jtis, or was not reached, the counters are as
        before; when only the reply was lost, the counters are both folded and put back. A report that is taken also
        moves each row's last use up to the sighting it carries. */
    method FlushUsage(server: UsageServer, resourceServer: bool, delivery: Delivery) returns (raised: bool)
      requires Valid()
      modifies `pending, server
      ensures Valid()
      ensures var taken := resourceServer && |old(pending)| <= 1000 && !delivery.RequestLost?;
              && server.table.Keys == old(server.table).Keys
              && (forall j | j in server.table :: server.table[j].useCount == old(server.table)[j].useCount
                    + if taken then U.EntryOf(old(pending), j).count else 0)
              && (forall j | j in server.table :: server.table[j].lastUsed ==
                    if taken && j in old(pending)
                    then Later(old(server.table)[j].lastUsed, old(pending)[j].lastSeen as real)
                    else old(server.table)[j].lastUsed)
              && pending == (if taken && delivery.Delivered? then map[] else old(pending))
              && raised == (old(pending) != map[] && !(taken && delivery.Delivered?))
    {
      var batch := TakeBatch();
      if batch == map[] { return false; }
      var events := EventsOf(batch);
      raised := true;
      if !delivery.RequestLost? {
        ListingIsUsable(events);
        forall j ensures TotalFor(events, j) == U.EntryOf(batch, j).count { ListingTotals(events, batch, j); }
        forall j, since
          ensures LatestFor(events, j, since) == if j in batch then Later(since, batch[j].lastSeen as real) else since
        {
          ListingLatest(events, batch, j, since);
        }
        var reply := server.ReportUsage(resourceServer, Some(events));
        raised := delivery.ReplyLost? || reply.Err?;
      }
      if raised {
        PutBackOnNothing(batch);
        Restore(batch);
      }
    }
  }
}
