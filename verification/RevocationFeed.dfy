/**
 The revocation feed: how an offline verifier's deny list follows the server's token table.

 A revocation is stamped with the clock and becomes visible when its transaction commits, at most `OVERLAP` seconds
 later. Polls are requests in flight: sent with the cursor of that moment, answered by the server at some later
 moment, and applied, or lost, at yet a later one - any number of them may overlap. The server's timestamps are all
 read from one clock, so its constant offset from UTC is left out.
 */
module RevocationFeed {
  import opened Prelude

  type Jti = string

  const OVERLAP := 5

  datatype Kind = Access | Refresh | Pat

  /** A committed token row; `expires` is a whole second. */
  datatype Row = Row(kind: Kind, expires: int, revokedAt: Option<Time>)

  type Rows = map<Jti, Row>
  type DenyList = map<Jti, int>      // jti -> exp

  // ---------------------------------------------------------------- the server's answer

  predicate Listed(row: Row, since: Option<int>, now: Time) {
    && row.revokedAt.Some? && !(row.expires as real < now) && row.kind != Refresh
    && (since.Some? ==> row.revokedAt.value >= since.value as real)
  }

  /** `list_revoked_unexpired`, as what the response tells: jti to exp. `query` is when the SQL ran. */
  function Answer(rows: Rows, since: Option<int>, query: Time): DenyList {
    map j | j in rows && Listed(rows[j], since, query) :: rows[j].expires
  }

  /** The feed carries access tokens and PATs that were revoked at or after the cursor and are not over yet. */
  lemma AnswerMeans(rows: Rows, since: Option<int>, query: Time, j: Jti)
    ensures var answer := Answer(rows, since, query);
            && (j in answer <==>
                  && j in rows && rows[j].kind in {Access, Pat} && rows[j].revokedAt.Some?
                  && rows[j].expires as real >= query
                  && (since.Some? ==> since.value as real <= rows[j].revokedAt.value))
            && (j in answer ==> answer[j] == rows[j].expires)
  {}

  // ---------------------------------------------------------------- the verifier's side

  /** `forget entries once the token would have expired anyway` */
  function Purged(deny: DenyList, now: int): DenyList {
    map j | j in deny && !(deny[j] < now) :: deny[j]
  }

  function Cursor(now: int): int {
    if now - OVERLAP > 0 then now - OVERLAP else 0
  }

  // ---------------------------------------------------------------- the system

  /** A poll in flight: sent with a cursor; the server has read its clock (`now`, truncated for the response); the
      server has run the query, at `query`. */
  datatype Poll =
    | Sent(since: Option<int>)
    | Reading(since: Option<int>, now: int)
    | Answered(since: Option<int>, now: int, query: Time, items: DenyList)

  /** `stamped` holds revocations not yet committed. History: `seen[j]` is when the revocation of `j` became visible,
      and `horizon` the latest query time among the polls applied so far. */
  datatype System = System(
    clock: Time, rows: Rows, stamped: map<Jti, Time>,
    deny: DenyList, lastPoll: Option<int>, polls: map<nat, Poll>,
    seen: map<Jti, Time>, horizon: Time)

  datatype Step =
    | Tick(to: Time)
    | Issue(jti: Jti, kind: Kind, expires: int)
    | Stamp(jti: Jti)
    | Commit(jti: Jti)
    | Abort(jti: Jti)
    | Send(id: nat)
    | ReadClock(id: nat)
    | Query(id: nat)
    | Apply(id: nat)
    | Lose(id: nat)

  predicate Enabled(s: System, e: Step) {
    match e
    case Tick(to) => s.clock <= to
    case Issue(j, kind, expires) => j !in s.rows
    case Stamp(j) => j in s.rows && s.rows[j].revokedAt.None? && j !in s.stamped
    case Commit(j) => j in s.stamped && j in s.rows && s.rows[j].revokedAt.None?
                      && s.clock <= s.stamped[j] + OVERLAP as real
    case Abort(j) => j in s.stamped
    case Send(id) => id !in s.polls
    case ReadClock(id) => id in s.polls && s.polls[id].Sent?
    case Query(id) => id in s.polls && s.polls[id].Reading?
    case Apply(id) => id in s.polls && s.polls[id].Answered?
    case Lose(id) => id in s.polls
  }

  function Applied(s: System, id: nat): System
    requires id in s.polls && s.polls[id].Answered?
  {
    var p := s.polls[id];
    s.(deny := Purged(s.deny + p.items, p.now), lastPoll := Some(Cursor(p.now)), polls := s.polls - {id},
       horizon := if p.query > s.horizon then p.query else s.horizon)
  }

  function Next(s: System, e: Step): System
    requires Enabled(s, e)
  {
    match e
    case Tick(to) => s.(clock := to)
    case Issue(j, kind, expires) => s.(rows := s.rows[j := Row(kind, expires, None)])
    case Stamp(j) => s.(stamped := s.stamped[j := s.clock])
    case Commit(j) =>
      s.(rows := s.rows[j := s.rows[j].(revokedAt := Some(s.stamped[j]))],
         stamped := s.stamped - {j}, seen := s.seen[j := s.clock])
    case Abort(j) => s.(stamped := s.stamped - {j})
    case Send(id) => s.(polls := s.polls[id := Sent(s.lastPoll)])
    case ReadClock(id) => s.(polls := s.polls[id := Reading(s.polls[id].since, s.clock.Floor)])
    case Query(id) =>
      var p := s.polls[id];
      s.(polls := s.polls[id := Answered(p.since, p.now, s.clock, Answer(s.rows, p.since, s.clock))])
    case Apply(id) => Applied(s, id)
    case Lose(id) => s.(polls := s.polls - {id})
  }

  function Start(clock: Time): System {
    System(clock, map[], map[], map[], None, map[], map[], 0.0)
  }

  predicate ValidRun(s: System, es: seq<Step>)
    decreases |es|
  {
    es == [] || (Enabled(s, es[0]) && ValidRun(Next(s, es[0]), es[1..]))
  }

  function Run(s: System, es: seq<Step>): System
    requires ValidRun(s, es)
    decreases |es|
  {
    if es == [] then s else Run(Next(s, es[0]), es[1..])
  }

  // ---------------------------------------------------------------- the invariant

  /** Revoked, visibly, and of a kind the feed carries. */
  predicate Visible(s: System, j: Jti) {
    j in s.rows && s.rows[j].revokedAt.Some? && s.rows[j].kind != Refresh && j in s.seen
  }

  /** On the deny list, unless an applied poll has already found the token expired. */
  predicate Covered(s: System, j: Jti) {
    j in s.rows && (j in s.deny || s.rows[j].expires as real < s.horizon)
  }

  predicate Timely(row: Row, seen: Time, clock: Time) {
    row.revokedAt.Some? && 0.0 <= row.revokedAt.value <= seen <= clock && seen <= row.revokedAt.value + OVERLAP as real
  }

  ghost predicate TablesInv(s: System) {
    && s.clock >= 0.0 && s.horizon <= s.clock
    && (forall j | j in s.stamped :: 0.0 <= s.stamped[j] <= s.clock)
    && (forall j | j in s.rows && s.rows[j].revokedAt.Some? :: j in s.seen && Timely(s.rows[j], s.seen[j], s.clock))
  }

  /** The deny list holds revoked tokens only, under their real expiry. */
  ghost predicate Truthful(s: System, deny: DenyList) {
    forall j | j in deny :: Visible(s, j) && deny[j] == s.rows[j].expires
  }

  /** Whatever a poll with this cursor will not list is covered already. */
  ghost predicate CursorInv(s: System, since: Option<int>) {
    since.Some? ==>
      && (since.value == 0 || since.value as real + OVERLAP as real <= s.clock)
      && forall j | Visible(s, j) && s.rows[j].revokedAt.value < since.value as real :: Covered(s, j)
  }

  ghost predicate PollInv(s: System, p: Poll) {
    && CursorInv(s, p.since)
    && (p.Reading? ==> p.now as real <= s.clock)
    && (p.Answered? ==>
          && p.now as real <= p.query <= s.clock
          && Truthful(s, p.items)
          && (forall j | Visible(s, j) && s.seen[j] < p.query ::
                j in p.items || Covered(s, j) || s.rows[j].expires as real < p.query))
  }

  ghost predicate Inv(s: System) {
    && TablesInv(s)
    && Truthful(s, s.deny)
    && CursorInv(s, s.lastPoll)
    && forall id | id in s.polls :: PollInv(s, s.polls[id])
  }

  /** Time passes, tokens are issued, polls come and go: nothing visible changes. */
  ghost predicate SameView(s: System, n: System) {
    && s.clock <= n.clock && n.deny == s.deny && n.horizon == s.horizon && n.seen == s.seen
    && (forall j | j in s.rows :: j in n.rows && n.rows[j] == s.rows[j])
    && (forall j | j in n.rows && j !in s.rows :: n.rows[j].revokedAt.None?)
  }

  lemma SameViewKeeps(s: System, n: System, p: Poll)
    requires SameView(s, n) && PollInv(s, p)
    ensures PollInv(n, p)
  {
    forall j | Visible(n, j) ensures Visible(s, j) {}
  }

  lemma QuietKeepsInv(s: System, e: Step)
    requires Inv(s) && Enabled(s, e)
    requires e.Tick? || e.Issue? || e.Stamp? || e.Abort? || e.Send? || e.ReadClock? || e.Lose?
    ensures Inv(Next(s, e))
  {
    var n := Next(s, e);
    assert SameView(s, n);
    SameViewKeeps(s, n, Sent(s.lastPoll));
    forall id | id in n.polls ensures PollInv(n, n.polls[id]) {
      if id in s.polls { SameViewKeeps(s, n, s.polls[id]); }
    }
  }

  /** A revocation that becomes visible now was stamped at most OVERLAP ago, so no cursor is past it. */
  lemma CommitKeepsPoll(s: System, j: Jti, p: Poll)
    requires TablesInv(s) && Enabled(s, Commit(j)) && PollInv(s, p)
    ensures PollInv(Next(s, Commit(j)), p)
  {
    var n := Next(s, Commit(j));
    forall k | Visible(n, k) && k != j ensures Visible(s, k) && n.rows[k] == s.rows[k] && n.seen[k] == s.seen[k] {}
  }

  lemma CommitKeepsInv(s: System, j: Jti)
    requires Inv(s) && Enabled(s, Commit(j))
    ensures Inv(Next(s, Commit(j)))
  {
    var n := Next(s, Commit(j));
    CommitKeepsPoll(s, j, Sent(s.lastPoll));
    forall id | id in n.polls ensures PollInv(n, n.polls[id]) { CommitKeepsPoll(s, j, s.polls[id]); }
  }

  lemma QueryKeepsInv(s: System, id: nat)
    requires Inv(s) && Enabled(s, Query(id))
    ensures Inv(Next(s, Query(id)))
  {
    var n := Next(s, Query(id));
    assert SameView(s, n);
    SameViewKeeps(s, n, Sent(s.lastPoll));
    forall i | i in n.polls ensures PollInv(n, n.polls[i]) {
      SameViewKeeps(s, n, s.polls[i]);
    }
  }

  /** Applying an answer covers everything visible before its query. */
  lemma ApplyCovers(s: System, id: nat, j: Jti)
    requires Inv(s) && Enabled(s, Apply(id)) && Visible(s, j)
    ensures Covered(s, j) ==> Covered(Applied(s, id), j)
    ensures s.seen[j] < s.polls[id].query ==> Covered(Applied(s, id), j)
  {
    assert PollInv(s, s.polls[id]);
  }

  lemma ApplyKeepsInv(s: System, id: nat)
    requires Inv(s) && Enabled(s, Apply(id))
    ensures Inv(Applied(s, id))
  {
    var n, p := Applied(s, id), s.polls[id];
    assert PollInv(s, p);
    forall j | Visible(s, j) ensures Covered(s, j) ==> Covered(n, j)
    {
      ApplyCovers(s, id, j);
    }
    forall j | Visible(n, j) && n.rows[j].revokedAt.value < Cursor(p.now) as real ensures Covered(n, j) {
      ApplyCovers(s, id, j);
      assert Timely(s.rows[j], s.seen[j], s.clock);
    }
    forall i | i in n.polls ensures PollInv(n, n.polls[i]) {
      assert PollInv(s, s.polls[i]);
    }
  }

  lemma {:induction false} RunKeepsInv(s: System, es: seq<Step>)
    requires Inv(s) && ValidRun(s, es)
    ensures Inv(Run(s, es))
    decreases |es|
  {
    if es != [] {
      match es[0] {
        case Commit(j) => CommitKeepsInv(s, j);
        case Query(id) => QueryKeepsInv(s, id);
        case Apply(id) => ApplyKeepsInv(s, id);
        case _ => QuietKeepsInv(s, es[0]);
      }
      RunKeepsInv(Next(s, es[0]), es[1..]);
    }
  }

  // ---------------------------------------------------------------- what the verifier can rely on

  /** After any run and any applied poll, the deny list holds every access token and PAT whose revocation was visible
      before the server read its rows, unless an applied poll found it expired. When answers are applied in order the
      horizon is this poll's own query time: nothing unexpired is missing. */
  lemma {:induction false} PollCatchesUp(clock: Time, es: seq<Step>, id: nat, j: Jti)
    requires clock >= 0.0 && ValidRun(Start(clock), es)
    requires var s := Run(Start(clock), es);
             Enabled(s, Apply(id)) && Visible(s, j) && s.seen[j] < s.polls[id].query
    ensures var s := Run(Start(clock), es);
            var n := Next(s, Apply(id));
            n.horizon <= s.rows[j].expires as real ==> j in n.deny
    ensures var s := Run(Start(clock), es);
            s.horizon <= s.polls[id].query ==> Next(s, Apply(id)).horizon == s.polls[id].query
  {
    RunKeepsInv(Start(clock), es);
    ApplyCovers(Run(Start(clock), es), id, j);
  }

  /** The same, counted from the revocation's own timestamp: OVERLAP seconds are enough. */
  lemma {:induction false} RevocationTakesEffect(clock: Time, es: seq<Step>, id: nat, j: Jti)
    requires clock >= 0.0 && ValidRun(Start(clock), es)
    requires var s := Run(Start(clock), es);
             && Enabled(s, Apply(id)) && Visible(s, j) && s.horizon <= s.polls[id].query
             && s.rows[j].revokedAt.value + OVERLAP as real < s.polls[id].query <= s.rows[j].expires as real
    ensures j in Next(Run(Start(clock), es), Apply(id)).deny
  {
    RunKeepsInv(Start(clock), es);
    var s := Run(Start(clock), es);
    assert Timely(s.rows[j], s.seen[j], s.clock);
    PollCatchesUp(clock, es, id, j);
  }

  /** The verifier never denies a token that was not revoked, and forgets one only when it has expired. */
  lemma {:induction false} DenialsAreJust(clock: Time, es: seq<Step>, e: Step, j: Jti)
    requires clock >= 0.0 && ValidRun(Start(clock), es) && Enabled(Run(Start(clock), es), e)
    requires j in Run(Start(clock), es).deny
    ensures var s := Run(Start(clock), es);
            && Visible(s, j) && s.deny[j] == s.rows[j].expires
            && (j !in Next(s, e).deny ==> s.rows[j].expires as real < s.clock)
  {
    RunKeepsInv(Start(clock), es);
    var s := Run(Start(clock), es);
    if e.Apply? { assert PollInv(s, s.polls[e.id]); }
  }
}
