/**
 Usage reports: an offline verifier counts what it accepts, swaps the counters out, sends them, and puts them back when
 the post fails. The server folds a report event by event, each in a transaction of its own.

 Flushes may overlap, and a post that failed for the verifier may still be at work on the server.
 */
module UsageReports {
  import opened Prelude

  type Jti = string

  const MAX_USAGE_EVENTS := 1000

  function Max(a: int, b: int): int {
    if a >= b then a else b
  }

  // ---------------------------------------------------------------- the verifier's counters

  datatype Entry = Entry(count: nat, lastSeen: int)

  type Batch = map<Jti, Entry>

  const BLANK := Entry(0, 0)

  /** `setdefault(jti, [0, 0])`, as a read. */
  function EntryOf(batch: Batch, jti: Jti): Entry {
    if jti in batch then batch[jti] else BLANK
  }

  function Counted(pending: Batch, jti: Jti, now: int): Batch {
    pending[jti := Entry(EntryOf(pending, jti).count + 1, now)]
  }

  function Merged(held: Entry, back: Entry): Entry {
    Entry(held.count + back.count, Max(held.lastSeen, back.lastSeen))
  }

  function PutBack(pending: Batch, batch: Batch): Batch {
    map j | j in pending.Keys + batch.Keys ::
      if j in batch then Merged(EntryOf(pending, j), batch[j]) else pending[j]
  }

  /** A batch that comes back is added to what was counted meanwhile, and the later sighting is kept. */
  lemma PutBackMeans(pending: Batch, batch: Batch, j: Jti)
    ensures var after := PutBack(pending, batch);
            && (j in after <==> j in pending || j in batch)
            && EntryOf(after, j).count == EntryOf(pending, j).count + EntryOf(batch, j).count
            && (j in batch ==> after[j].lastSeen >= batch[j].lastSeen)
            && (j in pending ==> after[j].lastSeen >= pending[j].lastSeen)
            && (j in after ==> after[j].lastSeen in {0, EntryOf(pending, j).lastSeen, EntryOf(batch, j).lastSeen})
  {}

  // ---------------------------------------------------------------- both sides, step by step

  type Tally = map<Jti, nat>

  function At(tally: Tally, jti: Jti): nat {
    if jti in tally then tally[jti] else 0
  }

  function Add(tally: Tally, jti: Jti, n: nat): Tally {
    tally[jti := At(tally, jti) + n]
  }

  /** What the verifier knows of a post. */
  datatype Post = Waiting | Succeeded | Failed

  datatype Flight = Flight(batch: Batch, folded: set<Jti>, post: Post)

  /** `uses` is the server's `use_count` column. History: `verified`, `reported` and `unknown` count the verifications
      made, folded into a row, and dropped because no row had the jti; `issued` is every jti there ever was. */
  datatype System = System(
    pending: Batch, flights: seq<Flight>,
    uses: map<Jti, nat>, issued: set<Jti>,
    verified: Tally, reported: Tally, unknown: Tally)

  datatype Step =
    | Issue(jti: Jti)
    | Delete(jti: Jti)
    | Verify(jti: Jti, now: int)
    | Begin
    | Fold(flight: nat, jti: Jti)
    | Succeed(flight: nat)
    | Fail(flight: nat)

  predicate Enabled(s: System, e: Step) {
    match e
    case Issue(j) => j !in s.issued
    case Delete(j) => true
    case Verify(j, now) => true
    case Begin => true
    case Fold(i, j) =>
      && i < |s.flights| && j in s.flights[i].batch && j !in s.flights[i].folded
      && |s.flights[i].batch| <= MAX_USAGE_EVENTS
    case Succeed(i) =>
      && i < |s.flights| && s.flights[i].post.Waiting? && s.flights[i].folded == s.flights[i].batch.Keys
      && |s.flights[i].batch| <= MAX_USAGE_EVENTS
    case Fail(i) => i < |s.flights| && s.flights[i].post.Waiting?
  }

  function Folded(s: System, i: nat, j: Jti): System
    requires Enabled(s, Fold(i, j))
  {
    var f := s.flights[i];
    var count := f.batch[j].count;
    var t := s.(flights := s.flights[i := f.(folded := f.folded + {j})]);
    if j in s.uses then t.(uses := s.uses[j := s.uses[j] + Max(1, count)], reported := Add(s.reported, j, count))
    else t.(unknown := Add(s.unknown, j, count))
  }

  function Next(s: System, e: Step): System
    requires Enabled(s, e)
  {
    match e
    case Issue(j) => s.(uses := s.uses[j := 0], issued := s.issued + {j})
    case Delete(j) => s.(uses := s.uses - {j})
    case Verify(j, now) => s.(pending := Counted(s.pending, j, now), verified := Add(s.verified, j, 1))
    case Begin => if s.pending == map[] then s
                  else s.(pending := map[], flights := s.flights + [Flight(s.pending, {}, Waiting)])
    case Fold(i, j) => Folded(s, i, j)
    case Succeed(i) => s.(flights := s.flights[i := s.flights[i].(post := Succeeded)])
    case Fail(i) => s.(flights := s.flights[i := s.flights[i].(post := Failed)],
                       pending := PutBack(s.pending, s.flights[i].batch))
  }

  const START := System(map[], [], map[], {}, map[], map[], map[])

  predicate ValidRun(s: System, es: seq<Step>)
    decreases |es|
  {
    es == [] || (Enabled(s, es[0]) && ValidRun(Next(s, es[0]), es[1..]))
  }

  function Run(s: System, es: seq<Step>): System
    requires ValidRun(s, es)
    decreases |es|
  {
    if es == [] then s else Run(Next(s, es[0]), es[1..])
  }

  // ---------------------------------------------------------------- conservation

  /** Verifications sent and not yet folded; verifications put back although the server folded them. */
  datatype Part = Awaited | Doubled

  function Share(f: Flight, j: Jti, part: Part): nat {
    if j !in f.batch then 0
    else if part.Awaited? && f.post.Waiting? && j !in f.folded then f.batch[j].count
    else if part.Doubled? && f.post.Failed? && j in f.folded then f.batch[j].count
    else 0
  }

  function Sum(fs: seq<Flight>, j: Jti, part: Part): nat {
    if fs == [] then 0 else Sum(fs[..|fs| - 1], j, part) + Share(fs[|fs| - 1], j, part)
  }

  lemma {:induction false} SumUpdated(fs: seq<Flight>, i: nat, f: Flight, j: Jti, part: Part)
    requires i < |fs|
    ensures Sum(fs[i := f], j, part) == Sum(fs, j, part) - Share(fs[i], j, part) + Share(f, j, part)
  {
    var last := |fs| - 1;
    if i == last {
      assert fs[i := f][..last] == fs[..last];
    } else {
      SumUpdated(fs[..last], i, f, j, part);
      assert fs[i := f][..last] == fs[..last][i := f];
    }
  }

  ghost predicate Positive(batch: Batch) {
    forall j | j in batch :: batch[j].count >= 1
  }

  /** Per jti, nothing verified is lost; it is counted twice only when a post failed after the server had folded it. */
  ghost predicate Conserved(s: System, j: Jti) {
    At(s.verified, j) + Sum(s.flights, j, Doubled)
    == EntryOf(s.pending, j).count + Sum(s.flights, j, Awaited) + At(s.reported, j) + At(s.unknown, j)
  }

  ghost predicate FlightInv(f: Flight) {
    Positive(f.batch) && f.folded <= f.batch.Keys && (f.post.Succeeded? ==> f.folded == f.batch.Keys)
  }

  ghost predicate UsesInv(uses: map<Jti, nat>, reported: Tally, issued: set<Jti>) {
    && (forall j | j in uses :: uses[j] == At(reported, j))
    && (forall j | j in uses || j in reported :: j in issued)
  }

  ghost predicate Inv(s: System) {
    && Positive(s.pending)
    && FlightsInv(s.flights)
    && UsesInv(s.uses, s.reported, s.issued)
    && (forall j :: Conserved(s, j))
  }

  lemma ShareFolded(f: Flight, k: Jti, j: Jti)
    requires FlightInv(f) && k in f.batch && k !in f.folded
    ensures var g := f.(folded := f.folded + {k});
            Share(g, j, Doubled) - Share(f, j, Doubled) + Share(f, j, Awaited) - Share(g, j, Awaited)
            == if j == k then f.batch[k].count else 0
  {}

  lemma FoldTallies(s: System, i: nat, k: Jti, j: Jti)
    requires Enabled(s, Fold(i, k))
    ensures var n := Folded(s, i, k);
            At(n.reported, j) + At(n.unknown, j)
            == At(s.reported, j) + At(s.unknown, j) + if j == k then s.flights[i].batch[k].count else 0
  {}

  lemma FoldConserves(s: System, i: nat, k: Jti, j: Jti)
    requires Conserved(s, j) && Enabled(s, Fold(i, k)) && FlightInv(s.flights[i])
    ensures Conserved(Folded(s, i, k), j)
  {
    var f := s.flights[i];
    var g := f.(folded := f.folded + {k});
    FoldTallies(s, i, k, j);
    SumUpdated(s.flights, i, g, j, Awaited);
    SumUpdated(s.flights, i, g, j, Doubled);
    ShareFolded(f, k, j);
  }

  lemma SucceedConserves(s: System, i: nat, j: Jti)
    requires Conserved(s, j) && Enabled(s, Succeed(i))
    ensures Conserved(Next(s, Succeed(i)), j)
  {
    var g := s.flights[i].(post := Succeeded);
    SumUpdated(s.flights, i, g, j, Awaited);
    SumUpdated(s.flights, i, g, j, Doubled);
  }

  lemma FailConserves(s: System, i: nat, j: Jti)
    requires Conserved(s, j) && Enabled(s, Fail(i))
    ensures Conserved(Next(s, Fail(i)), j)
  {
    var f := s.flights[i];
    var g := f.(post := Failed);
    SumUpdated(s.flights, i, g, j, Awaited);
    SumUpdated(s.flights, i, g, j, Doubled);
    assert EntryOf(PutBack(s.pending, f.batch), j).count == EntryOf(s.pending, j).count + EntryOf(f.batch, j).count;
  }

  ghost predicate FlightsInv(fs: seq<Flight>) {
    forall i | 0 <= i < |fs| :: FlightInv(fs[i])
  }

  lemma FoldKeepsInv(s: System, i: nat, k: Jti)
    requires Inv(s) && Enabled(s, Fold(i, k))
    ensures Inv(Folded(s, i, k))
  {
    forall j ensures Conserved(Folded(s, i, k), j) { FoldConserves(s, i, k, j); }
  }

  lemma SettleKeepsInv(s: System, e: Step)
    requires Inv(s) && Enabled(s, e) && (e.Succeed? || e.Fail?)
    ensures Inv(Next(s, e))
  {
    forall j ensures Conserved(Next(s, e), j) {
      if e.Succeed? { SucceedConserves(s, e.flight, j); } else { FailConserves(s, e.flight, j); }
    }
  }

  lemma BeginKeepsInv(s: System)
    requires Inv(s) && s.pending != map[]
    ensures Inv(Next(s, Begin))
  {
    var n := Next(s, Begin);
    forall j ensures Conserved(n, j) { assert n.flights[..|n.flights| - 1] == s.flights && Conserved(s, j); }
  }

  lemma VerifyKeepsInv(s: System, j: Jti, now: int)
    requires Inv(s)
    ensures Inv(Next(s, Verify(j, now)))
  {
    forall k ensures Conserved(Next(s, Verify(j, now)), k) { assert Conserved(s, k); }
  }

  lemma RowsKeepInv(s: System, e: Step)
    requires Inv(s) && Enabled(s, e) && (e.Issue? || e.Delete?)
    ensures Inv(Next(s, e))
  {
    forall k ensures Conserved(Next(s, e), k) { assert Conserved(s, k); }
  }

  lemma StepKeepsInv(s: System, e: Step)
    requires Inv(s) && Enabled(s, e)
    ensures Inv(Next(s, e))
  {
    match e {
      case Issue(_) => RowsKeepInv(s, e);
      case Delete(_) => RowsKeepInv(s, e);
      case Verify(j, now) => VerifyKeepsInv(s, j, now);
      case Begin => if s.pending != map[] { BeginKeepsInv(s); }
      case Fold(i, k) => FoldKeepsInv(s, i, k);
      case _ => SettleKeepsInv(s, e);
    }
  }

  lemma {:induction false} RunKeepsInv(s: System, es: seq<Step>)
    requires Inv(s) && ValidRun(s, es)
    ensures Inv(Run(s, es))
    decreases |es|
  {
    if es != [] {
      StepKeepsInv(s, es[0]);
      RunKeepsInv(Next(s, es[0]), es[1..]);
    }
  }

  /** After any run from nothing: the law of conservation, the server's counters, and the server's `max(1, count)`
      being the identity on whatever a verifier has sent or will send. */
  lemma {:induction false} UsageIsConserved(es: seq<Step>, j: Jti)
    requires ValidRun(START, es)
    ensures var s := Run(START, es);
            && Conserved(s, j)
            && (j in s.uses ==> s.uses[j] == At(s.reported, j))
            && (j in s.pending ==> Max(1, s.pending[j].count) == s.pending[j].count)
            && (forall i | 0 <= i < |s.flights| && j in s.flights[i].batch ::
                  Max(1, s.flights[i].batch[j].count) == s.flights[i].batch[j].count)
  {
    RunKeepsInv(START, es);
    var s := Run(START, es);
    forall i | 0 <= i < |s.flights| && j in s.flights[i].batch ensures s.flights[i].batch[j].count >= 1 {
      assert Positive(s.flights[i].batch);
    }
  }

  ghost predicate CleanFailures(s: System) {
    forall f | f in s.flights && f.post.Failed? :: f.folded == {}
  }

  lemma {:induction false} NothingDoubled(fs: seq<Flight>, j: Jti)
    requires forall f | f in fs && f.post.Failed? :: f.folded == {}
    ensures Sum(fs, j, Doubled) == 0
  {
    if fs != [] {
      assert fs[|fs| - 1] in fs;
      NothingDoubled(fs[..|fs| - 1], j);
    }
  }

  /** With failures that left the server untouched the count is exact; in general it is never too low. */
  lemma {:induction false} CleanFailuresCountExactly(es: seq<Step>, j: Jti)
    requires ValidRun(START, es)
    ensures var s := Run(START, es);
            var held := EntryOf(s.pending, j).count + Sum(s.flights, j, Awaited) + At(s.reported, j) + At(s.unknown, j);
            At(s.verified, j) <= held && (CleanFailures(s) ==> At(s.verified, j) == held)
  {
    UsageIsConserved(es, j);
    var s := Run(START, es);
    if CleanFailures(s) { NothingDoubled(s.flights, j); }
  }

  // ---------------------------------------------------------------- more jtis than a report may carry

  /** These counts, at least, are waiting together, in the counters or in one post the server has not touched. */
  ghost predicate Together(s: System, held: Tally) {
    || Holds(s.pending, held)
    || exists f :: f in s.flights && f.post.Waiting? && f.folded == {} && Holds(f.batch, held)
  }

  predicate Holds(batch: Batch, held: Tally) {
    forall j | j in held :: j in batch && batch[j].count >= held[j]
  }

  lemma {:induction false} Fits(small: set<Jti>, large: set<Jti>)
    requires small <= large
    ensures |small| <= |large|
  {
    if small != {} {
      var j :| j in small;
      Fits(small - {j}, large - {j});
    }
  }

  lemma HoldsIsAsLarge(batch: Batch, held: Tally)
    requires Holds(batch, held)
    ensures |batch| >= |held|
  {
    Fits(held.Keys, batch.Keys);
    assert |batch| == |batch.Keys| && |held| == |held.Keys|;
  }

  lemma StuckInPending(s: System, e: Step, held: Tally)
    requires Enabled(s, e) && Holds(s.pending, held)
    ensures Together(Next(s, e), held)
  {
    var n := Next(s, e);
    if e.Begin? && s.pending != map[] {
      var f := n.flights[|n.flights| - 1];
      assert f in n.flights;
    }
  }

  lemma StuckInFlight(s: System, e: Step, held: Tally, i: nat)
    requires Enabled(s, e) && |held| > MAX_USAGE_EVENTS && i < |s.flights|
    requires s.flights[i].post.Waiting? && s.flights[i].folded == {} && Holds(s.flights[i].batch, held)
    ensures Together(Next(s, e), held)
  {
    var n := Next(s, e);
    HoldsIsAsLarge(s.flights[i].batch, held);
    if e != Fail(i) {
      assert n.flights[i] == s.flights[i] && n.flights[i] in n.flights;
    }
  }

  lemma StuckStep(s: System, e: Step, held: Tally)
    requires Enabled(s, e) && |held| > MAX_USAGE_EVENTS && Together(s, held)
    ensures Together(Next(s, e), held)
  {
    if Holds(s.pending, held) {
      StuckInPending(s, e, held);
    } else {
      var f :| f in s.flights && f.post.Waiting? && f.folded == {} && Holds(f.batch, held);
      var i :| 0 <= i < |s.flights| && s.flights[i] == f;
      StuckInFlight(s, e, held, i);
    }
  }

  lemma {:induction false} StuckRun(s: System, es: seq<Step>, held: Tally)
    requires ValidRun(s, es) && |held| > MAX_USAGE_EVENTS && Together(s, held)
    ensures Together(Run(s, es), held)
    decreases |es|
  {
    if es != [] {
      StuckStep(s, es[0], held);
      StuckRun(Next(s, es[0]), es[1..], held);
    }
  }

  lemma {:induction false} SumAtLeast(fs: seq<Flight>, i: nat, j: Jti, part: Part)
    requires i < |fs|
    ensures Sum(fs, j, part) >= Share(fs[i], j, part)
  {
    if i < |fs| - 1 { SumAtLeast(fs[..|fs| - 1], i, j, part); }
  }

  /** More than a thousand distinct jtis between two flushes are never reported: the server refuses the post as a whole
      and the verifier puts it back as a whole. Over any later run, of any length, each jti's count still waits, so what
      was reported of it never includes these verifications. */
  lemma {:induction false} OversizedBatchIsStuck(s: System, es: seq<Step>, held: Tally, j: Jti)
    requires Inv(s) && ValidRun(s, es) && |held| > MAX_USAGE_EVENTS && Together(s, held) && j in held
    ensures var n := Run(s, es);
            && Together(n, held)
            && EntryOf(n.pending, j).count + Sum(n.flights, j, Awaited) >= held[j]
            && At(n.reported, j) + At(n.unknown, j) + held[j] <= At(n.verified, j) + Sum(n.flights, j, Doubled)
  {
    RunKeepsInv(s, es);
    StuckRun(s, es, held);
    var n := Run(s, es);
    if !Holds(n.pending, held) {
      var f :| f in n.flights && f.post.Waiting? && f.folded == {} && Holds(f.batch, held);
      var i :| 0 <= i < |n.flights| && n.flights[i] == f;
      SumAtLeast(n.flights, i, j, Awaited);
    }
    assert Conserved(n, j);
  }

  // ---------------------------------------------------------------- and it happens

  function Name(n: nat): (jti: Jti)
    ensures |jti| == n
  {
    if n == 0 then "" else Name(n - 1) + "x"
  }

  /** One verification each of `n` different tokens. */
  function EachOnce(n: nat): seq<Step> {
    if n == 0 then [] else EachOnce(n - 1) + [Verify(Name(n), 0)]
  }

  function Ones(n: nat): Tally {
    if n == 0 then map[] else Ones(n - 1)[Name(n) := 1]
  }

  lemma {:induction false} RunAppend(s: System, es: seq<Step>, e: Step)
    requires ValidRun(s, es)
    ensures ValidRun(s, es + [e]) <==> Enabled(Run(s, es), e)
    ensures Enabled(Run(s, es), e) ==> Run(s, es + [e]) == Next(Run(s, es), e)
    decreases |es|
  {
    if es == [] {
      assert [] + [e] == [e] && [e][1..] == [];
    } else {
      assert (es + [e])[1..] == es[1..] + [e];
      RunAppend(Next(s, es[0]), es[1..], e);
    }
  }

  lemma {:induction false} OnesAreDistinct(n: nat)
    ensures |Ones(n)| == n && forall j | j in Ones(n) :: |j| <= n
  {
    if n > 0 {
      OnesAreDistinct(n - 1);
      assert Name(n) !in Ones(n - 1);
    }
  }

  lemma CountedHolds(pending: Batch, held: Tally, j: Jti)
    requires Holds(pending, held)
    ensures Holds(Counted(pending, j, 0), held[j := 1])
  {
    forall k | k in held[j := 1] && k in held ensures pending[k].count >= held[k] {}
  }

  lemma {:induction false} EachIsHeld(n: nat)
    ensures ValidRun(START, EachOnce(n)) && Holds(Run(START, EachOnce(n)).pending, Ones(n))
  {
    if n > 0 {
      EachIsHeld(n - 1);
      var s := Run(START, EachOnce(n - 1));
      RunAppend(START, EachOnce(n - 1), Verify(Name(n), 0));
      CountedHolds(s.pending, Ones(n - 1), Name(n));
    }
  }

  /** 1001 tokens, each verified once, from the start: after any run that follows, each of them is still waiting to be
      reported, and what was reported of it falls short of what was verified. */
  lemma {:induction false} ThousandAndOneAreStuck(es: seq<Step>, j: Jti)
    requires ValidRun(START, EachOnce(1001)) && ValidRun(Run(START, EachOnce(1001)), es) && j in Ones(1001)
    ensures |Ones(1001)| == 1001
    ensures var n := Run(Run(START, EachOnce(1001)), es);
            && EntryOf(n.pending, j).count + Sum(n.flights, j, Awaited) >= 1
            && At(n.reported, j) + At(n.unknown, j) < At(n.verified, j) + Sum(n.flights, j, Doubled)
  {
    OnesAreDistinct(1001);
    EachIsHeld(1001);
    RunKeepsInv(START, EachOnce(1001));
    OnesCountOne(1001, j);
    OversizedBatchIsStuck(Run(START, EachOnce(1001)), es, Ones(1001), j);
  }

  lemma {:induction false} OnesCountOne(n: nat, j: Jti)
    requires j in Ones(n)
    ensures Ones(n)[j] == 1
  {
    if j != Name(n) { OnesCountOne(n - 1, j); }
  }

  // ---------------------------------------------------------------- a report that fits

  /** What the server has taken of a jti: into its row, or anyhow. */
  function Taken(s: System, j: Jti, known: bool): nat {
    At(s.reported, j) + if known then 0 else At(s.unknown, j)
  }

  /** Post `i` carries what it carried, and whatever of it was folded since is credited. */
  ghost predicate Credited(s: System, n: System, i: nat, j: Jti, known: bool) {
    && i < |s.flights| && i < |n.flights|
    && n.flights[i].batch == s.flights[i].batch && s.flights[i].folded <= n.flights[i].folded
    && (known ==> j in n.uses)
    && Taken(n, j, known) >= Taken(s, j, known) + NewlyFolded(s.flights[i], n.flights[i], j)
  }

  function NewlyFolded(f: Flight, g: Flight, j: Jti): nat {
    if j in f.batch && j in g.folded && j !in f.folded then f.batch[j].count else 0
  }

  /** A post keeps its batch, is only folded further, and succeeds only if a report may be that large. */
  ghost predicate Proceeds(f: Flight, g: Flight) {
    && g.batch == f.batch && f.folded <= g.folded
    && (g.post.Succeeded? ==> f.post.Succeeded? || |f.batch| <= MAX_USAGE_EVENTS)
  }

  lemma StepProceeds(s: System, e: Step, i: nat)
    requires Enabled(s, e) && i < |s.flights|
    ensures i < |Next(s, e).flights| && Proceeds(s.flights[i], Next(s, e).flights[i])
    ensures !e.Fold? ==> Next(s, e).flights[i].folded == s.flights[i].folded
  {
    match e {
      case Fold(k, j) => assert Next(s, e).flights == s.flights[k := s.flights[k].(folded := s.flights[k].folded + {j})];
      case Succeed(k) => assert k != i ==> Next(s, e).flights[i] == s.flights[i];
      case Fail(k) => assert k != i ==> Next(s, e).flights[i] == s.flights[i];
      case Begin => assert Next(s, e).flights[i] == s.flights[i];
      case _ =>
    }
  }

  lemma FoldCredits(s: System, k: nat, folded: Jti, i: nat, j: Jti, known: bool)
    requires Enabled(s, Fold(k, folded)) && i < |s.flights| && (known ==> j in s.uses)
    ensures Credited(s, Folded(s, k, folded), i, j, known)
  {
    StepProceeds(s, Fold(k, folded), i);
    FoldTallies(s, k, folded, j);
    var n := Folded(s, k, folded);
    assert k != i ==> n.flights[i] == s.flights[i];
    assert k == i ==> n.flights[i].folded == s.flights[i].folded + {folded};
  }

  lemma StepCredits(s: System, e: Step, i: nat, j: Jti, known: bool)
    requires Enabled(s, e) && i < |s.flights| && (known ==> j in s.uses && e != Delete(j))
    ensures Credited(s, Next(s, e), i, j, known)
  {
    if e.Fold? {
      FoldCredits(s, e.flight, e.jti, i, j, known);
    } else {
      StepProceeds(s, e, i);
    }
  }

  lemma {:induction false} RunCredits(s: System, es: seq<Step>, i: nat, j: Jti, known: bool)
    requires ValidRun(s, es) && i < |s.flights| && (known ==> j in s.uses && Delete(j) !in es)
    ensures Credited(s, Run(s, es), i, j, known)
    decreases |es|
  {
    if es != [] {
      StepCredits(s, es[0], i, j, known);
      RunCredits(Next(s, es[0]), es[1..], i, j, known);
    }
  }

  /** A post that succeeds reports everything it carries: over any run in which it does, the server takes every count of
      the batch, and if the jti's row is there all along, into that row. */
  lemma {:induction false} DeliveredIsReported(s: System, es: seq<Step>, i: nat, j: Jti)
    requires Inv(s) && ValidRun(s, es) && i < |s.flights| && s.flights[i].folded == {} && j in s.flights[i].batch
    requires i < |Run(s, es).flights| && Run(s, es).flights[i].post.Succeeded?
    ensures var n, count := Run(s, es), s.flights[i].batch[j].count;
            && Taken(n, j, false) >= Taken(s, j, false) + count
            && (j in s.uses && Delete(j) !in es ==> j in n.uses && n.uses[j] >= s.uses[j] + count)
  {
    RunKeepsInv(s, es);
    RunCredits(s, es, i, j, false);
    assert FlightInv(Run(s, es).flights[i]);
    if j in s.uses && Delete(j) !in es { RunCredits(s, es, i, j, true); }
  }

  lemma OneStep(s: System, e: Step)
    requires Enabled(s, e)
    ensures ValidRun(s, [e]) && Run(s, [e]) == Next(s, e)
  {
    assert [e][1..] == [];
  }

  /** The folds that are left, then the answer. */
  lemma {:induction false} Deliver(s: System, i: nat) returns (es: seq<Step>)
    requires i < |s.flights| && s.flights[i].post.Waiting? && s.flights[i].folded <= s.flights[i].batch.Keys
    requires |s.flights[i].batch| <= MAX_USAGE_EVENTS
    ensures ValidRun(s, es) && i < |Run(s, es).flights| && Run(s, es).flights[i].post.Succeeded?
    decreases |s.flights[i].batch.Keys - s.flights[i].folded|
  {
    var f := s.flights[i];
    var left := f.batch.Keys - f.folded;
    if left == {} {
      assert f.folded == f.batch.Keys by {
        forall j | j in f.batch.Keys ensures j in f.folded { assert j !in left; }
      }
      es := [Succeed(i)];
      OneStep(s, Succeed(i));
    } else {
      var j :| j in left;
      var n := Folded(s, i, j);
      assert n.flights[i] == f.(folded := f.folded + {j});
      assert n.flights[i].batch.Keys - n.flights[i].folded == left - {j};
      var rest := Deliver(n, i);
      es := [Fold(i, j)] + rest;
      assert es[1..] == rest;
    }
  }

  lemma {:induction false} OversizedNeverSucceeds(s: System, es: seq<Step>, i: nat)
    requires ValidRun(s, es) && i < |s.flights| && !s.flights[i].post.Succeeded?
    requires |s.flights[i].batch| > MAX_USAGE_EVENTS
    ensures i < |Run(s, es).flights| && !Run(s, es).flights[i].post.Succeeded?
    decreases |es|
  {
    if es != [] {
      StepProceeds(s, es[0], i);
      OversizedNeverSucceeds(Next(s, es[0]), es[1..], i);
    }
  }

  /** A post that is under way can still succeed exactly if it carries no more jtis than a report may. */
  lemma DeliverableIff(s: System, i: nat)
    requires Inv(s) && i < |s.flights| && s.flights[i].post.Waiting?
    ensures |s.flights[i].batch| <= MAX_USAGE_EVENTS <==>
              exists es :: ValidRun(s, es) && i < |Run(s, es).flights| && Run(s, es).flights[i].post.Succeeded?
  {
    assert FlightInv(s.flights[i]);
    if |s.flights[i].batch| <= MAX_USAGE_EVENTS {
      var es := Deliver(s, i);
    } else {
      forall es | ValidRun(s, es) ensures !(i < |Run(s, es).flights| && Run(s, es).flights[i].post.Succeeded?) {
        OversizedNeverSucceeds(s, es, i);
      }
    }
  }
}
