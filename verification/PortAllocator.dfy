/** Port allocation over the process table: the first port of the range that is neither reserved nor in use. */
module PortAllocator {
  import opened Prelude

  type Id = string
  type Ports = map<Id, Option<int>>     // the port column of the process table

  datatype Interval = Interval(start: int, size: int)

  /** The ranges the allocator can be constructed with; 500 ports from 3457 by default. */
  type PortRange = g: Interval | g.start >= 1024 && g.size > 0 witness Interval(3457, 500)

  const DEFAULT_RANGE: PortRange := Interval(3457, 500)

  predicate InRange(g: PortRange, port: int) {
    g.start <= port < g.start + g.size
  }

  lemma DefaultPorts(port: int)
    ensures InRange(DEFAULT_RANGE, port) <==> 3457 <= port <= 3956
  {}

  function PortOf(ports: Ports, id: Id): Option<int> {
    if id in ports then ports[id] else None
  }

  function AllPorts(ports: Ports): set<int> {
    set id | id in ports && ports[id].Some? :: ports[id].value
  }

  /** What the allocator skips: every port of the table, less the process's own. */
  function Used(ports: Ports, own: Id): set<int> {
    AllPorts(ports) - if PortOf(ports, own).Some? then {PortOf(ports, own).value} else {}
  }

  predicate Free(g: PortRange, ports: Ports, own: Id, listening: set<int>, port: int) {
    InRange(g, port) && port !in Used(ports, own) && port !in listening
  }

  /** The least free port of the range, from `from` on. */
  function LeastFree(g: PortRange, ports: Ports, own: Id, listening: set<int>, from: int): (r: Option<int>)
    requires g.start <= from <= g.start + g.size
    ensures r.Some? ==> r.value >= from && Free(g, ports, own, listening, r.value)
                        && forall p | from <= p < r.value :: !Free(g, ports, own, listening, p)
    ensures r.None? <==> forall p | p >= from :: !Free(g, ports, own, listening, p)
    decreases g.start + g.size - from
  {
    if from == g.start + g.size then None
    else if Free(g, ports, own, listening, from) then Some(from)
    else LeastFree(g, ports, own, listening, from + 1)
  }

  function Allocation(g: PortRange, ports: Ports, own: Id, listening: set<int>): (r: Option<int>)
    ensures r.Some? ==> Free(g, ports, own, listening, r.value)
                        && forall p | p < r.value :: !Free(g, ports, own, listening, p)
    ensures r.None? <==> forall p :: !Free(g, ports, own, listening, p)
  {
    LeastFree(g, ports, own, listening, g.start)
  }

  /** The least free port; `None` (the PortAllocationError) exactly when the range has none. */
  method Allocate(g: PortRange, ports: Ports, own: Id, listening: set<int>) returns (r: Option<int>)
    ensures r.Some? ==> Free(g, ports, own, listening, r.value)
                        && forall p | p < r.value :: !Free(g, ports, own, listening, p)
    ensures r.None? <==> forall p :: !Free(g, ports, own, listening, p)
  {
    var used := set id | id in ports && ports[id].Some? :: ports[id].value;
    if own in ports && ports[own].Some? { used := used - {ports[own].value}; }
    assert used == Used(ports, own);
    for port := g.start to g.start + g.size
      invariant forall p | g.start <= p < port :: !Free(g, ports, own, listening, p)
    {
      if port in used { continue; }
      if port in listening { continue; }
      return Some(port);
    }
    r := None;
  }

  predicate HeldByAnother(ports: Ports, own: Id, port: int) {
    exists id | id in ports :: id != own && ports[id] == Some(port)
  }

  /** Before the call: the process has a port of the range that nothing listens on, another row has it too, and every
      earlier port of the range is listening or on another row. */
  predicate OwnIsSharedAndFirst(g: PortRange, ports: Ports, own: Id, listening: set<int>) {
    && PortOf(ports, own).Some?
    && var port := PortOf(ports, own).value;
    && InRange(g, port) && port !in listening && HeldByAnother(ports, own, port)
    && forall k | g.start <= k < port :: k in listening || HeldByAnother(ports, own, k)
  }

  lemma UsedIsHeldByAnother(ports: Ports, own: Id, port: int)
    requires PortOf(ports, own) != Some(port)
    ensures port in Used(ports, own) <==> HeldByAnother(ports, own, port)
  {
    if HeldByAnother(ports, own, port) {
      var id :| id in ports && id != own && ports[id] == Some(port);
      assert port in AllPorts(ports);
    }
  }

  /** Exactly when a process is given a port that another row holds. The own port is taken off the list of used ones
      even if somebody else has it too. */
  lemma SharedExactlyWhen(g: PortRange, ports: Ports, own: Id, listening: set<int>)
    ensures var r := Allocation(g, ports, own, listening);
            r.Some? && HeldByAnother(ports, own, r.value) <==> OwnIsSharedAndFirst(g, ports, own, listening)
  {
    var r := Allocation(g, ports, own, listening);
    forall p | PortOf(ports, own) != Some(p)
      ensures Free(g, ports, own, listening, p)
          <==> InRange(g, p) && p !in listening && !HeldByAnother(ports, own, p)
    {
      UsedIsHeldByAnother(ports, own, p);
    }
    if OwnIsSharedAndFirst(g, ports, own, listening) {
      assert Free(g, ports, own, listening, PortOf(ports, own).value);
    }
    if r.Some? && HeldByAnother(ports, own, r.value) {
      assert PortOf(ports, own) == r;
      forall k | g.start <= k < r.value ensures k in listening || HeldByAnother(ports, own, k) {
        assert !Free(g, ports, own, listening, k);
      }
    }
  }

  /** It does happen: a row created by hand with the port of an automatic one. */
  lemma OwnPortCanBeShared()
    ensures var ports: Ports := map["auto" := Some(3457), "manual" := Some(3457)];
            Allocation(DEFAULT_RANGE, ports, "auto", {}) == Some(3457) && HeldByAnother(ports, "auto", 3457)
  {
    var ports: Ports := map["auto" := Some(3457), "manual" := Some(3457)];
    assert ports["manual"] == Some(3457);
    assert 3457 !in Used(ports, "auto");
    assert Free(DEFAULT_RANGE, ports, "auto", {}, 3457);
  }
}
