/** Blacklisting nodes by index, address or url, over a node list with parallel weights. */
module NodeList {

  datatype Node = Node(address: string, url: string, index: nat, blocked: bool)

  datatype Data = Data(nodes: seq<Node>, until: seq<nat>, dirty: bool)

  datatype Ret = Ok | AlreadyBlocked

  const UINT64 := 0x1_0000_0000_0000_0000

  datatype Query = ByIndex(index: nat) | ByAddress(address: string) | ByUrl(url: string)

  /** A call, with the time it reads. */
  datatype Call = Call(query: Query, secs: nat, now: nat)

  predicate Valid(d: Data) { |d.nodes| == |d.until| }

  predicate Matches(n: Node, q: Query) {
    match q case ByIndex(_) => false case ByAddress(a) => n.address == a case ByUrl(u) => n.url == u
  }

  /** The first matching position from i on, or the length of the list. */
  function FirstMatch(nodes: seq<Node>, q: Query, i: nat): (k: nat)
    requires i <= |nodes|
    ensures i <= k <= |nodes| && (k < |nodes| ==> Matches(nodes[k], q))
    ensures forall j | i <= j < k :: !Matches(nodes[j], q)
    decreases |nodes| - i
  {
    if i == |nodes| || Matches(nodes[i], q) then i else FirstMatch(nodes, q, i + 1)
  }

  /** The position a call is about; the length of the list if there is none. */
  function Target(nodes: seq<Node>, q: Query): (t: nat)
    ensures t <= |nodes|
  {
    var index :=
      if q.ByIndex? then q.index
      else var k := FirstMatch(nodes, q, 0); if k < |nodes| then nodes[k].index else |nodes|;
    if index < |nodes| then index else |nodes|
  }

  /** The time of the call plus the seconds, in 64 bits. */
  function Until(c: Call): (u: nat)
    ensures u < UINT64 && (u - c.now - c.secs) % UINT64 == 0
    ensures c.now + c.secs < UINT64 ==> u == c.now + c.secs
  {
    (c.now + c.secs) % UINT64
  }

  function Blacklisted(d: Data, c: Call): Data
    requires Valid(d)
  {
    var t := Target(d.nodes, c.query);
    if t == |d.nodes| || d.nodes[t].blocked then d
    else Data(d.nodes[t := d.nodes[t].(blocked := true)], d.until[t := Until(c)], d.dirty || d.until[t] != Until(c))
  }

  function Result(d: Data, c: Call): Ret {
    var t := Target(d.nodes, c.query);
    if t < |d.nodes| && d.nodes[t].blocked then AlreadyBlocked else Ok
  }

  // ---- the code ----

  class Nodes {
    const nodes: array<Node>
    const until: array<nat>
    var dirty: bool

    ghost predicate Valid()
      reads this
    {
      nodes.Length == until.Length
    }

    ghost function Model(): Data
      reads this, nodes, until
    {
      Data(nodes[..], until[..], dirty)
    }

    constructor (nodes: array<Node>, until: array<nat>)
      requires nodes.Length == until.Length
      ensures Valid() && Model() == Data(nodes[..], until[..], false)
    {
      this.nodes, this.until, dirty := nodes, until, false;
    }

    /** `blacklist_node` */
    method BlacklistNode(index: nat, secs: nat, now: nat) returns (r: Ret)
      requires Valid()
      modifies this, nodes, until
      ensures Valid()
      ensures
        var c := Call(ByIndex(index), secs, now);
        Model() == Blacklisted(old(Model()), c) && r == Result(old(Model()), c)
    {
      if index < nodes.Length && nodes[index].blocked {
        return AlreadyBlocked;
      }
      if index < nodes.Length && !nodes[index].blocked {
        var u := (now + secs) % UINT64;
        if until[index] != u {
          dirty := true;
        }
        until[index] := u;
        nodes[index] := nodes[index].(blocked := true);
      }
      return Ok;
    }

    /** `blacklist_node_addr` and `blacklist_node_url`: the first match, by the index it carries. */
    method BlacklistFirst(q: Query, secs: nat, now: nat) returns (r: Ret)
      requires Valid() && !q.ByIndex?
      modifies this, nodes, until
      ensures Valid()
      ensures Model() == Blacklisted(old(Model()), Call(q, secs, now)) && r == Result(old(Model()), Call(q, secs, now))
    {
      for i := 0 to nodes.Length
        invariant Model() == old(Model())
        invariant FirstMatch(nodes[..], q, 0) == FirstMatch(nodes[..], q, i)
      {
        if Matches(nodes[i], q) {
          r := BlacklistNode(nodes[i].index, secs, now);
          return;
        }
      }
      return Ok;
    }
  }

  // ---- runs ----

  function Run(d: Data, calls: seq<Call>): (r: Data)
    requires Valid(d)
    ensures Valid(r) && |r.nodes| == |d.nodes|
  {
    if calls == [] then d else Blacklisted(Run(d, calls[..|calls| - 1]), calls[|calls| - 1])
  }

  /** Addresses, urls and indices stay, so every call of a run is about the node it would be about at the start. */
  lemma SameTarget(a: seq<Node>, b: seq<Node>, q: Query)
    requires |a| == |b| && forall i | 0 <= i < |a| :: a[i] == b[i].(blocked := a[i].blocked)
    ensures Target(a, q) == Target(b, q)
  {
    var k, m := FirstMatch(a, q, 0), FirstMatch(b, q, 0);
    assert k < |a| ==> Matches(b[k], q);
    assert m < |b| ==> Matches(a[m], q);
  }

  /** The first of the calls about node i, or their number. */
  function FirstCall(nodes: seq<Node>, calls: seq<Call>, i: nat): (k: nat)
    ensures k <= |calls|
    ensures k < |calls| ==> Target(nodes, calls[k].query) == i
    ensures forall j | 0 <= j < k :: Target(nodes, calls[j].query) != i
  {
    if calls == [] then 0
    else
      var k := FirstCall(nodes, calls[..|calls| - 1], i);
      if k < |calls| - 1 || Target(nodes, calls[|calls| - 1].query) == i then k else |calls|
  }

  /** What a run makes of node i: blocked by the first call about it, with that call's time, and never again. */
  ghost predicate Outcome(d: Data, r: Data, calls: seq<Call>, i: nat)
    requires Valid(d) && Valid(r) && |r.nodes| == |d.nodes| && i < |d.nodes|
  {
    var k := FirstCall(d.nodes, calls, i);
    && r.nodes[i] == d.nodes[i].(blocked := d.nodes[i].blocked || k < |calls|)
    && r.until[i] == if d.nodes[i].blocked || k == |calls| then d.until[i] else Until(calls[k])
  }

  /**
   After every run of blacklist calls each node is blocked exactly if it was, or
   some call was about it; its time is written at most once, by the first such
   call; and the data is dirty exactly if it was or some time has changed.
   */
  lemma {:induction false} RunOutcome(d: Data, calls: seq<Call>)
    requires Valid(d)
    ensures forall i | 0 <= i < |d.nodes| :: Outcome(d, Run(d, calls), calls, i)
    ensures Run(d, calls).dirty <==> d.dirty || Run(d, calls).until != d.until
  {
    if calls != [] {
      var front, c := calls[..|calls| - 1], calls[|calls| - 1];
      RunOutcome(d, front);
      var m, r := Run(d, front), Run(d, calls);
      forall i | 0 <= i < |d.nodes| ensures m.nodes[i] == d.nodes[i].(blocked := m.nodes[i].blocked) {
        assert Outcome(d, m, front, i);
      }
      SameTarget(m.nodes, d.nodes, c.query);
      var t := Target(d.nodes, c.query);
      forall i | 0 <= i < |d.nodes| ensures Outcome(d, r, calls, i) {
        assert Outcome(d, m, front, i);
      }
      if t < |d.nodes| && !m.nodes[t].blocked {
        assert Outcome(d, m, front, t);
        assert m.until[t] == d.until[t];
        assert r.until != d.until <==> m.until != d.until || Until(c) != d.until[t];
      }
    }
  }

  /** The positions of blocked nodes. */
  function Blocked(d: Data): set<nat> { set i | 0 <= i < |d.nodes| && d.nodes[i].blocked }

  /** On a list whose nodes carry their position as index, a call is about its first match. */
  lemma TargetIsFirstMatch(nodes: seq<Node>, q: Query)
    requires !q.ByIndex? && forall i | 0 <= i < |nodes| :: nodes[i].index == i
    ensures Target(nodes, q) == FirstMatch(nodes, q, 0)
  {
  }

  /** The blocked set grows by exactly the targets of the calls. */
  lemma BlockedGrows(d: Data, calls: seq<Call>)
    requires Valid(d)
    ensures
      Blocked(Run(d, calls)) ==
      Blocked(d) + set k | 0 <= k < |calls| && Target(d.nodes, calls[k].query) < |d.nodes| :: Target(d.nodes, calls[k].query)
  {
    RunOutcome(d, calls);
    var r := Run(d, calls);
    var targets := set k | 0 <= k < |calls| && Target(d.nodes, calls[k].query) < |d.nodes| :: Target(d.nodes, calls[k].query);
    forall i: nat ensures i in Blocked(r) <==> i in Blocked(d) + targets {
      if i < |d.nodes| {
        assert Outcome(d, r, calls, i);
        var k := FirstCall(d.nodes, calls, i);
        assert k < |calls| <==> i in targets;
      }
    }
  }

  /** By index a call is about that position; by address or url about the first node that has it. */
  lemma TargetIs(nodes: seq<Node>, q: Query)
    requires forall i | 0 <= i < |nodes| :: nodes[i].index == i
    ensures
      var t := Target(nodes, q);
      match q
      case ByIndex(i) => t == if i < |nodes| then i else |nodes|
      case ByAddress(a) =>
        (t < |nodes| ==> nodes[t].address == a) && forall i | 0 <= i < t :: nodes[i].address != a
      case ByUrl(u) =>
        (t < |nodes| ==> nodes[t].url == u) && forall i | 0 <= i < t :: nodes[i].url != u
  {
    if !q.ByIndex? {
      TargetIsFirstMatch(nodes, q);
      var t := FirstMatch(nodes, q, 0);
      assert forall i | 0 <= i < t :: !Matches(nodes[i], q);
    }
  }

  /** A call reports an error exactly if it is about a node that was blocked at the start or by an earlier call. */
  lemma ErrorExactlyIfBlocked(d: Data, calls: seq<Call>, c: Call)
    requires Valid(d)
    ensures
      Result(Run(d, calls), c) == AlreadyBlocked <==>
      var t := Target(d.nodes, c.query);
      t < |d.nodes| && (d.nodes[t].blocked || exists k | 0 <= k < |calls| :: Target(d.nodes, calls[k].query) == t)
  {
    RunOutcome(d, calls);
    var r := Run(d, calls);
    forall i | 0 <= i < |d.nodes| ensures r.nodes[i] == d.nodes[i].(blocked := r.nodes[i].blocked) {
      assert Outcome(d, r, calls, i);
    }
    SameTarget(r.nodes, d.nodes, c.query);
    var t := Target(d.nodes, c.query);
    if t < |d.nodes| {
      assert Outcome(d, r, calls, t);
      var k := FirstCall(d.nodes, calls, t);
      assert k < |calls| ==> Target(d.nodes, calls[k].query) == t;
    }
  }
}
