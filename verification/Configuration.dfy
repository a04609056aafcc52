/**
 Change tracking over the .NET configuration tree: a client configuration, its
 node registry and the registry's nodes, each with a dictionary and a dirty flag.
 */
module Configuration {

  /** A boxed property value; `!=` on stored values compares references. */
  class Box {
    const content: string
    constructor (content: string)
      ensures this.content == content
    {
      this.content := content;
    }
  }

  type Dict = map<string, Box?>

  // ---- the tree as a value ----

  datatype Cell = Cell(state: Dict, dirty: bool)

  /** `SetState` */
  function Written(c: Cell, key: string, value: Box?): Cell {
    Cell(c.state[key := value], c.dirty || key !in c.state || c.state[key] != value)
  }

  datatype Tree = Tree(client: Cell, registry: Cell, nodes: seq<Cell>)

  predicate HasChanged(t: Tree) {
    t.client.dirty || t.registry.dirty || exists i | 0 <= i < |t.nodes| :: t.nodes[i].dirty
  }

  /** What `ToJson` sends to the native client. */
  datatype Sent = Sent(client: Dict, registry: Dict, nodes: seq<Dict>)

  function States(nodes: seq<Cell>): seq<Dict> { seq(|nodes|, i requires 0 <= i < |nodes| => nodes[i].state) }

  function Snapshot(t: Tree): Sent { Sent(t.client.state, t.registry.state, States(t.nodes)) }

  function Cleaned(c: Cell): Cell { c.(dirty := false) }

  function Synced(t: Tree): Tree {
    Tree(Cleaned(t.client), Cleaned(t.registry), seq(|t.nodes|, i requires 0 <= i < |t.nodes| => Cleaned(t.nodes[i])))
  }

  datatype Op =
    | SetClient(key: string, value: Box?)
    | SetRegistry(key: string, value: Box?)
    | SetNode(index: nat, key: string, value: Box?)
    | AddNode
    | SendRpc(accepted: bool)   // whether the native client accepts a configuration it is sent

  /** The tree and what the native client has; `rpcs` lists the configurations RPCs started with. */
  datatype World = World(tree: Tree, native: Sent, rpcs: seq<Sent>)

  function Applied(w: World, op: Op): World {
    match op
    case SetClient(key, value) => w.(tree := w.tree.(client := Written(w.tree.client, key, value)))
    case SetRegistry(key, value) => w.(tree := w.tree.(registry := Written(w.tree.registry, key, value)))
    case SetNode(i, key, value) =>
      if i < |w.tree.nodes| then w.(tree := w.tree.(nodes := w.tree.nodes[i := Written(w.tree.nodes[i], key, value)])) else w
    case AddNode => w.(tree := w.tree.(nodes := w.tree.nodes + [Cell(map[], false)]))
    case SendRpc(accepted) =>
      if !HasChanged(w.tree) then w.(rpcs := w.rpcs + [w.native])
      else if accepted then World(Synced(w.tree), Snapshot(w.tree), w.rpcs + [Snapshot(w.tree)])
      else w
  }

  function Run(w: World, ops: seq<Op>): World {
    if ops == [] then w else Applied(Run(w, ops[..|ops| - 1]), ops[|ops| - 1])
  }

  // ---- "not changed" means "in sync" ----

  /** A clean dictionary holds what was sent; one that was never sent is empty. */
  ghost predicate CellSynced(c: Cell, sent: Dict) { c.dirty || c.state == sent }

  ghost predicate Tracked(w: World) {
    && CellSynced(w.tree.client, w.native.client) && CellSynced(w.tree.registry, w.native.registry)
    && |w.native.nodes| <= |w.tree.nodes|
    && forall i | 0 <= i < |w.tree.nodes| ::
         CellSynced(w.tree.nodes[i], if i < |w.native.nodes| then w.native.nodes[i] else map[])
  }

  lemma WrittenSynced(c: Cell, key: string, value: Box?, sent: Dict)
    requires CellSynced(c, sent)
    ensures CellSynced(Written(c, key, value), sent)
  {
    if key in c.state && c.state[key] == value {
      assert c.state[key := value] == c.state;
    }
  }

  lemma AppliedTracked(w: World, op: Op)
    requires Tracked(w)
    ensures Tracked(Applied(w, op))
  {
    match op
    case SetClient(key, value) => WrittenSynced(w.tree.client, key, value, w.native.client);
    case SetRegistry(key, value) => WrittenSynced(w.tree.registry, key, value, w.native.registry);
    case SetNode(i, key, value) =>
      if i < |w.tree.nodes| {
        WrittenSynced(w.tree.nodes[i], key, value, if i < |w.native.nodes| then w.native.nodes[i] else map[]);
      }
    case AddNode =>
    case SendRpc(_) =>
  }

  lemma {:induction false} RunTracked(w: World, ops: seq<Op>)
    requires Tracked(w)
    ensures Tracked(Run(w, ops))
  {
    if ops != [] {
      RunTracked(w, ops[..|ops| - 1]);
      AppliedTracked(Run(w, ops[..|ops| - 1]), ops[|ops| - 1]);
    }
  }

  /** The configuration that was read from the native client, and marked as synced, is tracked. */
  lemma ReadIsTracked(t: Tree)
    ensures Tracked(World(Synced(t), Snapshot(t), []))
  {
  }

  /** The tree as far as it was sent, and that whatever was added since holds nothing. */
  ghost predicate InSync(t: Tree, sent: Sent) {
    && t.client.state == sent.client && t.registry.state == sent.registry
    && |sent.nodes| <= |t.nodes|
    && (forall i | 0 <= i < |sent.nodes| :: t.nodes[i].state == sent.nodes[i])
    && (forall i | |sent.nodes| <= i < |t.nodes| :: t.nodes[i].state == map[])
  }

  /**
   Over every run of property sets, node additions and RPCs, accepted or not: an
   unchanged tree holds exactly what the native client has, except for nodes
   that were added without any property.
   */
  lemma UnchangedIsInSync(w: World, ops: seq<Op>)
    requires Tracked(w)
    ensures var v := Run(w, ops); !HasChanged(v.tree) ==> InSync(v.tree, v.native)
  {
    RunTracked(w, ops);
  }

  /** The nodes added since the native client was last sent the tree, whatever happened to them since. */
  function Unsent(w: World, ops: seq<Op>): int {
    if ops == [] then |w.tree.nodes| - |w.native.nodes|
    else
      var front := ops[..|ops| - 1];
      match ops[|ops| - 1]
      case AddNode => Unsent(w, front) + 1
      case SendRpc(accepted) => if accepted && HasChanged(Run(w, front).tree) then 0 else Unsent(w, front)
      case _ => Unsent(w, front)
  }

  lemma {:induction false} UnsentNodes(w: World, ops: seq<Op>)
    ensures |Run(w, ops).tree.nodes| - |Run(w, ops).native.nodes| == Unsent(w, ops)
  {
    if ops != [] { UnsentNodes(w, ops[..|ops| - 1]); }
  }

  /** An unchanged tree is what the native client has, except for empty nodes at its end. */
  lemma SnapshotInSync(t: Tree, sent: Sent)
    requires InSync(t, sent)
    ensures Snapshot(t) == sent <==> |t.nodes| == |sent.nodes|
  {
    if |t.nodes| == |sent.nodes| { assert States(t.nodes) == sent.nodes; }
  }

  /**
   Over every run: an RPC starts unless a changed configuration is refused, and
   then tree and native client stay as they were, still to be applied.  If it
   starts, every property set so far is applied; and it starts with the whole
   tree exactly if the tree had changed or no node was added since it was last sent.
   */
  lemma RpcStartsInSync(w: World, ops: seq<Op>, accepted: bool)
    requires Tracked(w)
    ensures
      var v := Run(w, ops);
      var u := Applied(v, SendRpc(accepted));
      && (|u.rpcs| == |v.rpcs| + 1 <==> accepted || !HasChanged(v.tree))
      && (|u.rpcs| == |v.rpcs| + 1 ==>
            && InSync(v.tree, u.rpcs[|v.rpcs|]) && u.native == u.rpcs[|v.rpcs|]
            && (u.rpcs[|v.rpcs|] == Snapshot(v.tree) <==> HasChanged(v.tree) || Unsent(w, ops) == 0))
      && (|u.rpcs| != |v.rpcs| + 1 ==> u == v && HasChanged(u.tree))
  {
    RunTracked(w, ops);
    UnsentNodes(w, ops);
    var v := Run(w, ops);
    if !HasChanged(v.tree) { SnapshotInSync(v.tree, v.native); }
  }

  /** An accepted one cleans the whole tree and changes no property. */
  lemma AcceptedIsClean(w: World)
    requires HasChanged(w.tree)
    ensures
      var u := Applied(w, SendRpc(true));
      !HasChanged(u.tree) && Snapshot(u.tree) == Snapshot(w.tree) == u.native
  {
    var u := Applied(w, SendRpc(true));
    assert States(u.tree.nodes) == States(w.tree.nodes);
  }

  /** An added node without properties goes unnoticed. */
  lemma EmptyNodeUnnoticed(w: World)
    requires Tracked(w) && !HasChanged(w.tree)
    ensures
      var u := Applied(w, AddNode);
      !HasChanged(u.tree) && Applied(u, SendRpc(true)).native != Snapshot(u.tree)
  {
    var u := Applied(w, AddNode);
    assert |u.native.nodes| < |Snapshot(u.tree).nodes|;
  }

  // ---- the objects ----

  /** `BaseConfiguration` */
  class Base {
    var state: Dict
    var isDirty: bool

    constructor ()
      ensures Model() == Cell(map[], false)
    {
      state := map[];
      isDirty := false;
    }

    function Model(): Cell
      reads this
    {
      Cell(state, isDirty)
    }

    method SetState(key: string, value: Box?)
      modifies this
      ensures Model() == Written(old(Model()), key, value)
      ensures key in state && state[key] == value && state.Keys == old(state.Keys) + {key}
      ensures forall k | k in old(state) && k != key :: state[k] == old(state[k])
      ensures isDirty <==> old(isDirty) || key !in old(state) || old(state[key]) != value
    {
      MarkAsDirty(key !in state || state[key] != value);
      state := state[key := value];
    }

    method MarkAsDirty(becameDirty: bool)
      modifies this
      ensures Model() == old(Model()).(dirty := old(isDirty) || becameDirty)
    {
      isDirty := isDirty || becameDirty;
    }

    method Clean()
      modifies this
      ensures Model() == Cleaned(old(Model()))
    {
      isDirty := false;
    }
  }

  /** `ClientConfiguration` with its `NodeRegistryConfiguration` and all `NodeConfiguration`s. */
  class Client {
    const own: Base
    const registry: Base
    var nodes: seq<Base>

    ghost predicate Valid()
      reads this
    {
      && own != registry && own !in nodes && registry !in nodes
      && forall i, j | 0 <= i < j < |nodes| :: nodes[i] != nodes[j]
    }

    ghost function Objects(): set<object>
      reads this
    {
      {this, own, registry} + set n | n in nodes
    }

    ghost function Model(): Tree
      reads Objects()
    {
      Tree(own.Model(), registry.Model(), seq(|nodes|, i requires 0 <= i < |nodes| reads this, nodes => nodes[i].Model()))
    }

    constructor ()
      ensures Valid() && fresh(Objects()) && Model() == Tree(Cell(map[], false), Cell(map[], false), [])
    {
      own := new Base();
      registry := new Base();
      nodes := [];
      new;
    }

    /** The constructor of `NodeConfiguration`: the node adds itself to the registry. */
    method AddNode()
      requires Valid()
      modifies this
      ensures Valid() && fresh(Objects() - old(Objects()))
      ensures Model() == old(Model()).(nodes := old(Model()).nodes + [Cell(map[], false)])
    {
      var node := new Base();
      nodes := nodes + [node];
      assert forall i | 0 <= i < |nodes| - 1 :: nodes[i] == old(nodes)[i];
    }

    method SetNode(index: nat, key: string, value: Box?)
      requires Valid() && index < |nodes|
      modifies nodes[index]
      ensures Valid()
      ensures Model() == old(Model()).(nodes := old(Model()).nodes[index := Written(old(Model()).nodes[index], key, value)])
    {
      nodes[index].SetState(key, value);
    }

    /** All dictionaries of the tree. */
    method ToJson() returns (sent: Sent)
      requires Valid()
      ensures sent == Snapshot(Model())
    {
      var states := [];
      for i := 0 to |nodes|
        invariant |states| == i && forall k | 0 <= k < i :: states[k] == nodes[k].state
      {
        states := states + [nodes[i].state];
      }
      assert states == States(Model().nodes);
      sent := Sent(own.state, registry.state, states);
    }

    method Changed() returns (changed: bool)
      requires Valid()
      ensures changed == HasChanged(Model())
    {
      changed := false;
      for i := 0 to |nodes|
        invariant changed == exists k | 0 <= k < i :: nodes[k].isDirty
      {
        changed := changed || nodes[i].isDirty;
      }
      changed := own.isDirty || registry.isDirty || changed;
      assert forall k | 0 <= k < |nodes| :: Model().nodes[k].dirty == nodes[k].isDirty;
    }

    method MarkSynced()
      requires Valid()
      modifies Objects() - {this}
      ensures Valid() && nodes == old(nodes) && Model() == Synced(old(Model()))
    {
      own.Clean();
      registry.Clean();
      for i := 0 to |nodes|
        invariant Valid() && nodes == old(nodes)
        invariant own.Model() == Cleaned(old(own.Model())) && registry.Model() == Cleaned(old(registry.Model()))
        invariant forall k | 0 <= k < i :: nodes[k].Model() == Cleaned(old(nodes[k].Model()))
        invariant forall k | i <= k < |nodes| :: nodes[k].Model() == old(nodes[k].Model())
      {
        nodes[i].Clean();
      }
    }
  }

  /** `IN3` with its native client, as far as configuration goes. */
  class In3 {
    const config: Client
    var native: Sent
    var rpcs: seq<Sent>

    ghost predicate Valid()
      reads this, config
    {
      config.Valid() && this as object !in config.Objects()
    }

    ghost function Model(): World
      reads this, config.Objects()
    {
      World(config.Model(), native, rpcs)
    }

    /** The configuration as it was read from the native client (`FromJson`). */
    constructor (config: Client)
      requires config.Valid()
      modifies config.Objects() - {config}
      ensures Valid() && this.config == config
      ensures Model() == World(Synced(old(config.Model())), Snapshot(old(config.Model())), [])
    {
      this.config := config;
      rpcs := [];
      native := Sent(map[], map[], []);
      new;
      native := config.ToJson();
      config.MarkSynced();
    }

    /** `ApplyConfiguration`; false: the native client refused the configuration and an exception was thrown. */
    method ApplyConfiguration(accepted: bool) returns (applied: bool)
      requires Valid()
      modifies this, config.Objects() - {config}
      ensures Valid() && applied == accepted && rpcs == old(rpcs)
      ensures
        var w := old(Model());
        Model() == if accepted then World(Synced(w.tree), Snapshot(w.tree), w.rpcs) else w
    {
      if !accepted {
        return false;
      }
      native := config.ToJson();
      config.MarkSynced();
      return true;
    }

    /** `SendRpc`; false: no RPC was started. */
    method SendRpc(accepted: bool) returns (started: bool)
      requires Valid()
      modifies this, config.Objects() - {config}
      ensures Valid() && Model() == Applied(old(Model()), Op.SendRpc(accepted))
      ensures started == (|rpcs| == |old(rpcs)| + 1)
    {
      var changed := config.Changed();
      if changed {
        var applied := ApplyConfiguration(accepted);
        if !applied {
          return false;
        }
      }
      rpcs := rpcs + [native];
      return true;
    }
  }
}
