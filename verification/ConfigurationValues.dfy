/** The values of the configuration: what was set last is what the tree holds and what an RPC starts with. */
module ConfigurationValues {
  import opened Configuration

  datatype Option<T> = None | Some(value: T)

  /** One of the dictionaries of the tree. */
  datatype Place = AtClient | AtRegistry | AtNode(index: nat)

  function Lookup(d: Dict, key: string): Option<Box?> { if key in d then Some(d[key]) else None }

  function InTree(t: Tree, p: Place, key: string): Option<Box?> {
    match p
    case AtClient => Lookup(t.client.state, key)
    case AtRegistry => Lookup(t.registry.state, key)
    case AtNode(i) => if i < |t.nodes| then Lookup(t.nodes[i].state, key) else None
  }

  function InSent(sent: Sent, p: Place, key: string): Option<Box?> {
    match p
    case AtClient => Lookup(sent.client, key)
    case AtRegistry => Lookup(sent.registry, key)
    case AtNode(i) => if i < |sent.nodes| then Lookup(sent.nodes[i], key) else None
  }

  /** How many nodes there are after `ops`, if there were n before. */
  function NodeCount(n: nat, ops: seq<Op>): nat {
    if ops == [] then n else NodeCount(n, ops[..|ops| - 1]) + if ops[|ops| - 1].AddNode? then 1 else 0
  }

  /** Whether `op` sets the key at the place; only nodes that exist can be set. */
  predicate Sets(op: Op, p: Place, key: string, nodes: nat) {
    match op
    case SetClient(k, _) => p == AtClient && k == key
    case SetRegistry(k, _) => p == AtRegistry && k == key
    case SetNode(i, k, _) => p == AtNode(i) && k == key && i < nodes
    case AddNode => false
    case SendRpc(_) => false
  }

  /** The value that `ops` set last for the key, or the one it had before. */
  function LastSet(t: Tree, ops: seq<Op>, p: Place, key: string): Option<Box?> {
    if ops == [] then InTree(t, p, key)
    else
      var front, op := ops[..|ops| - 1], ops[|ops| - 1];
      if Sets(op, p, key, NodeCount(|t.nodes|, front)) then Some(op.value) else LastSet(t, front, p, key)
  }

  lemma {:induction false} NodesCounted(w: World, ops: seq<Op>)
    ensures |Run(w, ops).tree.nodes| == NodeCount(|w.tree.nodes|, ops)
  {
    if ops != [] { NodesCounted(w, ops[..|ops| - 1]); }
  }

  lemma OperationSets(w: World, op: Op, p: Place, key: string)
    ensures
      InTree(Applied(w, op).tree, p, key) ==
      if Sets(op, p, key, |w.tree.nodes|) then Some(op.value) else InTree(w.tree, p, key)
  {
  }

  /** After every run the tree holds at every key of every object exactly what was set last. */
  lemma {:induction false} TreeHoldsLastSet(w: World, ops: seq<Op>, p: Place, key: string)
    ensures InTree(Run(w, ops).tree, p, key) == LastSet(w.tree, ops, p, key)
  {
    if ops != [] {
      var front := ops[..|ops| - 1];
      NodesCounted(w, front);
      TreeHoldsLastSet(w, front, p, key);
      OperationSets(Run(w, front), ops[|ops| - 1], p, key);
    }
  }

  lemma InSyncIsSent(t: Tree, sent: Sent, p: Place, key: string)
    requires InSync(t, sent)
    ensures InSent(sent, p, key) == InTree(t, p, key)
  {
  }

  /** Over every run: an RPC that starts does so with exactly the value set last, at every key of every object. */
  lemma RpcCarriesLastSet(w: World, ops: seq<Op>, accepted: bool, p: Place, key: string)
    requires Tracked(w)
    ensures
      var v := Run(w, ops);
      var u := Applied(v, SendRpc(accepted));
      |u.rpcs| == |v.rpcs| + 1 ==> InSent(u.rpcs[|v.rpcs|], p, key) == LastSet(w.tree, ops, p, key)
  {
    RpcStartsInSync(w, ops, accepted);
    TreeHoldsLastSet(w, ops, p, key);
    var v := Run(w, ops);
    var u := Applied(v, SendRpc(accepted));
    if |u.rpcs| == |v.rpcs| + 1 { InSyncIsSent(v.tree, u.rpcs[|v.rpcs|], p, key); }
  }

  /** RPCs that have started keep the configuration they started with. */
  lemma {:induction false} StartedRpcsStay(w: World, ops: seq<Op>)
    ensures w.rpcs <= Run(w, ops).rpcs
  {
    if ops != [] { StartedRpcsStay(w, ops[..|ops| - 1]); }
  }
}
