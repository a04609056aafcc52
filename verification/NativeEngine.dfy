/**
 The part of the native engine that the WASM binding can observe: which client
 and request-context pointers are alive, and which sub-contexts hang off a root
 request.  The engine itself is not modelled; `Legal` says which calls it can
 take without touching freed or null memory, and `Effect` what a call changes.
 */
module NativeEngine {

  /** A native pointer; 0 is the null pointer. */
  type Ptr = nat

  datatype Call =
    | CreateClient(client: Ptr)
    | DisposeClient(client: Ptr)
    | CreateCtx(client: Ptr, root: Ptr)        // root == 0: the engine refused the request
    | FreeCtx(root: Ptr)
    | Execute(root: Ptr, required: set<Ptr>)   // ctx_execute, with the chain it leaves behind
    | IsAlive(root: Ptr, ctx: Ptr)
    | SetResponse(root: Ptr, ctx: Ptr, url: nat)
    | Blacklist(client: Ptr, url: nat)

  datatype World = World(
    everClients: set<Ptr>,
    liveClients: set<Ptr>,
    everRoots: set<Ptr>,
    owner: map<Ptr, Ptr>,          // live root contexts and the client each was created for
    chain: map<Ptr, set<Ptr>>)     // the contexts on the `required` chain of each live root

  const BOOT := World({}, {}, {}, map[], map[])

  predicate Legal(w: World, c: Call) {
    match c
    case CreateClient(p) => p != 0 && p !in w.everClients
    case DisposeClient(p) => p in w.liveClients && forall r | r in w.owner :: w.owner[r] != p
    case CreateCtx(p, _) => p in w.liveClients
    case FreeCtx(r) => r in w.owner
    case Execute(r, _) => r in w.owner && w.owner[r] in w.liveClients
    case IsAlive(r, _) => r in w.owner
    case SetResponse(r, x, _) => r in w.owner && r in w.chain && x in w.chain[r]
    case Blacklist(p, _) => p in w.liveClients
  }

  function Effect(w: World, c: Call): World {
    match c
    case CreateClient(p) => w.(everClients := w.everClients + {p}, liveClients := w.liveClients + {p})
    case DisposeClient(p) => w.(liveClients := w.liveClients - {p})
    case CreateCtx(p, r) =>
      if r == 0 then w
      else w.(everRoots := w.everRoots + {r}, owner := w.owner[r := p], chain := w.chain[r := {r}])
    case FreeCtx(r) => w.(owner := w.owner - {r}, chain := w.chain - {r})
    case Execute(r, required) => if r in w.chain then w.(chain := w.chain[r := required]) else w
    case IsAlive(_, _) => w
    case SetResponse(_, _, _) => w
    case Blacklist(_, _) => w
  }
}
