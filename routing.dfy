/** Express routing as the route files use it: a router is a stack of
    layers kept in registration order; a request goes to the first layer
    whose verb and path match, and that layer's chain of middlewares runs
    in order until one of them answers or the handler is reached.

    A path is its list of segments ("/abc/my-bookings" is ["abc",
    "my-bookings"], "/" is []). `router.route(p).get(..).post(..)` puts one
    endpoint per verb on the stack, in the order written; `router.use(p, r)`
    mounts the stack of `r` under the prefix `p`, and a request the mounted
    router does not serve goes on to the next layer. */
module Routing {
  import opened Common
  import opened UserModel
  import opened AuthMiddleware

  datatype Verb = GET | POST | PUT | DELETE

  /** A path segment of a pattern: a literal, or a `:name` parameter, which
      matches any non-empty segment. */
  datatype Segment = Lit(text: string) | Param(name: string)

  /** One middleware of a chain. `Middleware` is one that always calls
      `next` (`advancedResults`). */
  datatype Step = Protect | Authorize(roles: seq<string>) | Middleware(name: string) | Handler(name: string)

  datatype Layer =
    | Endpoint(verb: Verb, pattern: seq<Segment>, chain: seq<Step>)
    | Mount(prefix: seq<Segment>, sub: seq<Layer>)

  predicate SegmentMatches(s: Segment, part: string)
  {
    match s
    case Lit(text) => text == part
    case Param(_) => part != ""
  }

  /** `pattern` matches the first segments of `path`. */
  predicate PrefixMatches(pattern: seq<Segment>, path: seq<string>)
  {
    |pattern| <= |path| && forall i :: 0 <= i < |pattern| ==> SegmentMatches(pattern[i], path[i])
  }

  /** `pattern` matches `path` entirely. */
  predicate PathMatches(pattern: seq<Segment>, path: seq<string>)
  {
    |pattern| == |path| && PrefixMatches(pattern, path)
  }

  /** The chain a single layer offers for a request, if it matches. */
  function DispatchLayer(layer: Layer, verb: Verb, path: seq<string>): Option<seq<Step>>
  {
    match layer
    case Endpoint(v, pattern, chain) =>
      if v == verb && PathMatches(pattern, path) then Some(chain) else None
    case Mount(prefix, sub) =>
      if PrefixMatches(prefix, path) then Dispatch(sub, verb, path[|prefix|..]) else None
  }

  /** The chain of the first layer of the stack that serves the request. */
  function Dispatch(layers: seq<Layer>, verb: Verb, path: seq<string>): Option<seq<Step>>
  {
    if layers == [] then None
    else match DispatchLayer(layers[0], verb, path)
      case Some(chain) => Some(chain)
      case None => Dispatch(layers[1..], verb, path)
  }

  /** First-match dispatch: the request goes nowhere exactly when no layer
      serves it, and otherwise to the first layer that does. */
  lemma {:induction false} DispatchFirstMatch(layers: seq<Layer>, verb: Verb, path: seq<string>)
    ensures Dispatch(layers, verb, path).None? <==>
            forall i :: 0 <= i < |layers| ==> DispatchLayer(layers[i], verb, path).None?
    ensures Dispatch(layers, verb, path).Some? ==>
            exists i :: 0 <= i < |layers| && DispatchLayer(layers[i], verb, path) == Dispatch(layers, verb, path) &&
                        forall j :: 0 <= j < i ==> DispatchLayer(layers[j], verb, path).None?
  {
    if layers != [] && DispatchLayer(layers[0], verb, path).None? {
      var tail := layers[1..];
      DispatchFirstMatch(tail, verb, path);
      assert forall i :: 1 <= i < |layers| ==> layers[i] == tail[i - 1];
      if Dispatch(tail, verb, path).Some? {
        var k :| 0 <= k < |tail| && DispatchLayer(tail[k], verb, path) == Dispatch(tail, verb, path) &&
                 forall j :: 0 <= j < k ==> DispatchLayer(tail[j], verb, path).None?;
        assert DispatchLayer(layers[k + 1], verb, path) == Dispatch(layers, verb, path);
      }
    }
  }

  /** The request goes to layer `i` when it is the first that serves it. */
  lemma {:induction false} DispatchAt(layers: seq<Layer>, verb: Verb, path: seq<string>, i: nat)
    requires i < |layers| && DispatchLayer(layers[i], verb, path).Some?
    requires forall j :: 0 <= j < i ==> DispatchLayer(layers[j], verb, path).None?
    ensures Dispatch(layers, verb, path) == DispatchLayer(layers[i], verb, path)
    decreases i
  {
    if i > 0 {
      var tail := layers[1..];
      assert DispatchLayer(layers[0], verb, path).None?;
      assert forall j :: 0 <= j < i ==> layers[j + 1] == tail[j];
      DispatchAt(tail, verb, path, i - 1);
    }
  }

  /** A stack no layer of which serves the request sends it nowhere. */
  lemma {:induction false} DispatchNone(layers: seq<Layer>, verb: Verb, path: seq<string>)
    requires forall j :: 0 <= j < |layers| ==> DispatchLayer(layers[j], verb, path).None?
    ensures Dispatch(layers, verb, path).None?
    decreases |layers|
  {
    if layers != [] {
      var tail := layers[1..];
      assert forall j :: 0 <= j < |tail| ==> tail[j] == layers[j + 1];
      DispatchNone(tail, verb, path);
    }
  }

  /** How a request ends. */
  datatype Outcome =
    | Reached(handler: string)   // the chain's handler runs
    | Halted(status: int)        // a middleware answered with this status
    | Crashed                    // a middleware threw (`authorize` without `req.user`)
    | Exhausted                  // the chain ended without a handler
    | Unrouted                   // no layer matched: Express's 404

  /** Runs a chain. `gate` is what `protect` decides for this request (see
      `AuthMiddleware.Authenticate`); `user` is `req.user` so far. */
  function RunChain(chain: seq<Step>, gate: Gate, user: Option<User>): Outcome
  {
    if chain == [] then Exhausted
    else match chain[0]
      case Protect =>
        if gate.Admit? then RunChain(chain[1..], gate, Some(gate.user)) else Halted(401)
      case Authorize(roles) =>
        if user.None? then Crashed
        else if HasAccess(roles, user.value.role) then RunChain(chain[1..], gate, user)
        else Halted(403)
      case Middleware(_) => RunChain(chain[1..], gate, user)
      case Handler(name) => Reached(name)
  }

  /** A request from arrival to outcome; `req.user` starts unset. */
  function Serve(layers: seq<Layer>, verb: Verb, path: seq<string>, gate: Gate): Outcome
  {
    match Dispatch(layers, verb, path)
    case None => Unrouted
    case Some(chain) => RunChain(chain, gate, None)
  }

  /** Every `authorize` of the chain comes after a `protect`. */
  predicate WellOrdered(chain: seq<Step>)
  {
    forall i :: 0 <= i < |chain| && chain[i].Authorize? ==> exists j :: 0 <= j < i && chain[j].Protect?
  }

  predicate LayerWellOrdered(layer: Layer)
  {
    match layer
    case Endpoint(_, _, chain) => WellOrdered(chain)
    case Mount(_, sub) => StackWellOrdered(sub)
  }

  predicate StackWellOrdered(layers: seq<Layer>)
  {
    forall i :: 0 <= i < |layers| ==> LayerWellOrdered(layers[i])
  }

  /** A chain in which `protect` precedes every `authorize` never reaches
      `authorize` without a user, so it never throws. */
  lemma {:induction false} WellOrderedNeverCrashes(chain: seq<Step>, gate: Gate, user: Option<User>)
    requires user.Some? || WellOrdered(chain)
    ensures RunChain(chain, gate, user) != Crashed
    decreases |chain|
  {
    if chain != [] {
      var tail := chain[1..];
      match chain[0]
      case Protect =>
        if gate.Admit? {
          WellOrderedNeverCrashes(tail, gate, Some(gate.user));
        }
      case Authorize(roles) =>
        if user.Some? && HasAccess(roles, user.value.role) {
          WellOrderedNeverCrashes(tail, gate, user);
        }
      case Middleware(_) =>
        if user.None? {
          forall i | 0 <= i < |tail| && tail[i].Authorize? ensures exists j :: 0 <= j < i && tail[j].Protect? {
            assert chain[i + 1] == tail[i];
            var j :| 0 <= j < i + 1 && chain[j].Protect?;
            assert j != 0;
            assert tail[j - 1] == chain[j];
          }
        }
        WellOrderedNeverCrashes(tail, gate, user);
      case Handler(_) =>
    }
  }

  /** A chain served from a well-ordered stack is well ordered. */
  lemma {:induction false} DispatchWellOrdered(layers: seq<Layer>, verb: Verb, path: seq<string>)
    requires StackWellOrdered(layers)
    ensures Dispatch(layers, verb, path).Some? ==> WellOrdered(Dispatch(layers, verb, path).value)
    decreases layers
  {
    if layers != [] {
      DispatchLayerWellOrdered(layers[0], verb, path);
      if DispatchLayer(layers[0], verb, path).None? {
        assert StackWellOrdered(layers[1..]) by {
          forall i | 0 <= i < |layers[1..]| ensures LayerWellOrdered(layers[1..][i]) {
            assert layers[1..][i] == layers[i + 1];
          }
        }
        DispatchWellOrdered(layers[1..], verb, path);
      }
    }
  }

  lemma {:induction false} DispatchLayerWellOrdered(layer: Layer, verb: Verb, path: seq<string>)
    requires LayerWellOrdered(layer)
    ensures DispatchLayer(layer, verb, path).Some? ==> WellOrdered(DispatchLayer(layer, verb, path).value)
    decreases layer
  {
    match layer
    case Endpoint(_, _, _) =>
    case Mount(prefix, sub) =>
      if PrefixMatches(prefix, path) {
        DispatchWellOrdered(sub, verb, path[|prefix|..]);
      }
  }

  /** On a well-ordered stack no request makes a middleware throw. */
  lemma NeverCrashes(layers: seq<Layer>, verb: Verb, path: seq<string>, gate: Gate)
    requires StackWellOrdered(layers)
    ensures Serve(layers, verb, path, gate) != Crashed
  {
    DispatchWellOrdered(layers, verb, path);
    if Dispatch(layers, verb, path).Some? {
      WellOrderedNeverCrashes(Dispatch(layers, verb, path).value, gate, None);
    }
  }

  /** A chain that authorizes only after a leading `protect`. */
  predicate ProtectFirst(chain: seq<Step>)
  {
    forall k :: 0 <= k < |chain| && chain[k].Authorize? ==> chain[0].Protect?
  }

  /** A flat stack whose every chain that authorizes starts with `protect`
      is well ordered, so no request to it makes `authorize` throw. */
  lemma ProtectFirstNeverCrashes(layers: seq<Layer>, verb: Verb, path: seq<string>, gate: Gate)
    requires forall i :: 0 <= i < |layers| ==> layers[i].Endpoint? && ProtectFirst(layers[i].chain)
    ensures Serve(layers, verb, path, gate) != Crashed
  {
    forall i | 0 <= i < |layers| ensures LayerWellOrdered(layers[i]) {
      var chain := layers[i].chain;
      forall k | 0 <= k < |chain| && chain[k].Authorize? ensures exists j :: 0 <= j < k && chain[j].Protect? {
        assert chain[0].Protect?;
      }
    }
    NeverCrashes(layers, verb, path, gate);
  }

  /** A chain only ever reaches a handler it names. */
  lemma {:induction false} ReachedNamesChainHandler(chain: seq<Step>, gate: Gate, user: Option<User>)
    ensures RunChain(chain, gate, user).Reached? ==> Handler(RunChain(chain, gate, user).handler) in chain
    decreases |chain|
  {
    if chain != [] && !chain[0].Handler? {
      var next := if chain[0].Protect? && gate.Admit? then Some(gate.user) else user;
      ReachedNamesChainHandler(chain[1..], gate, next);
      assert forall s :: s in chain[1..] ==> s in chain;
    }
  }

  /** On a flat stack a request only ever reaches a handler that one of the
      registered chains names. */
  lemma ServeReachesTableHandler(layers: seq<Layer>, verb: Verb, path: seq<string>, gate: Gate)
    requires forall i :: 0 <= i < |layers| ==> layers[i].Endpoint?
    ensures Serve(layers, verb, path, gate).Reached? ==>
      exists i :: 0 <= i < |layers| && Handler(Serve(layers, verb, path, gate).handler) in layers[i].chain
  {
    DispatchFirstMatch(layers, verb, path);
    if Dispatch(layers, verb, path).Some? {
      var chain := Dispatch(layers, verb, path).value;
      var i :| 0 <= i < |layers| && DispatchLayer(layers[i], verb, path) == Some(chain);
      ReachedNamesChainHandler(chain, gate, None);
    }
  }

  /** The chain protect → authorize(roles) → handler: 401 unless `protect`
      admits, then 403 unless one of the roles is the user's, then the
      handler. */
  lemma GuardedChain(roles: seq<string>, handler: string, gate: Gate)
    ensures RunChain([Protect, Authorize(roles), Handler(handler)], gate, None) ==
      if !gate.Admit? then Halted(401)
      else if HasAccess(roles, gate.user.role) then Reached(handler)
      else Halted(403)
  {
    var chain := [Protect, Authorize(roles), Handler(handler)];
    assert chain[1..] == [Authorize(roles), Handler(handler)];
    assert chain[1..][1..] == [Handler(handler)];
    if gate.Admit? {
      var after := RunChain(chain[1..], gate, Some(gate.user));
      assert after == if HasAccess(roles, gate.user.role) then RunChain(chain[1..][1..], gate, Some(gate.user)) else Halted(403);
    }
  }

  /** A chain of middlewares that always call `next` followed by a handler
      reaches the handler whoever asks. */
  lemma {:induction false} PublicChain(steps: seq<Step>, handler: string, gate: Gate, user: Option<User>)
    requires forall i :: 0 <= i < |steps| ==> steps[i].Middleware?
    ensures RunChain(steps + [Handler(handler)], gate, user) == Reached(handler)
    decreases |steps|
  {
    if steps != [] {
      assert (steps + [Handler(handler)])[1..] == steps[1..] + [Handler(handler)];
      PublicChain(steps[1..], handler, gate, user);
    }
  }

  /** `express.Router()` as the route files fill it. */
  class Router {
    var stack: seq<Layer>

    constructor ()
      ensures stack == []
    {
      stack := [];
    }

    /** `router.route(pattern).<verb>(...chain)`, or `router.<verb>(pattern, ...chain)`. */
    method Handle(verb: Verb, pattern: seq<Segment>, chain: seq<Step>)
      modifies this
      ensures stack == old(stack) + [Endpoint(verb, pattern, chain)]
    {
      stack := stack + [Endpoint(verb, pattern, chain)];
    }

    /** `router.use(prefix, sub)`. */
    method Use(prefix: seq<Segment>, sub: Router)
      modifies this
      ensures stack == old(stack) + [Mount(prefix, old(sub.stack))]
    {
      stack := stack + [Mount(prefix, sub.stack)];
    }
  }
}
