/**
 * Preparing a pipeline (service/pipeline/prepare.go, first half): validating a new
 * pipeline against the service, generating a proxy's handlers from the handlers behind
 * it, and linting one proxy's destination handlers against the handlers it forwards to,
 * so that each destination instance uses the port of the instance it reaches.
 *
 * Configurations are values here: the Go code edits the copy it got from the store
 * through pointers, and the edited copy is what each operation returns.
 */
module Prepare {
  import opened Wrappers
  import opened Entities
  import opened PipeEnds
  import opened Pipelines
  import opened LegacyConfig
  import opened Collaborators

  datatype PrepareError =
    | NoProxy
    | InvalidHead
    | ProxyNotRequired(url: string)
    | MissingHandler(id: string)
    | ServicePipelineExists

  datatype LintError =
    | NotProxy
    | DestinationIsProxy
    | DestinationNotProxy
    | NoSourceControllers(lookup: NotFound)
    | NoDestinationControllers(lookup: NotFound)
    | NothingToRewrite
    | InstanceCountMismatch(index: nat, have: nat, want: nat)
    | TypeMismatch(index: nat)
    | NotTwoControllers
    | StoreFailed(store: StoreError)
    | ConvertFailed
    /** The Go code indexes a destination that is not there. */
    | Panicked(panic: Panic)

  // ---------------------------------------------------------------- validation

  /** Position of the first head URL that is not among `proxies`, or |head|. */
  function FirstUnlisted(head: seq<string>, proxies: seq<string>): (k: nat)
    ensures k <= |head|
    ensures forall j :: 0 <= j < k ==> head[j] in proxies
    ensures k < |head| ==> head[k] !in proxies
  {
    if head == [] then 0
    else if head[0] !in proxies then 0
    else 1 + FirstUnlisted(head[1..], proxies)
  }

  /**
   * Whether `p` may be added to the service's `pipelines`. `proxies` are the proxy URLs
   * the service requires, `controllers` the handler categories it has, and `validateHead`
   * the pipeline's own head check.
   */
  function PrepareAddingPipeline(
    pipelines: seq<Pipeline>, proxies: seq<string>, controllers: set<string>,
    p: Pipeline, validateHead: seq<string> -> bool): (r: Option<PrepareError>)
    ensures !HasLength(p) ==> r == Some(NoProxy)
    ensures HasLength(p) && !validateHead(p.Head) ==> r == Some(InvalidHead)
    ensures r.Some? && r.value.ProxyNotRequired? ==> r.value.url in p.Head && r.value.url !in proxies
    ensures r.Some? && r.value.MissingHandler? ==> IsHandler(p.End) && r.value.id == p.End.Id && p.End.Id !in controllers
    ensures r == Some(ServicePipelineExists) ==> !IsHandler(p.End) && |HandlerEnds(pipelines)| < |pipelines|
    ensures r == None <==>
      HasLength(p) && validateHead(p.Head)
      && (forall u :: u in p.Head ==> u in proxies)
      && (IsHandler(p.End) ==> p.End.Id in controllers)
      && (!IsHandler(p.End) ==> HandlerEnds(pipelines) == pipelines)
  {
    ServiceEndIffHandlerEndsDrop(pipelines);
    HandlerEndsOfAllHandlers(pipelines);
    var k := FirstUnlisted(p.Head, proxies);
    if !HasLength(p) then Some(NoProxy)
    else if !validateHead(p.Head) then Some(InvalidHead)
    else if k < |p.Head| then Some(ProxyNotRequired(p.Head[k]))
    else if IsHandler(p.End) then
      if p.End.Id !in controllers then Some(MissingHandler(p.End.Id)) else None
    else if FindServiceEnd(pipelines).Some? then Some(ServicePipelineExists)
    else None
  }

  /** Keeping every pipeline is the same as keeping the list unchanged. */
  lemma {:induction false} HandlerEndsOfAllHandlers(ps: seq<Pipeline>)
    ensures |HandlerEnds(ps)| == |ps| <==> HandlerEnds(ps) == ps
  {
    if ps != [] {
      var front := ps[..|ps| - 1];
      HandlerEndsOfAllHandlers(front);
      if |HandlerEnds(ps)| == |ps| {
        assert |HandlerEnds(front)| == |front|;
        assert ps == front + [ps[|ps| - 1]];
      }
    }
  }

  /** How many pipelines end at the service as a whole. */
  function ServiceEnds(ps: seq<Pipeline>): nat {
    |ps| - |HandlerEnds(ps)|
  }

  /** Adding only accepted pipelines keeps at most one pipeline ending at the service. */
  lemma AcceptedKeepsOneServicePipeline(
    ps: seq<Pipeline>, proxies: seq<string>, controllers: set<string>,
    p: Pipeline, validateHead: seq<string> -> bool)
    requires ServiceEnds(ps) <= 1
    requires PrepareAddingPipeline(ps, proxies, controllers, p, validateHead) == None
    ensures ServiceEnds(ps + [p]) <= 1
    ensures !IsHandler(p.End) ==> ServiceEnds(ps + [p]) == 1
  {
    assert (ps + [p])[..|ps + [p]| - 1] == ps;
  }

  // ---------------------------------------------------------------- handlers of a proxy

  /** Source instances for a handler: one per instance, suffixed "-source", on ports from the finder starting at request `start`. */
  function SourceInstances(c: Handler, free: nat -> nat, start: nat): seq<Instance> {
    seq(|c.Instances|, i requires 0 <= i < |c.Instances| =>
      Instance(SourceName, c.Instances[i].Id + "-source", free(start + i)))
  }

  /** Destination instances for a handler: one per instance, suffixed "-destination", on the instance's own port. */
  function DestinationInstances(c: Handler): seq<Instance> {
    seq(|c.Instances|, i requires 0 <= i < |c.Instances| =>
      Instance(DestinationName, c.Instances[i].Id + "-destination", c.Instances[i].Port))
  }

  function DestinationHandler(c: Handler): Handler {
    Handler(c.Type, DestinationName, "", DestinationInstances(c))
  }

  function SourceHandler(c: Handler, free: nat -> nat, start: nat): Handler {
    Handler(c.Type, SourceName, "", SourceInstances(c, free, start))
  }

  /** The source and destination handler a proxy gets for one handler behind it. */
  function ProxyControllers(c: Handler, free: nat -> nat, start: nat): seq<Handler> {
    [SourceHandler(c, free, start), DestinationHandler(c)]
  }

  /** Number of instances of all handlers in `cs`. */
  function InstanceTotal(cs: seq<Handler>): nat {
    if cs == [] then 0 else InstanceTotal(cs[..|cs| - 1]) + |cs[|cs| - 1].Instances|
  }

  /** A proxy's handler list rebuilt from the handlers behind it: a source and a destination for each, in order. */
  function RewrittenControllers(cs: seq<Handler>, free: nat -> nat, start: nat): seq<Handler> {
    if cs == [] then []
    else
      var front := cs[..|cs| - 1];
      RewrittenControllers(front, free, start) + ProxyControllers(cs[|cs| - 1], free, start + InstanceTotal(front))
  }

  method NewSourceInstances(c: Handler, ports: FreePorts) returns (r: seq<Instance>)
    modifies ports
    ensures r == SourceInstances(c, ports.free, old(ports.calls))
    ensures ports.calls == old(ports.calls) + |c.Instances|
  {
    var amount := |c.Instances|;
    var instances := new Instance[amount];
    var i := 0;
    while i < amount
      invariant 0 <= i <= amount
      invariant ports.calls == old(ports.calls) + i
      invariant forall j :: 0 <= j < i ==>
        instances[j] == Instance(SourceName, c.Instances[j].Id + "-source", ports.free(old(ports.calls) + j))
    {
      var port := ports.GetFreePort();
      instances[i] := Instance(SourceName, c.Instances[i].Id + "-source", port);
      i := i + 1;
    }
    r := instances[..];
  }

  method NewDestinationInstances(c: Handler) returns (r: seq<Instance>)
    ensures r == DestinationInstances(c)
    ensures |r| == |c.Instances|
    ensures forall i :: 0 <= i < |r| ==>
      r[i].ControllerCategory == DestinationName && r[i].Port == c.Instances[i].Port
  {
    var amount := |c.Instances|;
    var instances := new Instance[amount];
    var i := 0;
    while i < amount
      invariant 0 <= i <= amount
      invariant forall j :: 0 <= j < i ==>
        instances[j] == Instance(DestinationName, c.Instances[j].Id + "-destination", c.Instances[j].Port)
    {
      instances[i] := Instance(DestinationName, c.Instances[i].Id + "-destination", c.Instances[i].Port);
      i := i + 1;
    }
    r := instances[..];
  }

  /**
   * newSourceInstances and newDestinationInstances as written: their buffers are made
   * with length 0, so a handler with any instance panics at the first write.
   */
  function NewInstancesAsWritten(c: Handler): (r: Result<seq<Instance>, Panic>)
    ensures r.Ok? <==> c.Instances == []
  {
    WriteIntoEmptySlice(|c.Instances|)
  }

  /** One instance is enough to make the code as written panic, where one instance is expected back. */
  lemma NewInstancesAsWrittenPanics(c: Handler)
    requires |c.Instances| == 1
    ensures NewInstancesAsWritten(c).Err?
    ensures |DestinationInstances(c)| == 1
  {
  }

  method NewProxyControllers(c: Handler, ports: FreePorts) returns (r: seq<Handler>)
    modifies ports
    ensures r == ProxyControllers(c, ports.free, old(ports.calls))
    ensures ports.calls == old(ports.calls) + |c.Instances|
  {
    var source := NewSourceInstances(c, ports);
    var destination := NewDestinationInstances(c);
    r := [Handler(c.Type, SourceName, "", source), Handler(c.Type, DestinationName, "", destination)];
  }

  /** Rewriting one more handler appends its source and destination, on the ports after those of the handlers before it. */
  lemma RewrittenStep(cs: seq<Handler>, i: nat, free: nat -> nat, start: nat)
    requires i < |cs|
    ensures InstanceTotal(cs[..i + 1]) == InstanceTotal(cs[..i]) + |cs[i].Instances|
    ensures RewrittenControllers(cs[..i + 1], free, start)
         == RewrittenControllers(cs[..i], free, start) + ProxyControllers(cs[i], free, start + InstanceTotal(cs[..i]))
  {
    assert cs[..i + 1][..i] == cs[..i];
  }

  /** Writes `x` and `y` at positions `at` and `at + 1` of `buffer`. */
  method WritePair<T>(buffer: array<T>, at: nat, x: T, y: T)
    requires at + 2 <= buffer.Length
    modifies buffer
    ensures buffer[..at + 2] == old(buffer[..at]) + [x, y]
  {
    buffer[at] := x;
    buffer[at + 1] := y;
  }

  /**
   * Fills a buffer twice as long as `controllers` with the source and destination
   * handler of each, in order, taking ports from the finder as it goes.
   */
  method FillProxyControllers(controllers: seq<Handler>, ports: FreePorts) returns (rewritten: seq<Handler>)
    modifies ports
    ensures rewritten == RewrittenControllers(controllers, ports.free, old(ports.calls))
    ensures ports.calls == old(ports.calls) + InstanceTotal(controllers)
  {
    var buffer := new Handler[|controllers| * 2];
    ghost var free, start := ports.free, ports.calls;
    var filled := 0;
    var i := 0;
    while i < |controllers|
      invariant 0 <= i <= |controllers| && filled == 2 * i
      invariant ports.calls == start + InstanceTotal(controllers[..i])
      invariant buffer[..filled] == RewrittenControllers(controllers[..i], free, start)
    {
      RewrittenStep(controllers, i, free, start);
      var proxyControllers := NewProxyControllers(controllers[i], ports);
      WritePair(buffer, filled, proxyControllers[0], proxyControllers[1]);
      filled := filled + 2;
      i := i + 1;
    }
    assert controllers[..i] == controllers;
    rewritten := buffer[..];
  }

  /**
   * Replaces the proxy's handler list by a source and a destination handler for each
   * of `controllers`, written by index into a list twice as long; an error when there
   * is nothing to rewrite from.
   */
  method RewriteControllers(proxyConfig: Config, controllers: seq<Handler>, ports: FreePorts)
    returns (r: Result<Config, LintError>)
    modifies ports
    ensures controllers == [] ==> r == Err(NothingToRewrite) && ports.calls == old(ports.calls)
    ensures controllers != [] ==>
      r == Ok(proxyConfig.(Controllers := RewrittenControllers(controllers, ports.free, old(ports.calls))))
    ensures ports.calls == old(ports.calls) + if controllers == [] then 0 else InstanceTotal(controllers)
  {
    if |controllers| == 0 {
      return Err(NothingToRewrite);
    }
    var rewritten := FillProxyControllers(controllers, ports);
    return Ok(proxyConfig.(Controllers := rewritten));
  }

  /** A rewritten list holds, at 2k and 2k+1, the source and the destination handler for the k-th handler. */
  lemma {:induction false} RewrittenAt(cs: seq<Handler>, free: nat -> nat, start: nat, k: nat)
    requires k < |cs|
    ensures |RewrittenControllers(cs, free, start)| == 2 * |cs|
    ensures RewrittenControllers(cs, free, start)[2 * k] == SourceHandler(cs[k], free, start + InstanceTotal(cs[..k]))
    ensures RewrittenControllers(cs, free, start)[2 * k + 1] == DestinationHandler(cs[k])
  {
    var front := cs[..|cs| - 1];
    var r := RewrittenControllers(cs, free, start);
    var rf := RewrittenControllers(front, free, start);
    var pcs := ProxyControllers(cs[|cs| - 1], free, start + InstanceTotal(front));
    assert r == rf + pcs;
    RewrittenLength(front, free, start);
    if k < |front| {
      RewrittenAt(front, free, start, k);
      assert front[k] == cs[k] && front[..k] == cs[..k];
      assert r[2 * k] == rf[2 * k] && r[2 * k + 1] == rf[2 * k + 1];
    } else {
      assert cs[..k] == front;
    }
  }

  lemma {:induction false} RewrittenLength(cs: seq<Handler>, free: nat -> nat, start: nat)
    ensures |RewrittenControllers(cs, free, start)| == 2 * |cs|
  {
    if cs != [] {
      RewrittenLength(cs[..|cs| - 1], free, start);
    }
  }

  /** The destination handler for each of `cs`, in order. */
  function DestinationHandlers(cs: seq<Handler>): seq<Handler> {
    if cs == [] then [] else DestinationHandlers(cs[..|cs| - 1]) + [DestinationHandler(cs[|cs| - 1])]
  }

  /** Destination handlers made from `cs` are in sync with `cs`. */
  lemma {:induction false} DestinationHandlersInSync(cs: seq<Handler>)
    ensures InSync(DestinationHandlers(cs), cs)
  {
    if cs != [] {
      var front := cs[..|cs| - 1];
      DestinationHandlersInSync(front);
      var ds := DestinationHandlers(cs);
      assert forall i :: 0 <= i < |front| ==> ds[i] == DestinationHandlers(front)[i] && cs[i] == front[i];
    }
  }

  /** The destination handlers of a rewritten list are the destination handlers for `cs`, in order. */
  lemma {:induction false} RewrittenDestinations(cs: seq<Handler>, free: nat -> nat, start: nat)
    ensures ByCategory(RewrittenControllers(cs, free, start), DestinationName) == DestinationHandlers(cs)
  {
    if cs != [] {
      var front := cs[..|cs| - 1];
      var last := cs[|cs| - 1];
      var pcs := ProxyControllers(last, free, start + InstanceTotal(front));
      var rf := RewrittenControllers(front, free, start);
      assert RewrittenControllers(cs, free, start) == rf + pcs;
      assert DestinationHandlers(cs) == DestinationHandlers(front) + [DestinationHandler(last)];
      RewrittenDestinations(front, free, start);
      ByCategoryAppend(rf, pcs, DestinationName);
      ProxyControllersDestination(last, free, start + InstanceTotal(front));
    }
  }

  /** Of the two handlers made for one handler, only the second is a destination. */
  lemma ProxyControllersDestination(c: Handler, free: nat -> nat, start: nat)
    ensures ByCategory(ProxyControllers(c, free, start), DestinationName) == [DestinationHandler(c)]
  {
    var pcs := ProxyControllers(c, free, start);
    assert pcs[..1] == [pcs[0]];
    assert [pcs[0]][..0] == [];
    assert ByCategory(pcs[..1], DestinationName) == [];
  }

  // ---------------------------------------------------------------- linting ports

  /** A destination can be linted to a handler: same instance count and same socket kind. */
  predicate Compatible(d: Handler, c: Handler) {
    |d.Instances| == |c.Instances| && d.Type == c.Type
  }

  /** Position of the first handler the destinations cannot be linted to, or |cs|. */
  function FirstMismatch(ds: seq<Handler>, cs: seq<Handler>, from: nat): (k: nat)
    requires from <= |cs|
    ensures from <= k <= |cs|
    ensures from <= |ds| ==> k <= |ds|
    ensures forall j :: from <= j < k ==> j < |ds| && Compatible(ds[j], cs[j])
    ensures k < |cs| ==> k >= |ds| || !Compatible(ds[k], cs[k])
    decreases |cs| - from
  {
    if from == |cs| then from
    else if from >= |ds| || !Compatible(ds[from], cs[from]) then from
    else
      var k := FirstMismatch(ds, cs, from + 1);
      assert Compatible(ds[from], cs[from]);
      k
  }

  /** `d` with the port of each instance taken from the same instance of `c`. */
  function SyncPorts(d: Handler, c: Handler): Handler
    requires |d.Instances| == |c.Instances|
  {
    d.(Instances := seq(|d.Instances|, j requires 0 <= j < |d.Instances| =>
      d.Instances[j].(Port := c.Instances[j].Port)))
  }

  predicate PortDiffersAt(ds: seq<Handler>, cs: seq<Handler>, i: nat)
    requires i < |ds| && i < |cs|
  {
    exists j :: 0 <= j < |ds[i].Instances| && j < |cs[i].Instances| && ds[i].Instances[j].Port != cs[i].Instances[j].Port
  }

  /** Some destination among the first `upto` uses a port other than its handler's. */
  predicate AnyPortDiffers(ds: seq<Handler>, cs: seq<Handler>, upto: nat) {
    exists i :: 0 <= i < upto && i < |ds| && i < |cs| && PortDiffersAt(ds, cs, i)
  }

  /**
   * The destinations after linting: synced up to the first mismatch, and at a type
   * mismatch synced too, since the ports are written before the type is compared.
   */
  function LintedPorts(ds: seq<Handler>, cs: seq<Handler>): seq<Handler> {
    var k := FirstMismatch(ds, cs, 0);
    seq(|ds|, i requires 0 <= i < |ds| =>
      if i < k || (i == k && k < |cs| && |ds[i].Instances| == |cs[i].Instances|) then SyncPorts(ds[i], cs[i])
      else ds[i])
  }

  /** The error linting reports, at the first handler that cannot be linted. */
  function LintOutcome(ds: seq<Handler>, cs: seq<Handler>): Option<LintError> {
    var k := FirstMismatch(ds, cs, 0);
    if k == |cs| then None
    else if k >= |ds| then Some(Panicked(IndexOutOfRange))
    else if |ds[k].Instances| != |cs[k].Instances| then Some(InstanceCountMismatch(k, |ds[k].Instances|, |cs[k].Instances|))
    else Some(TypeMismatch(k))
  }

  /** The first |cs| destinations have the handlers' kinds, instance counts and ports. */
  predicate PrefixSynced(ds: seq<Handler>, cs: seq<Handler>) {
    |cs| <= |ds|
    && forall i :: 0 <= i < |cs| ==>
         Compatible(ds[i], cs[i])
         && forall j :: 0 <= j < |cs[i].Instances| ==> ds[i].Instances[j].Port == cs[i].Instances[j].Port
  }

  /** Destinations and handlers correspond one to one, in kind, instance count and port. */
  predicate InSync(ds: seq<Handler>, cs: seq<Handler>) {
    |ds| == |cs| && PrefixSynced(ds, cs)
  }

  /** Copies each instance port of `c` onto the instance of `d` at the same position, reporting whether any differed. */
  method SyncInstancePorts(d: Handler, c: Handler) returns (synced: Handler, changed: bool)
    requires |d.Instances| == |c.Instances|
    ensures synced == SyncPorts(d, c)
    ensures changed <==> exists m :: 0 <= m < |d.Instances| && d.Instances[m].Port != c.Instances[m].Port
  {
    synced := d;
    changed := false;
    var j := 0;
    while j < |c.Instances|
      invariant 0 <= j <= |c.Instances| == |synced.Instances|
      invariant synced.Type == d.Type && synced.Category == d.Category && synced.Id == d.Id
      invariant forall m :: 0 <= m < j ==> synced.Instances[m] == d.Instances[m].(Port := c.Instances[m].Port)
      invariant forall m :: j <= m < |d.Instances| ==> synced.Instances[m] == d.Instances[m]
      invariant changed <==> exists m :: 0 <= m < j && d.Instances[m].Port != c.Instances[m].Port
    {
      if synced.Instances[j].Port != c.Instances[j].Port {
        synced := synced.(Instances := synced.Instances[j := synced.Instances[j].(Port := c.Instances[j].Port)]);
        changed := true;
      }
      j := j + 1;
    }
    assert synced.Instances == SyncPorts(d, c).Instances;
  }

  /**
   * Copies the handlers' ports onto the destinations, one destination per handler in
   * order, and reports whether any port changed. Stops at the first destination whose
   * instance count or kind differs; the ports already written stay written.
   */
  method LintControllers(proxyDestinations: seq<Handler>, serviceControllers: seq<Handler>)
    returns (linted: seq<Handler>, updated: bool, err: Option<LintError>)
    ensures linted == LintedPorts(proxyDestinations, serviceControllers)
    ensures err == LintOutcome(proxyDestinations, serviceControllers)
    ensures updated <==> err.None? && AnyPortDiffers(proxyDestinations, serviceControllers, |serviceControllers|)
    ensures err.None? ==> PrefixSynced(linted, serviceControllers)
  {
    ghost var ds, cs := proxyDestinations, serviceControllers;
    linted := proxyDestinations;
    updated := false;
    var i := 0;
    while i < |serviceControllers|
      invariant 0 <= i <= |cs| && i <= |ds| && |linted| == |ds|
      invariant forall j :: 0 <= j < i ==> Compatible(ds[j], cs[j])
      invariant forall j :: 0 <= j < i ==> linted[j] == SyncPorts(ds[j], cs[j])
      invariant forall j :: i <= j < |ds| ==> linted[j] == ds[j]
      invariant updated <==> AnyPortDiffers(ds, cs, i)
    {
      if i >= |linted| {
        assert FirstMismatch(ds, cs, 0) == i;
        return linted, false, Some(Panicked(IndexOutOfRange));
      }
      var dest := linted[i];
      var controllerConfig := serviceControllers[i];
      var amount := |controllerConfig.Instances|;
      if |dest.Instances| != amount {
        assert FirstMismatch(ds, cs, 0) == i;
        return linted, false, Some(InstanceCountMismatch(i, |dest.Instances|, amount));
      }
      var synced, changed := SyncInstancePorts(dest, controllerConfig);
      updated := updated || changed;
      linted := linted[i := synced];
      assert AnyPortDiffers(ds, cs, i + 1) <==> AnyPortDiffers(ds, cs, i) || PortDiffersAt(ds, cs, i);
      if dest.Type != controllerConfig.Type {
        assert FirstMismatch(ds, cs, 0) == i;
        return linted, false, Some(TypeMismatch(i));
      }
      i := i + 1;
    }
    assert FirstMismatch(ds, cs, 0) == |cs|;
    err := None;
  }

  /** Linting that changes no port and fails nowhere leaves the destinations as they were. */
  lemma LintWithoutChangeIsIdentity(ds: seq<Handler>, cs: seq<Handler>)
    requires LintOutcome(ds, cs).None?
    requires !AnyPortDiffers(ds, cs, |cs|)
    ensures LintedPorts(ds, cs) == ds
  {
    var k := FirstMismatch(ds, cs, 0);
    assert k == |cs|;
    forall i | 0 <= i < |cs|
      ensures SyncPorts(ds[i], cs[i]) == ds[i]
    {
      assert !PortDiffersAt(ds, cs, i);
      assert SyncPorts(ds[i], cs[i]).Instances == ds[i].Instances;
    }
  }

  /** Linting that fails nowhere leaves the destinations in sync with the handlers. */
  lemma LintedPortsSynced(ds: seq<Handler>, cs: seq<Handler>)
    requires LintOutcome(ds, cs).None?
    ensures PrefixSynced(LintedPorts(ds, cs), cs)
  {
    assert FirstMismatch(ds, cs, 0) == |cs|;
  }

  /** Linting changes only instance ports: kinds, categories, ids and instance ids stay. */
  lemma LintKeepsShape(ds: seq<Handler>, cs: seq<Handler>)
    ensures |LintedPorts(ds, cs)| == |ds|
    ensures forall i :: 0 <= i < |ds| ==>
      var l := LintedPorts(ds, cs)[i];
      l.Type == ds[i].Type && l.Category == ds[i].Category && l.Id == ds[i].Id
      && |l.Instances| == |ds[i].Instances|
      && forall j :: 0 <= j < |l.Instances| ==> l.Instances[j].Id == ds[i].Instances[j].Id
  {
  }

  // ---------------------------------------------------------------- writing destinations back

  /** A proxy's destination handlers. */
  function Dests(c: Config): seq<Handler> {
    ByCategory(c.Controllers, DestinationName)
  }

  /** `hs` with its handlers of category `cat` replaced, in order, by `repl`. */
  function ReplaceCategory(hs: seq<Handler>, cat: string, repl: seq<Handler>): (r: seq<Handler>)
    requires |repl| == |ByCategory(hs, cat)|
    ensures |r| == |hs|
  {
    if hs == [] then []
    else
      var front := hs[..|hs| - 1];
      var last := hs[|hs| - 1];
      if last.Category == cat then ReplaceCategory(front, cat, repl[..|repl| - 1]) + [repl[|repl| - 1]]
      else ReplaceCategory(front, cat, repl) + [last]
  }

  /** Writing back what was there changes nothing. */
  lemma {:induction false} ReplaceWithOwn(hs: seq<Handler>, cat: string)
    ensures ReplaceCategory(hs, cat, ByCategory(hs, cat)) == hs
  {
    if hs != [] {
      var front := hs[..|hs| - 1];
      ReplaceWithOwn(front, cat);
      assert hs == front + [hs[|hs| - 1]];
      if hs[|hs| - 1].Category == cat {
        assert ByCategory(hs, cat)[..|ByCategory(hs, cat)| - 1] == ByCategory(front, cat);
      } else {
        assert ByCategory(hs, cat) == ByCategory(front, cat);
      }
    }
  }

  /** After writing back handlers of the category, the category's filter yields exactly them. */
  lemma {:induction false} ReplaceThenFilter(hs: seq<Handler>, cat: string, repl: seq<Handler>)
    requires |repl| == |ByCategory(hs, cat)|
    requires forall h :: h in repl ==> h.Category == cat
    ensures ByCategory(ReplaceCategory(hs, cat, repl), cat) == repl
  {
    if hs != [] {
      var front, last := hs[..|hs| - 1], hs[|hs| - 1];
      if last.Category == cat {
        var rfront, rlast := repl[..|repl| - 1], repl[|repl| - 1];
        assert |rfront| == |ByCategory(front, cat)| by {
          assert hs == front + [last];
          ByCategorySnoc(front, last, cat);
        }
        assert forall h :: h in rfront ==> h.Category == cat by {
          assert forall h :: h in rfront ==> h in repl;
        }
        assert rlast.Category == cat by {
          assert rlast in repl;
        }
        calc {
          ByCategory(ReplaceCategory(hs, cat, repl), cat);
          ByCategory(ReplaceCategory(front, cat, rfront) + [rlast], cat);
          { ByCategorySnoc(ReplaceCategory(front, cat, rfront), rlast, cat); }
          ByCategory(ReplaceCategory(front, cat, rfront), cat) + [rlast];
          { ReplaceThenFilter(front, cat, rfront); }
          rfront + [rlast];
          repl;
        }
      } else {
        assert |repl| == |ByCategory(front, cat)| by {
          assert hs == front + [last];
          ByCategorySnoc(front, last, cat);
        }
        calc {
          ByCategory(ReplaceCategory(hs, cat, repl), cat);
          ByCategory(ReplaceCategory(front, cat, repl) + [last], cat);
          { ByCategorySnoc(ReplaceCategory(front, cat, repl), last, cat); }
          ByCategory(ReplaceCategory(front, cat, repl), cat);
          { ReplaceThenFilter(front, cat, repl); }
          repl;
        }
      }
    }
  }

  /** Writing back handlers of one category leaves every other category's filter as it was. */
  lemma {:induction false} ReplaceKeepsOtherCategories(hs: seq<Handler>, cat: string, repl: seq<Handler>, other: string)
    requires |repl| == |ByCategory(hs, cat)|
    requires forall h :: h in repl ==> h.Category == cat
    requires other != cat
    ensures ByCategory(ReplaceCategory(hs, cat, repl), other) == ByCategory(hs, other)
  {
    if hs != [] {
      var front := hs[..|hs| - 1];
      var last := hs[|hs| - 1];
      var r := ReplaceCategory(hs, cat, repl);
      if last.Category == cat {
        var rfront := repl[..|repl| - 1];
        assert repl[|repl| - 1] in repl;
        assert forall h :: h in rfront ==> h in repl;
        ReplaceKeepsOtherCategories(front, cat, rfront, other);
        assert r[..|r| - 1] == ReplaceCategory(front, cat, rfront);
      } else {
        ReplaceKeepsOtherCategories(front, cat, repl, other);
        assert r[..|r| - 1] == ReplaceCategory(front, cat, repl);
      }
    }
  }

  /** What linting one proxy yields: the proxy as linted, whether it changed, the error, and the port requests made by then. */
  datatype Lint = Lint(linted: Config, updated: bool, err: Option<LintError>, calls: nat)

  /**
   * Linting the destinations of `c` to `controllers`, ports drawn from `free` from request
   * `start` on: no destinations is an error; when the numbers differ the proxy is rebuilt
   * from `controllers` (an error when there are none), drawing one port per instance;
   * otherwise the ports are copied over, the proxy changing only where a port differed.
   */
  function DestinationLint(c: Config, controllers: seq<Handler>, free: nat -> nat, start: nat): Lint {
    var ds := Dests(c);
    if ds == [] then Lint(c, false, Some(NoDestinationControllers(NotFound(DestinationName))), start)
    else if |ds| != |controllers| then
      if controllers == [] then Lint(c, false, Some(NothingToRewrite), start)
      else Lint(c.(Controllers := RewrittenControllers(controllers, free, start)), true, None, start + InstanceTotal(controllers))
    else
      var err := LintOutcome(ds, controllers);
      Lint(c.(Controllers := ReplaceCategory(c.Controllers, DestinationName, LintedPorts(ds, controllers))),
           err.None? && AnyPortDiffers(ds, controllers, |controllers|), err, start)
  }

  /** Linting the proxy `c` to the service `dest` that follows it. */
  function ProxyToServiceLint(c: Config, dest: Config, free: nat -> nat, start: nat): Lint {
    if c.Type != ProxyType then Lint(c, false, Some(NotProxy), start)
    else if dest.Type == ProxyType then Lint(c, false, Some(DestinationIsProxy), start)
    else DestinationLint(c, dest.Controllers, free, start)
  }

  /** Linting the proxy `c` to the proxy `dest` that follows it, whose sources it must reach. */
  function ProxyToProxyLint(c: Config, dest: Config, free: nat -> nat, start: nat): Lint {
    if c.Type != ProxyType then Lint(c, false, Some(NotProxy), start)
    else if dest.Type != ProxyType then Lint(c, false, Some(DestinationNotProxy), start)
    else if ByCategory(dest.Controllers, SourceName) == [] then Lint(c, false, Some(NoSourceControllers(NotFound(SourceName))), start)
    else DestinationLint(c, ByCategory(dest.Controllers, SourceName), free, start)
  }

  /**
   * A configuration with its destinations replaced by their linted copies has them in
   * sync with `cs`, and is the configuration itself when no port differed.
   */
  lemma LintedDestinationsStored(c: Config, cs: seq<Handler>)
    requires LintOutcome(Dests(c), cs).None?
    ensures var stored := c.(Controllers := ReplaceCategory(c.Controllers, DestinationName, LintedPorts(Dests(c), cs)));
      Dests(stored) == LintedPorts(Dests(c), cs)
      && PrefixSynced(Dests(stored), cs)
      && (!AnyPortDiffers(Dests(c), cs, |cs|) ==> stored == c)
  {
    var ds := Dests(c);
    var linted := LintedPorts(ds, cs);
    LintKeepsShape(ds, cs);
    assert forall h :: h in linted ==> h.Category == DestinationName by {
      forall h | h in linted ensures h.Category == DestinationName {
        var i :| 0 <= i < |linted| && linted[i] == h;
        assert ds[i] in ds;
      }
    }
    ReplaceThenFilter(c.Controllers, DestinationName, linted);
    LintedPortsSynced(ds, cs);
    if !AnyPortDiffers(ds, cs, |cs|) {
      LintWithoutChangeIsIdentity(ds, cs);
      ReplaceWithOwn(c.Controllers, DestinationName);
    }
  }

  /**
   * What linting one proxy promises, stated on DestinationLint: only the handlers change,
   * an error leaves the proxy unflagged, success puts the destinations in sync with
   * `controllers`, and a success that changed nothing gives back the proxy as it was.
   */
  lemma DestinationLintSynced(c: Config, controllers: seq<Handler>, free: nat -> nat, start: nat)
    ensures var r := DestinationLint(c, controllers, free, start);
      r.linted == c.(Controllers := r.linted.Controllers)
      && (r.err.Some? ==> !r.updated)
      && (r.err.None? ==> InSync(Dests(r.linted), controllers))
      && (r.err.None? && !r.updated ==> r.linted == c)
      && r.calls >= start
  {
    var ds := Dests(c);
    if ds != [] && |ds| != |controllers| && controllers != [] {
      RewrittenDestinations(controllers, free, start);
      DestinationHandlersInSync(controllers);
    } else if ds != [] && |ds| == |controllers| && LintOutcome(ds, controllers).None? {
      LintKeepsShape(ds, controllers);
      LintedDestinationsStored(c, controllers);
    }
  }

  /**
   * Lints a proxy's destination handlers to `controllers`: when their numbers differ,
   * the proxy's handlers are rebuilt from `controllers`; otherwise the ports are copied
   * onto the existing destinations. Reports whether the proxy changed.
   */
  method LintDestinationsToControllers(proxyConfig: Config, controllers: seq<Handler>, ports: FreePorts)
    returns (linted: Config, updated: bool, err: Option<LintError>)
    modifies ports
    ensures Lint(linted, updated, err, ports.calls) == DestinationLint(proxyConfig, controllers, ports.free, old(ports.calls))
    ensures err.Some? ==> !updated
    ensures linted == proxyConfig.(Controllers := linted.Controllers)
    ensures err.None? ==> InSync(Dests(linted), controllers)
    ensures err.None? && !updated ==> linted == proxyConfig
  {
    var found := AllOfCategory(proxyConfig.Controllers, DestinationName);
    if found.Err? {
      return proxyConfig, false, Some(NoDestinationControllers(found.error));
    }
    var proxyDestinations := found.value;
    if |proxyDestinations| != |controllers| {
      var rewritten := RewriteControllers(proxyConfig, controllers, ports);
      if rewritten.Err? {
        return proxyConfig, false, Some(rewritten.error);
      }
      RewrittenDestinations(controllers, ports.free, old(ports.calls));
      DestinationHandlersInSync(controllers);
      return rewritten.value, true, None;
    }
    var destinations, changed, lintErr := LintControllers(proxyDestinations, controllers);
    LintKeepsShape(proxyDestinations, controllers);
    assert forall h :: h in destinations ==> h.Category == DestinationName by {
      forall h | h in destinations ensures h.Category == DestinationName {
        var i :| 0 <= i < |destinations| && destinations[i] == h;
        assert proxyDestinations[i] in proxyDestinations;
      }
    }
    ReplaceThenFilter(proxyConfig.Controllers, DestinationName, destinations);
    linted := proxyConfig.(Controllers := ReplaceCategory(proxyConfig.Controllers, DestinationName, destinations));
    if lintErr.Some? {
      return linted, false, lintErr;
    }
    if !changed {
      LintWithoutChangeIsIdentity(proxyDestinations, controllers);
      ReplaceWithOwn(proxyConfig.Controllers, DestinationName);
    }
    return linted, changed, None;
  }

  /**
   * Lints the proxy in front of a service (not a proxy) to that service's handlers.
   * Afterwards the proxy has one destination per handler of the service.
   */
  method LintProxyToService(proxyConfig: Config, destinationService: Config, ports: FreePorts)
    returns (linted: Config, updated: bool, err: Option<LintError>)
    modifies ports
    ensures Lint(linted, updated, err, ports.calls) == ProxyToServiceLint(proxyConfig, destinationService, ports.free, old(ports.calls))
    ensures err.Some? ==> !updated
    ensures linted == proxyConfig.(Controllers := linted.Controllers)
    ensures err.None? ==> InSync(ByCategory(linted.Controllers, DestinationName), destinationService.Controllers)
    ensures err.None? && !updated ==> linted == proxyConfig
  {
    if proxyConfig.Type != ProxyType {
      return proxyConfig, false, Some(NotProxy);
    }
    if destinationService.Type == ProxyType {
      return proxyConfig, false, Some(DestinationIsProxy);
    }
    linted, updated, err := LintDestinationsToControllers(proxyConfig, destinationService.Controllers, ports);
  }

  /**
   * Lints a proxy to the proxy after it: the destinations of the first follow the
   * sources of the second.
   */
  method LintProxyToProxy(proxyConfig: Config, destinationService: Config, ports: FreePorts)
    returns (linted: Config, updated: bool, err: Option<LintError>)
    modifies ports
    ensures Lint(linted, updated, err, ports.calls) == ProxyToProxyLint(proxyConfig, destinationService, ports.free, old(ports.calls))
    ensures err.Some? ==> !updated
    ensures linted == proxyConfig.(Controllers := linted.Controllers)
    ensures err.None? ==>
      InSync(ByCategory(linted.Controllers, DestinationName), ByCategory(destinationService.Controllers, SourceName))
    ensures err.None? && !updated ==> linted == proxyConfig
  {
    if proxyConfig.Type != ProxyType {
      return proxyConfig, false, Some(NotProxy);
    }
    if destinationService.Type != ProxyType {
      return proxyConfig, false, Some(DestinationNotProxy);
    }
    var sources := AllOfCategory(destinationService.Controllers, SourceName);
    if sources.Err? {
      return proxyConfig, false, Some(NoSourceControllers(sources.error));
    }
    linted, updated, err := LintDestinationsToControllers(proxyConfig, sources.value, ports);
  }
}
