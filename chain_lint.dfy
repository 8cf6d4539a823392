/**
 * Linting whole pipelines through the configuration store (service/pipeline/prepare.go,
 * second half). Each proxy of a pipeline is linted to the one after it, the last one to
 * the service or to the proxy in front of the service, and every proxy that changed is
 * written back to the store. An error stops the walk; what was written stays written.
 */
module ChainLint {
  import opened Wrappers
  import opened Entities
  import opened PipeEnds
  import opened Pipelines
  import opened LegacyConfig
  import opened Collaborators
  import opened Prepare
  import Converter

  /** The handlers of category "source" of a configuration. */
  function Sources(c: Config): seq<Handler> {
    ByCategory(c.Controllers, SourceName)
  }

  /** The proxy at `a` forwards to the proxy at `b`: its destinations follow `b`'s sources. */
  predicate PairInSync(configs: map<string, Config>, a: string, b: string) {
    a in configs && b in configs && InSync(Dests(configs[a]), Sources(configs[b]))
  }

  /** Every proxy of `urls` forwards to the next one. */
  predicate ChainInSync(configs: map<string, Config>, urls: seq<string>) {
    forall j :: 0 <= j < |urls| - 1 ==> PairInSync(configs, urls[j], urls[j + 1])
  }

  /** Two stores agree on the configurations at `urls`. */
  predicate AgreeOn(c1: map<string, Config>, c2: map<string, Config>, urls: seq<string>) {
    forall u :: u in urls ==> (u in c1 <==> u in c2) && (u in c1 ==> c1[u] == c2[u])
  }

  /** The store holds the same URLs, and each configuration differs at most in its handlers. */
  predicate OnlyControllersChanged(before: map<string, Config>, after: map<string, Config>) {
    before.Keys == after.Keys
    && forall u :: u in before ==> after[u] == before[u].(Controllers := after[u].Controllers)
  }

  /** Whether a chain is in sync depends only on the configurations at its own URLs. */
  lemma ChainInSyncFrame(c1: map<string, Config>, c2: map<string, Config>, urls: seq<string>)
    requires AgreeOn(c1, c2, urls)
    requires ChainInSync(c1, urls)
    ensures ChainInSync(c2, urls)
  {
    forall j | 0 <= j < |urls| - 1
      ensures PairInSync(c2, urls[j], urls[j + 1])
    {
      assert PairInSync(c1, urls[j], urls[j + 1]);
      assert urls[j] in urls && urls[j + 1] in urls;
    }
  }

  /** Storing the value a key already has leaves a map as it was. */
  lemma UpdateWithSame<K, V>(m: map<K, V>, k: K, v: V)
    requires k in m && m[k] == v
    ensures m[k := v] == m
  {
  }

  /** What linting one stored proxy and writing it back yields. */
  datatype Step = Step(configs: map<string, Config>, linted: Config, updated: bool, err: Option<LintError>, calls: nat)

  /**
   * Linting the proxy stored at `url` to `dest` (a service when `toService`, else the
   * proxy after it), ports drawn from `free` from request `calls` on, then writing it
   * back when it changed. A missing proxy, a lint error or a refused write is the
   * error, and only a write that succeeds changes the store.
   */
  function StoreStep(configs: map<string, Config>, readOnly: set<string>, url: string, dest: Config,
                     toService: bool, free: nat -> nat, calls: nat): Step
  {
    if url !in configs then Step(configs, dest, false, Some(StoreFailed(Missing(url))), calls)
    else
      var l := if toService then ProxyToServiceLint(configs[url], dest, free, calls)
               else ProxyToProxyLint(configs[url], dest, free, calls);
      if l.err.Some? then Step(configs, l.linted, false, l.err, l.calls)
      else if l.updated && url in readOnly then Step(configs, l.linted, true, Some(StoreFailed(Rejected(url))), l.calls)
      else Step(if l.updated then configs[url := l.linted] else configs, l.linted, l.updated, None, l.calls)
  }

  /** The store, the error and the port requests made after a stretch of linting. */
  datatype Walk = Walk(configs: map<string, Config>, err: Option<LintError>, calls: nat)

  /**
   * Linting `urls` from the back, each proxy to the one after it, `next` being the
   * configuration that follows the last of them. Every link is a StoreStep; the first
   * error ends the walk, and the links linted before it stay written.
   */
  function FrontWalk(configs: map<string, Config>, readOnly: set<string>, urls: seq<string>, next: Config,
                     free: nat -> nat, calls: nat): Walk
  {
    if urls == [] then Walk(configs, None, calls)
    else
      var s := StoreStep(configs, readOnly, urls[|urls| - 1], next, false, free, calls);
      if s.err.Some? then Walk(s.configs, s.err, s.calls)
      else FrontWalk(s.configs, readOnly, urls[..|urls| - 1], s.linted, free, s.calls)
  }

  /**
   * A step that succeeds writes the linted proxy, which differs only in its handlers and
   * is in sync with what follows it; a step that fails writes nothing.
   */
  lemma StoreStepWrites(configs: map<string, Config>, readOnly: set<string>, url: string, dest: Config,
                        toService: bool, free: nat -> nat, calls: nat)
    ensures var s := StoreStep(configs, readOnly, url, dest, toService, free, calls);
      s.calls >= calls
      && (s.err.Some? ==> s.configs == configs)
      && (s.err.None? ==>
            url in configs && s.linted == configs[url].(Controllers := s.linted.Controllers)
            && InSync(Dests(s.linted), if toService then dest.Controllers else Sources(dest))
            && s.configs == configs[url := s.linted])
  {
    if url in configs {
      var s := StoreStep(configs, readOnly, url, dest, toService, free, calls);
      LinkLintSynced(configs[url], dest, toService, free, calls);
      if s.err.None? && !s.updated {
        UpdateWithSame(configs, url, s.linted);
      }
    }
  }

  /** Linting one link keeps everything but the handlers, and leaves the destinations in sync when it succeeds. */
  lemma LinkLintSynced(c: Config, dest: Config, toService: bool, free: nat -> nat, calls: nat)
    ensures var l := if toService then ProxyToServiceLint(c, dest, free, calls) else ProxyToProxyLint(c, dest, free, calls);
      l.calls >= calls
      && (l.err.Some? ==> !l.updated)
      && (l.err.None? ==>
            l.linted == c.(Controllers := l.linted.Controllers)
            && InSync(Dests(l.linted), if toService then dest.Controllers else Sources(dest))
            && (!l.updated ==> l.linted == c))
  {
    DestinationLintSynced(c, if toService then dest.Controllers else Sources(dest), free, calls);
  }

  /** Changing only handlers, twice, changes only handlers. */
  lemma OnlyControllersChangedTrans(c1: map<string, Config>, c2: map<string, Config>, c3: map<string, Config>)
    requires OnlyControllersChanged(c1, c2) && OnlyControllersChanged(c2, c3)
    ensures OnlyControllersChanged(c1, c3)
  {
    forall u | u in c1 ensures c3[u] == c1[u].(Controllers := c3[u].Controllers) {
      assert c2[u] == c1[u].(Controllers := c2[u].Controllers);
    }
  }

  /**
   * The walk from the back changes only the handlers of the proxies it walks, and never
   * takes back a port request.
   */
  lemma {:induction false} FrontWalkFrame(configs: map<string, Config>, readOnly: set<string>, urls: seq<string>,
                                          next: Config, free: nat -> nat, calls: nat)
    ensures OnlyControllersChanged(configs, FrontWalk(configs, readOnly, urls, next, free, calls).configs)
    ensures forall u :: u in configs && u !in urls ==> FrontWalk(configs, readOnly, urls, next, free, calls).configs[u] == configs[u]
    ensures FrontWalk(configs, readOnly, urls, next, free, calls).calls >= calls
  {
    if urls != [] {
      var url := urls[|urls| - 1];
      var s := StoreStep(configs, readOnly, url, next, false, free, calls);
      StoreStepWrites(configs, readOnly, url, next, false, free, calls);
      if s.err.None? {
        var front := urls[..|urls| - 1];
        FrontWalkFrame(s.configs, readOnly, front, s.linted, free, s.calls);
        assert forall u :: u in front ==> u in urls;
        OnlyControllersChangedTrans(configs, s.configs, FrontWalk(s.configs, readOnly, front, s.linted, free, s.calls).configs);
      }
    }
  }

  /** A chain in sync extended at the back by a proxy its last element is in sync with. */
  lemma ChainInSyncSnoc(configs: map<string, Config>, urls: seq<string>, b: string)
    requires urls != [] && ChainInSync(configs, urls)
    requires PairInSync(configs, urls[|urls| - 1], b)
    ensures ChainInSync(configs, urls + [b])
  {
    var ext := urls + [b];
    forall j | 0 <= j < |ext| - 1
      ensures PairInSync(configs, ext[j], ext[j + 1])
    {
      if j < |urls| - 1 {
        assert ext[j] == urls[j] && ext[j + 1] == urls[j + 1];
      }
    }
  }

  /** Dropping the last of distinct URLs leaves distinct URLs drawn from them, the dropped one not among them. */
  lemma DistinctFront(urls: seq<string>)
    requires urls != [] && Distinct(urls)
    ensures var front := urls[..|urls| - 1];
      urls == front + [urls[|urls| - 1]]
      && Distinct(front) && urls[|urls| - 1] !in front && (forall u :: u in front ==> u in urls)
  {
    var front := urls[..|urls| - 1];
    assert forall m :: 0 <= m < |front| ==> front[m] == urls[m];
  }

  /**
   * A walk from the back that ends without error over distinct proxies, none of them the
   * proxy `last` whose configuration it starts from, leaves them forwarding link by link
   * up to `last`.
   */
  lemma {:induction false} FrontWalkLinted(configs: map<string, Config>, readOnly: set<string>, urls: seq<string>,
                                           last: string, free: nat -> nat, calls: nat)
    requires last in configs && last !in urls && Distinct(urls)
    requires FrontWalk(configs, readOnly, urls, configs[last], free, calls).err.None?
    ensures ChainInSync(FrontWalk(configs, readOnly, urls, configs[last], free, calls).configs, urls + [last])
  {
    if urls != [] {
      var url := urls[|urls| - 1];
      var front := urls[..|urls| - 1];
      DistinctFront(urls);
      var s := StoreStep(configs, readOnly, url, configs[last], false, free, calls);
      StoreStepWrites(configs, readOnly, url, configs[last], false, free, calls);
      var w := FrontWalk(s.configs, readOnly, front, s.linted, free, s.calls);
      FrontWalkLinted(s.configs, readOnly, front, url, free, s.calls);
      FrontWalkFrame(s.configs, readOnly, front, s.linted, free, s.calls);
      assert PairInSync(w.configs, url, last);
      ChainInSyncSnoc(w.configs, front + [url], last);
    }
  }

  /** Linting the proxies in front of the last one of `p`, starting from the last one's stored configuration. */
  function FrontOutcome(configs: map<string, Config>, readOnly: set<string>, p: Pipeline, free: nat -> nat, calls: nat): Walk {
    if HeadLast(p) !in configs then Walk(configs, Some(StoreFailed(Missing(HeadLast(p)))), calls)
    else FrontWalk(configs, readOnly, HeadFront(p), configs[HeadLast(p)], free, calls)
  }

  /**
   * Linting the last proxy of a pipeline: its StoreStep, and when that wrote a changed
   * proxy, the conversion of it into a proxy entry, whose failure is reported after the write.
   */
  function LastOutcome(configs: map<string, Config>, readOnly: set<string>, url: string, dest: Config,
                       toService: bool, free: nat -> nat, calls: nat): Walk
  {
    var s := StoreStep(configs, readOnly, url, dest, toService, free, calls);
    Walk(s.configs,
         if s.err.Some? then s.err
         else if s.updated && Converter.ServiceToProxy(s.linted).Err? then Some(ConvertFailed)
         else None,
         s.calls)
  }

  /** The service's proxies after linting the last proxy: the converted proxy is set exactly when it was written and converts. */
  function LastProxies(configs: map<string, Config>, readOnly: set<string>, url: string, dest: Config,
                       toService: bool, free: nat -> nat, calls: nat, proxies: seq<Proxy>): seq<Proxy>
  {
    var s := StoreStep(configs, readOnly, url, dest, toService, free, calls);
    if s.err.None? && s.updated && Converter.ServiceToProxy(s.linted).Ok?
    then UpsertProxy(proxies, Converter.ServiceToProxy(s.linted).value)
    else proxies
  }

  /** A stretch of linting followed, when it ended without error, by the front of `p`'s head. */
  function ThenFront(w: Walk, readOnly: set<string>, p: Pipeline, free: nat -> nat): Walk {
    if w.err.Some? then w else FrontOutcome(w.configs, readOnly, p, free, w.calls)
  }

  /**
   * Linting each of `ps` in turn through the service proxy `service`: the last proxy to
   * `service`, then the front of the head. Each registered proxy joins `service`'s proxies
   * for the pipelines after it; the first error ends the walk.
   */
  function ControllersWalk(configs: map<string, Config>, readOnly: set<string>, service: Config, ps: seq<Pipeline>,
                           free: nat -> nat, calls: nat): Walk
    decreases |ps|
  {
    if ps == [] then Walk(configs, None, calls)
    else
      var last := LastOutcome(configs, readOnly, HeadLast(ps[0]), service, false, free, calls);
      var w := ThenFront(last, readOnly, ps[0], free);
      if w.err.Some? then w
      else
        var proxies := LastProxies(configs, readOnly, HeadLast(ps[0]), service, false, free, calls, service.Proxies);
        ControllersWalk(w.configs, readOnly, service.(Proxies := proxies), ps[1..], free, w.calls)
  }

  /**
   * Linting the last proxy at `url` straight to the handler instances `cs`: the proxy
   * needs exactly two handlers and some destinations, and the lint must succeed; it is
   * written back only when a port differed.
   */
  function ControllerStep(configs: map<string, Config>, readOnly: set<string>, url: string, cs: seq<Handler>)
    : (map<string, Config>, Option<LintError>)
  {
    if url !in configs then (configs, Some(StoreFailed(Missing(url))))
    else
      var c := configs[url];
      if |c.Controllers| != 2 then (configs, Some(NotTwoControllers))
      else if Dests(c) == [] then (configs, Some(NoDestinationControllers(NotFound(DestinationName))))
      else if LintOutcome(Dests(c), cs).Some? then (configs, LintOutcome(Dests(c), cs))
      else if !AnyPortDiffers(Dests(c), cs, |cs|) then (configs, None)
      else if url in readOnly then (configs, Some(StoreFailed(Rejected(url))))
      else (configs[url := c.(Controllers := ReplaceCategory(c.Controllers, DestinationName, LintedPorts(Dests(c), cs)))], None)
  }

  /**
   * Linting straight to handlers writes only the handlers of the proxy at `url`, refuses a
   * proxy without exactly two handlers, and leaves its destinations in sync with `cs`
   * on success.
   */
  lemma ControllerStepWrites(configs: map<string, Config>, readOnly: set<string>, url: string, cs: seq<Handler>)
    ensures var (after, err) := ControllerStep(configs, readOnly, url, cs);
      OnlyControllersChanged(configs, after)
      && (forall u :: u in after && u != url ==> after[u] == configs[u])
      && (url in configs && |configs[url].Controllers| != 2 ==> err == Some(NotTwoControllers) && after == configs)
      && (err.None? ==> url in after && PrefixSynced(Dests(after[url]), cs))
  {
    if url in configs && |configs[url].Controllers| == 2 && Dests(configs[url]) != [] && LintOutcome(Dests(configs[url]), cs).None? {
      LintedDestinationsStored(configs[url], cs);
    }
  }

  /** Reads a configuration from the store, turning a store error into a lint error. */
  method Fetch(ctx: Orchestra, url: string) returns (r: Result<Config, LintError>)
    ensures r.Ok? <==> url in ctx.configs
    ensures r.Ok? ==> r.value == ctx.configs[url]
    ensures r.Err? ==> r.error == StoreFailed(Missing(url))
  {
    var got := ctx.GetConfig(url);
    if got.Err? {
      return Err(StoreFailed(got.error));
    }
    return Ok(got.value);
  }

  /**
   * Lints the proxy stored at `url` to the configuration `next` that follows it (the
   * service when `toService`, else the next proxy) and writes it back when it changed.
   * On an error the store is as it was.
   */
  method LintStored(ctx: Orchestra, url: string, next: Config, toService: bool, ports: FreePorts)
    returns (linted: Config, updated: bool, err: Option<LintError>)
    modifies ctx, ports
    ensures Step(ctx.configs, linted, updated, err, ports.calls)
         == StoreStep(old(ctx.configs), ctx.readOnly, url, next, toService, ports.free, old(ports.calls))
    ensures err.Some? ==> ctx.configs == old(ctx.configs)
    ensures err.None? ==>
      url in old(ctx.configs) && linted == old(ctx.configs)[url].(Controllers := linted.Controllers)
      && InSync(Dests(linted), if toService then next.Controllers else Sources(next))
      && ctx.configs == old(ctx.configs)[url := linted]
  {
    linted := next;
    var fetched := Fetch(ctx, url);
    if fetched.Err? {
      return linted, false, Some(fetched.error);
    }
    var config := fetched.value;
    var lintErr;
    if toService {
      linted, updated, lintErr := LintProxyToService(config, next, ports);
    } else {
      linted, updated, lintErr := LintProxyToProxy(config, next, ports);
    }
    if lintErr.Some? {
      return linted, updated, lintErr;
    }
    if updated {
      var setErr := ctx.SetConfig(url, linted);
      if setErr.Some? {
        return linted, updated, Some(StoreFailed(setErr.value));
      }
    } else {
      UpdateWithSame(ctx.configs, url, linted);
    }
    return linted, updated, None;
  }

  /**
   * One link of the walk from the back: lints the last of `urls` to `next` and writes it
   * back when it changed. The walk over `urls` is this step, then the walk over the rest.
   */
  method FrontLink(ctx: Orchestra, urls: seq<string>, next: Config, ports: FreePorts)
    returns (linted: Config, err: Option<LintError>)
    requires urls != []
    modifies ctx, ports
    ensures FrontWalk(old(ctx.configs), ctx.readOnly, urls, next, ports.free, old(ports.calls))
         == if err.Some? then Walk(ctx.configs, err, ports.calls)
            else FrontWalk(ctx.configs, ctx.readOnly, urls[..|urls| - 1], linted, ports.free, ports.calls)
    ensures err.Some? ==> ctx.configs == old(ctx.configs)
    ensures err.None? ==>
      var url := urls[|urls| - 1];
      url in old(ctx.configs) && linted == old(ctx.configs)[url].(Controllers := linted.Controllers)
      && InSync(Dests(linted), Sources(next))
      && ctx.configs == old(ctx.configs)[url := linted]
  {
    var updated;
    linted, updated, err := LintStored(ctx, urls[|urls| - 1], next, false, ports);
  }

  /**
   * Lints the proxies in front of the last one, from the back: each to the one after
   * it, starting with the last proxy of the head, writing back those that changed.
   */
  method LintFront(ctx: Orchestra, p: Pipeline, ports: FreePorts) returns (err: Option<LintError>)
    modifies ctx, ports
    ensures Walk(ctx.configs, err, ports.calls) == FrontOutcome(old(ctx.configs), ctx.readOnly, p, ports.free, old(ports.calls))
    ensures OnlyControllersChanged(old(ctx.configs), ctx.configs)
    ensures forall u :: u in ctx.configs && u !in HeadFront(p) ==> ctx.configs[u] == old(ctx.configs)[u]
    ensures HeadLast(p) !in old(ctx.configs) ==> err.Some? && ctx.configs == old(ctx.configs)
    ensures err.None? && HasLength(p) && Distinct(p.Head) ==> ChainInSync(ctx.configs, p.Head)
  {
    var lastUrl := HeadLast(p);
    var fetched := Fetch(ctx, lastUrl);
    if fetched.Err? {
      return Some(fetched.error);
    }
    var lastConfig := fetched.value;
    var proxyUrls := HeadFront(p);
    ghost var whole := FrontWalk(ctx.configs, ctx.readOnly, proxyUrls, lastConfig, ports.free, ports.calls);
    FrontWalkFrame(ctx.configs, ctx.readOnly, proxyUrls, lastConfig, ports.free, ports.calls);
    if HasLength(p) && Distinct(p.Head) && whole.err.None? {
      HeadSplits(p);
      DistinctFront(p.Head);
      FrontWalkLinted(ctx.configs, ctx.readOnly, proxyUrls, lastUrl, ports.free, ports.calls);
    }
    var rest := proxyUrls;
    while rest != []
      invariant whole == FrontWalk(ctx.configs, ctx.readOnly, rest, lastConfig, ports.free, ports.calls)
    {
      var linted, linkErr := FrontLink(ctx, rest, lastConfig, ports);
      if linkErr.Some? {
        return linkErr;
      }
      lastConfig := linted;
      rest := rest[..|rest| - 1];
    }
    return None;
  }

  /**
   * Lints the last proxy of a pipeline with more than one proxy to the service, writes
   * it back when it changed and registers it, as converted, among the service's proxies.
   */
  method LintLastToService(ctx: Orchestra, config: Service, p: Pipeline, ports: FreePorts)
    returns (err: Option<LintError>)
    modifies ctx, ports, config
    ensures !IsMultiHead(p) ==>
      err.None? && ctx.configs == old(ctx.configs) && ports.calls == old(ports.calls) && config.Proxies == old(config.Proxies)
    ensures IsMultiHead(p) ==>
      Walk(ctx.configs, err, ports.calls)
        == LastOutcome(old(ctx.configs), ctx.readOnly, HeadLast(p), old(config.Value()), true, ports.free, old(ports.calls))
      && config.Proxies
        == LastProxies(old(ctx.configs), ctx.readOnly, HeadLast(p), old(config.Value()), true, ports.free, old(ports.calls), old(config.Proxies))
    ensures OnlyControllersChanged(old(ctx.configs), ctx.configs)
    ensures forall u :: u in ctx.configs && u != HeadLast(p) ==> ctx.configs[u] == old(ctx.configs)[u]
    ensures config.Controllers == old(config.Controllers) && config.Extensions == old(config.Extensions)
    ensures config.Pipelines == old(config.Pipelines)
    ensures config.Proxies == old(config.Proxies)
      || (HeadLast(p) in ctx.configs && Converter.ServiceToProxy(ctx.configs[HeadLast(p)]).Ok?
          && config.Proxies == UpsertProxy(old(config.Proxies), Converter.ServiceToProxy(ctx.configs[HeadLast(p)]).value))
    ensures err.None? && IsMultiHead(p) ==>
      HeadLast(p) in ctx.configs && InSync(Dests(ctx.configs[HeadLast(p)]), config.Controllers)
  {
    if !IsMultiHead(p) {
      return None;
    }
    var linted, updated, stepErr := LintStored(ctx, HeadLast(p), config.Value(), true, ports);
    if stepErr.Some? {
      return stepErr;
    }
    if updated {
      var converted := Converter.ServiceToProxy(linted);
      if converted.Err? {
        return Some(ConvertFailed);
      }
      config.SetProxy(converted.value);
    }
    return None;
  }

  /** Lints a pipeline that ends at the service: the last proxy to the service, then the rest of the head. */
  method LintToService(ctx: Orchestra, config: Service, p: Pipeline, ports: FreePorts)
    returns (err: Option<LintError>)
    modifies ctx, ports, config
    ensures OnlyControllersChanged(old(ctx.configs), ctx.configs)
    ensures forall u :: u in ctx.configs && u !in p.Head ==> ctx.configs[u] == old(ctx.configs)[u]
    ensures config.Controllers == old(config.Controllers) && config.Extensions == old(config.Extensions)
    ensures config.Pipelines == old(config.Pipelines)
    ensures Walk(ctx.configs, err, ports.calls)
         == ThenFront(if IsMultiHead(p)
                      then LastOutcome(old(ctx.configs), ctx.readOnly, HeadLast(p), old(config.Value()), true, ports.free, old(ports.calls))
                      else Walk(old(ctx.configs), None, old(ports.calls)),
                      ctx.readOnly, p, ports.free)
    ensures config.Proxies
         == if IsMultiHead(p)
            then LastProxies(old(ctx.configs), ctx.readOnly, HeadLast(p), old(config.Value()), true, ports.free, old(ports.calls), old(config.Proxies))
            else old(config.Proxies)
    ensures err.None? && HasLength(p) && Distinct(p.Head) ==> ChainInSync(ctx.configs, p.Head)
    ensures err.None? && IsMultiHead(p) && Distinct(p.Head) ==>
      HeadLast(p) in ctx.configs && InSync(Dests(ctx.configs[HeadLast(p)]), config.Controllers)
  {
    err := LintLastToService(ctx, config, p, ports);
    if err.Some? {
      return err;
    }
    err := LintFront(ctx, p, ports);
    HeadMembers(p);
  }

  /** The proxies of a head are its front and its last one; when they are distinct the last is not in the front. */
  lemma HeadMembers(p: Pipeline)
    ensures HasLength(p) ==> HeadLast(p) in p.Head
    ensures forall u :: u in HeadFront(p) ==> u in p.Head
    ensures HasLength(p) && Distinct(p.Head) ==> HeadLast(p) !in HeadFront(p)
  {
    if HasLength(p) {
      HeadSplits(p);
      if Distinct(p.Head) {
        DistinctFront(p.Head);
      }
    }
  }

  /**
   * Lints the last proxy of a handler's pipeline to the proxy in front of the service
   * and writes it back when it changed; the service proxy's configuration, a copy held
   * by the caller, then lists that proxy as converted.
   */
  method LintLastToProxy(ctx: Orchestra, serviceConfig: Config, p: Pipeline, ports: FreePorts)
    returns (updatedService: Config, err: Option<LintError>)
    modifies ctx, ports
    ensures OnlyControllersChanged(old(ctx.configs), ctx.configs)
    ensures forall u :: u in ctx.configs && u != HeadLast(p) ==> ctx.configs[u] == old(ctx.configs)[u]
    ensures updatedService == serviceConfig.(Proxies := updatedService.Proxies)
    ensures Walk(ctx.configs, err, ports.calls)
         == LastOutcome(old(ctx.configs), ctx.readOnly, HeadLast(p), serviceConfig, false, ports.free, old(ports.calls))
    ensures updatedService.Proxies
         == LastProxies(old(ctx.configs), ctx.readOnly, HeadLast(p), serviceConfig, false, ports.free, old(ports.calls), serviceConfig.Proxies)
    ensures updatedService.Proxies == serviceConfig.Proxies
      || (HeadLast(p) in ctx.configs && Converter.ServiceToProxy(ctx.configs[HeadLast(p)]).Ok?
          && updatedService.Proxies == UpsertProxy(serviceConfig.Proxies, Converter.ServiceToProxy(ctx.configs[HeadLast(p)]).value))
    ensures err.None? ==> HeadLast(p) in ctx.configs && InSync(Dests(ctx.configs[HeadLast(p)]), Sources(serviceConfig))
  {
    updatedService := serviceConfig;
    var linted, updated, stepErr := LintStored(ctx, HeadLast(p), serviceConfig, false, ports);
    if stepErr.Some? {
      return updatedService, stepErr;
    }
    if updated {
      var converted := Converter.ServiceToProxy(linted);
      if converted.Err? {
        return updatedService, Some(ConvertFailed);
      }
      updatedService := serviceConfig.(Proxies := UpsertProxy(serviceConfig.Proxies, converted.value));
    }
    return updatedService, None;
  }

  /**
   * Lints the last proxy of a handler's pipeline directly to that handler's instances.
   * The handler lookup's error is ignored, so an unknown handler lints to nothing.
   */
  method LintLastToController(ctx: Orchestra, serviceConfig: Service, p: Pipeline) returns (err: Option<LintError>)
    modifies ctx
    ensures (ctx.configs, err)
         == ControllerStep(old(ctx.configs), ctx.readOnly, HeadLast(p), ByCategory(serviceConfig.Controllers, p.End.Id))
    ensures OnlyControllersChanged(old(ctx.configs), ctx.configs)
    ensures forall u :: u in ctx.configs && u != HeadLast(p) ==> ctx.configs[u] == old(ctx.configs)[u]
    ensures HeadLast(p) in old(ctx.configs) && |old(ctx.configs)[HeadLast(p)].Controllers| != 2 ==>
      err == Some(NotTwoControllers) && ctx.configs == old(ctx.configs)
    ensures err.None? ==>
      HeadLast(p) in ctx.configs
      && PrefixSynced(Dests(ctx.configs[HeadLast(p)]), ByCategory(serviceConfig.Controllers, p.End.Id))
  {
    ControllerStepWrites(ctx.configs, ctx.readOnly, HeadLast(p), ByCategory(serviceConfig.Controllers, p.End.Id));
    var lastUrl := HeadLast(p);
    var fetched := Fetch(ctx, lastUrl);
    if fetched.Err? {
      return Some(fetched.error);
    }
    var lastConfig := fetched.value;
    var found := serviceConfig.GetControllers(p.End.Id);
    var controllerConfigs := if found.Ok? then found.value else [];
    assert controllerConfigs == ByCategory(serviceConfig.Controllers, p.End.Id);
    if |lastConfig.Controllers| != 2 {
      return Some(NotTwoControllers);
    }
    var destinations := AllOfCategory(lastConfig.Controllers, DestinationName);
    if destinations.Err? {
      return Some(NoDestinationControllers(destinations.error));
    }
    var ds := destinations.value;
    var linted, updated, lintErr := LintControllers(ds, controllerConfigs);
    if lintErr.Some? {
      return lintErr;
    }
    var lintedConfig := lastConfig.(Controllers := ReplaceCategory(lastConfig.Controllers, DestinationName, linted));
    if updated {
      var setErr := ctx.SetConfig(lastUrl, lintedConfig);
      if setErr.Some? {
        return Some(StoreFailed(setErr.value));
      }
    }
    return None;
  }

  /** What linting promises for one handler's pipeline: its head forwards link by link, and its last proxy to `sources`. */
  predicate PipelineLinted(configs: map<string, Config>, p: Pipeline, sources: seq<Handler>) {
    ChainInSync(configs, p.Head)
    && HeadLast(p) in configs && InSync(Dests(configs[HeadLast(p)]), sources)
  }

  /** Pipelines whose heads are non-empty, repeat no proxy, and share no proxy with each other. */
  predicate SeparateChains(ps: seq<Pipeline>) {
    (forall k :: 0 <= k < |ps| ==> HasLength(ps[k]) && Distinct(ps[k].Head))
    && forall a, b :: 0 <= a < b < |ps| ==> forall u :: u in ps[a].Head ==> u !in ps[b].Head
  }

  /** Every URL whose configuration linting `ps` may write: the proxies of each head, and "" for an empty one. */
  function HeadUrls(ps: seq<Pipeline>): (r: set<string>)
    ensures forall k, u :: 0 <= k < |ps| && u in ps[k].Head ==> u in r
    ensures forall k :: 0 <= k < |ps| ==> HeadLast(ps[k]) in r
  {
    if ps == [] then {} else HeadUrls(ps[..|ps| - 1]) + Elements(ps[|ps| - 1].Head) + {HeadLast(ps[|ps| - 1])}
  }

  function Elements(urls: seq<string>): (r: set<string>)
    ensures forall u :: u in urls <==> u in r
  {
    set u | u in urls
  }

  lemma AllLinted(configs: map<string, Config>, ps: seq<Pipeline>, sources: seq<Handler>)
    requires forall k :: 0 <= k < |ps| ==> PipelineLinted(configs, ps[k], sources)
    ensures forall p :: p in ps ==> PipelineLinted(configs, p, sources)
  {
  }

  /** A linted pipeline stays linted while its proxies' configurations stay. */
  lemma PipelineLintedFrame(c1: map<string, Config>, c2: map<string, Config>, p: Pipeline, sources: seq<Handler>)
    requires HasLength(p)
    requires AgreeOn(c1, c2, p.Head)
    requires PipelineLinted(c1, p, sources)
    ensures PipelineLinted(c2, p, sources)
  {
    ChainInSyncFrame(c1, c2, p.Head);
    HeadSplits(p);
    assert HeadLast(p) in p.Head;
  }

  /** After the last proxy and then the rest of a head are linted, the whole pipeline is linted. */
  lemma LastThenFrontLinted(afterLast: map<string, Config>, after: map<string, Config>, p: Pipeline, sources: seq<Handler>)
    requires HasLength(p) && Distinct(p.Head)
    requires HeadLast(p) in afterLast && InSync(Dests(afterLast[HeadLast(p)]), sources)
    requires afterLast.Keys == after.Keys
    requires forall u :: u in after && u !in HeadFront(p) ==> after[u] == afterLast[u]
    requires ChainInSync(after, p.Head)
    ensures PipelineLinted(after, p, sources)
  {
    HeadSplits(p);
    HeadMembers(p);
  }

  /** Linting one pipeline, its last proxy and then the front of its head, writes only that head's handlers. */
  lemma PipelineStepFrame(configs: map<string, Config>, readOnly: set<string>, service: Config, p: Pipeline,
                          free: nat -> nat, calls: nat)
    ensures var w := ThenFront(LastOutcome(configs, readOnly, HeadLast(p), service, false, free, calls), readOnly, p, free);
      OnlyControllersChanged(configs, w.configs)
      && (forall u :: u in w.configs && u != HeadLast(p) && u !in p.Head ==> w.configs[u] == configs[u])
  {
    var last := LastOutcome(configs, readOnly, HeadLast(p), service, false, free, calls);
    LastOutcomeWrites(configs, readOnly, HeadLast(p), service, false, free, calls);
    HeadMembers(p);
    if last.err.None? {
      FrontOutcomeFrame(last.configs, readOnly, p, free, last.calls);
      OnlyControllersChangedTrans(configs, last.configs, ThenFront(last, readOnly, p, free).configs);
    }
  }

  /** Linting the last proxy writes only the handlers of that proxy. */
  lemma LastOutcomeWrites(configs: map<string, Config>, readOnly: set<string>, url: string, dest: Config,
                          toService: bool, free: nat -> nat, calls: nat)
    ensures var l := LastOutcome(configs, readOnly, url, dest, toService, free, calls);
      OnlyControllersChanged(configs, l.configs)
      && (forall u :: u in l.configs && u != url ==> l.configs[u] == configs[u])
  {
    StoreStepWrites(configs, readOnly, url, dest, toService, free, calls);
  }

  /** Linting the front of a head writes only the handlers of the proxies in it. */
  lemma FrontOutcomeFrame(configs: map<string, Config>, readOnly: set<string>, p: Pipeline, free: nat -> nat, calls: nat)
    ensures var f := FrontOutcome(configs, readOnly, p, free, calls);
      OnlyControllersChanged(configs, f.configs)
      && (forall u :: u in f.configs && u !in HeadFront(p) ==> f.configs[u] == configs[u])
  {
    if HeadLast(p) in configs {
      FrontWalkFrame(configs, readOnly, HeadFront(p), configs[HeadLast(p)], free, calls);
    }
  }

  /** Linting one pipeline of distinct proxies without error leaves it linted to the service proxy's sources. */
  lemma PipelineStepLinted(configs: map<string, Config>, readOnly: set<string>, service: Config, p: Pipeline,
                           free: nat -> nat, calls: nat)
    requires HasLength(p) && Distinct(p.Head)
    requires ThenFront(LastOutcome(configs, readOnly, HeadLast(p), service, false, free, calls), readOnly, p, free).err.None?
    ensures PipelineLinted(ThenFront(LastOutcome(configs, readOnly, HeadLast(p), service, false, free, calls), readOnly, p, free).configs,
                           p, Sources(service))
  {
    var last := LastOutcome(configs, readOnly, HeadLast(p), service, false, free, calls);
    var w := ThenFront(last, readOnly, p, free);
    StoreStepWrites(configs, readOnly, HeadLast(p), service, false, free, calls);
    HeadSplits(p);
    HeadMembers(p);
    DistinctFront(p.Head);
    var lastUrl := HeadLast(p);
    FrontWalkLinted(last.configs, readOnly, HeadFront(p), lastUrl, free, last.calls);
    FrontWalkFrame(last.configs, readOnly, HeadFront(p), last.configs[lastUrl], free, last.calls);
    LastThenFrontLinted(last.configs, w.configs, p, Sources(service));
  }

  /** Walking several pipelines writes only handlers, and only at URLs of their heads. */
  lemma {:induction false} ControllersWalkFrame(configs: map<string, Config>, readOnly: set<string>, service: Config,
                                                ps: seq<Pipeline>, free: nat -> nat, calls: nat, urls: set<string>)
    requires forall k :: 0 <= k < |ps| ==> HeadLast(ps[k]) in urls && forall u :: u in ps[k].Head ==> u in urls
    ensures var w := ControllersWalk(configs, readOnly, service, ps, free, calls);
      OnlyControllersChanged(configs, w.configs)
      && forall u :: u in w.configs && u !in urls ==> w.configs[u] == configs[u]
    decreases |ps|
  {
    if ps != [] {
      var last := LastOutcome(configs, readOnly, HeadLast(ps[0]), service, false, free, calls);
      var w := ThenFront(last, readOnly, ps[0], free);
      PipelineStepFrame(configs, readOnly, service, ps[0], free, calls);
      if w.err.None? {
        var proxies := LastProxies(configs, readOnly, HeadLast(ps[0]), service, false, free, calls, service.Proxies);
        var rest := ps[1..];
        assert forall k :: 0 <= k < |rest| ==> rest[k] == ps[k + 1];
        ControllersWalkFrame(w.configs, readOnly, service.(Proxies := proxies), rest, free, w.calls, urls);
        OnlyControllersChangedTrans(configs, w.configs, ControllersWalk(w.configs, readOnly, service.(Proxies := proxies), rest, free, w.calls).configs);
      }
    }
  }

  /** The tail of separate pipelines is separate, and shares no proxy with the first one, whose head is non-empty and distinct. */
  lemma SeparateChainsTail(ps: seq<Pipeline>)
    requires ps != [] && SeparateChains(ps)
    ensures SeparateChains(ps[1..]) && HasLength(ps[0]) && Distinct(ps[0].Head)
    ensures forall k, u :: 0 <= k < |ps| - 1 && u in ps[0].Head ==> u !in ps[1..][k].Head
  {
    var rest := ps[1..];
    assert forall k :: 0 <= k < |rest| ==> rest[k] == ps[k + 1];
  }

  /** Every proxy of the heads of `ps`. */
  function HeadsOf(ps: seq<Pipeline>): (r: set<string>)
    ensures forall k, u :: 0 <= k < |ps| && u in ps[k].Head ==> u in r
  {
    set k, u | 0 <= k < |ps| && u in ps[k].Head :: u
  }

  /** The heads after the first of separate pipelines hold their last proxies and none of the first head's. */
  lemma SeparateFirst(ps: seq<Pipeline>)
    requires ps != [] && SeparateChains(ps)
    ensures forall k :: 0 <= k < |ps| - 1 ==> HeadLast(ps[1..][k]) in HeadsOf(ps[1..])
    ensures forall u :: u in ps[0].Head ==> u !in HeadsOf(ps[1..])
  {
    var rest := ps[1..];
    SeparateChainsTail(ps);
    forall k | 0 <= k < |rest| ensures HeadLast(rest[k]) in HeadsOf(rest) {
      var h := rest[k].Head;
      assert h[|h| - 1] in h;
    }
  }

  /** Walking the tail of separate pipelines keeps the first one linted. */
  lemma RestKeepsLinted(configs: map<string, Config>, readOnly: set<string>, service: Config, ps: seq<Pipeline>,
                        free: nat -> nat, calls: nat, sources: seq<Handler>)
    requires ps != [] && SeparateChains(ps)
    requires PipelineLinted(configs, ps[0], sources)
    ensures PipelineLinted(ControllersWalk(configs, readOnly, service, ps[1..], free, calls).configs, ps[0], sources)
  {
    var rest := ps[1..];
    SeparateFirst(ps);
    ControllersWalkFrame(configs, readOnly, service, rest, free, calls, HeadsOf(rest));
    PipelineLintedFrame(configs, ControllersWalk(configs, readOnly, service, rest, free, calls).configs, ps[0], sources);
  }

  /** Walking separate pipelines without error leaves every one of them linted to the service proxy's sources. */
  lemma {:induction false} ControllersWalkLinted(configs: map<string, Config>, readOnly: set<string>, service: Config,
                                                 ps: seq<Pipeline>, free: nat -> nat, calls: nat)
    requires SeparateChains(ps)
    requires ControllersWalk(configs, readOnly, service, ps, free, calls).err.None?
    ensures forall k :: 0 <= k < |ps| ==>
      PipelineLinted(ControllersWalk(configs, readOnly, service, ps, free, calls).configs, ps[k], Sources(service))
    decreases |ps|
  {
    if ps != [] {
      var p := ps[0];
      var last := LastOutcome(configs, readOnly, HeadLast(p), service, false, free, calls);
      var w := ThenFront(last, readOnly, p, free);
      var proxies := LastProxies(configs, readOnly, HeadLast(p), service, false, free, calls, service.Proxies);
      var next := service.(Proxies := proxies);
      var rest := ps[1..];
      var v := ControllersWalk(w.configs, readOnly, next, rest, free, w.calls);
      SeparateChainsTail(ps);
      PipelineStepLinted(configs, readOnly, service, p, free, calls);
      ControllersWalkLinted(w.configs, readOnly, next, rest, free, w.calls);
      assert Sources(next) == Sources(service);
      RestKeepsLinted(w.configs, readOnly, next, ps, free, w.calls, Sources(service));
      forall k | 0 < k < |ps| ensures PipelineLinted(v.configs, ps[k], Sources(service)) {
        assert ps[k] == rest[k - 1];
      }
    }
  }

  /**
   * Lints one pipeline that ends at a handler: its last proxy to the proxy in front of
   * the service, then the rest of its head.
   */
  method LintHandlerPipeline(ctx: Orchestra, serviceProxyConfig: Config, p: Pipeline, ports: FreePorts)
    returns (updatedService: Config, err: Option<LintError>)
    modifies ctx, ports
    ensures updatedService == serviceProxyConfig.(Proxies := updatedService.Proxies)
    ensures Walk(ctx.configs, err, ports.calls)
         == ThenFront(LastOutcome(old(ctx.configs), ctx.readOnly, HeadLast(p), serviceProxyConfig, false, ports.free, old(ports.calls)),
                      ctx.readOnly, p, ports.free)
    ensures updatedService.Proxies
         == LastProxies(old(ctx.configs), ctx.readOnly, HeadLast(p), serviceProxyConfig, false, ports.free, old(ports.calls), serviceProxyConfig.Proxies)
    ensures OnlyControllersChanged(old(ctx.configs), ctx.configs)
    ensures forall u :: u in ctx.configs && u != HeadLast(p) && u !in p.Head ==> ctx.configs[u] == old(ctx.configs)[u]
    ensures err.None? && HasLength(p) && Distinct(p.Head) ==> PipelineLinted(ctx.configs, p, Sources(serviceProxyConfig))
  {
    updatedService, err := LintLastToProxy(ctx, serviceProxyConfig, p, ports);
    if err.Some? {
      return;
    }
    ghost var afterLast := ctx.configs;
    err := LintFront(ctx, p, ports);
    assert forall u :: u in HeadFront(p) ==> u in p.Head;
    if err.None? && HasLength(p) && Distinct(p.Head) {
      LastThenFrontLinted(afterLast, ctx.configs, p, Sources(serviceProxyConfig));
    }
  }

  /**
   * Lints every pipeline that ends at a handler, one after the other. The Go code reads
   * the service pipeline's beginning before it checks that a service pipeline exists,
   * so one must exist; the branch that lints straight to the handler is therefore
   * never taken.
   */
  method LintToControllers(ctx: Orchestra, pipelines: seq<Pipeline>, ports: FreePorts) returns (err: Option<LintError>)
    requires FindServiceEnd(pipelines).Some?
    modifies ctx, ports
    ensures OnlyControllersChanged(old(ctx.configs), ctx.configs)
    ensures forall u :: u in ctx.configs && u !in HeadUrls(HandlerEnds(pipelines)) ==> ctx.configs[u] == old(ctx.configs)[u]
    ensures var proxyUrl := Beginning(FindServiceEnd(pipelines).value);
      Walk(ctx.configs, err, ports.calls)
        == if proxyUrl in old(ctx.configs)
           then ControllersWalk(old(ctx.configs), ctx.readOnly, old(ctx.configs)[proxyUrl], HandlerEnds(pipelines), ports.free, old(ports.calls))
           else Walk(old(ctx.configs), Some(StoreFailed(Missing(proxyUrl))), old(ports.calls))
    ensures Beginning(FindServiceEnd(pipelines).value) !in old(ctx.configs) ==> err.Some? && ctx.configs == old(ctx.configs)
    ensures err.None? && SeparateChains(HandlerEnds(pipelines)) ==>
      var proxyUrl := Beginning(FindServiceEnd(pipelines).value);
      proxyUrl in old(ctx.configs)
      && forall p :: p in HandlerEnds(pipelines) ==> PipelineLinted(ctx.configs, p, Sources(old(ctx.configs)[proxyUrl]))
  {
    var servicePipeline := FindServiceEnd(pipelines).value;
    var fetched := Fetch(ctx, Beginning(servicePipeline));
    if fetched.Err? {
      return Some(fetched.error);
    }
    var serviceProxyConfig := fetched.value;
    assert Sources(serviceProxyConfig) == Sources(old(ctx.configs)[Beginning(FindServiceEnd(pipelines).value)]);
    var controllerPipelines := FindHandlerEnds(pipelines);
    ghost var whole := ControllersWalk(ctx.configs, ctx.readOnly, serviceProxyConfig, controllerPipelines, ports.free, ports.calls);
    ControllersWalkFrame(ctx.configs, ctx.readOnly, serviceProxyConfig, controllerPipelines, ports.free, ports.calls,
                         HeadUrls(controllerPipelines));
    if SeparateChains(controllerPipelines) && whole.err.None? {
      ControllersWalkLinted(ctx.configs, ctx.readOnly, serviceProxyConfig, controllerPipelines, ports.free, ports.calls);
      AllLinted(whole.configs, controllerPipelines, Sources(serviceProxyConfig));
    }
    var rest := controllerPipelines;
    while rest != []
      invariant whole == ControllersWalk(ctx.configs, ctx.readOnly, serviceProxyConfig, rest, ports.free, ports.calls)
    {
      serviceProxyConfig, err := LintHandlerPipeline(ctx, serviceProxyConfig, rest[0], ports);
      if err.Some? {
        return err;
      }
      rest := rest[1..];
    }
    return None;
  }
}
