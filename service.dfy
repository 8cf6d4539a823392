/**
 * A service's configuration in the current generation (service/service.go): handlers
 * looked up by category, proxies keyed by id, extensions keyed by the URL of the
 * service they reach, and the sources, the proxies allowed to forward to this
 * service, grouped by the rule they serve.
 */
module ServiceConfig {
  import opened Wrappers
  import E = Entities
  import Rules

  /** The manager id of a service: empty for an empty id, else the id with "_manager" appended. */
  function ManagerId(id: string): (r: string)
    ensures id == "" <==> r == ""
    ensures id != "" ==> |r| == |id| + 8 && r[..|id|] == id && r[|id|..] == "_manager"
  {
    if id == "" then "" else id + "_manager"
  }

  /** Position of the first proxy with id `id`, or |ps|. */
  function ProxyIndex(ps: seq<Rules.Proxy>, id: string): (k: nat)
    ensures k <= |ps|
    ensures forall j :: 0 <= j < k ==> ps[j].Id != id
    ensures k < |ps| ==> ps[k].Id == id
  {
    if ps == [] then 0
    else if ps[0].Id == id then 0
    else 1 + ProxyIndex(ps[1..], id)
  }

  /** The first proxy with id `id`; None stands for Go's nil. */
  function ProxyById(ps: seq<Rules.Proxy>, id: string): (r: Option<Rules.Proxy>)
    ensures r.None? <==> forall j :: 0 <= j < |ps| ==> ps[j].Id != id
    ensures r.Some? ==> r.value in ps && r.value.Id == id
    ensures forall j :: 0 <= j < |ps| && ps[j].Id == id && (forall i :: 0 <= i < j ==> ps[i].Id != id) ==>
      r == Some(ps[j])
  {
    var k := ProxyIndex(ps, id);
    if k < |ps| then Some(ps[k]) else None
  }

  /** The proxy list after setting `p`: appended under a new id, else overwriting the first proxy with its id. */
  function UpsertProxy(ps: seq<Rules.Proxy>, p: Rules.Proxy): seq<Rules.Proxy> {
    var k := ProxyIndex(ps, p.Id);
    if k < |ps| then ps[k := p] else ps + [p]
  }

  /**
   * After setting a proxy its id finds exactly it. A new id grows the list by one at
   * its end; a known id keeps the length and every other entry.
   */
  lemma UpsertProxyEffect(ps: seq<Rules.Proxy>, p: Rules.Proxy)
    ensures ProxyById(UpsertProxy(ps, p), p.Id) == Some(p)
    ensures ProxyById(ps, p.Id).None? ==> UpsertProxy(ps, p) == ps + [p]
    ensures ProxyById(ps, p.Id).Some? ==>
      |UpsertProxy(ps, p)| == |ps|
      && forall j :: 0 <= j < |ps| && j != ProxyIndex(ps, p.Id) ==> UpsertProxy(ps, p)[j] == ps[j]
  {
    var k := ProxyIndex(ps, p.Id);
    var r := UpsertProxy(ps, p);
    assert r[k] == p;
    assert ProxyIndex(r, p.Id) == k;
  }

  /** Position of the first extension reaching the service at `url`, or |es|. */
  function ExtensionIndex(es: seq<E.Client>, url: string): (k: nat)
    ensures k <= |es|
    ensures forall j :: 0 <= j < k ==> es[j].ServiceUrl != url
    ensures k < |es| ==> es[k].ServiceUrl == url
  {
    if es == [] then 0
    else if es[0].ServiceUrl == url then 0
    else 1 + ExtensionIndex(es[1..], url)
  }

  /** The first extension reaching the service at `url`; None stands for Go's nil. */
  function ExtensionWithUrl(es: seq<E.Client>, url: string): (r: Option<E.Client>)
    ensures r.None? <==> forall j :: 0 <= j < |es| ==> es[j].ServiceUrl != url
    ensures r.Some? ==> r.value in es && r.value.ServiceUrl == url
    ensures forall j :: 0 <= j < |es| && es[j].ServiceUrl == url && (forall i :: 0 <= i < j ==> es[i].ServiceUrl != url) ==>
      r == Some(es[j])
  {
    var k := ExtensionIndex(es, url);
    if k < |es| then Some(es[k]) else None
  }

  /** The extension list after setting `e`, keyed by the URL of the service it reaches. */
  function UpsertExtension(es: seq<E.Client>, e: E.Client): seq<E.Client> {
    var k := ExtensionIndex(es, e.ServiceUrl);
    if k < |es| then es[k := e] else es + [e]
  }

  /**
   * After setting an extension its URL finds exactly it and no other URL's lookup
   * changes; the list grows by one for a new URL and keeps its length otherwise.
   */
  lemma UpsertExtensionEffect(es: seq<E.Client>, e: E.Client, url: string)
    ensures ExtensionWithUrl(UpsertExtension(es, e), e.ServiceUrl) == Some(e)
    ensures url != e.ServiceUrl ==> ExtensionWithUrl(UpsertExtension(es, e), url) == ExtensionWithUrl(es, url)
    ensures |UpsertExtension(es, e)| == if ExtensionWithUrl(es, e.ServiceUrl).None? then |es| + 1 else |es|
  {
    var k := ExtensionIndex(es, e.ServiceUrl);
    var r := UpsertExtension(es, e);
    assert r[k] == e;
    assert ExtensionIndex(r, e.ServiceUrl) == k;
    if url != e.ServiceUrl {
      assert forall j :: 0 <= j < |r| ==> (r[j].ServiceUrl == url <==> j < |es| && es[j].ServiceUrl == url);
    }
  }

  /** A proxy allowed to forward to this service, with its manager and the clients it reaches the service by. */
  datatype SourceService = SourceService(Proxy: Rules.Proxy, Manager: E.Client, Clients: seq<E.Client>)

  /** The proxies allowed to forward requests matching `Rule` to this service. */
  datatype Source = Source(Rule: Rules.Patterns, Proxies: seq<SourceService>)

  /** Same proxy, same manager, as many clients, each client of `a` among those of `b`. */
  predicate IsEqualSourceService(a: SourceService, b: SourceService) {
    |a.Clients| == |b.Clients| && (forall c :: c in a.Clients ==> c in b.Clients)
    && a.Manager == b.Manager && a.Proxy == b.Proxy
  }

  /** Position of the first source whose rule equals `rule`, or |sources|. */
  function SourceIndex(sources: seq<Source>, rule: Rules.Patterns): (k: nat)
    ensures k <= |sources|
    ensures forall j :: 0 <= j < k ==> !sources[j].Rule.SameAs(rule)
    ensures k < |sources| ==> sources[k].Rule.SameAs(rule)
  {
    if sources == [] then 0
    else if sources[0].Rule.SameAs(rule) then 0
    else 1 + SourceIndex(sources[1..], rule)
  }

  /** Position of the first source service whose proxy has id `id`, or |ps|. */
  function SourceServiceIndex(ps: seq<SourceService>, id: string): (k: nat)
    ensures k <= |ps|
    ensures forall j :: 0 <= j < k ==> ps[j].Proxy.Id != id
    ensures k < |ps| ==> ps[k].Proxy.Id == id
  {
    if ps == [] then 0
    else if ps[0].Proxy.Id == id then 0
    else 1 + SourceServiceIndex(ps[1..], id)
  }

  /** The source service with proxy id `id` under the first source for `rule`, if any. */
  function SourceServiceOf(sources: seq<Source>, rule: Rules.Patterns, id: string): (r: Option<SourceService>)
    ensures r.Some? ==> r.value.Proxy.Id == id && exists k :: 0 <= k < |sources| && r.value in sources[k].Proxies
  {
    var k := SourceIndex(sources, rule);
    if k == |sources| then None
    else
      var j := SourceServiceIndex(sources[k].Proxies, id);
      if j == |sources[k].Proxies| then None else Some(sources[k].Proxies[j])
  }

  /**
   * The sources after registering `ss` for `rule`, and whether they changed: a new rule
   * gets a new source holding `ss`; a new proxy id joins the rule's source; the same id
   * with different content is overwritten in place; the same content changes nothing.
   */
  function SetSource(sources: seq<Source>, rule: Rules.Patterns, ss: SourceService): (r: (seq<Source>, bool))
  {
    var k := SourceIndex(sources, rule);
    if k == |sources| then (sources + [Source(rule, [ss])], true)
    else
      var ps := sources[k].Proxies;
      var j := SourceServiceIndex(ps, ss.Proxy.Id);
      if j == |ps| then (sources[k := sources[k].(Proxies := ps + [ss])], true)
      else if IsEqualSourceService(ps[j], ss) then (sources, false)
      else (sources[k := sources[k].(Proxies := ps[j := ss])], true)
  }

  /**
   * How registering a source service reshapes the sources: a new rule appends one
   * source with one proxy; otherwise the number of sources stays, every other source
   * stays, and the rule's source gains a proxy exactly for a new proxy id.
   */
  lemma SetSourceShape(sources: seq<Source>, rule: Rules.Patterns, ss: SourceService)
    ensures SourceIndex(sources, rule) == |sources| ==>
      SetSource(sources, rule, ss) == (sources + [Source(rule, [ss])], true)
    ensures SourceIndex(sources, rule) < |sources| ==>
      var k := SourceIndex(sources, rule);
      var after := SetSource(sources, rule, ss).0;
      && |after| == |sources|
      && (forall i :: 0 <= i < |sources| && i != k ==> after[i] == sources[i])
      && after[k].Rule == sources[k].Rule
      && |after[k].Proxies| ==
           if SourceServiceOf(sources, rule, ss.Proxy.Id).None? then |sources[k].Proxies| + 1 else |sources[k].Proxies|
    ensures !SetSource(sources, rule, ss).1 <==>
      SourceServiceOf(sources, rule, ss.Proxy.Id).Some? && IsEqualSourceService(SourceServiceOf(sources, rule, ss.Proxy.Id).value, ss)
    ensures !SetSource(sources, rule, ss).1 ==> SetSource(sources, rule, ss).0 == sources
  {
  }

  /**
   * After registering a source service that changed the sources, looking up the rule
   * and its proxy id finds exactly that source service; when nothing changed, an
   * equal one was already there.
   */
  lemma SetSourceThenFind(sources: seq<Source>, rule: Rules.Patterns, ss: SourceService)
    ensures SourceServiceOf(SetSource(sources, rule, ss).0, rule, ss.Proxy.Id).Some?
    ensures SetSource(sources, rule, ss).1 ==> SourceServiceOf(SetSource(sources, rule, ss).0, rule, ss.Proxy.Id) == Some(ss)
    ensures !SetSource(sources, rule, ss).1 ==>
      IsEqualSourceService(SourceServiceOf(SetSource(sources, rule, ss).0, rule, ss.Proxy.Id).value, ss)
  {
    var k := SourceIndex(sources, rule);
    var after := SetSource(sources, rule, ss).0;
    if k == |sources| {
      assert after[k].Rule == rule;
      assert SourceIndex(after, rule) == k;
      assert after[k].Proxies == [ss];
    } else {
      var ps := sources[k].Proxies;
      var j := SourceServiceIndex(ps, ss.Proxy.Id);
      assert after[k].Rule == sources[k].Rule;
      assert SourceIndex(after, rule) == k;
      var aps := after[k].Proxies;
      if j == |ps| {
        assert aps == ps + [ss] && aps[j] == ss;
      } else {
        assert aps[j] == ps[j] || aps[j] == ss;
      }
      assert SourceServiceIndex(aps, ss.Proxy.Id) == j;
    }
  }

  /** Registering the same source service twice: the second registration changes nothing and reports so. */
  lemma SetSourceIdempotent(sources: seq<Source>, rule: Rules.Patterns, ss: SourceService)
    ensures SetSource(SetSource(sources, rule, ss).0, rule, ss) == (SetSource(sources, rule, ss).0, false)
  {
    SetSourceThenFind(sources, rule, ss);
    SetSourceShape(SetSource(sources, rule, ss).0, rule, ss);
    var found := SourceServiceOf(SetSource(sources, rule, ss).0, rule, ss.Proxy.Id).value;
    assert forall c :: c in found.Clients ==> c in ss.Clients;
  }

  /** A service's configuration, whose lists are updated in place. */
  class Service {
    const Type: E.ServiceType
    const Url: string
    const Id: string
    const Manager: E.Client
    var Handlers: seq<E.Handler>
    var Proxies: seq<Rules.Proxy>
    var Extensions: seq<E.Client>
    var Sources: seq<Source>

    /**
     * A service with the given identity and manager client and nothing else. Building
     * the manager client is the handler package's work and is a parameter here.
     */
    constructor Empty(id: string, url: string, serviceType: E.ServiceType, manager: E.Client)
      ensures Type == serviceType && Id == id && Url == url && Manager == manager
      ensures Handlers == [] && Proxies == [] && Extensions == [] && Sources == []
    {
      Type := serviceType;
      Id := id;
      Url := url;
      Manager := manager;
      Handlers := [];
      Proxies := [];
      Extensions := [];
      Sources := [];
    }

    /** The first handler of category `name`, or an error when there is none. */
    function Handler(name: string): (r: Result<E.Handler, E.NotFound>)
      reads this
      ensures r.Err? <==> forall h :: h in Handlers ==> h.Category != name
      ensures r.Ok? ==> E.ByCategory(Handlers, name) != [] && r.value == E.ByCategory(Handlers, name)[0] && r.value in Handlers
    {
      E.FirstOfCategory(Handlers, name)
    }

    /**
     * Every handler of category `name`, in order, written by index into a buffer as
     * long as the handler list; an error when there is none.
     */
    method HandlersByCategory(name: string) returns (r: Result<seq<E.Handler>, E.NotFound>)
      ensures r == E.AllOfCategory(Handlers, name)
    {
      var hs := Handlers;
      var buffer := new E.Handler[|hs|];
      var count := 0;
      var i := 0;
      while i < |hs|
        invariant 0 <= count <= i <= |hs|
        invariant buffer[..count] == E.ByCategory(hs[..i], name)
      {
        ghost var before := buffer[..count];
        E.ByCategoryStep(hs, i, name);
        if hs[i].Category == name {
          buffer[count] := hs[i];
          assert buffer[..count + 1] == before + [hs[i]];
          count := count + 1;
        }
        i := i + 1;
      }
      assert hs[..|hs|] == hs;
      var found := buffer[..count];
      if count == 0 {
        r := Err(E.NotFound(name));
      } else {
        r := Ok(found);
      }
    }

    /** The first handler, whatever its category; an error when there is none. */
    function FirstHandler(): (r: Result<E.Handler, E.NotFound>)
      reads this
      ensures r.Ok? <==> |Handlers| > 0
      ensures r.Ok? ==> r.value == Handlers[0]
    {
      if |Handlers| == 0 then Err(E.NotFound(Url)) else Ok(Handlers[0])
    }

    function ExtensionByUrl(url: string): (r: Option<E.Client>)
      reads this
      ensures r == ExtensionWithUrl(Extensions, url)
    {
      ExtensionWithUrl(Extensions, url)
    }

    function Proxy(id: string): (r: Option<Rules.Proxy>)
      reads this
      ensures r == ProxyById(Proxies, id)
    {
      ProxyById(Proxies, id)
    }

    /** Sets a proxy: appended under a new id, else it overwrites the proxy with that id. */
    method SetProxy(proxy: Rules.Proxy)
      modifies this
      ensures Proxies == UpsertProxy(old(Proxies), proxy)
      ensures Proxy(proxy.Id) == Some(proxy)
      ensures Handlers == old(Handlers) && Extensions == old(Extensions) && Sources == old(Sources)
    {
      UpsertProxyEffect(Proxies, proxy);
      var existing := ProxyIndex(Proxies, proxy.Id);
      if existing == |Proxies| {
        Proxies := Proxies + [proxy];
      } else {
        Proxies := Proxies[existing := proxy];
      }
    }

    /** Sets an extension: appended for a new service URL, else it overwrites the extension with that URL. */
    method SetExtension(extension: E.Client)
      modifies this
      ensures Extensions == UpsertExtension(old(Extensions), extension)
      ensures ExtensionByUrl(extension.ServiceUrl) == Some(extension)
      ensures Handlers == old(Handlers) && Proxies == old(Proxies) && Sources == old(Sources)
    {
      UpsertExtensionEffect(Extensions, extension, extension.ServiceUrl);
      var existing := ExtensionIndex(Extensions, extension.ServiceUrl);
      if existing == |Extensions| {
        Extensions := Extensions + [extension];
      } else {
        Extensions := Extensions[existing := extension];
      }
    }

    /** Adds a handler, even when one of the same category exists; the earlier handlers keep their order. */
    method SetHandler(handler: E.Handler)
      modifies this
      ensures Handlers == old(Handlers) + [handler]
      ensures E.ByCategory(Handlers, handler.Category) == E.ByCategory(old(Handlers), handler.Category) + [handler]
      ensures Proxies == old(Proxies) && Extensions == old(Extensions) && Sources == old(Sources)
    {
      E.ByCategoryAppend(Handlers, [handler], handler.Category);
      assert E.ByCategory([handler], handler.Category) == [handler] by {
        assert [handler][..0] == [];
      }
      Handlers := Handlers + [handler];
    }

    predicate HasProxy()
      reads this
    {
      |Proxies| > 0
    }

    /**
     * Registers a proxy allowed to forward requests matching `rule` to this service, as
     * SetSource describes, and reports whether the sources changed. A nil rule or nil
     * source service changes nothing. The rule's patterns are stored by value.
     */
    method SetServiceSource(rule: Rules.Rule?, sourceService: Option<SourceService>) returns (updated: bool)
      modifies this
      ensures rule == null || sourceService.None? ==> !updated && Sources == old(Sources)
      ensures rule != null && sourceService.Some? ==>
        (Sources, updated) == SetSource(old(Sources), rule.Value(), sourceService.value)
      ensures Handlers == old(Handlers) && Proxies == old(Proxies) && Extensions == old(Extensions)
    {
      if rule == null || sourceService.None? {
        return false;
      }
      var ss := sourceService.value;
      var k := SourceIndex(Sources, rule.Value());
      if k == |Sources| {
        Sources := Sources + [Source(rule.Value(), [ss])];
        return true;
      }
      var ps := Sources[k].Proxies;
      var j := SourceServiceIndex(ps, ss.Proxy.Id);
      if j == |ps| {
        Sources := Sources[k := Sources[k].(Proxies := ps + [ss])];
        return true;
      }
      if IsEqualSourceService(ps[j], ss) {
        return false;
      }
      Sources := Sources[k := Sources[k].(Proxies := ps[j := ss])];
      return true;
    }
  }

  /** Adds a handler to a service; on a nil service nothing happens. */
  method SetHandlerOn(s: Service?, handler: E.Handler)
    modifies s
    ensures s != null ==> s.Handlers == old(s.Handlers) + [handler]
    ensures s != null ==> s.Proxies == old(s.Proxies) && s.Extensions == old(s.Extensions) && s.Sources == old(s.Sources)
  {
    if s != null {
      s.SetHandler(handler);
    }
  }
}
