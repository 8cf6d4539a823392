/**
 * The older generation of a service's configuration (service.go): handlers are called
 * controllers, and proxies and extensions are keyed by their URL.
 */
module LegacyConfig {
  import opened Wrappers
  import opened Entities
  import PipeEnds

  /** A proxy in front of a service, reached through its client instances. */
  datatype Proxy = Proxy(Url: string, Instances: seq<Client>)

  /** An extension the service uses. */
  datatype Extension = Extension(Url: string, Id: string, Port: nat)

  /**
   * A service configuration as a value: what a configuration store holds and hands out.
   * Pipelines is commented out of the Go struct but read by the converter; it is kept here.
   */
  datatype Config = Config(
    Type: ServiceType,
    Url: string,
    Id: string,
    Controllers: seq<Handler>,
    Proxies: seq<Proxy>,
    Extensions: seq<Extension>,
    Pipelines: seq<PipeEnds.Pipeline>)

  /** Position of the first proxy with URL `url`, or |ps|. */
  function ProxyIndex(ps: seq<Proxy>, url: string): (k: nat)
    ensures k <= |ps|
    ensures forall j :: 0 <= j < k ==> ps[j].Url != url
    ensures k < |ps| ==> ps[k].Url == url
  {
    if ps == [] then 0
    else if ps[0].Url == url then 0
    else 1 + ProxyIndex(ps[1..], url)
  }

  /** The first proxy with URL `url`; None stands for Go's nil. */
  function ProxyByUrl(ps: seq<Proxy>, url: string): (r: Option<Proxy>)
    ensures r.None? <==> forall j :: 0 <= j < |ps| ==> ps[j].Url != url
    ensures r.Some? ==> r.value in ps && r.value.Url == url
    ensures forall j :: 0 <= j < |ps| && ps[j].Url == url && (forall i :: 0 <= i < j ==> ps[i].Url != url) ==>
      r == Some(ps[j])
  {
    var k := ProxyIndex(ps, url);
    if k < |ps| then Some(ps[k]) else None
  }

  /** The proxy list after setting `p`: appended when its URL is new, else it overwrites the first proxy with that URL. */
  function UpsertProxy(ps: seq<Proxy>, p: Proxy): seq<Proxy> {
    var k := ProxyIndex(ps, p.Url);
    if k < |ps| then ps[k := p] else ps + [p]
  }

  /** After setting a proxy, looking up its URL finds exactly it. */
  lemma UpsertProxyThenLookup(ps: seq<Proxy>, p: Proxy)
    ensures ProxyByUrl(UpsertProxy(ps, p), p.Url) == Some(p)
  {
    var k := ProxyIndex(ps, p.Url);
    var r := UpsertProxy(ps, p);
    assert r[k] == p;
    assert ProxyIndex(r, p.Url) == k;
  }

  /** Setting a proxy changes no lookup of another URL, and the list grows only for a new URL. */
  lemma UpsertProxyKeepsOthers(ps: seq<Proxy>, p: Proxy, url: string)
    requires url != p.Url
    ensures ProxyByUrl(UpsertProxy(ps, p), url) == ProxyByUrl(ps, url)
    ensures |UpsertProxy(ps, p)| == if ProxyByUrl(ps, p.Url).None? then |ps| + 1 else |ps|
  {
    var k := ProxyIndex(ps, p.Url);
    var r := UpsertProxy(ps, p);
    assert forall j :: 0 <= j < |r| ==> (r[j].Url == url <==> j < |ps| && ps[j].Url == url);
  }

  /** Position of the first extension with URL `url`, or |es|. */
  function ExtensionIndex(es: seq<Extension>, url: string): (k: nat)
    ensures k <= |es|
    ensures forall j :: 0 <= j < k ==> es[j].Url != url
    ensures k < |es| ==> es[k].Url == url
  {
    if es == [] then 0
    else if es[0].Url == url then 0
    else 1 + ExtensionIndex(es[1..], url)
  }

  /** The first extension with URL `url`; None stands for Go's nil. */
  function ExtensionByUrl(es: seq<Extension>, url: string): (r: Option<Extension>)
    ensures r.None? <==> forall j :: 0 <= j < |es| ==> es[j].Url != url
    ensures r.Some? ==> r.value in es && r.value.Url == url
    ensures forall j :: 0 <= j < |es| && es[j].Url == url && (forall i :: 0 <= i < j ==> es[i].Url != url) ==>
      r == Some(es[j])
  {
    var k := ExtensionIndex(es, url);
    if k < |es| then Some(es[k]) else None
  }

  /** The extension list after setting `e`, keyed by URL like UpsertProxy. */
  function UpsertExtension(es: seq<Extension>, e: Extension): seq<Extension> {
    var k := ExtensionIndex(es, e.Url);
    if k < |es| then es[k := e] else es + [e]
  }

  /** After setting an extension, looking up its URL finds exactly it, and no other lookup changes. */
  lemma UpsertExtensionThenLookup(es: seq<Extension>, e: Extension, url: string)
    ensures ExtensionByUrl(UpsertExtension(es, e), e.Url) == Some(e)
    ensures url != e.Url ==> ExtensionByUrl(UpsertExtension(es, e), url) == ExtensionByUrl(es, url)
  {
    var k := ExtensionIndex(es, e.Url);
    var r := UpsertExtension(es, e);
    assert r[k] == e;
    assert ExtensionIndex(r, e.Url) == k;
    if url != e.Url {
      assert forall j :: 0 <= j < |r| ==> (r[j].Url == url <==> j < |es| && es[j].Url == url);
    }
  }

  /** A service configuration whose lists are updated in place. */
  class Service {
    const Type: ServiceType
    const Url: string
    const Id: string
    var Controllers: seq<Handler>
    var Proxies: seq<Proxy>
    var Extensions: seq<Extension>
    var Pipelines: seq<PipeEnds.Pipeline>

    /** A service with the given identity and no controllers, proxies or extensions. */
    constructor Empty(id: string, url: string, serviceType: ServiceType)
      ensures Type == serviceType && Id == id && Url == url
      ensures Controllers == [] && Proxies == [] && Extensions == [] && Pipelines == []
    {
      Type := serviceType;
      Id := id;
      Url := url;
      Controllers := [];
      Proxies := [];
      Extensions := [];
      Pipelines := [];
    }

    /** The configuration as a value. */
    function Value(): Config
      reads this
    {
      Config(Type, Url, Id, Controllers, Proxies, Extensions, Pipelines)
    }

    /** The first controller of category `name`: the head of GetControllers' list. */
    function GetController(name: string): (r: Result<Handler, NotFound>)
      reads this
      ensures r.Err? <==> ByCategory(Controllers, name) == []
      ensures r.Ok? ==> r.value == ByCategory(Controllers, name)[0]
    {
      FirstOfCategory(Controllers, name)
    }

    /**
     * Every controller of category `name`, in order, written by index into a buffer
     * as long as the controller list; an error when there is none.
     */
    method GetControllers(name: string) returns (r: Result<seq<Handler>, NotFound>)
      ensures r == AllOfCategory(Controllers, name)
    {
      var hs := Controllers;
      var buffer := new Handler[|hs|];
      var count := 0;
      var i := 0;
      while i < |hs|
        invariant 0 <= count <= i <= |hs|
        invariant buffer[..count] == ByCategory(hs[..i], name)
      {
        ghost var before := buffer[..count];
        ByCategoryStep(hs, i, name);
        if hs[i].Category == name {
          buffer[count] := hs[i];
          assert buffer[..count + 1] == before + [hs[i]];
          count := count + 1;
        }
        i := i + 1;
      }
      assert hs[..|hs|] == hs;
      var found := buffer[..count];
      if count == 0 {
        r := Err(NotFound(name));
      } else {
        r := Ok(found);
      }
    }

    /** The first controller, whatever its category; an error when there is none. */
    function GetFirstController(): (r: Result<Handler, NotFound>)
      reads this
      ensures r.Ok? <==> |Controllers| > 0
      ensures r.Ok? ==> r.value == Controllers[0]
    {
      if |Controllers| == 0 then Err(NotFound(Url)) else Ok(Controllers[0])
    }

    function GetExtension(url: string): (r: Option<Extension>)
      reads this
      ensures r == ExtensionByUrl(Extensions, url)
    {
      ExtensionByUrl(Extensions, url)
    }

    function GetProxy(url: string): (r: Option<Proxy>)
      reads this
      ensures r == ProxyByUrl(Proxies, url)
    {
      ProxyByUrl(Proxies, url)
    }

    /** Sets a proxy: appended when its URL is new, else it overwrites the proxy with that URL. */
    method SetProxy(proxy: Proxy)
      modifies this
      ensures Proxies == UpsertProxy(old(Proxies), proxy)
      ensures GetProxy(proxy.Url) == Some(proxy)
      ensures Controllers == old(Controllers) && Extensions == old(Extensions) && Pipelines == old(Pipelines)
    {
      UpsertProxyThenLookup(Proxies, proxy);
      var existing := ProxyIndex(Proxies, proxy.Url);
      if existing == |Proxies| {
        Proxies := Proxies + [proxy];
      } else {
        Proxies := Proxies[existing := proxy];
      }
    }

    /** Sets an extension: appended when its URL is new, else it overwrites the extension with that URL. */
    method SetExtension(extension: Extension)
      modifies this
      ensures Extensions == UpsertExtension(old(Extensions), extension)
      ensures GetExtension(extension.Url) == Some(extension)
      ensures Controllers == old(Controllers) && Proxies == old(Proxies) && Pipelines == old(Pipelines)
    {
      UpsertExtensionThenLookup(Extensions, extension, extension.Url);
      var existing := ExtensionIndex(Extensions, extension.Url);
      if existing == |Extensions| {
        Extensions := Extensions + [extension];
      } else {
        Extensions := Extensions[existing := extension];
      }
    }

    /** Adds a controller, even when one of the same category exists. */
    method SetController(controller: Handler)
      modifies this
      ensures Controllers == old(Controllers) + [controller]
      ensures ByCategory(Controllers, controller.Category) == ByCategory(old(Controllers), controller.Category) + [controller]
      ensures Proxies == old(Proxies) && Extensions == old(Extensions) && Pipelines == old(Pipelines)
    {
      ByCategoryAppend(Controllers, [controller], controller.Category);
      assert ByCategory([controller], controller.Category) == [controller] by {
        assert [controller][..0] == [];
      }
      Controllers := Controllers + [controller];
    }

    predicate HasProxy()
      reads this
    {
      |Proxies| > 0
    }
  }
}
