/**
 * The application configuration of the engine (engine/app/app.go): the services of an
 * application, found by id or URL, and set by replacing the service with the same id.
 */
module EngineApp {
  import opened Wrappers
  import ServiceConfig

  /** Position of the first service with id `id`, or |ss|. */
  function IdIndex(ss: seq<ServiceConfig.Service>, id: string): (k: nat)
    ensures k <= |ss|
    ensures forall j :: 0 <= j < k ==> ss[j].Id != id
    ensures k < |ss| ==> ss[k].Id == id
  {
    if ss == [] then 0
    else if ss[0].Id == id then 0
    else 1 + IdIndex(ss[1..], id)
  }

  /** The first service with id `id`; None stands for Go's nil. */
  function ServiceWithId(ss: seq<ServiceConfig.Service>, id: string): (r: Option<ServiceConfig.Service>)
    ensures r.None? <==> forall j :: 0 <= j < |ss| ==> ss[j].Id != id
    ensures r.Some? ==> r.value in ss && r.value.Id == id
    ensures forall j :: 0 <= j < |ss| && ss[j].Id == id && (forall i :: 0 <= i < j ==> ss[i].Id != id) ==>
      r == Some(ss[j])
  {
    var k := IdIndex(ss, id);
    if k < |ss| then Some(ss[k]) else None
  }

  /** Position of the first service with URL `url`, or |ss|. */
  function UrlIndex(ss: seq<ServiceConfig.Service>, url: string): (k: nat)
    ensures k <= |ss|
    ensures forall j :: 0 <= j < k ==> ss[j].Url != url
    ensures k < |ss| ==> ss[k].Url == url
  {
    if ss == [] then 0
    else if ss[0].Url == url then 0
    else 1 + UrlIndex(ss[1..], url)
  }

  /** The service list after setting `s`: it replaces the first service with its id, or is appended. */
  function Upsert(ss: seq<ServiceConfig.Service>, s: ServiceConfig.Service): seq<ServiceConfig.Service> {
    var k := IdIndex(ss, s.Id);
    if k < |ss| then ss[k := s] else ss + [s]
  }

  /**
   * After setting a service its id finds exactly it. A known id keeps the length and
   * every other position; a new id appends.
   */
  lemma UpsertEffect(ss: seq<ServiceConfig.Service>, s: ServiceConfig.Service)
    ensures ServiceWithId(Upsert(ss, s), s.Id) == Some(s)
    ensures ServiceWithId(ss, s.Id).None? ==> Upsert(ss, s) == ss + [s]
    ensures ServiceWithId(ss, s.Id).Some? ==>
      |Upsert(ss, s)| == |ss| && forall j :: 0 <= j < |ss| && j != IdIndex(ss, s.Id) ==> Upsert(ss, s)[j] == ss[j]
  {
    var k := IdIndex(ss, s.Id);
    assert Upsert(ss, s)[k] == s;
    assert IdIndex(Upsert(ss, s), s.Id) == k;
  }

  /** Setting a service changes no lookup of another id. */
  lemma UpsertKeepsOtherIds(ss: seq<ServiceConfig.Service>, s: ServiceConfig.Service, id: string)
    requires id != s.Id
    ensures ServiceWithId(Upsert(ss, s), id) == ServiceWithId(ss, id)
  {
    var r := Upsert(ss, s);
    assert forall j :: 0 <= j < |r| ==> (r[j].Id == id <==> j < |ss| && ss[j].Id == id);
  }

  /** An application: its services, in the order they were set. */
  class App {
    var Services: seq<ServiceConfig.Service>

    constructor ()
      ensures Services == []
    {
      Services := [];
    }

    function Service(id: string): (r: Option<ServiceConfig.Service>)
      reads this
      ensures r == ServiceWithId(Services, id)
    {
      ServiceWithId(Services, id)
    }

    /** The first service with URL `url`; None stands for Go's nil. */
    function ServiceByUrl(url: string): (r: Option<ServiceConfig.Service>)
      reads this
      ensures r.None? <==> forall j :: 0 <= j < |Services| ==> Services[j].Url != url
      ensures r.Some? ==> r.value in Services && r.value.Url == url
      ensures forall j :: 0 <= j < |Services| && Services[j].Url == url && (forall i :: 0 <= i < j ==> Services[i].Url != url) ==>
        r == Some(Services[j])
    {
      var k := UrlIndex(Services, url);
      if k < |Services| then Some(Services[k]) else None
    }

    /**
     * Sets a service: it replaces the first service with its id, or is appended; then
     * the configuration is written out. The write is outside this model and its
     * outcome is a parameter; a failed write leaves the list changed.
     */
    method SetService(s: ServiceConfig.Service, writeError: Option<string>) returns (err: Option<string>)
      modifies this
      ensures Services == Upsert(old(Services), s)
      ensures Service(s.Id) == Some(s)
      ensures err == writeError
    {
      UpsertEffect(Services, s);
      var found := false;
      var i := 0;
      while i < |Services|
        invariant 0 <= i <= |Services|
        invariant Services == old(Services)
        invariant forall j :: 0 <= j < i ==> Services[j].Id != s.Id
      {
        if Services[i].Id == s.Id {
          found := true;
          Services := Services[i := s];
          break;
        }
        i := i + 1;
      }
      if !found {
        Services := Services + [s];
      }
      err := writeError;
    }
  }
}
