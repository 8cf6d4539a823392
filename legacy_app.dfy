/**
 * The older application configuration (app/app.go): services found by id or URL,
 * and set by appending, even under an id already present.
 */
module LegacyApp {
  import opened Wrappers
  import LegacyConfig

  /** Position of the first service with id `id`, or |ss|. */
  function IdIndex(ss: seq<LegacyConfig.Service>, id: string): (k: nat)
    ensures k <= |ss|
    ensures forall j :: 0 <= j < k ==> ss[j].Id != id
    ensures k < |ss| ==> ss[k].Id == id
  {
    if ss == [] then 0
    else if ss[0].Id == id then 0
    else 1 + IdIndex(ss[1..], id)
  }

  /** The first service with id `id`; None stands for Go's nil. */
  function ServiceWithId(ss: seq<LegacyConfig.Service>, id: string): (r: Option<LegacyConfig.Service>)
    ensures r.None? <==> forall j :: 0 <= j < |ss| ==> ss[j].Id != id
    ensures r.Some? ==> r.value in ss && r.value.Id == id
    ensures forall j :: 0 <= j < |ss| && ss[j].Id == id && (forall i :: 0 <= i < j ==> ss[i].Id != id) ==>
      r == Some(ss[j])
  {
    var k := IdIndex(ss, id);
    if k < |ss| then Some(ss[k]) else None
  }

  /** Position of the first service with URL `url`, or |ss|. */
  function UrlIndex(ss: seq<LegacyConfig.Service>, url: string): (k: nat)
    ensures k <= |ss|
    ensures forall j :: 0 <= j < k ==> ss[j].Url != url
    ensures k < |ss| ==> ss[k].Url == url
  {
    if ss == [] then 0
    else if ss[0].Url == url then 0
    else 1 + UrlIndex(ss[1..], url)
  }

  /**
   * Appending a service leaves every lookup of an id that was present as it was, so
   * a second service under a known id is never found by it; a new id finds the new service.
   */
  lemma {:induction false} AppendKeepsFirst(ss: seq<LegacyConfig.Service>, s: LegacyConfig.Service, id: string)
    ensures ServiceWithId(ss + [s], id) ==
      if ServiceWithId(ss, id).Some? then ServiceWithId(ss, id)
      else if s.Id == id then Some(s) else None
  {
    var k := IdIndex(ss, id);
    assert forall j :: 0 <= j < |ss| ==> (ss + [s])[j] == ss[j];
    if k < |ss| {
      assert IdIndex(ss + [s], id) == k;
    } else if s.Id == id {
      assert (ss + [s])[|ss|] == s;
      assert IdIndex(ss + [s], id) == |ss|;
    }
  }

  /** An application: its services, in the order they were set. */
  class App {
    var Services: seq<LegacyConfig.Service>

    constructor ()
      ensures Services == []
    {
      Services := [];
    }

    function Service(id: string): (r: Option<LegacyConfig.Service>)
      reads this
      ensures r == ServiceWithId(Services, id)
    {
      ServiceWithId(Services, id)
    }

    /** The first service with URL `url`; None stands for Go's nil. */
    function ServiceByUrl(url: string): (r: Option<LegacyConfig.Service>)
      reads this
      ensures r.None? <==> forall j :: 0 <= j < |Services| ==> Services[j].Url != url
      ensures r.Some? ==> r.value in Services && r.value.Url == url
      ensures forall j :: 0 <= j < |Services| && Services[j].Url == url && (forall i :: 0 <= i < j ==> Services[i].Url != url) ==>
        r == Some(Services[j])
    {
      var k := UrlIndex(Services, url);
      if k < |Services| then Some(Services[k]) else None
    }

    /** Appends a service, whatever its id. */
    method SetService(s: LegacyConfig.Service)
      modifies this
      ensures Services == old(Services) + [s]
      ensures Service(s.Id) == if old(Service(s.Id)).Some? then old(Service(s.Id)) else Some(s)
    {
      AppendKeepsFirst(Services, s, s.Id);
      Services := Services + [s];
    }
  }
}
