/**
 * Presenting a service to other services (service/converter/converter.go): a proxy
 * service as the proxy entry its users list, an extension service as the extension
 * entry its users list. When the service sits behind proxies of its own, callers must
 * reach it through the first proxy of its first pipeline, so that proxy's port is used.
 */
module Converter {
  import opened Wrappers
  import opened Entities
  import opened PipeEnds
  import opened LegacyConfig

  datatype ConvertError =
    | NotProxyType
    | NotExtensionType
    | NoSourceHandler(lookup: NotFound)
    | NoHandler(lookup: NotFound)
    | NoInstances
    | EmptyPipelineHead
    | NoPipeline(requiredEnd: string)
    | BeginningNotInProxies(url: string)
    /** The Go code indexes the first instance of the beginning proxy without checking it exists. */
    | Panicked(panic: Panic)

  /** Id of the one client instance a converted service exposes, after its handler's category. */
  function InstanceId(category: string): string {
    category + " instance 01"
  }

  /**
   * The proxy at the beginning of the service's pipelines. Only the first pipeline is
   * ever examined: the loop returns on its first iteration. `requiredEnd` only names
   * the end in the error for an empty pipeline list.
   */
  function FindPipelineBeginning(s: Config, requiredEnd: string): (r: Result<Proxy, ConvertError>)
    ensures s.Pipelines == [] ==> r == Err(NoPipeline(requiredEnd))
    ensures r.Ok? <==>
      s.Pipelines != [] && HasBeginning(s.Pipelines[0]) && ProxyByUrl(s.Proxies, s.Pipelines[0].Head[0]).Some?
    ensures r.Ok? ==> r.value in s.Proxies && r.value.Url == s.Pipelines[0].Head[0]
  {
    if s.Pipelines == [] then Err(NoPipeline(requiredEnd))
    else
      var pipeline := s.Pipelines[0];
      var beginning := Beginning(pipeline);
      if !HasBeginning(pipeline) then Err(EmptyPipelineHead)
      else match ProxyByUrl(s.Proxies, beginning)
        case None => Err(BeginningNotInProxies(beginning))
        case Some(proxy) => Ok(proxy)
  }

  /** Pipelines after the first one never change the beginning that is found. */
  lemma BeginningIgnoresLaterPipelines(s: Config, later: seq<Pipeline>, requiredEnd: string)
    requires s.Pipelines != []
    ensures FindPipelineBeginning(s.(Pipelines := s.Pipelines[..1] + later), requiredEnd)
         == FindPipelineBeginning(s, requiredEnd)
  {
  }

  /**
   * The proxy entry for a proxy service: its URL and one client instance named after
   * its source handler, on the port of that handler's first instance, or, when the
   * service has proxies of its own, on the port of its pipeline's beginning proxy.
   */
  function ServiceToProxy(s: Config): (r: Result<Proxy, ConvertError>)
    ensures s.Type != ProxyType ==> r == Err(NotProxyType)
    ensures s.Type == ProxyType && ByCategory(s.Controllers, SourceName) == [] ==> r.Err? && r.error.NoSourceHandler?
    ensures r.Ok? ==> r.value.Url == s.Url && |r.value.Instances| == 1
    ensures r.Ok? ==> r.value.Instances[0].Id == "source instance 01"
    ensures r.Ok? <==>
      s.Type == ProxyType && ByCategory(s.Controllers, SourceName) != []
      && |ByCategory(s.Controllers, SourceName)[0].Instances| > 0
      && (s.Proxies != [] ==>
            FindPipelineBeginning(s, SourceName).Ok? && |FindPipelineBeginning(s, SourceName).value.Instances| > 0)
    ensures r.Ok? && s.Proxies == [] ==>
      r.value.Instances[0].Port == ByCategory(s.Controllers, SourceName)[0].Instances[0].Port
    ensures r.Ok? && s.Proxies != [] ==>
      r.value.Instances[0].Port == FindPipelineBeginning(s, SourceName).value.Instances[0].Port
  {
    if s.Type != ProxyType then Err(NotProxyType)
    else match FirstOfCategory(s.Controllers, SourceName)
      case Err(e) => Err(NoSourceHandler(e))
      case Ok(source) =>
        if |source.Instances| == 0 then Err(NoInstances)
        else if |s.Proxies| == 0 then
          Ok(Proxy(s.Url, [Client(InstanceId(source.Category), "", source.Instances[0].Port)]))
        else match FindPipelineBeginning(s, SourceName)
          case Err(e) => Err(e)
          case Ok(beginning) =>
            if |beginning.Instances| == 0 then Err(Panicked(IndexOutOfRange))
            else Ok(Proxy(s.Url, [Client(InstanceId(source.Category), "", beginning.Instances[0].Port)]))
  }

  /**
   * The extension entry for an extension service: its URL, an id after its first
   * handler's category, and the port chosen as in ServiceToProxy.
   */
  function ServiceToExtension(s: Config): (r: Result<Extension, ConvertError>)
    ensures s.Type != ExtensionType ==> r == Err(NotExtensionType)
    ensures r.Ok? ==> r.value.Url == s.Url
    ensures r.Ok? <==>
      s.Type == ExtensionType && s.Controllers != [] && |s.Controllers[0].Instances| > 0
      && (s.Proxies != [] ==>
            FindPipelineBeginning(s, SourceName).Ok? && |FindPipelineBeginning(s, SourceName).value.Instances| > 0)
    ensures r.Ok? ==> r.value.Id == InstanceId(s.Controllers[0].Category)
    ensures r.Ok? && s.Proxies == [] ==> r.value.Port == s.Controllers[0].Instances[0].Port
    ensures r.Ok? && s.Proxies != [] ==> r.value.Port == FindPipelineBeginning(s, SourceName).value.Instances[0].Port
  {
    if s.Type != ExtensionType then Err(NotExtensionType)
    else if |s.Controllers| == 0 then Err(NoHandler(NotFound(s.Url)))
    else
      var first := s.Controllers[0];
      if |first.Instances| == 0 then Err(NoInstances)
      else if |s.Proxies| == 0 then Ok(Extension(s.Url, InstanceId(first.Category), first.Instances[0].Port))
      else match FindPipelineBeginning(s, SourceName)
        case Err(e) => Err(e)
        case Ok(beginning) =>
          if |beginning.Instances| == 0 then Err(Panicked(IndexOutOfRange))
          else Ok(Extension(s.Url, InstanceId(first.Category), beginning.Instances[0].Port))
  }

  /**
   * A converted proxy, set on a service, is what that service then finds under the
   * proxy service's URL.
   */
  lemma ConvertedProxyIsFound(s: Config, user: seq<Proxy>)
    requires ServiceToProxy(s).Ok?
    ensures ProxyByUrl(UpsertProxy(user, ServiceToProxy(s).value), s.Url) == Some(ServiceToProxy(s).value)
  {
    UpsertProxyThenLookup(user, ServiceToProxy(s).value);
  }
}
