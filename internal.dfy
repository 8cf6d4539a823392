/**
 * Names derived from a service URL (internal.go): a file-name form of the URL, the
 * names of a service's manager and orchestra context, and the configuration of an
 * in-process handler.
 */
module Internal {
  import opened Entities
  import Server

  /** `s` with every `from` replaced by `to`. */
  function ReplaceAll(s: string, from: char, to: char): (r: string)
    ensures |r| == |s|
    ensures forall i :: 0 <= i < |s| ==> r[i] == if s[i] == from then to else s[i]
  {
    if s == [] then [] else ReplaceAll(s[..|s| - 1], from, to) + [if s[|s| - 1] == from then to else s[|s| - 1]]
  }

  /** The URL with every slash and every backslash replaced by a dot. */
  function UrlToFileName(url: string): (r: string)
    ensures |r| == |url|
    ensures forall i :: 0 <= i < |url| ==> r[i] == if url[i] == '/' || url[i] == '\\' then '.' else url[i]
  {
    ReplaceAll(ReplaceAll(url, '/', '.'), '\\', '.')
  }

  /** A file name holds no path separator, and turning it into a file name again changes nothing. */
  lemma FileNameIsFlat(url: string)
    ensures forall i :: 0 <= i < |url| ==> UrlToFileName(url)[i] != '/' && UrlToFileName(url)[i] != '\\'
    ensures UrlToFileName(UrlToFileName(url)) == UrlToFileName(url)
  {
  }

  /** Different URLs can share a file name: a slash and a dot in the same place are not told apart. */
  lemma FileNamesCanCollide()
    ensures UrlToFileName("a/b") == UrlToFileName("a.b")
  {
    assert UrlToFileName("a/b") == "a.b";
  }

  const ManagerPrefix: string := "manager."
  const ContextPrefix: string := "orchestra."

  function ManagerName(url: string): (r: string)
    ensures r == ManagerPrefix + UrlToFileName(url)
  {
    ManagerPrefix + UrlToFileName(url)
  }

  function ContextName(url: string): (r: string)
    ensures r == ContextPrefix + UrlToFileName(url)
  {
    ContextPrefix + UrlToFileName(url)
  }

  /** No service's manager is named like any service's orchestra context. */
  lemma ManagerAndContextNamesDiffer(a: string, b: string)
    ensures ManagerName(a) != ContextName(b)
  {
    assert ManagerName(a)[0] == 'm' && ContextName(b)[0] == 'o';
  }

  /** Turning a URL into a file name works piece by piece. */
  lemma FileNameOfConcat(a: string, b: string)
    ensures UrlToFileName(a + b) == UrlToFileName(a) + UrlToFileName(b)
  {
    var l, r := UrlToFileName(a + b), UrlToFileName(a) + UrlToFileName(b);
    forall i | 0 <= i < |l|
      ensures l[i] == r[i]
    {
      if i < |a| {
        assert (a + b)[i] == a[i];
      } else {
        assert (a + b)[i] == b[i - |a|];
      }
    }
  }

  /** A string without separators is its own file name. */
  lemma FlatIsOwnFileName(s: string)
    requires forall i :: 0 <= i < |s| ==> s[i] != '/' && s[i] != '\\'
    ensures UrlToFileName(s) == s
  {
  }

  /** A URL of three separator-free parts joined by slashes has those parts joined by dots as its file name. */
  lemma JoinedFileName(host: string, owner: string, repo: string)
    requires forall i :: 0 <= i < |host| ==> host[i] != '/' && host[i] != '\\'
    requires forall i :: 0 <= i < |owner| ==> owner[i] != '/' && owner[i] != '\\'
    requires forall i :: 0 <= i < |repo| ==> repo[i] != '/' && repo[i] != '\\'
    ensures UrlToFileName(host + "/" + owner + "/" + repo) == host + "." + owner + "." + repo
  {
    FlatIsOwnFileName(host);
    FlatIsOwnFileName(owner);
    FlatIsOwnFileName(repo);
    assert UrlToFileName("/") == ".";
    FileNameOfConcat(host, "/");
    FileNameOfConcat(host + "/", owner);
    FileNameOfConcat(host + "/" + owner, "/");
    FileNameOfConcat(host + "/" + owner + "/", repo);
  }

  /**
   * The documented example: the sample service at github.com/ahmetson/sample-service
   * has the orchestra context orchestra.github.com.ahmetson.sample-service. Each
   * string is written as its dot- or slash-separated parts.
   */
  lemma SampleContextName()
    ensures ContextName("github.com" + "/" + "ahmetson" + "/" + "sample-service")
         == "orchestra." + "github.com" + "." + "ahmetson" + "." + "sample-service"
  {
    JoinedFileName("github.com", "ahmetson", "sample-service");
  }

  /**
   * The handler a service runs for internal requests under `name`: a synchronous
   * replier of category `name` with one in-process instance.
   */
  function InternalConfiguration(name: string): (r: Handler)
    ensures r.Type == SyncReplierType && r.Category == name
    ensures r.Instances == [Instance(name, name + "_instance", 0)]
  {
    Handler(SyncReplierType, name, "", [Instance(name, name + "_instance", 0)])
  }

  /** How other services reach the server named `name`: by that name, on port 0. */
  function ClientUrlParameters(name: string): (r: (string, nat))
    ensures r == (name, 0)
  {
    (name, 0)
  }

  /** The internal handler and its clients both bind the in-process endpoint named after it. */
  lemma InternalHandlerIsInproc(name: string)
    ensures Server.Url(name, InternalConfiguration(name).Instances[0].Port) == Server.InprocScheme + name
    ensures Server.Url(ClientUrlParameters(name).0, ClientUrlParameters(name).1) == Server.Url(name, 0)
  {
  }
}
