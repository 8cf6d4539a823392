/**
 * Records shared by the configuration packages: handlers (called controllers in the
 * older code) and their instances, client descriptors, the service and handler kinds,
 * the two handler categories of a proxy, and the filters every package runs over a
 * service's handler list.
 */
module Entities {
  import opened Wrappers

  /** Category of the handlers on which a proxy receives requests. */
  const SourceName: string := "source"
  /** Category of the handlers through which a proxy forwards requests. */
  const DestinationName: string := "destination"

  /** Kinds of service. Their spellings in the YAML files are not part of this model. */
  datatype ServiceType = IndependentType | ProxyType | ExtensionType

  /** Kinds of handler socket. */
  datatype HandlerType = SyncReplierType | ReplierType | PusherType | PublisherType

  /** One running copy of a handler: its handler's category, its id and its port (0: in-process). */
  datatype Instance = Instance(ControllerCategory: string, Id: string, Port: nat)

  /** A handler: socket kind, category, id and running instances. */
  datatype Handler = Handler(Type: HandlerType, Category: string, Id: string, Instances: seq<Instance>)

  /** How to reach a handler of another service. */
  datatype Client = Client(Id: string, ServiceUrl: string, Port: nat)

  /** A lookup that found nothing; carries the key looked for. */
  datatype NotFound = NotFound(key: string)

  /** The Go runtime's index-out-of-range panic. */
  datatype Panic = IndexOutOfRange

  /** Why a service path is refused. */
  datatype PathError = PathTooShort | MissingYmlSuffix

  predicate Distinct<T(==)>(xs: seq<T>) {
    forall i, j :: 0 <= i < j < |xs| ==> xs[i] != xs[j]
  }

  /** The handlers of category `name`, in their order in `hs`. */
  function ByCategory(hs: seq<Handler>, name: string): (r: seq<Handler>)
    ensures |r| <= |hs|
    ensures forall h {:trigger h in r} :: h in r <==> h in hs && h.Category == name
  {
    if hs == [] then []
    else
      ByCategory(hs[..|hs| - 1], name)
      + (if hs[|hs| - 1].Category == name then [hs[|hs| - 1]] else [])
  }

  /** Filtering one more handler extends the filter by it exactly when it has the category. */
  lemma ByCategoryStep(hs: seq<Handler>, i: nat, name: string)
    requires i < |hs|
    ensures ByCategory(hs[..i + 1], name) == ByCategory(hs[..i], name) + (if hs[i].Category == name then [hs[i]] else [])
  {
    assert hs[..i + 1][..i] == hs[..i];
  }

  /** Filtering a list with one more handler at its end extends the filter by it exactly when it has the category. */
  lemma ByCategorySnoc(hs: seq<Handler>, h: Handler, name: string)
    ensures ByCategory(hs + [h], name) == ByCategory(hs, name) + (if h.Category == name then [h] else [])
  {
    assert (hs + [h])[..|hs|] == hs;
  }

  lemma {:induction false} ByCategoryAppend(a: seq<Handler>, b: seq<Handler>, name: string)
    ensures ByCategory(a + b, name) == ByCategory(a, name) + ByCategory(b, name)
    decreases |b|
  {
    if b == [] {
      assert a + b == a;
    } else {
      assert (a + b)[..|a + b| - 1] == a + b[..|b| - 1];
      ByCategoryAppend(a, b[..|b| - 1], name);
    }
  }

  /** Position of the first handler of category `name`, or |hs| when there is none. */
  function CategoryIndex(hs: seq<Handler>, name: string): (k: nat)
    ensures k <= |hs|
    ensures forall j :: 0 <= j < k ==> hs[j].Category != name
    ensures k < |hs| ==> hs[k].Category == name
  {
    if hs == [] then 0
    else if hs[0].Category == name then 0
    else 1 + CategoryIndex(hs[1..], name)
  }

  /** The first-match lookup agrees with the filter: it finds the filter's head. */
  lemma {:induction false} CategoryIndexIsFilterHead(hs: seq<Handler>, name: string)
    ensures CategoryIndex(hs, name) < |hs| <==> ByCategory(hs, name) != []
    ensures CategoryIndex(hs, name) < |hs| ==> hs[CategoryIndex(hs, name)] == ByCategory(hs, name)[0]
  {
    if hs != [] {
      assert hs == [hs[0]] + hs[1..];
      ByCategoryAppend([hs[0]], hs[1..], name);
      assert ByCategory([hs[0]], name) == ByCategory([], name) + (if hs[0].Category == name then [hs[0]] else []) by {
        assert [hs[0]][..0] == [];
      }
      CategoryIndexIsFilterHead(hs[1..], name);
    }
  }

  /** The first handler of category `name`: the head of the category's filter, or an error naming it. */
  function FirstOfCategory(hs: seq<Handler>, name: string): (r: Result<Handler, NotFound>)
    ensures r.Err? <==> ByCategory(hs, name) == []
    ensures r.Err? ==> r.error == NotFound(name)
    ensures r.Ok? ==> r.value == ByCategory(hs, name)[0] && r.value in hs && r.value.Category == name
  {
    CategoryIndexIsFilterHead(hs, name);
    var k := CategoryIndex(hs, name);
    if k < |hs| then Ok(hs[k]) else Err(NotFound(name))
  }

  /**
   * Go's `make([]T, 0, n)` followed by writes `s[count] = x`: the slice has length 0,
   * so the first write panics; with no write the empty slice comes back.
   */
  function WriteIntoEmptySlice<T>(writes: nat): (r: Result<seq<T>, Panic>)
    ensures r.Ok? <==> writes == 0
    ensures r.Ok? ==> r.value == []
  {
    if writes == 0 then Ok([]) else Err(IndexOutOfRange)
  }

  /** Every handler of category `name`, in order, or an error naming the category when there is none. */
  function AllOfCategory(hs: seq<Handler>, name: string): (r: Result<seq<Handler>, NotFound>)
    ensures r.Err? <==> forall h :: h in hs ==> h.Category != name
    ensures r.Ok? ==> r.value == ByCategory(hs, name)
  {
    var found := ByCategory(hs, name);
    assert found != [] ==> found[0] in found;
    assert forall h :: h in hs && h.Category == name ==> h in found;
    if found == [] then Err(NotFound(name)) else Ok(found)
  }

  /**
   * The category filter as both service packages write it: the buffer is made with
   * length 0, so a matching handler panics at its write, and with no match the length
   * check reports an error.
   */
  function AllOfCategoryAsWritten(hs: seq<Handler>, name: string): (r: Result<Result<seq<Handler>, NotFound>, Panic>)
    ensures r.Err? <==> ByCategory(hs, name) != []
    ensures r.Ok? ==> r.value == Err(NotFound(name))
  {
    match WriteIntoEmptySlice<Handler>(|ByCategory(hs, name)|)
    case Err(p) => Err(p)
    case Ok(_) => Ok(Err(NotFound(name)))
  }

  /** As written, the filter never succeeds: a single matching handler makes it panic. */
  lemma AllOfCategoryAsWrittenPanics(h: Handler)
    ensures AllOfCategoryAsWritten([h], h.Category).Err?
    ensures AllOfCategory([h], h.Category) == Ok([h])
  {
    assert [h][..0] == [];
    assert ByCategory([h], h.Category) == [h];
  }

  /**
   * Whether `path` may name a service's YAML file. `base` is the platform's
   * final-path-element function. Lengths count characters.
   */
  function ValidateServicePath(path: string, base: string -> string): (r: Option<PathError>)
    ensures r == None <==> 5 <= |path| && 5 <= |base(path)| && path[|path| - 4..] == ".yml"
    ensures r == Some(PathTooShort) <==> |path| < 5 || |base(path)| < 5
  {
    if |path| < 5 || |base(path)| < 5 then Some(PathTooShort)
    else if path[|path| - 4..] != ".yml" then Some(MissingYmlSuffix)
    else None
  }

  /** An accepted path has a non-empty name in front of its ".yml" suffix. */
  lemma AcceptedPathHasStem(path: string, base: string -> string)
    requires ValidateServicePath(path, base) == None
    ensures path == path[..|path| - 4] + ".yml" && |path[..|path| - 4]| > 0
  {
  }
}
