/**
 * Destination rules, proxies and proxy chains of the service package, as the
 * package's tests pin them down (service/proxy_test.go).
 *
 * A rule names what a proxy chain leads to, in one of three shapes: a service (URLs
 * only), a handler (URLs and handler categories) or a route (URLs, categories and
 * commands). Commands may be excluded from a route afterwards.
 */
module Rules {
  import opened Wrappers
  import opened Entities

  /** An argument of the variadic rule constructors: a string, a list of strings, or a value of another type. */
  datatype Arg = Str(s: string) | Strs(ss: seq<string>) | OtherArg

  /** `ys` added to the end of `xs` one by one, each only when it is not there yet. */
  function AddAbsent(xs: seq<string>, ys: seq<string>): (r: seq<string>)
    ensures forall x :: x in r <==> x in xs || x in ys
    ensures |xs| <= |r| <= |xs| + |ys| && r[..|xs|] == xs
  {
    if ys == [] then xs
    else
      var front := AddAbsent(xs, ys[..|ys| - 1]);
      var y := ys[|ys| - 1];
      assert forall x :: x in ys <==> x in ys[..|ys| - 1] || x == y by {
        assert ys == ys[..|ys| - 1] + [y];
      }
      if y in front then front else front + [y]
  }

  /** Adding to a list without duplicates keeps it without duplicates. */
  lemma {:induction false} AddAbsentDistinct(xs: seq<string>, ys: seq<string>)
    requires Distinct(xs)
    ensures Distinct(AddAbsent(xs, ys))
  {
    if ys != [] {
      AddAbsentDistinct(xs, ys[..|ys| - 1]);
    }
  }

  /** Adding only strings that are present already changes nothing. */
  lemma {:induction false} AddAbsentAllPresent(xs: seq<string>, ys: seq<string>)
    requires forall y :: y in ys ==> y in xs
    ensures AddAbsent(xs, ys) == xs
  {
    if ys != [] {
      assert ys[|ys| - 1] in ys;
      AddAbsentAllPresent(xs, ys[..|ys| - 1]);
    }
  }

  /** Adding the same strings twice is adding them once. */
  lemma AddAbsentIdempotent(xs: seq<string>, ys: seq<string>)
    ensures AddAbsent(AddAbsent(xs, ys), ys) == AddAbsent(xs, ys)
  {
    AddAbsentAllPresent(AddAbsent(xs, ys), ys);
  }

  /** Strings that are all new and pairwise different are appended as they are. */
  lemma {:induction false} AddAbsentFresh(xs: seq<string>, ys: seq<string>)
    requires Distinct(xs + ys)
    ensures AddAbsent(xs, ys) == xs + ys
  {
    if ys != [] {
      var front := ys[..|ys| - 1];
      var y := ys[|ys| - 1];
      assert xs + ys == (xs + front) + [y];
      assert Distinct(xs + front) by {
        forall i, j | 0 <= i < j < |xs + front|
          ensures (xs + front)[i] != (xs + front)[j]
        {
          assert (xs + front)[i] == (xs + ys)[i] && (xs + front)[j] == (xs + ys)[j];
        }
      }
      AddAbsentFresh(xs, front);
      assert y !in xs + front by {
        forall i | 0 <= i < |xs + front|
          ensures (xs + front)[i] != y
        {
          assert (xs + front)[i] == (xs + ys)[i] && y == (xs + ys)[|xs + ys| - 1];
        }
      }
    }
  }

  /**
   * The strings one constructor argument stands for: a string becomes a one-element
   * list, a list keeps its first occurrences in order; any other value is refused.
   */
  function Values(a: Arg): (r: Option<seq<string>>)
    ensures r.None? <==> a.OtherArg?
    ensures a.Str? ==> r == Some([a.s])
    ensures a.Strs? ==> r.Some? && Distinct(r.value) && forall x :: x in r.value <==> x in a.ss
  {
    match a
    case Str(s) => Some([s])
    case Strs(ss) =>
      AddAbsentDistinct([], ss);
      Some(AddAbsent([], ss))
    case OtherArg => None
  }

  /** A list argument without duplicates is taken as it is. */
  lemma DistinctListKept(ss: seq<string>)
    requires Distinct(ss)
    ensures Values(Strs(ss)) == Some(ss)
  {
    AddAbsentFresh([], ss);
    assert [] + ss == ss;
  }

  /** The strings of every argument, in order, or None when one of them is refused. */
  function AllValues(args: seq<Arg>): (r: Option<seq<seq<string>>>)
    ensures r.Some? <==> forall i :: 0 <= i < |args| ==> !args[i].OtherArg?
    ensures r.Some? ==> |r.value| == |args| && forall i :: 0 <= i < |args| ==> Values(args[i]) == Some(r.value[i])
  {
    if args == [] then Some([])
    else match (Values(args[0]), AllValues(args[1..]))
      case (Some(first), Some(rest)) =>
        assert forall i :: 1 <= i < |args| ==> args[i] == args[1..][i - 1];
        Some([first] + rest)
      case (None, _) => None
      case (_, None) =>
        assert forall i :: 0 <= i < |args[1..]| ==> args[1..][i] == args[i + 1];
        None
  }

  /**
   * The arguments of a constructor with `width` fields, at least `least` of them
   * given: fields are filled from the right, and fields with no argument are empty.
   * None for too few or too many arguments, or for a refused argument.
   */
  function Slots(args: seq<Arg>, width: nat, least: nat): (r: Option<seq<seq<string>>>)
    ensures r.Some? <==>
      least <= |args| <= width && forall i :: 0 <= i < |args| ==> !args[i].OtherArg?
    ensures r.Some? ==> |r.value| == width
    ensures r.Some? ==> forall i :: 0 <= i < width - |args| ==> r.value[i] == []
    ensures r.Some? ==> forall i :: 0 <= i < |args| ==> Some(r.value[width - |args| + i]) == Values(args[i])
  {
    if |args| < least || width < |args| then None
    else match AllValues(args)
      case None => None
      case Some(vs) => Some(seq(width - |args|, _ => []) + vs)
  }

  /** What a rule matches. A `Rule` object holds one of these in its fields. */
  datatype Patterns = Patterns(Urls: seq<string>, Categories: seq<string>, Commands: seq<string>, ExcludedCommands: seq<string>)
  {
    /** A whole service: URLs only. */
    predicate IsService() {
      Urls != [] && Categories == [] && Commands == []
    }

    /** Handlers of some categories in some services. */
    predicate IsHandler() {
      Urls != [] && Categories != [] && Commands == []
    }

    /** Commands of handlers of some categories in some services. */
    predicate IsRoute() {
      Urls != [] && Categories != [] && Commands != []
    }

    predicate IsEmpty() {
      Urls == [] && Categories == [] && Commands == []
    }

    /** Every command is excluded; never so without categories or without exclusions. */
    predicate IsEmptyCommands() {
      Categories != [] && ExcludedCommands != [] && forall c :: c in Commands ==> c in ExcludedCommands
    }

    predicate IsValid() {
      !IsEmpty() && !IsEmptyCommands() && (IsService() || IsHandler() || IsRoute())
    }

    /** Same strings in every field, in any order and with any repetition. */
    predicate SameAs(other: Patterns) {
      SameElements(Urls, other.Urls) && SameElements(Categories, other.Categories)
      && SameElements(Commands, other.Commands) && SameElements(ExcludedCommands, other.ExcludedCommands)
    }
  }

  predicate SameElements(xs: seq<string>, ys: seq<string>) {
    (forall x :: x in xs ==> x in ys) && (forall y :: y in ys ==> y in xs)
  }

  /** NewDestination's reading of its arguments: commands last, categories before them, URLs optionally first. */
  function ParseDestination(args: seq<Arg>): (r: Option<Patterns>)
    ensures r.None? <==> |args| < 2 || 3 < |args| || exists i :: 0 <= i < |args| && args[i].OtherArg?
    ensures r.Some? ==> r.value.ExcludedCommands == []
  {
    match Slots(args, 3, 2)
    case None => None
    case Some(f) => Some(Patterns(f[0], f[1], f[2], []))
  }

  /** NewHandlerDestination's reading of its arguments: categories last, URLs optionally first. */
  function ParseHandlerDestination(args: seq<Arg>): (r: Option<Patterns>)
    ensures r.None? <==> |args| < 1 || 2 < |args| || exists i :: 0 <= i < |args| && args[i].OtherArg?
    ensures r.Some? ==> r.value.Commands == [] && r.value.ExcludedCommands == []
  {
    match Slots(args, 2, 1)
    case None => None
    case Some(f) => Some(Patterns(f[0], f[1], [], []))
  }

  /** NewServiceDestination's reading of its arguments: URLs, optionally. */
  function ParseServiceDestination(args: seq<Arg>): (r: Option<Patterns>)
    ensures r.None? <==> 1 < |args| || (|args| == 1 && args[0].OtherArg?)
    ensures r.Some? ==> r.value.Categories == [] && r.value.Commands == [] && r.value.ExcludedCommands == []
  {
    match Slots(args, 1, 0)
    case None => None
    case Some(f) => Some(Patterns(f[0], [], [], []))
  }

  /** An argument that stands for at least one string. */
  predicate Given(a: Arg) {
    a.Str? || (a.Strs? && a.ss != [])
  }

  /** NewDestination fills its fields from the right, each with the strings of its argument. */
  lemma DestinationFillsFromRight(args: seq<Arg>)
    requires ParseDestination(args).Some?
    ensures Some(ParseDestination(args).value.Commands) == Values(args[|args| - 1])
    ensures Some(ParseDestination(args).value.Categories) == Values(args[|args| - 2])
    ensures |args| == 3 ==> Some(ParseDestination(args).value.Urls) == Values(args[0])
    ensures |args| == 2 ==> ParseDestination(args).value.Urls == []
  {
    var f := Slots(args, 3, 2).value;
    assert Some(f[3 - |args| + (|args| - 1)]) == Values(args[|args| - 1]);
    assert Some(f[3 - |args| + (|args| - 2)]) == Values(args[|args| - 2]);
  }

  /** NewHandlerDestination fills its fields from the right, each with the strings of its argument. */
  lemma HandlerDestinationFillsFromRight(args: seq<Arg>)
    requires ParseHandlerDestination(args).Some?
    ensures Some(ParseHandlerDestination(args).value.Categories) == Values(args[|args| - 1])
    ensures |args| == 2 ==> Some(ParseHandlerDestination(args).value.Urls) == Values(args[0])
    ensures |args| == 1 ==> ParseHandlerDestination(args).value.Urls == []
  {
    var f := Slots(args, 2, 1).value;
    assert Some(f[2 - |args| + (|args| - 1)]) == Values(args[|args| - 1]);
  }

  /**
   * Shapes of what NewDestination builds: with URLs, categories and commands given it
   * is a valid route; without URLs it is neither a route nor valid, yet not empty.
   */
  lemma DestinationShapes(args: seq<Arg>)
    requires ParseDestination(args).Some?
    requires forall i :: 0 <= i < |args| ==> Given(args[i])
    ensures |args| == 3 ==> ParseDestination(args).value.IsRoute() && ParseDestination(args).value.IsValid()
    ensures |args| == 2 ==>
      !ParseDestination(args).value.IsRoute() && !ParseDestination(args).value.IsValid()
      && !ParseDestination(args).value.IsEmpty()
    ensures !ParseDestination(args).value.IsService() && !ParseDestination(args).value.IsHandler()
  {
    DestinationFillsFromRight(args);
    var n := |args|;
    assert Given(args[n - 1]) && Given(args[n - 2]);
    assert n == 3 ==> Given(args[0]);
    if args[n - 1].Strs? { assert args[n - 1].ss[0] in args[n - 1].ss; }
    if args[n - 2].Strs? { assert args[n - 2].ss[0] in args[n - 2].ss; }
    if n == 3 && args[0].Strs? { assert args[0].ss[0] in args[0].ss; }
  }

  /**
   * Shapes of what NewHandlerDestination builds: with URLs and categories it is a valid
   * handler rule; with categories only it is not a handler, not valid, yet not empty.
   */
  lemma HandlerDestinationShapes(args: seq<Arg>)
    requires ParseHandlerDestination(args).Some?
    requires forall i :: 0 <= i < |args| ==> Given(args[i])
    ensures |args| == 2 ==> ParseHandlerDestination(args).value.IsHandler() && ParseHandlerDestination(args).value.IsValid()
    ensures |args| == 1 ==>
      !ParseHandlerDestination(args).value.IsHandler() && !ParseHandlerDestination(args).value.IsValid()
      && !ParseHandlerDestination(args).value.IsEmpty()
    ensures !ParseHandlerDestination(args).value.IsService() && !ParseHandlerDestination(args).value.IsRoute()
  {
    HandlerDestinationFillsFromRight(args);
    var n := |args|;
    assert Given(args[n - 1]);
    assert n == 2 ==> Given(args[0]);
    if args[n - 1].Strs? { assert args[n - 1].ss[0] in args[n - 1].ss; }
    if n == 2 && args[0].Strs? { assert args[0].ss[0] in args[0].ss; }
  }

  /**
   * Shapes of what NewServiceDestination builds: with no argument an empty, invalid
   * rule; with URLs a valid service rule holding those URLs.
   */
  lemma ServiceDestinationShapes(args: seq<Arg>)
    requires ParseServiceDestination(args).Some?
    ensures |args| == 0 ==> ParseServiceDestination(args).value.IsEmpty() && !ParseServiceDestination(args).value.IsValid()
    ensures |args| == 1 ==> Some(ParseServiceDestination(args).value.Urls) == Values(args[0])
    ensures |args| == 1 && Given(args[0]) ==>
      ParseServiceDestination(args).value.IsService() && ParseServiceDestination(args).value.IsValid()
  {
    var f := Slots(args, 1, 0).value;
    if |args| == 1 {
      assert Some(f[1 - |args| + 0]) == Values(args[0]);
      if args[0].Strs? && args[0].ss != [] { assert args[0].ss[0] in args[0].ss; }
    } else {
      assert f[0] == [];
    }
  }

  /** Two one-URL service rules are equal exactly when their URLs are. */
  lemma ServiceRulesEqualByUrl(a: string, b: string)
    ensures ParseServiceDestination([Str(a)]).Some? && ParseServiceDestination([Str(b)]).Some?
    ensures ParseServiceDestination([Str(a)]).value.SameAs(ParseServiceDestination([Str(b)]).value) <==> a == b
  {
    ServiceDestinationShapes([Str(a)]);
    ServiceDestinationShapes([Str(b)]);
    assert ParseServiceDestination([Str(a)]).value.Urls == [a];
    assert ParseServiceDestination([Str(b)]).value.Urls == [b];
    if ParseServiceDestination([Str(a)]).value.SameAs(ParseServiceDestination([Str(b)]).value) {
      assert a in [b];
    }
  }

  /**
   * Excluding every command of a rule with categories leaves it empty of commands and
   * invalid; a command left out of the exclusions makes a route valid again.
   */
  lemma ExclusionAndValidity(p: Patterns, commands: seq<string>)
    requires p.Categories != [] && commands != []
    requires forall c :: c in p.Commands ==> c in commands
    ensures p.(ExcludedCommands := AddAbsent(p.ExcludedCommands, commands)).IsEmptyCommands()
    ensures !p.(ExcludedCommands := AddAbsent(p.ExcludedCommands, commands)).IsValid()
    ensures forall c :: p.IsRoute() && c in p.Commands && c !in p.ExcludedCommands ==> p.IsValid()
  {
    assert commands[0] in AddAbsent(p.ExcludedCommands, commands);
  }

  /** A rule object: the patterns in its fields, which callers may assign directly. */
  class Rule {
    var Urls: seq<string>
    var Categories: seq<string>
    var Commands: seq<string>
    var ExcludedCommands: seq<string>

    constructor (p: Patterns)
      ensures Value() == p
    {
      Urls := p.Urls;
      Categories := p.Categories;
      Commands := p.Commands;
      ExcludedCommands := p.ExcludedCommands;
    }

    function Value(): Patterns
      reads this
    {
      Patterns(Urls, Categories, Commands, ExcludedCommands)
    }
  }

  /** A rule built from `p`, or null for None: how every constructor answers. */
  method Build(p: Option<Patterns>) returns (r: Rule?)
    ensures r == null <==> p.None?
    ensures r != null ==> fresh(r) && r.Value() == p.value
  {
    if p.None? {
      r := null;
    } else {
      r := new Rule(p.value);
    }
  }

  /** A route or handler rule from 2 or 3 arguments; null on a bad count or argument type. */
  method NewDestination(args: seq<Arg>) returns (r: Rule?)
    ensures r == null <==> ParseDestination(args).None?
    ensures r != null ==> fresh(r) && r.Value() == ParseDestination(args).value
  {
    r := Build(ParseDestination(args));
  }

  /** A handler rule from 1 or 2 arguments; null on a bad count or argument type. */
  method NewHandlerDestination(args: seq<Arg>) returns (r: Rule?)
    ensures r == null <==> ParseHandlerDestination(args).None?
    ensures r != null ==> fresh(r) && r.Value() == ParseHandlerDestination(args).value
  {
    r := Build(ParseHandlerDestination(args));
  }

  /** A service rule from 0 or 1 argument; null on a bad count or argument type. */
  method NewServiceDestination(args: seq<Arg>) returns (r: Rule?)
    ensures r == null <==> ParseServiceDestination(args).None?
    ensures r != null ==> fresh(r) && r.Value() == ParseServiceDestination(args).value
  {
    r := Build(ParseServiceDestination(args));
  }

  /** The shape predicates and validity of a rule that may be nil: all false for nil. */
  predicate IsService(r: Rule?)
    reads r
  {
    r != null && r.Value().IsService()
  }

  predicate IsHandler(r: Rule?)
    reads r
  {
    r != null && r.Value().IsHandler()
  }

  predicate IsRoute(r: Rule?)
    reads r
  {
    r != null && r.Value().IsRoute()
  }

  predicate IsEmptyCommands(r: Rule?)
    reads r
  {
    r != null && r.Value().IsEmptyCommands()
  }

  predicate IsValidRule(r: Rule?)
    reads r
  {
    r != null && r.Value().IsValid()
  }

  /** Rule equality: both rules exist and hold the same strings in every field; nil equals nothing, not even nil. */
  predicate IsEqualRule(a: Rule?, b: Rule?)
    reads a, b
  {
    a != null && b != null && a.Value().SameAs(b.Value())
  }

  /**
   * Adds commands to the rule's exclusions, skipping those already excluded, and
   * hands the rule back; on a nil rule nothing happens and nil comes back.
   */
  method ExcludeCommands(r: Rule?, commands: seq<string>) returns (res: Rule?)
    modifies r
    ensures res == r
    ensures r != null ==> r.Value() == old(r.Value()).(ExcludedCommands := AddAbsent(old(r.ExcludedCommands), commands))
  {
    res := r;
    if r == null {
      return;
    }
    var i := 0;
    while i < |commands|
      invariant 0 <= i <= |commands|
      invariant r.Value() == old(r.Value()).(ExcludedCommands := AddAbsent(old(r.ExcludedCommands), commands[..i]))
    {
      assert commands[..i + 1][..i] == commands[..i];
      if commands[i] !in r.ExcludedCommands {
        r.ExcludedCommands := r.ExcludedCommands + [commands[i]];
      }
      i := i + 1;
    }
    assert commands[..|commands|] == commands;
  }

  /** A proxy a chain passes through. */
  datatype Proxy = Proxy(Id: string, Url: string, Category: string)
  {
    predicate IsValid() {
      Id != "" && Url != "" && Category != ""
    }
  }

  /** Validity of a proxy that may be nil: nil is invalid. */
  predicate ProxyIsValid(p: Option<Proxy>) {
    p.Some? && p.value.IsValid()
  }

  /** A non-empty list of valid proxies with pairwise different ids. */
  predicate IsProxiesValid(ps: seq<Option<Proxy>>) {
    |ps| > 0
    && (forall i :: 0 <= i < |ps| ==> ProxyIsValid(ps[i]))
    && (forall i, j :: 0 <= i < j < |ps| && ps[i].Some? && ps[j].Some? ==> ps[i].value.Id != ps[j].value.Id)
  }

  /** A list of strings that exists and has no empty and no repeated string; nil is invalid, empty is valid. */
  predicate IsStringSliceValid(ss: Option<seq<string>>) {
    ss.Some? && (forall i :: 0 <= i < |ss.value| ==> ss.value[i] != "") && Distinct(ss.value)
  }

  /** Two proxies sharing an id make a proxy list invalid, whatever their other fields. */
  lemma SharedIdInvalidates(ps: seq<Option<Proxy>>, i: nat, j: nat)
    requires i < |ps| && j < |ps| && i != j
    requires ps[i].Some? && ps[j].Some? && ps[i].value.Id == ps[j].value.Id
    ensures !IsProxiesValid(ps)
  {
    if j < i {
      assert ps[j].value.Id == ps[i].value.Id;
    }
  }

  /** The proxies, sources and destination of a chain; callers assign the fields directly. */
  class ProxyChain {
    var Sources: Option<seq<string>>
    var Proxies: seq<Option<Proxy>>
    var Destination: Rule?

    /** A chain with nil sources, no proxies and no destination. */
    constructor ()
      ensures Sources.None? && Proxies == [] && Destination == null
    {
      Sources := None;
      Proxies := [];
      Destination := null;
    }
  }

  /** A chain that exists, with a valid destination, valid proxies and valid sources. */
  predicate IsValidChain(c: ProxyChain?)
    reads c, if c != null then {c.Destination} else {}
  {
    c != null && IsValidRule(c.Destination) && IsProxiesValid(c.Proxies) && IsStringSliceValid(c.Sources)
  }

  /**
   * A chain with sources that exist and are distinct and non-empty, distinct valid
   * proxies and a destination rule built from one or more URLs is valid; so is one
   * with empty sources. A chain whose destination is the argument-less service rule
   * is not.
   */
  lemma ChainValidity(c: ProxyChain, args: seq<Arg>)
    requires c.Destination != null && IsProxiesValid(c.Proxies) && IsStringSliceValid(c.Sources)
    requires ParseServiceDestination(args).Some? && c.Destination.Value() == ParseServiceDestination(args).value
    ensures |args| == 1 && Given(args[0]) ==> IsValidChain(c)
    ensures |args| == 0 ==> !IsValidChain(c)
  {
    ServiceDestinationShapes(args);
  }
}
