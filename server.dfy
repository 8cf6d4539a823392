/**
 * The socket wrapper a service runs its handlers in (server/controller.go): the
 * extensions it requires and is given, the commands it routes, whether it replies,
 * and the endpoint it binds.
 */
module Server {
  import opened Wrappers
  import opened Entities
  import LegacyConfig

  /** The decimal digits of `n`, most significant first, without leading zeros. */
  function NatToString(n: nat): (r: string)
    ensures |r| > 0 && (|r| > 1 ==> r[0] != '0')
    ensures forall i :: 0 <= i < |r| ==> '0' <= r[i] <= '9'
    decreases n
  {
    if n < 10 then [Digit(n)] else NatToString(n / 10) + [Digit(n % 10)]
  }

  function Digit(d: nat): (c: char)
    requires d < 10
    ensures '0' <= c <= '9'
  {
    "0123456789"[d]
  }

  /** The number a string of decimal digits stands for. */
  function ParseNat(s: string): nat
    requires forall i :: 0 <= i < |s| ==> '0' <= s[i] <= '9'
  {
    if s == [] then 0 else 10 * ParseNat(s[..|s| - 1]) + (s[|s| - 1] - '0') as nat
  }

  /** Reading back the digits of a number gives the number. */
  lemma {:induction false} ParseNatToString(n: nat)
    ensures ParseNat(NatToString(n)) == n
    decreases n
  {
    if n >= 10 {
      var s := NatToString(n);
      assert s[..|s| - 1] == NatToString(n / 10);
      ParseNatToString(n / 10);
    }
  }

  const InprocScheme: string := "inproc://"
  const TcpPrefix: string := "tcp://*:"

  /** The endpoint a server binds: in-process under its name for port 0, else TCP on every interface at the port. */
  function Url(name: string, port: nat): (r: string)
    ensures port == 0 ==> r == InprocScheme + name
    ensures port != 0 ==> |r| > |TcpPrefix| && r[..|TcpPrefix|] == TcpPrefix
  {
    if port == 0 then InprocScheme + name else TcpPrefix + NatToString(port)
  }

  /**
   * A TCP endpoint names its port and nothing else: the digits after the prefix read
   * back as the port, so the name is ignored and different ports give different endpoints.
   */
  lemma UrlNamesPort(name: string, other: string, port: nat)
    requires port != 0
    ensures var rest := Url(name, port)[|TcpPrefix|..];
      (forall i :: 0 <= i < |rest| ==> '0' <= rest[i] <= '9') && ParseNat(rest) == port
    ensures Url(name, port) == Url(other, port)
  {
    assert Url(name, port)[|TcpPrefix|..] == NatToString(port);
    ParseNatToString(port);
  }

  /** In-process and TCP endpoints never coincide. */
  lemma InprocIsNotTcp(name: string, other: string, port: nat)
    requires port != 0
    ensures Url(name, 0) != Url(other, port)
  {
    assert Url(name, 0)[0] == 'i' && Url(other, port)[0] == 't';
  }

  /** Position of the first required name that has no configuration, or |required|. */
  function MissingIndex(required: seq<string>, configs: map<string, LegacyConfig.Extension>): (k: nat)
    ensures k <= |required|
    ensures forall i :: 0 <= i < k ==> required[i] in configs
    ensures k < |required| ==> required[k] !in configs
  {
    if required == [] then 0
    else if required[0] !in configs then 0
    else 1 + MissingIndex(required[1..], configs)
  }

  /** The extension a server still lacks: the first required name that has no configuration. */
  function FirstMissing(required: seq<string>, configs: map<string, LegacyConfig.Extension>): (r: Option<string>)
    ensures r.None? <==> forall i :: 0 <= i < |required| ==> required[i] in configs
    ensures r.Some? ==> r.value in required && r.value !in configs
    ensures forall j :: 0 <= j < |required| && required[j] !in configs && (forall i :: 0 <= i < j ==> required[i] in configs) ==>
      r == Some(required[j])
  {
    var k := MissingIndex(required, configs);
    if k < |required| then Some(required[k]) else None
  }

  /** Requiring an extension and adding its configuration keeps a server's requirements met. */
  lemma RequireAndAddKeepsMet(required: seq<string>, configs: map<string, LegacyConfig.Extension>, e: LegacyConfig.Extension)
    requires FirstMissing(required, configs).None?
    ensures FirstMissing(required + [e.Url], configs[e.Url := e]).None?
  {
    var after := required + [e.Url];
    assert forall i :: 0 <= i < |after| ==> after[i] in configs[e.Url := e] by {
      forall i | 0 <= i < |after|
        ensures after[i] in configs[e.Url := e]
      {
        if i < |required| {
          assert after[i] == required[i];
        }
      }
    }
  }

  /** The socket a server replies on: what it has sent, and whether sending fails. */
  class Socket {
    var sent: seq<string>
    const fails: bool

    constructor (fails: bool)
      ensures sent == [] && this.fails == fails
    {
      sent := [];
      this.fails := fails;
    }

    method SendMessage(message: string) returns (err: Option<string>)
      modifies this
      ensures err.Some? <==> fails
      ensures sent == if fails then old(sent) else old(sent) + [message]
    {
      if fails {
        err := Some("send failed");
      } else {
        sent := sent + [message];
        err := None;
      }
    }
  }

  /** A server: its socket kind, the extensions it requires and has, and the commands it routes. */
  class Controller {
    const controllerType: HandlerType
    var requiredExtensions: seq<string>
    var extensionConfigs: map<string, LegacyConfig.Extension>
    var routes: set<string>

    constructor (controllerType: HandlerType)
      ensures this.controllerType == controllerType
      ensures requiredExtensions == [] && extensionConfigs == map[] && routes == {}
    {
      this.controllerType := controllerType;
      requiredExtensions := [];
      extensionConfigs := map[];
      routes := {};
    }

    /** Stores an extension's configuration under its URL, replacing an earlier one. */
    method AddExtensionConfig(extension: LegacyConfig.Extension)
      modifies this
      ensures extensionConfigs == old(extensionConfigs)[extension.Url := extension]
      ensures requiredExtensions == old(requiredExtensions) && routes == old(routes)
    {
      extensionConfigs := extensionConfigs[extension.Url := extension];
    }

    /** Marks an extension as required, even when it is already. */
    method RequireExtension(name: string)
      modifies this
      ensures requiredExtensions == old(requiredExtensions) + [name]
      ensures extensionConfigs == old(extensionConfigs) && routes == old(routes)
    {
      requiredExtensions := requiredExtensions + [name];
    }

    function RequiredExtensions(): (r: seq<string>)
      reads this
      ensures r == requiredExtensions
    {
      requiredExtensions
    }

    predicate IsReply()
      reads this
    {
      controllerType == SyncReplierType
    }

    /** Sends a reply on `socket`; a server that does not reply succeeds without sending. */
    method Reply(socket: Socket, message: string) returns (err: Option<string>)
      modifies socket
      ensures !IsReply() ==> err.None? && socket.sent == old(socket.sent)
      ensures IsReply() ==> (err.Some? <==> socket.fails)
      ensures IsReply() && !socket.fails ==> socket.sent == old(socket.sent) + [message]
    {
      if !IsReply() {
        return None;
      }
      err := socket.SendMessage(message);
    }

    /** Adds a route for `command`; a command already routed is left as it is. */
    method AddRoute(command: string) returns (err: Option<string>)
      modifies this
      ensures err.None?
      ensures routes == old(routes) + {command}
      ensures requiredExtensions == old(requiredExtensions) && extensionConfigs == old(extensionConfigs)
    {
      if command in routes {
        return None;
      }
      routes := routes + {command};
      return None;
    }

    /** The first required extension that was not added, if any. */
    function ExtensionsAdded(): (r: Option<string>)
      reads this
      ensures r.None? <==> forall name :: name in requiredExtensions ==> name in extensionConfigs
      ensures r.Some? ==> r.value in requiredExtensions && r.value !in extensionConfigs
      ensures forall j ::
        0 <= j < |requiredExtensions| && requiredExtensions[j] !in extensionConfigs
        && (forall i :: 0 <= i < j ==> requiredExtensions[i] in extensionConfigs)
        ==> r == Some(requiredExtensions[j])
    {
      FirstMissing(requiredExtensions, extensionConfigs)
    }
  }
}
