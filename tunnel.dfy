/**
  The tunnel record and `createTunnel`: the stack is created with the fixed
  DNS servers and the given MTU, the device is configured with a four-line
  `key=value` text and brought up, and a resolver that always dials the
  first DNS server is attached. The virtual network stack and the VPN device
  are foreign; the outcome of each of their calls is an input (`Env`).
*/
module Tunnel {
  import opened Wrappers
  import opened GoStrings

  const PrimaryDns := "100.127.0.53"
  const SecondaryDns := "100.127.1.53"
  /** Where the resolver sends every lookup. */
  const ResolverAddress := "100.127.0.53:53"
  const AllowedIp := "0.0.0.0/0"
  const StackFailed := "failed to create a tunnel: "
  const ConfigureFailed := "failed to configure device: "
  const SetupFailed := "failed to setup device: "
  /** The prefix every client constructor puts before a `createTunnel` error. */
  const OpenFailed := "failed to create tunnel: "
  /** wireguard-go's `device.DefaultMTU`. */
  const DefaultMtu: nat := 1420

  datatype Endpoint = Endpoint(ip: string, port: nat)

  /** The peer session: the local tunnel address, the server's public key (hex) and endpoint. */
  datatype Session = Session(clientPeerIp: string, serverPublicKey: string, serverEndpoint: Endpoint)

  /**
    The configuration text handed to `IpcSet`: each of the four lines
    followed by a newline. `privateKey` is already hex-encoded.
  */
  function ConfigText(privateKey: string, s: Session): (text: string)
    ensures text == Join(ConfigLines(privateKey, s) + [""], '\n')
  {
    var ls := ConfigLines(privateKey, s) + [""];
    assert Join(ls[4..], '\n') == "";
    assert Join(ls[3..], '\n') == ls[3] + "\n";
    assert Join(ls[2..], '\n') == ls[2] + "\n" + ls[3] + "\n";
    assert Join(ls[1..], '\n') == ls[1] + "\n" + ls[2] + "\n" + ls[3] + "\n";
    "private_key=" + privateKey + "\n"
    + "public_key=" + s.serverPublicKey + "\n"
    + "endpoint=" + s.serverEndpoint.ip + ":" + Decimal(s.serverEndpoint.port) + "\n"
    + "allowed_ip=" + AllowedIp + "\n"
  }

  /** The four lines of the configuration text, without their newlines. */
  function ConfigLines(privateKey: string, s: Session): seq<string>
  {
    ["private_key=" + privateKey,
     "public_key=" + s.serverPublicKey,
     "endpoint=" + s.serverEndpoint.ip + ":" + Decimal(s.serverEndpoint.port),
     "allowed_ip=" + AllowedIp]
  }

  /** The key and value of a `key=value` line, split at the first `=`. */
  function KeyValue(line: string): (string, string)
  {
    var (key, value, _) := Cut(line, '=');
    (key, value)
  }

  /** The non-empty lines of a configuration text, read as `key=value` pairs. */
  function ParseConfig(text: string): seq<(string, string)>
  {
    ParseLines(Split(text, '\n'))
  }

  function ParseLines(lines: seq<string>): seq<(string, string)>
  {
    if lines == [] then []
    else if lines[0] == "" then ParseLines(lines[1..])
    else [KeyValue(lines[0])] + ParseLines(lines[1..])
  }

  /**
    The configuration text is exactly four newline-terminated lines, in the
    order private key, public key, endpoint, allowed IP.
  */
  lemma {:induction false} ConfigTextLines(privateKey: string, s: Session)
    requires '\n' !in privateKey && '\n' !in s.serverPublicKey && '\n' !in s.serverEndpoint.ip
    ensures Split(ConfigText(privateKey, s), '\n') == ConfigLines(privateKey, s) + [""]
  {
    var ls := ConfigLines(privateKey, s) + [""];
    DecimalOnlyDigits(s.serverEndpoint.port, '\n');
    assert "allowed_ip=" + AllowedIp == "allowed_ip=0.0.0.0/0";
    forall i | 0 <= i < |ls| ensures '\n' !in ls[i] {
      if i == 0 {
        assert ls[0] == "private_key=" + privateKey;
      } else if i == 1 {
        assert ls[1] == "public_key=" + s.serverPublicKey;
      } else if i == 2 {
        assert ls[2] == "endpoint=" + s.serverEndpoint.ip + ":" + Decimal(s.serverEndpoint.port);
      }
    }
    SplitJoin(ls, '\n');
  }

  /** Read back as `key=value` pairs, the configuration text gives its four entries. */
  lemma {:induction false} ConfigTextRoundTrip(privateKey: string, s: Session)
    requires '\n' !in privateKey && '\n' !in s.serverPublicKey && '\n' !in s.serverEndpoint.ip
    ensures ParseConfig(ConfigText(privateKey, s)) ==
      [("private_key", privateKey),
       ("public_key", s.serverPublicKey),
       ("endpoint", s.serverEndpoint.ip + ":" + Decimal(s.serverEndpoint.port)),
       ("allowed_ip", AllowedIp)]
  {
    ConfigTextLines(privateKey, s);
    var ls := ConfigLines(privateKey, s) + [""];
    var endpoint := s.serverEndpoint.ip + ":" + Decimal(s.serverEndpoint.port);
    CutAt("private_key", privateKey, '=');
    assert ls[0] == "private_key" + "=" + privateKey;
    CutAt("public_key", s.serverPublicKey, '=');
    assert ls[1] == "public_key" + "=" + s.serverPublicKey;
    CutAt("endpoint", endpoint, '=');
    assert ls[2] == "endpoint" + "=" + endpoint;
    CutAt("allowed_ip", AllowedIp, '=');
    assert ls[3] == "allowed_ip" + "=" + AllowedIp;
    assert ls[4..] == [""];
    assert ParseLines(ls[4..]) == [];
    assert ParseLines(ls[3..]) == [KeyValue(ls[3])];
    assert ParseLines(ls[2..]) == [KeyValue(ls[2]), KeyValue(ls[3])];
    assert ParseLines(ls[1..]) == [KeyValue(ls[1]), KeyValue(ls[2]), KeyValue(ls[3])];
  }

  /** The arguments of `netstack.CreateNetTUN`. */
  datatype StackParams = StackParams(localAddresses: seq<string>, dnsServers: seq<string>, mtu: nat)

  /** The calls `createTunnel` makes into the foreign stack and device, in order. */
  datatype Step = CreateNetTun(params: StackParams) | NewDevice | IpcSet(config: string) | Up

  /** Identities of the foreign tun device and network stack. */
  datatype Stack = Stack(tun: nat, net: nat)

  /** What each foreign call returns: the stack or an error, the device, and the errors of `IpcSet` and `Up`. */
  datatype Env = Env(netTun: Result<Stack, string>, device: nat, ipcSet: Option<string>, up: Option<string>)

  /** Identities of the device, tun device and network stack of a created tunnel. */
  datatype Handles = Handles(device: nat, tun: nat, net: nat)

  datatype Creation = Creation(steps: seq<Step>, result: Result<Handles, string>)

  /** Every step `createTunnel` takes when all of them succeed. */
  function AllSteps(privateKey: string, s: Session, mtu: nat): seq<Step>
  {
    [CreateNetTun(StackParams([s.clientPeerIp], [PrimaryDns, SecondaryDns], mtu)),
     NewDevice,
     IpcSet(ConfigText(privateKey, s)),
     Up]
  }

  /** `createTunnel`: stack creation, then `IpcSet`, then `Up`; the first failure ends it. */
  function Create(privateKey: string, s: Session, mtu: nat, env: Env): (c: Creation)
    ensures 1 <= |c.steps| && c.steps <= AllSteps(privateKey, s, mtu)
    ensures c.result.Success? ==> c.steps == AllSteps(privateKey, s, mtu)
    ensures c.result.Success? <==> env.netTun.Success? && env.ipcSet.None? && env.up.None?
    ensures env.netTun.Failure? ==>
      |c.steps| == 1 && c.result == Failure(StackFailed + env.netTun.error)
    ensures env.netTun.Success? && env.ipcSet.Some? ==>
      |c.steps| == 3 && c.result == Failure(ConfigureFailed + env.ipcSet.value)
    ensures env.netTun.Success? && env.ipcSet.None? && env.up.Some? ==>
      c.steps == AllSteps(privateKey, s, mtu) && c.result == Failure(SetupFailed + env.up.value)
    ensures c.result.Success? ==>
      c.result.value == Handles(env.device, env.netTun.value.tun, env.netTun.value.net)
  {
    var all := AllSteps(privateKey, s, mtu);
    match env.netTun
    case Failure(e) => Creation(all[..1], Failure(StackFailed + e))
    case Success(stack) =>
      if env.ipcSet.Some? then
        Creation(all[..3], Failure(ConfigureFailed + env.ipcSet.value))
      else if env.up.Some? then
        Creation(all, Failure(SetupFailed + env.up.value))
      else
        Creation(all, Success(Handles(env.device, stack.tun, stack.net)))
  }

  /** `createTunnel` followed by building the tunnel record from what it created. */
  method Open(privateKey: string, s: Session, mtu: nat, env: Env) returns (r: Result<Tunnel, string>)
    ensures r.Success? <==> Create(privateKey, s, mtu, env).result.Success?
    ensures r.Failure? ==> r.error == Create(privateKey, s, mtu, env).result.error
    ensures r.Success? ==>
      fresh(r.value) && r.value.deviceCloses == []
      && r.value.State() == Opened(Create(privateKey, s, mtu, env).result.value)
  {
    var c := Create(privateKey, s, mtu, env);
    if c.result.Failure? {
      return Failure(c.result.error);
    }
    var t := new Tunnel(c.result.value);
    return Success(t);
  }

  /** A stack is created with the local address, both fixed DNS servers and the MTU given. */
  lemma CreateStackParams(privateKey: string, s: Session, mtu: nat, env: Env)
    ensures Create(privateKey, s, mtu, env).steps[0] ==
      CreateNetTun(StackParams([s.clientPeerIp], ["100.127.0.53", "100.127.1.53"], mtu))
  {
  }

  /** A dial request handed to a network stack. */
  datatype DialCall = DialCall(net: nat, network: string, address: string)

  /** The resolver: pure-Go lookups dialled through the tunnel's stack. */
  datatype Resolver = Resolver(preferGo: bool, net: nat)

  /** The resolver's dial ignores the requested address and always uses the first DNS server. */
  function ResolverDial(r: Resolver, network: string, address: string): (d: DialCall)
    ensures d.address == ResolverAddress && d.network == network && d.net == r.net
  {
    DialCall(r.net, network, "100.127.0.53:53")
  }

  /** The fields of a tunnel record; `None` is Go's nil. */
  datatype Record = Record(device: Option<nat>, tun: Option<nat>, net: Option<nat>, resolver: Resolver)

  /** A freshly created tunnel record: dials and lookups both go to the created stack. */
  function Opened(h: Handles): (r: Record)
    ensures r.device == Some(h.device) && r.tun == Some(h.tun)
    ensures forall network, address :: DialVia(r, network, address) == Some(DialCall(h.net, network, address))
    ensures forall network, address ::
      ResolverDial(r.resolver, network, address) == DialCall(h.net, network, ResolverAddress)
    ensures r.resolver.preferGo
  {
    Record(Some(h.device), Some(h.tun), Some(h.net), Resolver(true, h.net))
  }

  /** The record after `Close`: device, net and tun cleared, resolver kept. */
  function Closed(s: Record): (c: Record)
    ensures c.device.None? && c.tun.None? && c.net.None?
    ensures c.resolver == s.resolver
  {
    s.(device := None, tun := None, net := None)
  }

  /** The devices that `Close` closes: the record's device, when it has one. */
  function DevicesClosed(s: Record): (ds: seq<nat>)
    ensures |ds| <= 1
    ensures ds == [] <==> s.device.None?
  {
    if s.device.Some? then [s.device.value] else []
  }

  /** A second `Close` changes nothing and closes no device again. */
  lemma CloseIdempotent(s: Record)
    ensures Closed(Closed(s)) == Closed(s)
    ensures DevicesClosed(Closed(s)) == []
  {
  }

  /** `DialContext` forwards to the record's stack; with the stack cleared there is none to dial. */
  function DialVia(s: Record, network: string, address: string): (d: Option<DialCall>)
    ensures d.Some? <==> s.net.Some?
    ensures d.Some? ==> d.value == DialCall(s.net.value, network, address)
  {
    if s.net.Some? then Some(DialCall(s.net.value, network, address)) else None
  }

  /** After `Close`, `DialContext` reaches no stack. */
  lemma DialAfterClose(s: Record, network: string, address: string)
    ensures DialVia(Closed(s), network, address).None?
  {
  }

  /**
    The resolver holds the stack it was built on, not the record's field, so
    after `Close` it still dials that stack while `DialContext` dials none.
  */
  lemma ResolverSurvivesClose(h: Handles, network: string, address: string)
    ensures ResolverDial(Closed(Opened(h)).resolver, network, address) == DialCall(h.net, network, ResolverAddress)
    ensures DialVia(Closed(Opened(h)), network, address).None?
  {
  }

  class Tunnel {
    var device: Option<nat>
    var tun: Option<nat>
    var net: Option<nat>
    const resolver: Resolver
    /** The devices whose `Close` has been called, in order. */
    var deviceCloses: seq<nat>

    function State(): Record
      reads this
    {
      Record(device, tun, net, resolver)
    }

    constructor (h: Handles)
      ensures State() == Opened(h) && deviceCloses == []
    {
      device, tun, net := Some(h.device), Some(h.tun), Some(h.net);
      resolver := Resolver(true, h.net);
      deviceCloses := [];
    }

    /** `Close`: close the device if there is one, clear the record, and report no error. */
    method Close() returns (err: Option<string>)
      modifies this
      ensures err == None
      ensures State() == Closed(old(State()))
      ensures deviceCloses == old(deviceCloses) + DevicesClosed(old(State()))
    {
      if device.Some? {
        deviceCloses := deviceCloses + [device.value];
      }
      device, net, tun := None, None, None;
      return None;
    }

    method DialContext(network: string, address: string) returns (d: Option<DialCall>)
      ensures d == DialVia(State(), network, address)
    {
      if net.Some? {
        return Some(DialCall(net.value, network, address));
      }
      return None;
    }
  }
}
