/**
  `ArcClient`: a short-lived TCP or UDP connection through the tunnel.
  `NewArcClient` picks the dial path from the network name; `Read`, `Write`
  and `Close` pass through to the held connection, whose replies are inputs.
*/
module ArcRaw {
  import opened Wrappers
  import opened GoStrings
  import Tunnel

  /** The context's deadline, when it has one, as its printed form. */
  datatype Context = Context(deadline: Option<string>)

  /**
    Outcomes of the foreign calls `NewArcClient` may make: address resolution
    (the printed TCP address), the TCP dial, the UDP dial (connection
    identities) and `SetDeadline`.
  */
  datatype DialEnv = DialEnv(resolve: Result<string, string>, dialTcp: Result<nat, string>,
                             dialUdp: Result<nat, string>, setDeadline: Option<string>)

  datatype DialStep = ResolveTcp(addr: string) | DialTcp(tcpAddr: string) | Dial(network: string, addr: string)
                    | SetDeadline(deadline: string)

  datatype Dialled = Dialled(network: string, conn: nat)

  /** The tunnel creation, the dial steps taken through it, and the client's fields or the error. */
  datatype Connection = Connection(tunnel: Tunnel.Creation, steps: seq<DialStep>, result: Result<Dialled, string>)

  /** The dial part of `NewArcClient`, once the tunnel exists. */
  function Dialling(ctx: Context, network: string, addr: string, env: DialEnv): (r: (seq<DialStep>, Result<Dialled, string>))
    ensures 1 <= |r.0| <= 2
    ensures network == "tcp" ==> r.0[0] == ResolveTcp(addr)
    ensures network != "tcp" ==> r.0[0] == Dial("udp", addr)
    ensures network == "tcp" ==> forall i :: 0 <= i < |r.0| ==> r.0[i].ResolveTcp? || r.0[i].DialTcp?
    ensures (exists i :: 0 <= i < |r.0| && r.0[i].SetDeadline?) <==>
      network != "tcp" && env.dialUdp.Success? && ctx.deadline.Some?
    ensures r.1.Success? ==> r.1.value.network == network
    ensures network == "tcp" && r.1.Success? ==> env.dialTcp == Success(r.1.value.conn)
    ensures network != "tcp" && r.1.Success? ==> env.dialUdp == Success(r.1.value.conn)
    ensures network == "tcp" ==> (r.1.Success? <==> env.resolve.Success? && env.dialTcp.Success?)
    ensures network != "tcp" ==>
      (r.1.Success? <==> env.dialUdp.Success? && (ctx.deadline.None? || env.setDeadline.None?))
    ensures network == "tcp" && env.resolve.Failure? ==>
      r == ([ResolveTcp(addr)], Failure("failed to resolve TCP address: " + env.resolve.error))
    ensures network == "tcp" && env.resolve.Success? && env.dialTcp.Failure? ==>
      r.1 == Failure("failed to dial " + env.resolve.value + ": " + env.dialTcp.error)
    ensures network != "tcp" && env.dialUdp.Failure? ==>
      r == ([Dial("udp", addr)], Failure("failed to dial " + addr + ": " + env.dialUdp.error))
    ensures network != "tcp" && env.dialUdp.Success? && ctx.deadline.Some? && env.setDeadline.Some? ==>
      r.1 == Failure("failed to specify deadline " + ctx.deadline.value + ": " + env.setDeadline.value)
  {
    if network == "tcp" then
      match env.resolve
      case Failure(e) => ([ResolveTcp(addr)], Failure("failed to resolve TCP address: " + e))
      case Success(tcpAddr) =>
        var steps := [ResolveTcp(addr), DialTcp(tcpAddr)];
        match env.dialTcp
        case Failure(e) => (steps, Failure("failed to dial " + tcpAddr + ": " + e))
        case Success(c) => (steps, Success(Dialled(network, c)))
    else
      match env.dialUdp
      case Failure(e) => ([Dial("udp", addr)], Failure("failed to dial " + addr + ": " + e))
      case Success(c) =>
        match ctx.deadline
        case None => ([Dial("udp", addr)], Success(Dialled(network, c)))
        case Some(d) =>
          var steps := [Dial("udp", addr), SetDeadline(d)];
          assert steps[1].SetDeadline?;
          if env.setDeadline.Some? then
            (steps, Failure("failed to specify deadline " + d + ": " + env.setDeadline.value))
          else
            (steps, Success(Dialled(network, c)))
  }

  /** `NewArcClient`: create the tunnel with wireguard-go's default MTU, then dial. */
  function Connect(ctx: Context, privateKey: string, session: Tunnel.Session, tunnelEnv: Tunnel.Env,
                   network: string, addr: string, env: DialEnv): (c: Connection)
    ensures c.tunnel == Tunnel.Create(privateKey, session, Tunnel.DefaultMtu, tunnelEnv)
    ensures c.tunnel.result.Failure? ==>
      c.steps == [] && c.result == Failure(Tunnel.OpenFailed + c.tunnel.result.error)
    ensures c.tunnel.result.Success? ==> (c.steps, c.result) == Dialling(ctx, network, addr, env)
  {
    var t := Tunnel.Create(privateKey, session, Tunnel.DefaultMtu, tunnelEnv);
    if t.result.Failure? then Connection(t, [], Failure(Tunnel.OpenFailed + t.result.error))
    else
      var (steps, result) := Dialling(ctx, network, addr, env);
      Connection(t, steps, result)
  }

  /** This copy of `createTunnel` ignores any configured MTU and uses 1420. */
  lemma ConnectUsesDefaultMtu(ctx: Context, privateKey: string, session: Tunnel.Session, tunnelEnv: Tunnel.Env,
                              network: string, addr: string, env: DialEnv)
    ensures Connect(ctx, privateKey, session, tunnelEnv, network, addr, env).tunnel.steps[0].params.mtu == 1420
  {
    Tunnel.CreateStackParams(privateKey, session, Tunnel.DefaultMtu, tunnelEnv);
  }

  /** Only the exact name "tcp" resolves; "TCP", "tcp4" or "udp" are all dialled as "udp". */
  lemma OnlyTcpResolves(ctx: Context, network: string, addr: string, env: DialEnv)
    ensures Dialling(ctx, network, addr, env).0[0].ResolveTcp? <==> network == "tcp"
    ensures Dialling(ctx, "TCP", addr, env).0[0] == Dial("udp", addr)
  {
    assert "TCP"[0] != "tcp"[0];
  }

  /** A tcp connection never has a deadline set, whatever the context says. */
  lemma TcpNoDeadline(ctx: Context, addr: string, env: DialEnv)
    ensures forall i :: 0 <= i < |Dialling(ctx, "tcp", addr, env).0| ==> !Dialling(ctx, "tcp", addr, env).0[i].SetDeadline?
  {
  }

  /** The calls made on a connection. */
  datatype ConnCall = ReadCall(bufLen: nat) | WriteCall(data: Bytes) | CloseCall

  /** A `net.Conn`: its identity and the calls made on it so far. */
  class Conn {
    const id: nat
    var calls: seq<ConnCall>

    constructor (id: nat)
      ensures this.id == id && calls == []
    {
      this.id := id;
      calls := [];
    }

    /** One call on the connection; what it returns is foreign and given as `reply`. */
    method Call(c: ConnCall, reply: (nat, Option<string>)) returns (n: nat, err: Option<string>)
      modifies this
      ensures calls == old(calls) + [c] && (n, err) == reply
    {
      calls := calls + [c];
      n, err := reply.0, reply.1;
    }
  }

  class Client {
    const network: string
    const conn: Conn
    var verbose: bool

    constructor (network: string, conn: Conn)
      ensures this.network == network && this.conn == conn && !verbose
    {
      this.network := network;
      this.conn := conn;
      verbose := false;
    }

    /** `Read`: one read into a buffer of `bufLen` bytes; the count and error are the connection's. */
    method Read(bufLen: nat, reply: (nat, Option<string>)) returns (n: nat, err: Option<string>)
      modifies conn
      ensures conn.calls == old(conn.calls) + [ReadCall(bufLen)]
      ensures (n, err) == reply
    {
      n, err := conn.Call(ReadCall(bufLen), reply);
    }

    /**
      `Write`: the body is read whole first; if that fails nothing is written
      and the result is `(0, err)`, otherwise all of it goes out in one write
      and the count and error are the connection's.
    */
    method Write(body: Result<Bytes, string>, reply: (nat, Option<string>)) returns (n: nat, err: Option<string>)
      modifies conn
      ensures body.Failure? ==> conn.calls == old(conn.calls) && n == 0 && err == Some(body.error)
      ensures body.Success? ==> conn.calls == old(conn.calls) + [WriteCall(body.value)] && (n, err) == reply
    {
      if body.Failure? {
        return 0, Some(body.error);
      }
      n, err := conn.Call(WriteCall(body.value), reply);
    }

    /** `Close` closes the connection and nothing else. */
    method Close(reply: Option<string>) returns (err: Option<string>)
      modifies conn
      ensures conn.calls == old(conn.calls) + [CloseCall] && err == reply
    {
      var n;
      n, err := conn.Call(CloseCall, (0, reply));
    }

    method SetVerbose(v: bool)
      modifies this
      ensures verbose == v
    {
      verbose := v;
    }

    function Verbose(): bool
      reads this
    {
      verbose
    }
  }

  /** `NewArcClient`: on success, a client holding the original network name and the dialled connection. */
  method New(ctx: Context, privateKey: string, session: Tunnel.Session, tunnelEnv: Tunnel.Env,
             network: string, addr: string, env: DialEnv)
    returns (r: Result<Client, string>)
    ensures r.Success? <==> Connect(ctx, privateKey, session, tunnelEnv, network, addr, env).result.Success?
    ensures r.Failure? ==> r.error == Connect(ctx, privateKey, session, tunnelEnv, network, addr, env).result.error
    ensures r.Success? ==>
      fresh(r.value) && fresh(r.value.conn) && r.value.conn.calls == [] && !r.value.Verbose()
      && r.value.network == network
      && r.value.conn.id == Connect(ctx, privateKey, session, tunnelEnv, network, addr, env).result.value.conn
  {
    var c := Connect(ctx, privateKey, session, tunnelEnv, network, addr, env);
    if c.result.Failure? {
      return Failure(c.result.error);
    }
    var conn := new Conn(c.result.value.conn);
    var client := new Client(c.result.value.network, conn);
    return Success(client);
  }
}
