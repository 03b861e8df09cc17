/** The builder of a TCP port (PortTcpBuilder): the listen address, the
    port number read from the configuration, and the services the port
    needs. */
module PortTcpBuilder {
  import opened Wrappers

  /** Integer configuration values by key (`config.get(key, int.class, default)`). */
  type Config = map<string, int>

  const DEFAULT_PORT_NAME := "server"
  const DEFAULT_PORT := -1

  /** A java.util.concurrent.atomic.AtomicLong. */
  class AtomicLong {
    var value: int

    constructor ()
      ensures value == 0
    {
      value := 0;
    }
  }

  /** The address to bind: none for an unset, "*" or empty address, which
      all mean every interface. */
  function BindAddress(address: Option<string>): (r: Option<string>)
    ensures r.None? <==> address.None? || address.value == "*" || address.value == ""
    ensures r.Some? ==> r == address
  {
    if address.None? || address.value == "*" || address.value == "" then None else address
  }

  /** The configuration key of a port's number. */
  function PortKey(portName: string): (k: string)
    ensures |k| == |portName| + 5 && k[..|portName|] == portName && k[|portName|..] == ".port"
  {
    portName + ".port"
  }

  class PortTcpBuilder<P, M> {
    const env: Config
    var portName: string
    var portDefault: int
    var connSequence: Option<AtomicLong>
    var protocol: Option<P>
    var address: Option<string>
    var ampManager: Option<M>

    /** A builder reading `env`: port name "server", default port -1. */
    constructor (env: Config)
      ensures this.env == env && portName == "server" && portDefault == -1
      ensures connSequence == None && protocol == None && address == None && ampManager == None
    {
      this.env := env;
      portName := DEFAULT_PORT_NAME;
      portDefault := DEFAULT_PORT;
      connSequence := None;
      protocol := None;
      address := None;
      ampManager := None;
    }

    /** address(): the address to bind, if one is given. */
    function Address(): (r: Option<string>)
      reads this
      ensures r == BindAddress(address)
      ensures r.Some? ==> r.value != "*" && r.value != ""
    {
      BindAddress(address)
    }

    /** address(String): stores the address as given, null included. */
    method SetAddress(a: Option<string>)
      modifies this`address
      ensures address == a
    {
      address := a;
    }

    /** port(): the configured "<portName>.port", or the default port. */
    function Port(): (r: int)
      reads this
      ensures PortKey(portName) in env ==> r == env[PortKey(portName)]
      ensures PortKey(portName) !in env ==> r == portDefault
    {
      var key := PortKey(portName);
      if key in env then env[key] else portDefault
    }

    /** portName(String): rejects null; answers the builder. */
    method SetPortName(name: Option<string>) returns (r: Result<PortTcpBuilder<P, M>, Exception>)
      modifies this`portName
      ensures name.None? ==> r == Err(NullPointer) && portName == old(portName)
      ensures name.Some? ==> r == Ok(this) && portName == name.value
    {
      if name.None? {
        return Err(NullPointer);
      }
      portName := name.value;
      r := Ok(this);
    }

    /** portDefault(int): answers the builder. */
    method SetPortDefault(port: int) returns (r: PortTcpBuilder<P, M>)
      modifies this`portDefault
      ensures r == this && portDefault == port
    {
      portDefault := port;
      r := this;
    }

    /** protocol(Protocol): rejects null. */
    method SetProtocol(p: Option<P>) returns (o: Outcome<Exception>)
      modifies this`protocol
      ensures p.None? ==> o == Fail(NullPointer) && protocol == old(protocol)
      ensures p.Some? ==> o == Pass && protocol == p
    {
      if p.None? {
        return Fail(NullPointer);
      }
      protocol := p;
      o := Pass;
    }

    /** ampManager(ServiceManagerAmp): stores the manager, null included. */
    method SetAmpManager(m: Option<M>)
      modifies this`ampManager
      ensures ampManager == m
    {
      ampManager := m;
    }

    /** ampManager(): the manager; NullPointerException when none is set. */
    function AmpManager(): (r: Result<M, Exception>)
      reads this
      ensures ampManager.None? ==> r == Err(NullPointer)
      ensures ampManager.Some? ==> r == Ok(ampManager.value)
    {
      if ampManager.None? then Err(NullPointer) else Ok(ampManager.value)
    }

    /** getConnectionSequence: the builder's counter, or a new counter at 0
        (not kept) when it has none. */
    method GetConnectionSequence() returns (r: AtomicLong)
      ensures connSequence.Some? ==> r == connSequence.value
      ensures connSequence.None? ==> fresh(r) && r.value == 0
    {
      if connSequence.Some? {
        r := connSequence.value;
      } else {
        r := new AtomicLong();
      }
    }
  }

  /** A fresh builder listens on every interface, on the configured
      "server.port" or else -1. */
  method DefaultPort(env: Config) returns (port: int, address: Option<string>)
    ensures "server.port" in env ==> port == env["server.port"]
    ensures "server.port" !in env ==> port == -1
    ensures address.None?
  {
    var b := new PortTcpBuilder<int, int>(env);
    assert PortKey(b.portName) == "server.port";
    port := b.Port();
    address := b.Address();
  }
}
