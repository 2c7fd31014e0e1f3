/*
 * The TCP server side of the binding: php_mrloop_tcp_server_listen (argument
 * defaulting and the engine call), php_mrloop_tcp_client_setup (per-connection
 * state) and php_mrloop_tcp_server_recv (one receive on a connection). The
 * live connections form a table keyed by the connection record's handle; the
 * engine calls, the user-callback calls and the exceptions are logs.
 */
module TcpServer {
  import opened LoopHeader
  import opened Engine
  import opened CString

  /** Size of the textual IPv4 address buffer (INET_ADDRSTRLEN). */
  const InetAddrStrLen: nat := 16

  /** What getpeername and inet_ntop report: the address text and the raw sin_port. */
  datatype Peer = Peer(ip: string, port: nat)

  /** The connection record's copy of the peer: its 16-byte address buffer and port. */
  datatype PeerInfo = PeerInfo(addr: string, port: nat)

  /** A connection record: descriptor, peer (None if getpeername failed), receive buffer, response vector. */
  datatype Connection = Connection(fd: int, peer: Option<PeerInfo>, buffer: string, iov: string)

  /** The client_addr, client_port and client_fd entries handed to the user callback. */
  datatype ClientInfo = ClientInfo(clientAddr: Option<string>, clientPort: Option<nat>, clientFd: int)

  /** One call of a user callback: the callable run, the received text and the client information. */
  datatype TcpCall = TcpCall(callback: Callable, data: string, info: ClientInfo)

  /**
   * The per-connection buffer size: a null argument takes the 65536-byte
   * default, any given value is used after the (size_t) cast.
   */
  function ConnBufferSize(nbytes: Option<ZendLong>): (r: nat)
    ensures nbytes.None? ==> r == 65536
    ensures nbytes.Some? && 0 <= nbytes.value ==> r == nbytes.value
    ensures nbytes.Some? && nbytes.value < 0 ==> r == nbytes.value + Two64
  {
    if nbytes.None? then DefaultConnBuffLen else ToSizeT(nbytes.value)
  }

  /**
   * The connection ceiling passed to the engine: a null or zero argument
   * takes PHP_MRLOOP_MAX_TCP_CONNECTIONS, any other value is used after the
   * (size_t) cast; so the ceiling is never zero when that default is not.
   */
  function MaxConnections(maxConn: Option<ZendLong>, engineMax: nat): (r: nat)
    ensures maxConn.None? || maxConn.value == 0 ==> r == engineMax
    ensures maxConn.Some? && 0 < maxConn.value ==> r == maxConn.value
    ensures maxConn.Some? && maxConn.value < 0 ==> r == maxConn.value + Two64
    ensures engineMax > 0 ==> r > 0
  {
    if maxConn.None? then engineMax
    else if maxConn.value == 0 then engineMax
    else ToSizeT(maxConn.value)
  }

  /** n zero bytes, as ecalloc returns them. */
  function Zeros(n: nat): (z: string)
    ensures |z| == n && forall i :: 0 <= i < n ==> z[i] == '\0'
  {
    seq(n, _ => '\0')
  }

  /**
   * The connection record's peer copy: the address text is copied into a
   * zeroed 16-byte buffer with php_strncpy, so it is terminated and holds the
   * reported address cut to at most 15 characters.
   */
  function PeerCopy(peer: Option<Peer>): (r: Option<PeerInfo>)
    requires peer.Some? ==> '\0' in peer.value.ip
    ensures r.Some? <==> peer.Some?
    ensures r.Some? ==> r.value.port == peer.value.port
    ensures r.Some? ==> |r.value.addr| == InetAddrStrLen && '\0' in r.value.addr
    ensures r.Some? ==> CStr(r.value.addr) == CStr(peer.value.ip)[..Min(InetAddrStrLen - 1, |CStr(peer.value.ip)|)]
  {
    match peer
    case None => None
    case Some(p) =>
      StrNCopyResult(Zeros(InetAddrStrLen), p.ip, InetAddrStrLen);
      Some(PeerInfo(StrNCopied(Zeros(InetAddrStrLen), p.ip, InetAddrStrLen), p.port))
  }

  /** A connection record as setup leaves it and receive keeps it. */
  predicate ConnectionValid(c: Connection)
  {
    c.peer.Some? ==> |c.peer.value.addr| == InetAddrStrLen && '\0' in c.peer.value.addr
  }

  /** The client information for a call: the peer's address string and port, and a duplicate of the descriptor. */
  function Info(c: Connection, dupFd: int): (i: ClientInfo)
    requires c.peer.Some? ==> '\0' in c.peer.value.addr
    ensures i.clientAddr.Some? <==> c.peer.Some?
    ensures i.clientAddr.Some? ==> '\0' !in i.clientAddr.value && i.clientAddr.value + ['\0'] <= c.peer.value.addr
    ensures i.clientPort == (if c.peer.Some? then Some(c.peer.value.port) else None)
    ensures i.clientFd == dupFd
  {
    match c.peer
    case None => ClientInfo(None, None, dupFd)
    case Some(p) => ClientInfo(Some(CStr(p.addr)), Some(p.port), dupFd)
  }

  /** True when the actions write a response. */
  predicate WritesResponse(acts: seq<Action>)
  {
    exists i :: 0 <= i < |acts| && acts[i].Writev?
  }

  /**
   * The engine actions and exceptions of one receive on connection c: a
   * zero-byte receive closes the descriptor and nothing else; otherwise a
   * failed callback raises, a string result is written back in full on the
   * connection's descriptor and flushed, and any other result does nothing.
   */
  function RecvActions(c: Connection, nbytes: int, outcome: CallOutcome): (acts: seq<Action>)
    ensures EngineClose(c.fd) in acts <==> nbytes == 0
    ensures nbytes == 0 ==> acts == [EngineClose(c.fd)]
    ensures WritesResponse(acts) <==> nbytes != 0 && outcome.Returned? && outcome.value.Str?
    ensures WritesResponse(acts) ==> acts == [Writev(c.fd, outcome.value.s, 1), Flush]
    ensures Throw(CallbackErrorMessage) in acts <==> nbytes != 0 && outcome.CallFailed?
    ensures nbytes != 0 && outcome.CallFailed? ==> acts == [Throw(CallbackErrorMessage)]
    ensures nbytes != 0 && outcome.Returned? && !outcome.value.Str? ==> acts == []
    ensures Stop !in acts
  {
    if nbytes == 0 then [EngineClose(c.fd)]
    else match outcome
      case CallFailed => [Throw(CallbackErrorMessage)]
      case Returned(v) =>
        if v.Str? then
          var acts := [Writev(c.fd, v.s, 1), Flush];
          assert acts[0].Writev?;
          acts
        else []
  }

  /**
   * The connection's buffer after the engine has read data into its front:
   * the rest keeps what earlier receives left there.
   */
  function ReadInto(buffer: string, data: string): (b: string)
    requires |data| <= |buffer|
    ensures |b| == |buffer|
    ensures forall i :: 0 <= i < |data| ==> b[i] == data[i]
    ensures forall i :: |data| <= i < |buffer| ==> b[i] == buffer[i]
  {
    data + buffer[|data|..]
  }

  /**
   * The text handed to the user as written (ZVAL_STRING on the buffer): the
   * buffer up to its first NUL, whatever the number of bytes received; None
   * when the buffer holds no NUL, where strlen reads past its end.
   */
  function RecvTextAsWritten(buffer: string): (t: Option<string>)
    ensures t.Some? <==> '\0' in buffer
    ensures t.Some? ==> '\0' !in t.value && t.value + ['\0'] <= buffer
  {
    if '\0' in buffer then Some(CStr(buffer)) else None
  }

  /**
   * A shorter receive after a longer one: when the byte after the new data
   * is not NUL, the user gets more than was received, the earlier tail.
   */
  lemma StaleTailDelivered(buffer: string, data: string)
    requires |data| < |buffer| && '\0' !in data && buffer[|data|] != '\0'
    ensures var t := RecvTextAsWritten(ReadInto(buffer, data));
            t.None? || (|t.value| > |data| && data <= t.value)
  {
    var b := ReadInto(buffer, data);
    if '\0' in b {
      assert b[..|data|] == data;
    }
  }

  /** "abcdef" and then "xy" on an 8-byte buffer: the user gets "xycdef". */
  lemma StaleTailExample()
    ensures RecvTextAsWritten(ReadInto(ReadInto(Zeros(8), "abcdef"), "xy")) == Some("xycdef")
  {
    var b := ReadInto(ReadInto(Zeros(8), "abcdef"), "xy");
    assert b == "xycdef\0\0";
    CLenAt(b, 6);
    assert b[..6] == "xycdef";
  }

  /** A receive that fills the whole buffer with non-NUL bytes leaves no terminator for strlen. */
  lemma FullReceiveOverruns(buffer: string, data: string)
    requires |data| == |buffer| && '\0' !in data
    ensures RecvTextAsWritten(ReadInto(buffer, data)).None?
  {
    assert ReadInto(buffer, data) == data;
  }

  /** The text of one receive: the bytes received, not the buffer up to a NUL. */
  function RecvText(buffer: string, nbytes: nat): (t: string)
    requires nbytes <= |buffer|
    ensures |t| == nbytes && t <= buffer
  {
    buffer[..nbytes]
  }

  /** The user gets exactly the data of this receive, whatever the buffer held before. */
  lemma {:induction false} RecvTextIsData(buffer: string, data: string)
    requires |data| <= |buffer|
    ensures RecvText(ReadInto(buffer, data), |data|) == data
  {
    var b := ReadInto(buffer, data);
    assert forall i :: 0 <= i < |data| ==> RecvText(b, |data|)[i] == data[i];
  }

  /**
   * The module globals the TCP server uses (tcp_cb and tcp_buff_size), with
   * the table of live connection records and the logs. There is one of each
   * for all servers: a later listen replaces the callback for every later
   * receive, on earlier servers' connections too, and the buffer size for
   * every connection set up after it; open connections keep their buffers.
   */
  class TcpState {
    /** MRLOOP_G(tcp_cb): the wrapped user callback of the latest listen, null before any. */
    var tcpCb: Option<Callable>
    /** MRLOOP_G(tcp_buff_size): the buffer size of the latest listen. */
    var tcpBuffSize: nat
    /** Live connection records, by handle. */
    var conns: map<nat, Connection>
    /** Calls issued to the engine, the OS and the exception machinery. */
    var actions: seq<Action>
    /** Calls of the user callbacks. */
    var calls: seq<TcpCall>

    ghost predicate Valid()
      reads this
    {
      forall h :: h in conns ==> ConnectionValid(conns[h])
    }

    /** The module globals as zero-initialised: no callback, size 0, no connections. */
    constructor ()
      ensures Valid() && tcpCb == None && tcpBuffSize == 0
      ensures conns == map[] && actions == [] && calls == []
    {
      tcpCb := None;
      tcpBuffSize := 0;
      conns := map[];
      actions := [];
      calls := [];
    }

    /**
     * php_mrloop_tcp_server_listen: default the buffer size and store it,
     * wrap the callback and store it, default the connection ceiling, and
     * start the engine's server on the (int) port.
     */
    method Listen(portArg: ZendLong, maxConn: Option<ZendLong>, nbytes: Option<ZendLong>,
                  cb: Callable, defaults: EngineDefaults)
      requires Valid()
      modifies this
      ensures Valid()
      ensures tcpBuffSize == ConnBufferSize(nbytes) && tcpCb == Some(WrapCallable(cb))
      ensures conns == old(conns) && calls == old(calls)
      ensures actions == old(actions) + [ListenTcp(ToCInt(portArg), MaxConnections(maxConn, defaults.maxTcpConnections))]
    {
      tcpBuffSize := ConnBufferSize(nbytes);
      tcpCb := Some(WrapCallable(cb));
      var nconn := MaxConnections(maxConn, defaults.maxTcpConnections);
      actions := actions + [ListenTcp(ToCInt(portArg), nconn)];
    }

    /**
     * php_mrloop_tcp_client_setup for a new connection on fd: a zeroed
     * receive buffer of the current global size, and the peer address copied
     * into a zeroed 16-byte buffer when getpeername succeeded. Returns the
     * buffer size as stored through the int pointer the engine passes.
     */
    method ClientSetup(h: nat, fd: int, peer: Option<Peer>) returns (bsize: int)
      requires Valid() && h !in conns
      requires peer.Some? ==> '\0' in peer.value.ip
      modifies this
      ensures Valid() && bsize == ToCInt(tcpBuffSize)
      ensures conns == old(conns)[h := Connection(fd, PeerCopy(peer), Zeros(tcpBuffSize), [])]
      ensures tcpCb == old(tcpCb) && tcpBuffSize == old(tcpBuffSize)
      ensures actions == old(actions) && calls == old(calls)
    {
      var info: Option<PeerInfo> := None;
      if peer.Some? {
        var ip := peer.value.ip;
        var ipStr := new char[|ip|](i requires 0 <= i < |ip| => ip[i]);
        var addr := new char[InetAddrStrLen](_ => '\0');
        assert ipStr[..] == ip;
        assert addr[..] == Zeros(InetAddrStrLen);
        var _ := StrNCopy(addr, ipStr, InetAddrStrLen);
        info := Some(PeerInfo(addr[..], peer.value.port));
      }
      conns := conns[h := Connection(fd, info, Zeros(tcpBuffSize), [])];
      bsize := ToCInt(tcpBuffSize);
    }

    /**
     * php_mrloop_tcp_server_recv: the engine read data into connection h's
     * buffer. Zero bytes close and free the connection without calling the
     * user; otherwise the current global callback is called with the bytes
     * received and the client information (dupFd is what dup(2) returned,
     * outcome what the call yielded), and a string result becomes the
     * connection's response vector and is written. Every path returns 1.
     */
    method Recv(h: nat, data: string, dupFd: int, outcome: CallOutcome) returns (r: int)
      requires Valid() && h in conns && tcpCb.Some?
      requires |data| <= |conns[h].buffer|
      modifies this
      ensures Valid() && r == 1
      ensures tcpCb == old(tcpCb) && tcpBuffSize == old(tcpBuffSize)
      ensures actions == old(actions) + RecvActions(old(conns)[h], |data|, outcome)
      ensures |data| == 0 ==> conns == old(conns) - {h} && calls == old(calls)
      ensures |data| != 0 ==> calls == old(calls) + [TcpCall(tcpCb.value, data, Info(old(conns)[h], dupFd))]
      ensures |data| != 0 ==>
                var received := old(conns)[h].(buffer := ReadInto(old(conns)[h].buffer, data));
                conns == old(conns)[h := if outcome.Returned? && outcome.value.Str?
                                         then received.(iov := outcome.value.s)
                                         else received]
    {
      var client := conns[h];
      if |data| == 0 {
        actions := actions + [EngineClose(client.fd)];
        conns := conns - {h};
        return 1;
      }
      client := client.(buffer := ReadInto(client.buffer, data));
      conns := conns[h := client];
      RecvTextIsData(old(conns)[h].buffer, data);
      var text := RecvText(client.buffer, |data|);
      calls := calls + [TcpCall(tcpCb.value, text, Info(client, dupFd))];
      if outcome.CallFailed? {
        actions := actions + [Throw(CallbackErrorMessage)];
        return 1;
      }
      if outcome.value.Str? {
        client := client.(iov := outcome.value.s);
        conns := conns[h := client];
        actions := actions + [Writev(client.fd, client.iov, 1), Flush];
      }
      return 1;
    }
  }
}
