/*
 * The event-loop engine (timer heap, readiness multiplexer, vectored I/O)
 * lives in a file this model does not contain. Every call the binding makes
 * into it, into the operating system, or into the PHP exception machinery is
 * recorded here as an Action, so that the binding's decisions can be stated
 * as the sequence of actions it issues.
 */
module Engine {

  /** Defaults defined in none of the files modelled here; their values are a parameter. */
  datatype EngineDefaults = EngineDefaults(
    vectorCount: nat,        // DEFAULT_VECTOR_COUNT
    readvOffset: nat,        // DEFAULT_READV_OFFSET
    maxTcpConnections: nat)  // PHP_MRLOOP_MAX_TCP_CONNECTIONS

  datatype Action =
    | Stop                                                    // mr_stop
    | Flush                                                   // mr_flush
    | EngineClose(fd: int)                                    // mr_close
    | Writev(fd: int, data: string, count: nat)               // mr_writev
    | Readv(fd: int, nbytes: nat, vcount: nat, offset: nat)   // mr_readvcb on a fresh iov of nbytes
    | ListenTcp(port: int, maxConnections: nat)               // mr_tcp_server
    | OsClose(fd: int)                                        // close(2)
    | Throw(message: string)                                  // zend_throw_exception
}
