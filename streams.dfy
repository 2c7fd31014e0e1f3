/*
 * PHP_STREAM_TO_FD and php_mrloop_add_read_stream: turning a PHP stream
 * resource into a non-blocking descriptor, defaulting the read arguments,
 * and registering a vectored read with the engine. The resource lookup, the
 * stream cast and fcntl(2) are inputs; what the binding then does is the
 * sequence of actions it issues.
 */
module Streams {
  import opened LoopHeader
  import opened Engine

  /** Message of the exception raised for a resource that yields no descriptor. */
  const NoDescriptorMessage: string := "Passed resource without file descriptor"

  /**
   * What the resource lookup and the cast produced: the resource is not a
   * stream (the lookup returned null), the cast failed, or it gave fd.
   */
  datatype StreamCast = NotAStream | CastFailed | Cast(fd: int)

  /**
   * The macro's outcome: either it returns null from the calling method, or
   * the caller goes on with fd; in that case, when O_NONBLOCK could not be
   * set, fd has been closed, the OS error raised and the loop stopped.
   */
  datatype FdConversion = ReturnsNull | Continues(fd: int, nonblockError: Option<string>)

  /**
   * PHP_STREAM_TO_FD. fd0 is the caller's initial descriptor (-1), kept when
   * the resource is not a stream; nonblockOk is whether fcntl sets O_NONBLOCK
   * on a descriptor that is not negative, and osError the text of its errno.
   * fcntl always fails on a negative descriptor, so a resource that is not a
   * stream always ends in the O_NONBLOCK failure.
   */
  function StreamToFd(fd0: int, cast: StreamCast, nonblockOk: bool, osError: string): (r: FdConversion)
    ensures r.ReturnsNull? <==> cast.CastFailed? || (cast.Cast? && cast.fd < 0)
    ensures r.Continues? ==> r.fd == (if cast.Cast? then cast.fd else fd0)
    ensures r.Continues? ==> (r.nonblockError.None? <==> nonblockOk && 0 <= r.fd)
    ensures r.Continues? && r.nonblockError.Some? ==> r.nonblockError.value == osError
  {
    if cast.CastFailed? || (cast.Cast? && cast.fd < 0) then ReturnsNull
    else
      var fd := if cast.Cast? then cast.fd else fd0;
      Continues(fd, if nonblockOk && 0 <= fd then None else Some(osError))
  }

  /** The actions the macro itself issues. */
  function ConversionActions(c: FdConversion): (acts: seq<Action>)
    ensures c.ReturnsNull? ==> acts == [Throw(NoDescriptorMessage)]
    ensures c.Continues? && c.nonblockError.None? ==> acts == []
    ensures c.Continues? && c.nonblockError.Some? ==>
              acts == [OsClose(c.fd), Throw(c.nonblockError.value), Stop]
  {
    match c
    case ReturnsNull => [Throw(NoDescriptorMessage)]
    case Continues(fd, err) =>
      match err
      case None => []
      case Some(msg) => [OsClose(fd), Throw(msg), Stop]
  }

  /** The read arguments after defaulting. */
  datatype ReadArgs = ReadArgs(nbytes: nat, vcount: nat, offset: nat)

  /**
   * A null nbytes, vcount or offset takes its default: the stream buffer
   * length, and DEFAULT_VECTOR_COUNT and DEFAULT_READV_OFFSET. Any given value
   * is used after the (size_t) cast.
   */
  function ReadDefaults(nbytes: Option<ZendLong>, vcount: Option<ZendLong>, offset: Option<ZendLong>,
                        defaults: EngineDefaults): (a: ReadArgs)
    ensures nbytes.None? ==> a.nbytes == 8192
    ensures vcount.None? ==> a.vcount == defaults.vectorCount
    ensures offset.None? ==> a.offset == defaults.readvOffset
    ensures nbytes.Some? && 0 <= nbytes.value ==> a.nbytes == nbytes.value
    ensures vcount.Some? && 0 <= vcount.value ==> a.vcount == vcount.value
    ensures offset.Some? && 0 <= offset.value ==> a.offset == offset.value
    ensures nbytes.Some? && nbytes.value < 0 ==> a.nbytes == nbytes.value + Two64
    ensures vcount.Some? && vcount.value < 0 ==> a.vcount == vcount.value + Two64
    ensures offset.Some? && offset.value < 0 ==> a.offset == offset.value + Two64
  {
    ReadArgs(
      if nbytes.None? then DefaultStreamBuffLen else ToSizeT(nbytes.value),
      if vcount.None? then defaults.vectorCount else ToSizeT(vcount.value),
      if offset.None? then defaults.readvOffset else ToSizeT(offset.value))
  }

  /** True when the actions register a read with the engine. */
  predicate RegistersRead(acts: seq<Action>)
  {
    exists i :: 0 <= i < |acts| && acts[i].Readv?
  }

  /**
   * php_mrloop_add_read_stream as written: the macro raises on a failed
   * O_NONBLOCK but does not return, so the read is still registered on the
   * descriptor it has just closed.
   */
  function AddReadStreamAsWritten(cast: StreamCast, nonblockOk: bool, osError: string,
                                  nbytes: Option<ZendLong>, vcount: Option<ZendLong>, offset: Option<ZendLong>,
                                  defaults: EngineDefaults): (acts: seq<Action>)
    ensures RegistersRead(acts) <==> StreamToFd(-1, cast, nonblockOk, osError).Continues?
  {
    var c := StreamToFd(-1, cast, nonblockOk, osError);
    match c
    case ReturnsNull => ConversionActions(c)
    case Continues(fd, _) =>
      var a := ReadDefaults(nbytes, vcount, offset, defaults);
      var acts := ConversionActions(c) + [Readv(fd, a.nbytes, a.vcount, a.offset), Flush];
      assert acts[|acts| - 2].Readv?;
      acts
  }

  /** Whenever O_NONBLOCK fails, the descriptor is closed and then registered for reading. */
  lemma ReadRegisteredOnClosedDescriptor(cast: StreamCast, nonblockOk: bool, osError: string,
                                         nbytes: Option<ZendLong>, vcount: Option<ZendLong>, offset: Option<ZendLong>,
                                         defaults: EngineDefaults)
    requires StreamToFd(-1, cast, nonblockOk, osError).Continues?
    requires StreamToFd(-1, cast, nonblockOk, osError).nonblockError.Some?
    ensures var fd := StreamToFd(-1, cast, nonblockOk, osError).fd;
            var acts := AddReadStreamAsWritten(cast, nonblockOk, osError, nbytes, vcount, offset, defaults);
            |acts| == 5 && acts[0] == OsClose(fd) && acts[2] == Stop && acts[3].Readv? && acts[3].fd == fd
  {
  }

  /**
   * A resource that is not a stream keeps the descriptor -1: as written, -1
   * is closed and then registered for reading, whatever fcntl would do.
   */
  lemma NonStreamReadOnMinusOne(nonblockOk: bool, osError: string,
                                nbytes: Option<ZendLong>, vcount: Option<ZendLong>, offset: Option<ZendLong>,
                                defaults: EngineDefaults)
    ensures var acts := AddReadStreamAsWritten(NotAStream, nonblockOk, osError, nbytes, vcount, offset, defaults);
            |acts| == 5 && acts[0] == OsClose(-1) && acts[3].Readv? && acts[3].fd == -1
  {
  }

  /**
   * php_mrloop_add_read_stream with the failure of O_NONBLOCK ending the
   * call, as for a resource without a descriptor: a read is registered only
   * for a stream whose cast gave a descriptor that is not negative and was
   * made non-blocking, and then with the defaulted arguments, followed by a
   * flush.
   */
  function AddReadStream(cast: StreamCast, nonblockOk: bool, osError: string,
                         nbytes: Option<ZendLong>, vcount: Option<ZendLong>, offset: Option<ZendLong>,
                         defaults: EngineDefaults): (acts: seq<Action>)
    ensures var c := StreamToFd(-1, cast, nonblockOk, osError);
      && (RegistersRead(acts) <==> cast.Cast? && 0 <= cast.fd && nonblockOk)
      && (RegistersRead(acts) ==> c.Continues? && c.fd == cast.fd && 0 <= c.fd)
      && (RegistersRead(acts) ==>
            var a := ReadDefaults(nbytes, vcount, offset, defaults);
            acts == [Readv(c.fd, a.nbytes, a.vcount, a.offset), Flush])
      && (!RegistersRead(acts) ==> acts == ConversionActions(c))
  {
    var c := StreamToFd(-1, cast, nonblockOk, osError);
    match c
    case ReturnsNull => ConversionActions(c)
    case Continues(fd, err) =>
      if err.Some? then ConversionActions(c)
      else
        var a := ReadDefaults(nbytes, vcount, offset, defaults);
        var acts := [Readv(fd, a.nbytes, a.vcount, a.offset), Flush];
        assert acts[0].Readv?;
        acts
  }

  /** The corrected call never registers a descriptor it closed, and never registers after stopping the loop. */
  lemma NoReadOnClosedDescriptor(cast: StreamCast, nonblockOk: bool, osError: string,
                                 nbytes: Option<ZendLong>, vcount: Option<ZendLong>, offset: Option<ZendLong>,
                                 defaults: EngineDefaults, i: nat, j: nat)
    requires var acts := AddReadStream(cast, nonblockOk, osError, nbytes, vcount, offset, defaults);
             i < |acts| && j < |acts| && acts[i].Readv?
    ensures var acts := AddReadStream(cast, nonblockOk, osError, nbytes, vcount, offset, defaults);
            !acts[j].OsClose? && !acts[j].Stop? && !acts[j].Throw?
  {
    var acts := AddReadStream(cast, nonblockOk, osError, nbytes, vcount, offset, defaults);
    assert RegistersRead(acts);
  }
}
