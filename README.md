# php-mrloop binding layer, modelled in Dafny

php-mrloop exposes the mrloop event-loop engine to PHP as the class
`ringphp\Mrloop`. This project models the binding's own logic in `src/loop.c`
and the constants, types and macros it relies on in `src/loop.h`.

The engine (`mrloop.c`) and the HTTP parser (`picohttpparser.c`) are not part of
this model. Every call the binding makes into the engine, into the operating
system or into PHP's exception machinery is recorded as an `Engine.Action`. The
result of calling a user's PHP callback is an input (`CallOutcome`): either the
call failed, or it returned an integer, a string or some other value.

Modules:

- `LoopHeader` (`loop_header.dfy`) covers `src/loop.h`. It holds the default sizes (8192, 65536, 100), the timer-kind codes 1, 2 and 3, the three-slot signal table size, the callable wrapping of `PHP_CB_TO_MRLOOP_CB`, and the `(size_t)` and `(int)` casts of PHP integers.
- `Engine` (`engine.dfy`) holds the vocabulary of engine, OS and exception actions. It also holds three defaults (vector count, read offset, TCP connection ceiling) that are defined in none of the files modelled here; their values are a parameter.
- `CString` (`cstring.dfy`) covers `php_strncpy`. It is a method over `array<char>`, proved against the specification function `StrNCopied`.
- `Timers` (`timers.dfy`) covers `php_mrloop_timer_cb`, the decision to re-arm a timer, stop the loop, or release the callback record. It also holds lemmas about a timer's successive firings.
- `Signals` (`signals.dfy`) covers the `sig_cb`/`sigc` table as a class over a three-slot array. `AddSignal` appends; `Dispatch` is the first-match scan, specified by the function `FirstMatch`.
- `Streams` (`streams.dfy`) covers `PHP_STREAM_TO_FD`, argument defaulting, and the action sequence of `php_mrloop_add_read_stream`.
- `TcpServer` (`tcp_server.dfy`) covers `php_mrloop_tcp_server_listen`, `php_mrloop_tcp_client_setup` and `php_mrloop_tcp_server_recv`. These act on a class holding the module globals `tcp_cb` and `tcp_buff_size`, which all servers share, together with the table of live connections and logs of engine actions and user calls.

Behaviour of the code worth knowing:

- A second registration for an already-registered signal is stored, not rejected. Dispatch runs the first one.
- Every registration installs the handler for SIGINT, SIGHUP and SIGTERM, whatever signal number was given.
- A failure to set `O_NONBLOCK` stops the loop.
- A second `listen` replaces the callback for every later receive, on the connections of every server started before it too, and the buffer size for every connection set up after it; connections already open keep their buffers.

## Model

| member | source | states |
|---|---|---|
| LoopHeader.Code | src/loop.h:29-31 | one-shot, periodic and future-tick timers are tagged 1, 2 and 3 |
| LoopHeader.KindOf | src/loop.h:29-31 | exactly the codes 1 to 3 denote a kind, and each denotes the kind tagged with it |
| LoopHeader.CodeRoundTrip | src/loop.h:29-31 | a kind is recovered from its code, so the three codes are distinct |
| LoopHeader.WrapCallable | src/loop.h:170-177 | wrapping adds one reference to a counted function name, and one to the bound object only when there is one; nothing else changes |
| LoopHeader.ToSizeT | src/loop.c:355 | the (size_t) cast keeps non-negative PHP integers and wraps negative ones modulo 2^64 |
| LoopHeader.ToCInt | src/loop.c:365 | the (int) cast, of a PHP integer or of a size_t, keeps values in 32-bit range and otherwise truncates modulo 2^32 |
| CString.CLen | src/loop.c:604-608 | the length of a C string is the index of its first NUL |
| CString.StrNCopied | src/loop.c:589-603 | the copy keeps the destination's length and terminates it when n > 0; no byte after the terminator changes, and none at all when n is 0 |
| CString.StrNCopyWritesAtMostN | src/loop.c:590-603 | no byte at index n or beyond is written |
| CString.StrNCopyResult | src/loop.c:589-603 | the destination's string is the source's string cut to at most n - 1 characters |
| CString.StrNCopyTruncation | src/loop.c:599-608 | the returned length is at least n exactly when the copy was truncated |
| CString.StrNCopy | src/loop.c:584-609 | the in-place copy leaves dst as StrNCopied describes and returns the source's length, truncated or not |
| Timers.TimerCallbackResult | src/loop.c:70-106 | the timer is re-armed only when it is periodic and its callback succeeded without returning integer 0; a failure stops the loop and raises; corrected (see Findings) so that the record is released exactly when the timer is not re-armed |
| Timers.TimerCallbackAsWritten | src/loop.c:94-105 | as written, the callback record is released on every path, including the one returning 1 |
| Timers.PeriodicRearmedAfterRelease | src/loop.c:102-105 | as written, every periodic timer whose callback succeeds without returning integer 0 is re-armed with its record already released |
| Timers.NoRearmAfterFailure | src/loop.c:82-91 | after a failed callback, no kind of timer is re-armed, and the loop is stopped |
| Timers.Firings | src/loop.c:94-105 | a timer's callback runs at most once per firing offered, and at least once if any is offered |
| Timers.FiresOnce | src/loop.c:105 | one-shot timers and future ticks run exactly once |
| Timers.PeriodicRunsUntilCancelled | src/loop.c:93-105 | a periodic timer is re-armed after every firing but the last; when it stops early, its last callback failed or returned 0 |
| Timers.FailureIsLastFiring | src/loop.c:82-91 | a failed callback is the timer's last firing and stops the loop |
| Timers.ReleasedOnlyAtLastFiring | src/loop.c:84-105 | the callback record is released only on the timer's last firing |
| Signals.Scanned | src/loop.c:375-380 | the scan visits used slots up to the first empty one |
| Signals.FirstMatch | src/loop.c:375-401 | dispatch picks the first used slot, in insertion order, bound to the signal; no earlier slot is bound to it; with no match, no scanned slot is bound to it |
| Signals.LaterDuplicateNeverRun | src/loop.c:384-399 | a later registration for a signal that is already registered is never run |
| Signals.FirstMatchAppend | src/loop.c:416-421 | after one more registration, a signal that was already registered is dispatched as before; an unregistered signal goes to the new slot when the slot is bound to it |
| Signals.SignalTable.constructor | src/loop.h:97-99 | the table starts with three empty slots and a count of 0 |
| Signals.SignalTable.Registered | src/loop.h:97-99 | the used slots are the first sigc slots, and a scan visits all of them |
| Signals.SignalTable.AddSignal | src/loop.c:405-428 | sigc grows by one; the wrapped callable, tagged with the signal, goes into slot old sigc; earlier slots are unchanged; handlers are installed for SIGINT, SIGHUP and SIGTERM |
| Signals.SignalTable.Dispatch | src/loop.c:373-404 | the callback run is FirstMatch's; a failed call raises; the process exits with status 0 whether or not a match was found |
| Streams.StreamToFd | src/loop.h:180-196 | a failed cast or a negative descriptor returns null; otherwise the descriptor (the untouched -1 for a resource that is not a stream) goes on, with the OS error exactly when O_NONBLOCK could not be set, which is always the case for a negative descriptor |
| Streams.ConversionActions | src/loop.h:180-196 | returning null raises "Passed resource without file descriptor"; a failed O_NONBLOCK closes the descriptor, raises the OS error and stops the loop |
| Streams.ReadDefaults | src/loop.c:465-467 | a null nbytes becomes 8192, and a null vcount or offset becomes `DEFAULT_VECTOR_COUNT` or `DEFAULT_READV_OFFSET`; given values are used as (size_t) |
| Streams.AddReadStreamAsWritten | src/loop.c:460-479 | as written, a read is registered whenever the macro does not return null, even after O_NONBLOCK failed |
| Streams.ReadRegisteredOnClosedDescriptor | src/loop.c:463-478 | as written, whenever O_NONBLOCK fails the descriptor is closed, the loop stopped, and then the same descriptor is registered for reading |
| Streams.NonStreamReadOnMinusOne | src/loop.c:450-478 | as written, a resource that is not a stream has -1 closed and then registered for reading |
| Streams.AddReadStream | src/loop.c:430-482 | corrected (see Findings): a read is registered exactly when the stream's cast gave a descriptor that is not negative and O_NONBLOCK was set, on that descriptor, with the defaulted arguments, and then flushed; otherwise only the macro's actions happen |
| Streams.NoReadOnClosedDescriptor | src/loop.c:463-479 | a registered read is never accompanied by a close, a stop or an exception |
| TcpServer.ConnBufferSize | src/loop.c:355 | a null buffer size becomes 65536; a given one is used as (size_t) |
| TcpServer.MaxConnections | src/loop.c:362 | a null or zero ceiling becomes `PHP_MRLOOP_MAX_TCP_CONNECTIONS`, so it is never zero when that default is not; other values are used as (size_t) |
| TcpServer.PeerCopy | src/loop.c:270-278 | the peer address is held in a terminated 16-byte buffer, as the reported text cut to at most 15 characters, with the port as reported |
| TcpServer.Info | src/loop.c:297-303 | the user gets the stored address string, the port, and the duplicated descriptor |
| TcpServer.RecvActions | src/loop.c:287-328 | a zero-byte receive closes the descriptor and nothing else; a failed call raises and does nothing else; a string result is written in full on the connection's descriptor and flushed; any other result issues no action; the loop is never stopped |
| TcpServer.RecvTextAsWritten | src/loop.c:298 | as written, the user gets the connection buffer up to its first NUL, whatever was received; with no NUL in the buffer, strlen reads past its end |
| TcpServer.StaleTailDelivered | src/loop.c:298 | as written, a receive with no NUL whose next buffer byte is not NUL reaches the user, when a terminator exists at all, as a longer text that starts with the data received |
| TcpServer.StaleTailExample | src/loop.c:298 | as written, "abcdef" and then "xy" on an 8-byte buffer give the user "xycdef" |
| TcpServer.FullReceiveOverruns | src/loop.c:264-298 | as written, a receive that fills the buffer with non-NUL bytes leaves no terminator |
| TcpServer.RecvText | src/loop.c:298 | corrected (see Findings): the text of a receive is its bytes, as long as the count received, from the front of the buffer |
| TcpServer.RecvTextIsData | src/loop.c:298 | corrected: the user gets exactly the data of this receive, whatever the buffer held before |
| TcpServer.TcpState.constructor | src/loop.h:93-99 | the globals start with no TCP callback, a buffer size of 0 and no connections |
| TcpServer.TcpState.Listen | src/loop.c:330-371 | the global buffer size and callback are replaced by this call's defaulted size and wrapped callback, for all servers; the engine's server starts on the (int) port with the defaulted ceiling; connections are untouched |
| TcpServer.TcpState.ClientSetup | src/loop.c:255-281 | a new connection gets a zeroed buffer of the current global size and the peer copy; the size reported through the int pointer is that size cut to 32 bits |
| TcpServer.TcpState.Recv | src/loop.c:282-329 | the received bytes overwrite the front of the connection's buffer; a zero-byte receive removes the connection without calling the user; otherwise the current global callback is called once, corrected (see Findings) to get exactly the bytes received, and a string result becomes the connection's response vector; every path returns 1 |

## Findings

| source | as written | input that shows it | evidently intended | confidence | as-written member | corrected member |
|---|---|---|---|---|---|---|
| src/loop.c:102-105 | `efree(cb)` runs before `return 1` for a periodic timer, so the engine re-arms a timer whose callback record is freed; the next firing reads freed memory | a periodic timer whose callback returns anything but integer 0 | release the record only when the timer will not fire again | high; not executed | Timers.TimerCallbackAsWritten | Timers.TimerCallbackResult |
| src/loop.h:191-196 | when O_NONBLOCK cannot be set, the macro closes the descriptor, raises and stops the loop, but does not return; `add_read_stream` then registers a read on the closed descriptor | a resource that is not a stream: the descriptor stays -1, `fcntl(-1, …)` fails, `close(-1)` runs and a read is registered on -1; likewise any stream whose `F_SETFL` fails | end the call after the failure, as the null-return branch does | high; not executed | Streams.AddReadStreamAsWritten | Streams.AddReadStream |
| src/loop.c:298 | `ZVAL_STRING` takes the connection buffer up to its first NUL and ignores `nbytes`; the buffer is never cleared by the binding, so a short receive after a longer one carries the longer one's tail | "abcdef" and then "xy" on an 8-byte buffer: the user gets "xycdef" | pass exactly the `nbytes` bytes received (`ZVAL_STRINGL(&args[0], buffer, nbytes)`) | medium (assumes the engine does not clear the buffer, which is not visible); not executed | TcpServer.RecvTextAsWritten | TcpServer.RecvText |
| src/loop.c:264-298 | the buffer has exactly `tcp_buff_size` bytes, so a receive that fills it leaves no NUL and `strlen` reads past its end | a receive of `tcp_buff_size` non-NUL bytes | as in the row above, use the byte count and not a terminator | medium (assumes the engine may fill the whole buffer); not executed | TcpServer.RecvTextAsWritten | TcpServer.RecvText |

## Left out

- The engine and the HTTP parser: `mrloop.c` and `picohttpparser.c` are not part of this model. Engine calls are logged as actions, and their effect (timers, readiness, vectored I/O) is not modelled. The re-arm meaning of the timer callback's return value (1 re-arms, 0 drops) is assumed, not checked.
- `php_mrloop_parse_http_request` and `php_mrloop_parse_http_response` are declared in `src/loop.h` but not defined in `src/loop.c`. They depend on the parser.
- `php_mrloop_create`, `php_mrloop_stop`, `php_mrloop_run` and `php_mrloop_free_object` only call into the engine or Zend. They hold no logic to model.
- `php_mrloop_add_timer`, `php_mrloop_add_periodic_timer` and `php_mrloop_add_future_tick` are modelled only by the kind tag they store (`LoopHeader.Code`). Their floating-point interval handling (`interval * 1000` against the raw `interval`) is left out, because the engine's time unit is not visible.
- `php_mrloop_readv_cb` and `php_mrloop_writev_cb` are left out. Their known defects are documented here: both go on after raising for a negative result, and `readv_cb` copies `iov_len + 1` bytes into a buffer of `iov_len` bytes.
- `php_mrloop_add_write_stream` and `php_mrloop_writev` are left out. They repeat the descriptor conversion already modelled in `Streams.StreamToFd`, with their own write paths. A known defect of `add_write_stream` is documented here: it allocates `nbytes` bytes and then calls `php_strncpy` with `nbytes + 1` (src/loop.c:517-520), so the terminator is written at index `nbytes`, one past the end.
- Zend runtime calls (`zend_call_function`, zval construction, `emalloc`/`efree`, exceptions) are left out. A callback is an input outcome, and a raised exception is an action.
- LoopHeader.WrapCallable: reference counts are modelled as values carried by the callable, not as counters shared on PHP's heap.
- OS calls (`getpeername`, `inet_ntop`, `dup`, `close`, `fcntl`, `signal`, `exit`) are left out. Their results are parameters: the peer, the duplicated descriptor, whether `O_NONBLOCK` was set, and the error text. Asynchronous signal delivery is not modelled.
- Signals.SignalTable.Dispatch: ending the process is stated as an exit status of 0, not as termination.
- Signals.SignalTable.AddSignal: requires `sigc < 3`, because the source writes past the table on a fourth registration.
- Timers.TimerCallbackResult: on a failed call the source frees the record and then reads its loop pointer (src/loop.c:84-85). This is modelled as stopping the loop that owns the callback.
- TcpServer.TcpState.Recv: the engine's read into the buffer is modelled by its result, the received bytes; a negative `nbytes` (an engine error report, if the engine passes one) is not modelled, since the engine is not visible. The engine loop used for the close and the write is the one stored with the latest `listen` (src/loop.c:285, :360); actions carry no loop, so that is not modelled. The response string's memory is released right after the write is issued (src/loop.c:326), and that lifetime is not modelled.
- TcpServer.TcpState.ClientSetup: when `getpeername` fails, the record, which comes from `emalloc` (src/loop.c:262), keeps an unset `addr` and `port`. The source then frees that `addr` on close (src/loop.c:290) and reads it as a string on receive (src/loop.c:301); the model records the entries as absent (`None`) and does not capture those reads of an unset pointer. The port is the raw `sin_port` value, in network byte order.
- TcpServer.TcpState.Listen: each call allocates a new callback record and drops the previous one without releasing it; that memory is not modelled.
- `src/loop.h:63` declares the connection buffer as a fixed 65536-byte array, but `src/loop.c:264` stores a buffer of the configured size there. The model follows `src/loop.c`. The global `tcp_buff_size` is not declared in the header's globals.
- `#ifdef MRLOOP_H` (src/loop.c:364-368): the model follows the engine version that takes a connection ceiling.
- The values of `DEFAULT_VECTOR_COUNT`, `DEFAULT_READV_OFFSET` and `PHP_MRLOOP_MAX_TCP_CONNECTIONS` are defined in none of the files modelled here (`src/loop.c`, `src/loop.h`, `php_mrloop.c`, `php_mrloop.h`). Their values are a parameter (`Engine.EngineDefaults`).
