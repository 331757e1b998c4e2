# go-redis, modelled in Dafny

go-redis is a small Redis-compatible server written in Go. A client sends commands over
TCP in the Redis Serialization Protocol (RESP2). The server keeps typed entries in an
in-memory key-value store: strings with an optional expiry, lists, and streams of entries
with `ms-seq` ids. A connection can also queue commands between MULTI and EXEC.

This project models the three parts that hold the server's logic.

- `resp.dfy` (module `Resp`) is the RESP2 codec of `resp/resp.go`.
  - The decoder is the class `Reader`, a cursor over the client's bytes. It reads them byte
    by byte and fills arrays in a loop.
  - Each method of `Reader` is proved to agree with `Parse`, a pure parser over the input
    and an offset.
  - The encoder `Respond` is a pure function.
  - `RoundTrip` proves that `Read` gives back what `Respond` wrote.
- `store.dfy` (module `Store`) is `store/kvstore.go`.
  - It has one pure function per operation on the map (`SetOp`, `GetOp` and so on), plus
    the lemmas about them.
  - The class `KeyValueStore` has one method per Go method. Each updates its `data` field
    as Go updates `kv.data`, loops included, and is proved to agree with the function.
  - `streams.dfy` (module `Streams`) holds the pure stream-id helpers of the same Go file.
- `server.dfy` (module `Server`) is one turn of the loop in `HandleConnection`
  (`server/server.go`).
  - `Transition` is the pure specification of a turn: frame, session and store in; new
    session, new store and reply out.
  - The class `Connection` holds the loop's variables, `inTransaction` and
    `queuedCommands`. `Connection.Step` runs a turn as the Go code does, with its argument
    loops, the SET and XREAD option loops and EXEC's replay loop. It is proved to agree
    with `Transition`.
  - The lemmas state the transaction machine, the EXEC replay, INCR, the SET options and
    the XREAD argument split.
- `text.dfy` (module `Text`) holds the pieces of Go's `strconv` and `strings` packages
  that the code uses.
- `wrappers.dfy` holds the `Option` and `Result` types.

Design choices:
- **Bytes:** a byte is a `char`, and integers are unbounded.
- **Time:** `now` is a parameter, in milliseconds.
- **Run-time panics:** where the Go code would panic, the model gives an explicit outcome
  instead of excluding the input with a precondition.
  - `ReadError.NegativeLength` is `make` with length -1.
  - `Outcome.Panic` is an index out of range in the handler, such as PX without a value or
    the `result[1]` of BLPOP. It carries the replies written before the panic.
  - `Option.None` in the stream helpers is `compareStreamIDs` reading an id without a `-`.
- **Map iteration order:** XRANGE and XREAD build their replies by ranging over Go maps,
  in an order Go leaves open. The model specifies these replies by their contents
  (`Renders`, `EntryRendered`, `StreamsRendered`). Any enumeration order is allowed.

## Model

| member | source | states |
|---|---|---|
| Resp.LineAtMeaning | resp/resp.go:19-25 | `readLine` fails with EOF exactly when no `\n` follows. Otherwise it returns the bytes up to and including the first `\n`, with one final `\r\n` removed; a bare `\n` stays. |
| Resp.Reader.ReadLine | resp/resp.go:19-25 | The `ReadString('\n')` loop advances the cursor as `LineAt` says and returns its line or error. |
| Resp.Reader.ReadByte | resp/resp.go:28-31 | It returns the next byte and advances by one, or returns EOF at the end of input. |
| Resp.Reader.Read | resp/resp.go:27-86 | `Read` returns the value `Parse` specifies and leaves the cursor just past it, or returns the same error. |
| Resp.ParseMarker | resp/resp.go:33-82 | Markers `+ - : $ *` select a simple string, an error, an integer, a bulk string or an array. |
| Resp.UnknownMarker | resp/resp.go:83-85 | Any other first byte is the "unknown RESP type" error, carrying that byte. |
| Resp.Reader.ReadSimple | resp/resp.go:34-39 | A simple string or error is the rest of the line. |
| Resp.Reader.ReadInteger | resp/resp.go:40-43 | An integer is the line passed through `strconv.Atoi`. The error of an unfinished line is replaced by the Atoi error for "". |
| Resp.Reader.ReadLength | resp/resp.go:45-54 | A length line that is not an integer is an error. A negative length is the `make` panic. |
| Resp.Reader.ReadFull | resp/resp.go:55-58 | `io.ReadFull` takes exactly `n` bytes, whatever they are. It reports EOF with none left and an unexpected EOF with some but not `n`. |
| Resp.Reader.ReadBulk | resp/resp.go:44-63 | A bulk string is its length, exactly that many bytes, then the rest of that line discarded. |
| Resp.BulkParse | resp/resp.go:44-63 | The bulk value is the `length` bytes after the length line, whatever they contain. The parse ends after the next line. |
| Resp.BadLength | resp/resp.go:49-52 | A CRLF-terminated length line `strconv.Atoi` refuses gives the parse error and no value, for both bulk strings and arrays. |
| Resp.BareNewlineLength | resp/resp.go:45-52 | A length line ended by a bare `\n` keeps the `\n`, so `Atoi` refuses it whatever precedes it, for both bulk strings and arrays. |
| Resp.Reader.ReadArray | resp/resp.go:64-82 | An array is its length, then that many values read in order. |
| Resp.Reader.ReadElements | resp/resp.go:74-81 | The element loop reads `length` values in order. The first error aborts the array with that error. |
| Resp.ArrayParse | resp/resp.go:64-82 | An array is built from exactly the elements parsed after its length line. |
| Resp.Reader.constructor | resp/resp.go:15-17 | `NewResp` starts with nothing consumed. |
| Resp.RespondOther | resp/resp.go:117-119 | A value whose `Type` tag is none of the six the code knows writes nothing and returns an error. |
| Resp.RespondAllOk | resp/resp.go:102-113 | An array's elements are written without error exactly when each element is. |
| Resp.RoundTrip | resp/resp.go:27-119 | For strings and errors without `\n`, integers, bulk strings and arrays of these, `Read` on `Respond`'s bytes (followed by anything) returns the same value and consumes exactly those bytes. |
| Resp.RoundTripAt | resp/resp.go:27-119 | The same round trip, for the bytes found at any offset of the input. |
| Resp.NilNotReadBack | resp/resp.go:114-116 | Nil is written as `$-1\r\n`. `Read` refuses it with the negative-length panic of `make`. |
| Resp.NegativeLengthAt | resp/resp.go:54 | A length line that `Atoi` reads as a negative number, in any spelling such as `-01`, is refused for both bulk strings and arrays before anything after it is read. |
| Text.AtoiItoa | store/kvstore.go:226 | `strconv.Atoi` reads back what `strconv.Itoa` / `%d` writes. |
| Text.AtoiSyntax | store/kvstore.go:236-237 | `Atoi` accepts exactly an optional sign followed by at least one digit. |
| Text.ToUpper | server/server.go:37 | `strings.ToUpper` keeps the length and upper-cases each ASCII letter. |
| Text.Split | store/kvstore.go:231 | `strings.Split` never returns an empty list, and no piece contains the separator. |
| Text.JoinSplit | store/kvstore.go:231 | Joining the pieces of `Split` with the separator gives back the string. |
| Text.SplitHasSeparator | store/kvstore.go:232 | `Split` gives two or more pieces exactly when the separator occurs. |
| Streams.ParseIdDefined | store/kvstore.go:255-262 | Reading the numbers of an id panics exactly when it has no `-`. Otherwise both numbers are non-negative. |
| Streams.ValidIdParses | store/kvstore.go:230-238 | An id that `validateStreamID` accepts has its numbers read exactly. |
| Streams.FormatIdParses | store/kvstore.go:214-226 | An id the code formats is valid and reads back as the numbers written. |
| Streams.CompareIds | store/kvstore.go:263-273 | The comparison is 0 exactly on equal ids, negative exactly when the first id is less by `(ms, seq)` order, and positive exactly when it is greater. |
| Streams.CompareStreamIDsMeaning | store/kvstore.go:255-273 | `compareStreamIDs` panics exactly when an id has no `-`. Otherwise it orders by `(ms, seq)` and gives 0 exactly on equal numbers. |
| Streams.InRangeInclusive | store/kvstore.go:276-281 | For readable bounds, `inRange` is the closed interval, with `-` and `+` meaning no bound. |
| Streams.InRangePanics | store/kvstore.go:276-281 | `inRange` panics on an unreadable lower bound. It panics on an unreadable upper bound only when the lower-bound test passed, because `&&` short-circuits. |
| Streams.GeneratedId | store/kvstore.go:212-227 | `*` mints `now-0` for an empty stream. Otherwise it mints `ms-(seq+1)` when the last id has the current millisecond, and `now-0` when it does not. The minted id is valid, and it is above the last id when `now >= last ms`. |
| Streams.MatchingSelects | store/kvstore.go:174-181 | Every entry a filter selects passes its test and comes from the stream. |
| Streams.ScanIsCappedFilter | store/kvstore.go:174-181 | When no test panics, the scan loop gives the first `count` matching entries in stream order, or all of them when `count <= 0`. |
| Streams.FromPanics | store/kvstore.go:196-203 | XREAD's test panics on a start id without `-` when the stream is not empty. It never panics on a start id with `-`. |
| Store.KeyValueStore.constructor | store/kvstore.go:16-20 | The new store is empty. |
| Store.KeyValueStore.SET | store/kvstore.go:22-26 | The key's record is replaced by `SetOp`. The store invariant `Valid()` holds again afterwards. |
| Store.SetReplaces | store/kvstore.go:22-26 | SET keeps the value and expiration, leaves the type tag `""` and drops any list or stream. TYPE then gives `""`. No other key changes. |
| Store.GetOp | store/kvstore.go:28-43 | GET finds the key exactly when it is present and not expired, and then returns its `Value` whatever its type. An expired key is deleted. Otherwise the map is unchanged. |
| Store.KeyValueStore.GET | store/kvstore.go:28-43 | The method returns what `GetOp` gives, including the delete of an expired key. The store invariant `Valid()` holds again afterwards. |
| Store.GetAfterSet | store/kvstore.go:22-43 | A GET after a SET finds the value written unless its expiry has passed. |
| Store.LPushOp | store/kvstore.go:46-59 | The list becomes `elements ++ old list`, starting from an empty one for a key holding no list. The result is the new length. No other key changes. |
| Store.KeyValueStore.LPUSH | store/kvstore.go:46-59 | The prepend loop leaves the map and the returned length as `LPushOp` says. The store invariant `Valid()` holds again afterwards. |
| Store.Prepend | store/kvstore.go:54-56 | The loop that puts each element in front of the list, the last one first, returns the elements followed by the old list. |
| Store.KeyValueStore.LRANGE | store/kvstore.go:62-86 | The normalise, clamp and slice code returns the window `LRangeOp` specifies and changes nothing. |
| Store.WindowSlice | store/kvstore.go:76-85 | After clamping to `[0, len-1]`, the window is the inclusive slice. It is empty when `start > end` or `start >= len`. |
| Store.LRangeAll | store/kvstore.go:62-86 | `LRANGE key 0 -1` is the whole list. |
| Store.KeyValueStore.LLEN | store/kvstore.go:89-97 | LLEN is the length of the key's list, 0 when the key holds none. |
| Store.LPopOp | store/kvstore.go:100-111 | LPOP finds a value exactly when the list is non-empty. It returns the head and stores the tail, and an emptied list stays stored. Otherwise nothing changes. |
| Store.KeyValueStore.LPOP | store/kvstore.go:100-111 | The method returns and stores what `LPopOp` gives. The store invariant `Valid()` holds again afterwards. |
| Store.LPopAfterLPush | store/kvstore.go:46-111 | LPOP undoes an LPUSH of one element. |
| Store.BLPopOp | store/kvstore.go:114-127 | BLPOP pops from the first key, in argument order, that holds a non-empty list, and returns a one-element list. With no such key nothing changes and every key's list is empty. |
| Store.KeyValueStore.BLPOP | store/kvstore.go:114-127 | The key loop returns and stores what `BLPopOp` gives. The store invariant `Valid()` holds again afterwards. |
| Store.KeyValueStore.TYPE | store/kvstore.go:130-138 | TYPE is the type tag, or `"none"` for an absent key. |
| Store.KeyValueStore.XADD | store/kvstore.go:141-163 | The method returns and stores what `XAddOp` gives. The store invariant `Valid()` holds again afterwards. |
| Store.XAddErrors | store/kvstore.go:149-158 | An explicit id is refused exactly when it is malformed (invalid-id error) or not above the last id (too-small error). A refusal changes nothing. |
| Store.XAddAppends | store/kvstore.go:144-162 | A successful XADD appends one entry, with the returned id, to the key's stream (a fresh stream if the key held none). No other key changes. |
| Store.XAddIncreasing | store/kvstore.go:141-227 | XADD keeps a stream's ids strictly increasing, unless it is asked to mint an id after the clock went back behind the last id's ms. |
| Store.KeyValueStore.XRANGE | store/kvstore.go:166-183 | The method returns the `inRange` scan of the key's stream. |
| Store.XRangeMeaning | store/kvstore.go:166-183 | For readable bounds, XRANGE gives the first `count` entries in stream order (all of them when `count <= 0`) whose ids lie in the closed range. |
| Store.KeyValueStore.XREAD | store/kvstore.go:186-209 | The key loop, run in any order, gives `XReadOp`. |
| Store.XReadMeaning | store/kvstore.go:186-209 | XREAD panics exactly when a start id without `-` meets a non-empty stream. Otherwise it maps exactly the keys with hits to their first `count` entries with id `>=` the start id. |
| Store.ScanEntries | store/kvstore.go:174-181 | The entry loop appends the matching entries and stops at `count`, as `Scan` says. |
| Store.SimpleOpsKeepWellFormed | store/kvstore.go:22-111 | SET, GET, LPUSH and LPOP keep every stored stream id readable. |
| Store.BLPopKeepsWellFormed | store/kvstore.go:114-127 | BLPOP keeps every stored stream id readable. |
| Store.XAddKeepsWellFormed | store/kvstore.go:141-163 | XADD only stores ids with a `-`. |
| Server.CommandNames | server/server.go:48-409 | Each `case` of the switch is selected by its own name. |
| Server.CommandNamesExact | server/server.go:48-409 | No other name selects a case. |
| Server.Connection.constructor | server/server.go:21-22 | A connection starts outside a transaction with an empty queue. |
| Server.Connection.Step | server/server.go:36-413 | One frame changes the session and the store as `Transition` says, and the reply written renders its reply. |
| Server.Connection.Execute | server/server.go:48-345 | The switch cases other than MULTI, EXEC and DISCARD run as `Run` says. |
| Server.Connection.HandleSet | server/server.go:57-100 | The option loop, which advances `i` by hand, stores and replies as `SetCommand` says. |
| Server.Connection.HandleGet | server/server.go:102-113 | GET replies with a bulk string or nil as `GetCommand` says. |
| Server.Connection.HandleLPush | server/server.go:114-129 | The copy loop and the push reply as `LPushCommand` says. |
| Server.Connection.HandleLRange | server/server.go:130-155 | The index parses and the reply loop reply as `LRangeCommand` says. |
| Server.Connection.HandleLLen | server/server.go:156-167 | LLEN replies as `LLenCommand` says. |
| Server.Connection.HandleLPop | server/server.go:168-183 | LPOP replies as `LPopCommand` says. |
| Server.Connection.HandleBLPop | server/server.go:184-209 | The key loop, the timeout check and the `result[1]` panic behave as `BLPopCommand` says. |
| Server.Connection.HandleType | server/server.go:210-217 | TYPE replies as `TypeCommand` says. |
| Server.Connection.HandleXAdd | server/server.go:219-235 | The field loop and XADD behave as `XAddCommand` says. |
| Server.Connection.HandleXRange | server/server.go:237-263 | The COUNT option and the rendering loops give a reply `Renders` accepts for `XRangeCommand`. |
| Server.Connection.HandleXRead | server/server.go:265-325 | The option loop, the split, the map and the rendering loops give a reply `Renders` accepts for `XReadCommand`. |
| Server.Connection.Incr | server/server.go:326-345 | INCR stores and replies as `IncrOp` says. |
| Server.Connection.Exec | server/server.go:361-395 | The loop filling `results` by index gives the store and the results of `Replay`. |
| Server.CopyBulks | server/server.go:120-123 | The copy loop fills the slice with the arguments' `Bulk` fields. |
| Server.BulkReplies | server/server.go:151-155 | The reply loop fills the slice with one bulk string per element. |
| Server.ScanXReadOptions | server/server.go:267-282 | The option loop finds the COUNT value and the position of STREAMS, 0 when STREAMS is absent. |
| Server.SplitStreams | server/server.go:287-295 | The split loop gives the first half of the arguments after STREAMS as names and the rest as ids. |
| Server.PairUp | server/server.go:300-303 | The map loop pairs names with ids, later pairs winning. |
| Server.ZipMapMeaning | server/server.go:300-303 | The XREAD map's keys are exactly the stream names, and each maps to the id at its last occurrence. |
| Server.FieldMapPairs | server/server.go:226-229 | XADD's fields pair each name with the value after it. A name given twice keeps its later value. |
| Server.RenderEntry | server/server.go:255-261 | An entry is rendered as its id followed by every field and its value, once each, in some order. |
| Server.RenderEntries | server/server.go:253-262 | Each entry is rendered at its own index. |
| Server.RenderStreams | server/server.go:309-325 | Each stream with hits is rendered once, as its name and its entries, in some order. |
| Server.Replay | server/server.go:361-395 | EXEC gives one result per queued command. |
| Server.TransitionKeepsWellFormed | server/server.go:36-413 | Every turn keeps the stored stream ids readable. |
| Server.RunKeepsWellFormed | server/server.go:48-345 | Every command keeps the stored stream ids readable. |
| Server.ReplayKeepsWellFormed | server/server.go:361-395 | EXEC keeps the stored stream ids readable. |
| Server.IncrKeepsWellFormed | server/server.go:326-345 | INCR keeps the stored stream ids readable. |
| Server.MalformedFrame | server/server.go:36-413 | A frame that is not a non-empty array gets "ERR invalid command format", and nothing changes. |
| Server.UnknownCommand | server/server.go:408-409 | Outside a transaction, an unknown name is answered with its upper-cased form, and nothing changes. |
| Server.CaseInsensitive | server/server.go:37 | Outside a transaction, names that agree once upper-cased, with the same arguments, have the same effect. |
| Server.Queues | server/server.go:41-46 | In a transaction, any command other than MULTI, EXEC and DISCARD is queued verbatim and answered QUEUED. The store is untouched. |
| Server.MultiStarts | server/server.go:347-354 | MULTI when idle starts a transaction with an empty queue and replies OK. Inside a transaction it is the nesting error, and nothing changes. |
| Server.ExecEnds | server/server.go:356-398 | EXEC when idle is an error, and nothing changes. Inside a transaction it replays the queue, replies with the results and returns to idle with an empty queue. |
| Server.DiscardEnds | server/server.go:400-407 | DISCARD when idle is an error. Inside a transaction it drops the queue, runs nothing and replies OK. |
| Server.ReplayInOrder | server/server.go:361-395 | Each result of EXEC is computed on the store the commands before it left. |
| Server.ReplayOnlyIncr | server/server.go:362-393 | Only INCR runs inside EXEC. A queue with no INCR changes nothing, and each of its results is the empty-command or not-supported error. |
| Server.ReplayIncr | server/server.go:370-390 | A queued `INCR key` does what INCR outside a transaction does. |
| Server.IncrCounts | server/server.go:361-395 | `k` queued INCRs of a missing key give the results 1, 2, ..., k and leave `"k"` stored. |
| Server.IncrAbsent | server/server.go:333-337 | INCR on a missing or expired key stores `"1"` with no expiry and replies 1. |
| Server.IncrNext | server/server.go:338-345 | INCR on a stored text that `Atoi` reads as `n`, in any spelling such as `007` or `+5`, stores the decimal `n+1` with no expiry and replies `n+1`. |
| Server.IncrNotInteger | server/server.go:338-342 | INCR on a stored value that is not an integer replies with an error and changes nothing. |
| Server.SetWithEx | server/server.go:69-98 | `SET k v EX t`, where `Atoi` reads `t` as `n > 0` in any spelling, expires the value `n` seconds after now. |
| Server.SetWithPx | server/server.go:81-98 | `SET k v PX t`, where `Atoi` reads `t` as `n > 0` in any spelling, expires the value `n` milliseconds after now. |
| Server.SetExpiryRejected | server/server.go:75-89 | An expiry that is not a positive integer gives the invalid-expire error and no write. |
| Server.SetOptionWithoutValue | server/server.go:70-85 | EX without a value is a syntax error. PX without one replies with the syntax error and then panics. Neither writes. |
| Server.SetUnknownOption | server/server.go:92-94 | Any other option is a syntax error and no write. |
| Server.BLPopLosesElement | server/server.go:199-206 | A successful BLPOP pops the head of the first non-empty list, then panics before replying, so the element is lost. |
| Server.XReadCountStreams | server/server.go:265-303 | `XREAD COUNT t STREAMS k1..kn id1..idn` reads each key from its id with the count `Atoi` reads from `t` in any spelling, or 0 when `Atoi` refuses `t`: at most `c` entries each for a count `c > 0`, all of them when `c <= 0`. |
| Server.StreamArgsBalanced | server/server.go:287-299 | The two halves after STREAMS are equally long exactly when their total is even. |
| Server.XReadUnbalanced | server/server.go:296-299 | After STREAMS, an odd number of arguments is the mismatch error, and no other case is. |
| Server.XReadStreamsFirst | server/server.go:283-286 | STREAMS as the first argument is a syntax error. |
| Server.OptionsAt | server/server.go:270-282 | The option loop stops at 0 or at a STREAMS word, in any case, at or after where it started. |
| Server.STREAMSLastOrAbsent | server/server.go:283-286 | With no STREAMS word before the last argument, either absent or only the last, XREAD is a syntax error and nothing changes. |

## Left out

- The socket and the read loop of `HandleConnection`: the model covers one turn. `main.go` (flags, listening and accepting connections, starting goroutines) is not part of this model, and neither is the logging.
- Concurrency: the store's mutex and the interleaving of connections are not modelled; the store is sequential. GET deletes an expired key while holding only the read lock, a race that is left out.
- Real time: `time.Now()` is the parameter `now`, in milliseconds, one value per turn. `generateStreamID` reads the clock twice; the model reads it once, so a millisecond boundary between the two reads is not modelled.
- BLPOP's timeout and XREAD's BLOCK value are checked or skipped as in the code, but neither is used for waiting, as in the code.
- Integer widths: Go's `int` is 64 bits. `Atoi`'s range error and the wrap-around of `intVal++` and of the expiry arithmetic are not modelled.
- Bytes and text: each `char` stands for one byte. `strings.ToUpper` is modelled for ASCII letters only.
- Writing a reply: a failed or partial write to the client is not modelled, and the error `Respond` returns is ignored by the handler, as in the code. An unknown `Type` tag never reaches `Respond` from the handler.
- In-place state of the reader after an error: the model reports the `Read` error. The cursor position after it is not specified, because the handler closes the connection.
- Store methods' error results: apart from XADD's, the store's methods always return a nil error, so the model leaves them out along with the handler's branches for them.
- Panics: they are modelled as outcomes (`Outcome.Panic`, `ReadError.NegativeLength`, `None` from the id helpers), which are reached for those inputs instead of being excluded. That a panic ends the whole process is not modelled.
- `store/data.go` has no `Stream` field and defines no `StreamEntry`, but `store/kvstore.go` uses both; the model adds them to `Data`.
- Server.Connection.HandleXRange: the reply specified is any enumeration order of each entry's fields, because Go's map order is unspecified; the order the program happens to produce is not modelled.
- Server.Connection.HandleXRead: the reply specified is any order of the streams and of each entry's fields, for the same reason.
