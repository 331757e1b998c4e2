/**
  One turn of the loop in `HandleConnection` (`server/server.go`): a decoded frame goes
  in; a reply comes out (or the handler panics), and the connection's transaction state
  and the store change. The pure function `Transition` specifies the turn:
  `Run` handles an ordinary command and `Replay` handles the body of EXEC. The
  `Connection` class holds the two variables the loop carries, `inTransaction` and
  `queuedCommands`, and `Step` runs the turn as the Go code does, loops included, proved
  to agree with `Transition`. Go's map iteration order is left open: the replies of
  XRANGE and XREAD are specified on their contents, by `Renders`.
*/
module Server {
  import opened Wrappers
  import opened Text
  import opened Resp
  import opened Streams
  import opened Store

  /** What one turn writes to the client: one reply, or the replies written before a
      run-time panic ends the handler (and, in Go, the whole process). */
  datatype Outcome = Sent(reply: Value) | Panic(sent: seq<Value>)

  /** A reply before rendering: given outright, or stream entries whose rendering
      depends on map iteration order. */
  datatype Reply = Direct(out: Outcome) | EntryList(entries: seq<StreamEntry>) | StreamMap(hits: map<string, seq<StreamEntry>>)

  function Send(v: Value): Reply { Direct(Sent(v)) }

  /** The commands `Run` executes, named as they are matched. */
  datatype Op = PING | ECHO | SET | GET | LPUSH | LRANGE | LLEN | LPOP | BLPOP | TYPE | XADD | XRANGE | XREAD | INCR

  /** The `switch command` of `HandleConnection`. */
  datatype Command = MULTI | EXEC | DISCARD | Plain(op: Op) | Unknown

  const InvalidFormat: string := "ERR invalid command format"
  const SyntaxError: string := "ERR syntax error"
  const ExpireError: string := "ERR invalid expire time in 'set' command"
  const NotIntegerError: string := "ERR value is not an integer or out of range"
  const TimeoutError: string := "ERR timeout must be a non-negative integer"
  const XReadSyntaxError: string := "ERR syntax error in 'xread' command"
  const XReadMismatchError: string := "ERR number of streams and ids do not match in 'xread' command"
  const NestedMultiError: string := "ERR MULTI calls can not be nested"
  const ExecWithoutMultiError: string := "ERR EXEC without MULTI"
  const DiscardWithoutMultiError: string := "ERR DISCARD without MULTI"
  const EmptyCommandError: string := "ERR empty command in transaction"
  const NotSupportedError: string := "ERR command not supported in transaction"

  function WrongArity(name: string): string {
    "ERR wrong number of arguments for '" + name + "' command"
  }

  /** The arity error of ECHO and SET, spelt as the code spells it. */
  function MisspeltArity(name: string): string {
    "ERR wrong number of arguements for '" + name + "' command"
  }

  function UnknownCommandError(name: string): string {
    "ERR unknown command '" + name + "'"
  }

  /** The command an upper-cased name selects: the cases of the `switch`, looked up by
      first letter. */
  function CommandOf(name: string): Command {
    if |name| == 0 then Unknown
    else match name[0]
      case 'B' => if name == "BLPOP" then Plain(BLPOP) else Unknown
      case 'D' => if name == "DISCARD" then DISCARD else Unknown
      case 'E' => if name == "ECHO" then Plain(ECHO) else if name == "EXEC" then EXEC else Unknown
      case 'G' => if name == "GET" then Plain(GET) else Unknown
      case 'I' => if name == "INCR" then Plain(INCR) else Unknown
      case 'L' =>
        if name == "LPUSH" then Plain(LPUSH) else if name == "LRANGE" then Plain(LRANGE)
        else if name == "LLEN" then Plain(LLEN) else if name == "LPOP" then Plain(LPOP) else Unknown
      case 'M' => if name == "MULTI" then MULTI else Unknown
      case 'P' => if name == "PING" then Plain(PING) else Unknown
      case 'S' => if name == "SET" then Plain(SET) else Unknown
      case 'T' => if name == "TYPE" then Plain(TYPE) else Unknown
      case 'X' =>
        if name == "XADD" then Plain(XADD) else if name == "XRANGE" then Plain(XRANGE)
        else if name == "XREAD" then Plain(XREAD) else Unknown
      case _ => Unknown
  }

  /** The name each command is matched by. */
  function NameOf(c: Command): string
    requires c != Unknown
  {
    match c
    case MULTI => "MULTI"
    case EXEC => "EXEC"
    case DISCARD => "DISCARD"
    case Plain(op) =>
      match op
      case PING => "PING" case ECHO => "ECHO" case SET => "SET" case GET => "GET"
      case LPUSH => "LPUSH" case LRANGE => "LRANGE" case LLEN => "LLEN" case LPOP => "LPOP"
      case BLPOP => "BLPOP" case TYPE => "TYPE" case XADD => "XADD" case XRANGE => "XRANGE"
      case XREAD => "XREAD" case INCR => "INCR"
  }

  /** Each command is selected by its own name. */
  lemma CommandNames(c: Command)
    requires c != Unknown
    ensures CommandOf(NameOf(c)) == c
  {
  }

  /** No other name selects a command. */
  lemma CommandNamesExact(name: string)
    requires CommandOf(name) != Unknown
    ensures name == NameOf(CommandOf(name))
  {
  }

  /** The `Bulk` fields of some frame elements, as the argument-copying loops take them. */
  function Bulks(vs: seq<Value>): seq<string>
  {
    seq(|vs|, i requires 0 <= i < |vs| => vs[i].bulk)
  }

  /** A list as an array of bulk strings. */
  function BulkValues(ss: seq<string>): seq<Value>
  {
    seq(|ss|, i requires 0 <= i < |ss| => Bulk(ss[i]))
  }

  /** XADD's field map from the arguments after key and id, taken in pairs; a field
      given twice keeps its later value. */
  function FieldMap(vs: seq<Value>): map<string, string>
    requires |vs| % 2 == 0
    decreases |vs|
  {
    if |vs| == 0 then map[] else FieldMap(vs[..|vs| - 2])[vs[|vs| - 2].bulk := vs[|vs| - 1].bulk]
  }

  /** XREAD's `streamsMap`: each name to its id; a name given twice keeps its later id. */
  function ZipMap(names: seq<string>, ids: seq<string>): map<string, string>
    requires |names| == |ids|
    decreases |names|
  {
    if |names| == 0 then map[]
    else ZipMap(names[..|names| - 1], ids[..|ids| - 1])[names[|names| - 1] := ids[|ids| - 1]]
  }

  /** `ZipMap` holds exactly the names, each with the id paired with its last occurrence. */
  lemma {:induction false} ZipMapMeaning(names: seq<string>, ids: seq<string>)
    requires |names| == |ids|
    ensures forall k :: k in ZipMap(names, ids) <==> k in names
    ensures forall j :: 0 <= j < |names| && (forall l :: j < l < |names| ==> names[l] != names[j]) ==>
      ZipMap(names, ids)[names[j]] == ids[j]
    decreases |names|
  {
    if |names| > 0 {
      var n := |names| - 1;
      ZipMapMeaning(names[..n], ids[..n]);
      assert names == names[..n] + [names[n]];
      forall j | 0 <= j < |names| && (forall l :: j < l < |names| ==> names[l] != names[j])
        ensures ZipMap(names, ids)[names[j]] == ids[j]
      {
        if j < n {
          assert names[..n][j] == names[j];
        }
      }
    }
  }

  // ---------------------------------------------------------------------------
  // Rendering stream entries
  // ---------------------------------------------------------------------------

  /** `order` lists each element of `keys` exactly once. */
  ghost predicate Enumerates(order: seq<string>, keys: set<string>) {
    (forall x :: x in order <==> x in keys) && Distinct(order)
  }

  /** No element occurs twice in `order`. */
  predicate Distinct(order: seq<string>) {
    forall i, j :: 0 <= i < j < |order| ==> order[i] != order[j]
  }

  /** Adding an element not yet listed keeps a list without repeats. */
  lemma DistinctAppend(order: seq<string>, k: string)
    requires Distinct(order) && k !in order
    ensures Distinct(order + [k])
  {
  }

  /** One more field at the end of the order adds its pair at the end. */
  lemma FieldPairsAppend(order: seq<string>, k: string, fields: map<string, string>)
    requires (forall x :: x in order ==> x in fields) && k in fields
    ensures FieldPairs(order + [k], fields) == FieldPairs(order, fields) + [Bulk(k), Bulk(fields[k])]
  {
    assert (order + [k])[..|order|] == order;
  }

  /** Field, value, field, value, ... for the fields in `order`. */
  function FieldPairs(order: seq<string>, fields: map<string, string>): seq<Value>
    requires forall x :: x in order ==> x in fields
    decreases |order|
  {
    if |order| == 0 then []
    else
      var k := order[|order| - 1];
      FieldPairs(order[..|order| - 1], fields) + [Bulk(k), Bulk(fields[k])]
  }

  /** An entry as XRANGE and XREAD reply with it: its id, then each field and its value,
      the fields in some order. */
  ghost predicate EntryRendered(e: StreamEntry, v: Value) {
    exists order :: Enumerates(order, e.fields.Keys) && v == Array([Bulk(e.id)] + FieldPairs(order, e.fields))
  }

  ghost predicate EntriesRendered(es: seq<StreamEntry>, v: Value) {
    v == Array(v.items) && |v.items| == |es| && forall i :: 0 <= i < |es| ==> EntryRendered(es[i], v.items[i])
  }

  /** One stream of an XREAD reply: its key, then its entries. */
  ghost predicate StreamRendered(key: string, es: seq<StreamEntry>, v: Value) {
    v == Array(v.items) && |v.items| == 2 && v.items[0] == Bulk(key) && EntriesRendered(es, v.items[1])
  }

  /** An XREAD reply: one element per key with entries, the keys in some order. */
  ghost predicate StreamsRendered(hits: map<string, seq<StreamEntry>>, v: Value) {
    v == Array(v.items) &&
    exists order :: Enumerates(order, hits.Keys) && |order| == |v.items| &&
      forall i :: 0 <= i < |order| ==> StreamRendered(order[i], hits[order[i]], v.items[i])
  }

  /** `out` is what the reply comes to on the wire, for some map iteration order. */
  ghost predicate Renders(r: Reply, out: Outcome) {
    match r
    case Direct(o) => out == o
    case EntryList(es) => out.Sent? && EntriesRendered(es, out.reply)
    case StreamMap(hits) => out.Sent? && StreamsRendered(hits, out.reply)
  }

  // ---------------------------------------------------------------------------
  // The commands, as functions of the store
  // ---------------------------------------------------------------------------

  /** The `for i := 2; i < len(args); i++` loop over SET's options, from position `i`
      with the expiration chosen so far; an error ends the command with no write.
      A `PX` without a value replies with a syntax error and then panics on `args[i+1]`. */
  function SetOptions(args: seq<Value>, i: nat, expiration: Option<int>, now: int): Result<Option<int>, Outcome>
    decreases |args| - i
  {
    if i >= |args| then Ok(expiration)
    else
      var option := ToUpper(args[i].bulk);
      if option == "EX" then
        if i + 1 >= |args| then Err(Sent(ErrorString(SyntaxError)))
        else match Atoi(args[i + 1].bulk)
          case None => Err(Sent(ErrorString(ExpireError)))
          case Some(seconds) =>
            if seconds <= 0 then Err(Sent(ErrorString(ExpireError)))
            else SetOptions(args, i + 2, Some(now + seconds * 1000), now)
      else if option == "PX" then
        if i + 1 >= |args| then Err(Panic([ErrorString(SyntaxError)]))
        else match Atoi(args[i + 1].bulk)
          case None => Err(Sent(ErrorString(ExpireError)))
          case Some(milliseconds) =>
            if milliseconds <= 0 then Err(Sent(ErrorString(ExpireError)))
            else SetOptions(args, i + 2, Some(now + milliseconds), now)
      else Err(Sent(ErrorString(SyntaxError)))
  }

  function SetCommand(db: Db, args: seq<Value>, now: int): (Db, Reply) {
    if |args| < 2 then (db, Send(ErrorString(MisspeltArity("set"))))
    else match SetOptions(args, 2, None, now)
      case Err(out) => (db, Direct(out))
      case Ok(expiration) => (SetOp(db, args[0].bulk, args[1].bulk, expiration), Send(SimpleString("OK")))
  }

  function GetCommand(db: Db, args: seq<Value>, now: int): (Db, Reply) {
    if |args| < 1 then (db, Send(ErrorString(WrongArity("get"))))
    else
      var (db', found) := GetOp(db, args[0].bulk, now);
      (db', Send(if found.Some? then Bulk(found.value) else Nil))
  }

  function LPushCommand(db: Db, args: seq<Value>): (Db, Reply) {
    if |args| < 2 then (db, Send(ErrorString(WrongArity("lpush"))))
    else
      var (db', length) := LPushOp(db, args[0].bulk, Bulks(args[1..]));
      (db', Send(Integer(length)))
  }

  function LRangeCommand(db: Db, args: seq<Value>): (Db, Reply) {
    if |args| != 3 then (db, Send(ErrorString(WrongArity("lrange"))))
    else match (Atoi(args[1].bulk), Atoi(args[2].bulk))
      case (None, _) => (db, Send(ErrorString(NotIntegerError)))
      case (_, None) => (db, Send(ErrorString(NotIntegerError)))
      case (Some(start), Some(end)) => (db, Send(Array(BulkValues(LRangeOp(db, args[0].bulk, start, end)))))
  }

  function LLenCommand(db: Db, args: seq<Value>): (Db, Reply) {
    if |args| != 1 then (db, Send(ErrorString(WrongArity("llen"))))
    else (db, Send(Integer(|ListAt(db, args[0].bulk)|)))
  }

  function LPopCommand(db: Db, args: seq<Value>): (Db, Reply) {
    if |args| != 1 then (db, Send(ErrorString(WrongArity("lpop"))))
    else
      var (db', popped) := LPopOp(db, args[0].bulk);
      (db', Send(if popped.Some? then Bulk(popped.value) else Nil))
  }

  /** BLPOP: all arguments but the last are keys, the last a timeout. The reply to a
      successful pop takes element 1 of the popped slice, which has one element (see
      `BLPopOp`), so it panics after the store has changed. */
  function BLPopCommand(db: Db, args: seq<Value>): (Db, Reply) {
    if |args| < 2 then (db, Send(ErrorString(WrongArity("blpop"))))
    else match Atoi(args[|args| - 1].bulk)
      case None => (db, Send(ErrorString(TimeoutError)))
      case Some(timeout) =>
        if timeout < 0 then (db, Send(ErrorString(TimeoutError)))
        else
          var (db', popped) := BLPopOp(db, Bulks(args[..|args| - 1]));
          match popped
          case None => (db', Send(Nil))
          case Some(_) => (db', Direct(Panic([])))
  }

  function TypeCommand(db: Db, args: seq<Value>): (Db, Reply) {
    if |args| != 1 then (db, Send(ErrorString(WrongArity("type"))))
    else (db, Send(SimpleString(TypeOp(db, args[0].bulk))))
  }

  function XAddCommand(db: Db, args: seq<Value>, now: nat): (Db, Reply)
    requires WellFormed(db)
  {
    if |args| < 3 || (|args| - 2) % 2 != 0 then (db, Send(ErrorString(WrongArity("xadd"))))
    else
      var (db', r) := XAddOp(db, args[0].bulk, args[1].bulk, FieldMap(args[2..]), now);
      (db', Send(if r.Ok? then Bulk(r.value) else ErrorString(r.error)))
  }

  /** XRANGE: key, start, end, and an optional `COUNT n`, a non-numeric `n` reading as 0. */
  function XRangeCommand(db: Db, args: seq<Value>): (Db, Reply) {
    if |args| < 3 || |args| > 5 then (db, Send(ErrorString(WrongArity("xrange"))))
    else
      var count := if |args| == 5 && ToUpper(args[3].bulk) == "COUNT" then AtoiOrZero(args[4].bulk) else 0;
      match XRangeOp(db, args[0].bulk, args[1].bulk, args[2].bulk, count)
      case None => (db, Direct(Panic([])))
      case Some(entries) => (db, EntryList(entries))
  }

  /** The `for i := 0; i < len(args); i++` loop over XREAD's options, from position `i`
      with the count so far: the count, and the position of `STREAMS` (0 when absent). */
  function XReadOptions(args: seq<Value>, i: nat, count: int): (int, nat)
    decreases |args| - i
  {
    if i >= |args| then (count, 0)
    else
      var word := ToUpper(args[i].bulk);
      if word == "COUNT" && i + 1 < |args| then XReadOptions(args, i + 2, AtoiOrZero(args[i + 1].bulk))
      else if word == "BLOCK" && i + 1 < |args| then XReadOptions(args, i + 2, count)
      else if word == "STREAMS" then (count, i)
      else XReadOptions(args, i + 1, count)
  }

  /** The arguments after position `at`: a first half of stream names, then the ids. */
  function StreamArgs(args: seq<Value>, at: nat): (seq<string>, seq<string>)
    requires at < |args|
  {
    var rest := args[at + 1..];
    (Bulks(rest[..|rest| / 2]), Bulks(rest[|rest| / 2..]))
  }

  /** XREAD: the arguments after `STREAMS` are split into a first half of keys and a
      second half of ids. */
  function XReadCommand(db: Db, args: seq<Value>): (Db, Reply) {
    var (count, at) := XReadOptions(args, 0, 0);
    if at == 0 || at + 1 >= |args| then (db, Send(ErrorString(XReadSyntaxError)))
    else
      var (names, ids) := StreamArgs(args, at);
      (db, ReadStreams(db, names, ids, count))
  }

  /** The part of XREAD after its arguments are split: each name read from its id. */
  function ReadStreams(db: Db, names: seq<string>, ids: seq<string>, count: int): Reply {
    if |names| != |ids| then Send(ErrorString(XReadMismatchError))
    else match XReadOp(db, ZipMap(names, ids), count)
      case None => Direct(Panic([]))
      case Some(hits) => StreamMap(hits)
  }

  /** INCR (also as EXEC replays it): an absent key becomes `"1"`; an integer value is
      replaced by its successor, with no expiration; anything else is an error. */
  function IncrOp(db: Db, args: seq<Value>, now: int): (Db, Value) {
    if |args| != 1 then (db, ErrorString(WrongArity("incr")))
    else
      var key := args[0].bulk;
      var (db', found) := GetOp(db, key, now);
      match found
      case None => (SetOp(db', key, "1", None), Integer(1))
      case Some(text) =>
        match Atoi(text)
        case None => (db', ErrorString(NotIntegerError))
        case Some(n) => (SetOp(db', key, Itoa(n + 1), None), Integer(n + 1))
  }

  /** An ordinary command. */
  function Run(db: Db, op: Op, args: seq<Value>, now: nat): (Db, Reply)
    requires WellFormed(db)
  {
    match op
    case PING => (db, Send(SimpleString("PONG")))
    case ECHO => (db, Send(if |args| > 0 then Bulk(args[0].bulk) else ErrorString(MisspeltArity("echo"))))
    case SET => SetCommand(db, args, now)
    case GET => GetCommand(db, args, now)
    case LPUSH => LPushCommand(db, args)
    case LRANGE => LRangeCommand(db, args)
    case LLEN => LLenCommand(db, args)
    case LPOP => LPopCommand(db, args)
    case BLPOP => BLPopCommand(db, args)
    case TYPE => TypeCommand(db, args)
    case XADD => XAddCommand(db, args, now)
    case XRANGE => XRangeCommand(db, args)
    case XREAD => XReadCommand(db, args)
    case INCR => var (db', v) := IncrOp(db, args, now); (db', Send(v))
  }

  /** One queued command as EXEC runs it: only INCR is executed. */
  function ReplayOne(db: Db, command: seq<Value>, now: int): (Db, Value) {
    if |command| == 0 then (db, ErrorString(EmptyCommandError))
    else if ToUpper(command[0].bulk) == "INCR" then IncrOp(db, command[1..], now)
    else (db, ErrorString(NotSupportedError))
  }

  /** EXEC's loop: the queued commands in order, one result each. */
  function Replay(db: Db, queue: seq<seq<Value>>, now: int): (r: (Db, seq<Value>))
    ensures |r.1| == |queue|
    decreases |queue|
  {
    if |queue| == 0 then (db, [])
    else
      var (db', results) := Replay(db, queue[..|queue| - 1], now);
      var (db'', last) := ReplayOne(db', queue[|queue| - 1], now);
      (db'', results + [last])
  }

  /** The variables `HandleConnection` keeps across frames. */
  datatype Session = Session(inTransaction: bool, queued: seq<seq<Value>>)

  /** One turn of the loop: the new session, the new store and the reply. */
  function Transition(s: Session, db: Db, frame: Value, now: nat): (Session, Db, Reply)
    requires WellFormed(db)
  {
    if !(frame.kind == ArrayKind && |frame.items| > 0) then (s, db, Send(ErrorString(InvalidFormat)))
    else
      var name := ToUpper(frame.items[0].bulk);
      var command := CommandOf(name);
      if s.inTransaction && command != EXEC && command != DISCARD && command != MULTI then
        (Session(true, s.queued + [frame.items]), db, Send(SimpleString("QUEUED")))
      else
        match command
        case MULTI =>
          if s.inTransaction then (s, db, Send(ErrorString(NestedMultiError)))
          else (Session(true, []), db, Send(SimpleString("OK")))
        case EXEC =>
          if !s.inTransaction then (s, db, Send(ErrorString(ExecWithoutMultiError)))
          else
            var (db', results) := Replay(db, s.queued, now);
            (Session(false, []), db', Send(Array(results)))
        case DISCARD =>
          if !s.inTransaction then (s, db, Send(ErrorString(DiscardWithoutMultiError)))
          else (Session(false, []), db, Send(SimpleString("OK")))
        case Unknown => (s, db, Send(ErrorString(UnknownCommandError(name))))
        case Plain(op) =>
          var (db', r) := Run(db, op, frame.items[1..], now);
          (s, db', r)
  }

  // ---------------------------------------------------------------------------
  // The connection
  // ---------------------------------------------------------------------------

  /** The scope of one `HandleConnection` call: its transaction variables and the
      shared store. */
  class Connection {
    var inTransaction: bool
    var queued: seq<seq<Value>>
    const store: KeyValueStore

    ghost predicate Valid()
      reads this, store
    {
      store.Valid()
    }

    constructor (store: KeyValueStore)
      ensures this.store == store && !inTransaction && queued == []
    {
      this.store := store;
      inTransaction := false;
      queued := [];
    }

    /** One frame read from the client. */
    method Step(frame: Value, now: nat) returns (out: Outcome)
      requires Valid()
      modifies this, store
      ensures Valid()
      ensures var t := Transition(old(Session(inTransaction, queued)), old(store.data), frame, now);
        Session(inTransaction, queued) == t.0 && store.data == t.1 && Renders(t.2, out)
    {
      TransitionKeepsWellFormed(Session(inTransaction, queued), store.data, frame, now);
      if !(frame.kind == ArrayKind && |frame.items| > 0) {
        return Sent(ErrorString(InvalidFormat));
      }
      var name := ToUpper(frame.items[0].bulk);
      var args := frame.items[1..];
      var command := CommandOf(name);
      if inTransaction && command != EXEC && command != DISCARD && command != MULTI {
        queued := queued + [frame.items];
        return Sent(SimpleString("QUEUED"));
      }
      match command
      case MULTI =>
        if inTransaction {
          return Sent(ErrorString(NestedMultiError));
        }
        inTransaction := true;
        queued := [];
        return Sent(SimpleString("OK"));
      case EXEC =>
        if !inTransaction {
          return Sent(ErrorString(ExecWithoutMultiError));
        }
        var results := Exec(now);
        inTransaction := false;
        queued := [];
        return Sent(Array(results));
      case DISCARD =>
        if !inTransaction {
          return Sent(ErrorString(DiscardWithoutMultiError));
        }
        inTransaction := false;
        queued := [];
        return Sent(SimpleString("OK"));
      case Unknown =>
        return Sent(ErrorString(UnknownCommandError(name)));
      case Plain(op) =>
        out := Execute(op, args, now);
    }

    /** EXEC's loop, filling `results` by index. */
    method Exec(now: int) returns (results: seq<Value>)
      requires store.Valid()
      modifies store
      ensures store.Valid()
      ensures (store.data, results) == Replay(old(store.data), queued, now)
    {
      var slots := new Value[|queued|];
      for i := 0 to |queued|
        invariant store.Valid()
        invariant (store.data, slots[..i]) == Replay(old(store.data), queued[..i], now)
      {
        assert queued[..i + 1][..i] == queued[..i];
        var command := queued[i];
        if |command| == 0 {
          slots[i] := ErrorString(EmptyCommandError);
        } else if ToUpper(command[0].bulk) == "INCR" {
          var v := Incr(command[1..], now);
          slots[i] := v;
        } else {
          slots[i] := ErrorString(NotSupportedError);
        }
        assert slots[..i + 1] == slots[..i] + [slots[i]];
      }
      assert queued[..|queued|] == queued;
      assert slots[..] == slots[..|queued|];
      results := slots[..];
    }

    method Incr(args: seq<Value>, now: int) returns (reply: Value)
      requires store.Valid()
      modifies store
      ensures store.Valid()
      ensures (store.data, reply) == IncrOp(old(store.data), args, now)
    {
      if |args| != 1 {
        return ErrorString(WrongArity("incr"));
      }
      var key := args[0].bulk;
      var text, found := store.GET(key, now);
      if !found {
        store.SET(key, "1", None);
        return Integer(1);
      }
      var n := Atoi(text);
      if n.None? {
        return ErrorString(NotIntegerError);
      }
      store.SET(key, Itoa(n.value + 1), None);
      return Integer(n.value + 1);
    }

    /** The cases of the `switch` other than the transaction commands. */
    method Execute(op: Op, args: seq<Value>, now: nat) returns (out: Outcome)
      requires store.Valid()
      modifies store
      ensures store.Valid()
      ensures var t := Run(old(store.data), op, args, now); store.data == t.0 && Renders(t.1, out)
    {
      match op
      case PING =>
        out := Sent(SimpleString("PONG"));
      case ECHO =>
        if |args| > 0 {
          out := Sent(Bulk(args[0].bulk));
        } else {
          out := Sent(ErrorString(MisspeltArity("echo")));
        }
      case SET => out := HandleSet(args, now);
      case GET => out := HandleGet(args, now);
      case LPUSH => out := HandleLPush(args);
      case LRANGE => out := HandleLRange(args);
      case LLEN => out := HandleLLen(args);
      case LPOP => out := HandleLPop(args);
      case BLPOP => out := HandleBLPop(args);
      case TYPE => out := HandleType(args);
      case XADD => out := HandleXAdd(args, now);
      case XRANGE => out := HandleXRange(args);
      case XREAD => out := HandleXRead(args);
      case INCR =>
        var v := Incr(args, now);
        out := Sent(v);
    }

    method HandleSet(args: seq<Value>, now: int) returns (out: Outcome)
      requires store.Valid()
      modifies store
      ensures store.Valid()
      ensures var t := SetCommand(old(store.data), args, now); store.data == t.0 && Renders(t.1, out)
    {
      if |args| < 2 {
        return Sent(ErrorString(MisspeltArity("set")));
      }
      var key := args[0].bulk;
      var value := args[1].bulk;
      var expiration: Option<int> := None;
      var i := 2;
      while i < |args|
        invariant 2 <= i <= |args|
        invariant SetOptions(args, 2, None, now) == SetOptions(args, i, expiration, now)
        decreases |args| - i
      {
        var option := ToUpper(args[i].bulk);
        if option == "EX" {
          if i + 1 >= |args| {
            return Sent(ErrorString(SyntaxError));
          }
          var seconds := Atoi(args[i + 1].bulk);
          if seconds.None? || seconds.value <= 0 {
            return Sent(ErrorString(ExpireError));
          }
          expiration := Some(now + seconds.value * 1000);
          i := i + 1;
        } else if option == "PX" {
          if i + 1 >= |args| {
            return Panic([ErrorString(SyntaxError)]);
          }
          var milliseconds := Atoi(args[i + 1].bulk);
          if milliseconds.None? || milliseconds.value <= 0 {
            return Sent(ErrorString(ExpireError));
          }
          expiration := Some(now + milliseconds.value);
          i := i + 1;
        } else {
          return Sent(ErrorString(SyntaxError));
        }
        i := i + 1;
      }
      store.SET(key, value, expiration);
      return Sent(SimpleString("OK"));
    }

    method HandleGet(args: seq<Value>, now: int) returns (out: Outcome)
      requires store.Valid()
      modifies store
      ensures store.Valid()
      ensures var t := GetCommand(old(store.data), args, now); store.data == t.0 && Renders(t.1, out)
    {
      if |args| < 1 {
        return Sent(ErrorString(WrongArity("get")));
      }
      var value, found := store.GET(args[0].bulk, now);
      if found {
        return Sent(Bulk(value));
      }
      return Sent(Nil);
    }

    method HandleLPush(args: seq<Value>) returns (out: Outcome)
      requires store.Valid()
      modifies store
      ensures store.Valid()
      ensures var t := LPushCommand(old(store.data), args); store.data == t.0 && Renders(t.1, out)
    {
      if |args| < 2 {
        return Sent(ErrorString(WrongArity("lpush")));
      }
      var elements := CopyBulks(args, 1, |args|);
      assert args[1..|args|] == args[1..];
      var length := store.LPUSH(args[0].bulk, elements);
      return Sent(Integer(length));
    }

    method HandleLRange(args: seq<Value>) returns (out: Outcome)
      ensures var t := LRangeCommand(store.data, args); store.data == t.0 && Renders(t.1, out)
    {
      if |args| != 3 {
        return Sent(ErrorString(WrongArity("lrange")));
      }
      var start := Atoi(args[1].bulk);
      if start.None? {
        return Sent(ErrorString(NotIntegerError));
      }
      var end := Atoi(args[2].bulk);
      if end.None? {
        return Sent(ErrorString(NotIntegerError));
      }
      var list := store.LRANGE(args[0].bulk, start.value, end.value);
      var values := BulkReplies(list);
      return Sent(Array(values));
    }

    method HandleLLen(args: seq<Value>) returns (out: Outcome)
      ensures var t := LLenCommand(store.data, args); store.data == t.0 && Renders(t.1, out)
    {
      if |args| != 1 {
        return Sent(ErrorString(WrongArity("llen")));
      }
      var length := store.LLEN(args[0].bulk);
      return Sent(Integer(length));
    }

    method HandleLPop(args: seq<Value>) returns (out: Outcome)
      requires store.Valid()
      modifies store
      ensures store.Valid()
      ensures var t := LPopCommand(old(store.data), args); store.data == t.0 && Renders(t.1, out)
    {
      if |args| != 1 {
        return Sent(ErrorString(WrongArity("lpop")));
      }
      var element, found := store.LPOP(args[0].bulk);
      if found {
        return Sent(Bulk(element));
      }
      return Sent(Nil);
    }

    method HandleBLPop(args: seq<Value>) returns (out: Outcome)
      requires store.Valid()
      modifies store
      ensures store.Valid()
      ensures var t := BLPopCommand(old(store.data), args); store.data == t.0 && Renders(t.1, out)
    {
      if |args| < 2 {
        return Sent(ErrorString(WrongArity("blpop")));
      }
      var keys := CopyBulks(args, 0, |args| - 1);
      var timeout := Atoi(args[|args| - 1].bulk);
      if timeout.None? || timeout.value < 0 {
        return Sent(ErrorString(TimeoutError));
      }
      var result, poppedKey := store.BLPOP(keys);
      if result.Some? {
        assert |result.value| == 1;
        return Panic([]);
      }
      return Sent(Nil);
    }

    method HandleType(args: seq<Value>) returns (out: Outcome)
      ensures var t := TypeCommand(store.data, args); store.data == t.0 && Renders(t.1, out)
    {
      if |args| != 1 {
        return Sent(ErrorString(WrongArity("type")));
      }
      var t := store.TYPE(args[0].bulk);
      return Sent(SimpleString(t));
    }

    method HandleXAdd(args: seq<Value>, now: nat) returns (out: Outcome)
      requires store.Valid()
      modifies store
      ensures store.Valid()
      ensures var t := XAddCommand(old(store.data), args, now); store.data == t.0 && Renders(t.1, out)
    {
      if |args| < 3 || (|args| - 2) % 2 != 0 {
        return Sent(ErrorString(WrongArity("xadd")));
      }
      var fields: map<string, string> := map[];
      var i := 2;
      while i < |args|
        invariant 2 <= i <= |args| && (i - 2) % 2 == 0
        invariant fields == FieldMap(args[2..i])
        decreases |args| - i
      {
        assert args[2..i + 2][..i - 2] == args[2..i];
        fields := fields[args[i].bulk := args[i + 1].bulk];
        i := i + 2;
      }
      assert args[2..i] == args[2..];
      var r := store.XADD(args[0].bulk, args[1].bulk, fields, now);
      if r.Err? {
        return Sent(ErrorString(r.error));
      }
      return Sent(Bulk(r.value));
    }

    method HandleXRange(args: seq<Value>) returns (out: Outcome)
      ensures var t := XRangeCommand(store.data, args); store.data == t.0 && Renders(t.1, out)
    {
      if |args| < 3 || |args| > 5 {
        return Sent(ErrorString(WrongArity("xrange")));
      }
      var count := 0;
      if |args| == 5 && ToUpper(args[3].bulk) == "COUNT" {
        count := AtoiOrZero(args[4].bulk);
      }
      var entries := store.XRANGE(args[0].bulk, args[1].bulk, args[2].bulk, count);
      if entries.None? {
        return Panic([]);
      }
      var v := RenderEntries(entries.value);
      return Sent(v);
    }

    method HandleXRead(args: seq<Value>) returns (out: Outcome)
      ensures var t := XReadCommand(store.data, args); store.data == t.0 && Renders(t.1, out)
    {
      var options := ScanXReadOptions(args);
      var count, at := options.0, options.1;
      if at == 0 || at + 1 >= |args| {
        return Sent(ErrorString(XReadSyntaxError));
      }
      var names, ids := SplitStreams(args, at);
      if |names| != |ids| {
        return Sent(ErrorString(XReadMismatchError));
      }
      var streams := PairUp(names, ids);
      var hits := store.XREAD(streams, count);
      if hits.None? {
        return Panic([]);
      }
      var v := RenderStreams(hits.value);
      return Sent(v);
    }
  }

  // ---------------------------------------------------------------------------
  // The loops of the handlers
  // ---------------------------------------------------------------------------

  /** The argument-copying loops of LPUSH and BLPOP, filling a slice by index. */
  method CopyBulks(vs: seq<Value>, from: nat, to: nat) returns (r: seq<string>)
    requires from <= to <= |vs|
    ensures r == Bulks(vs[from..to])
  {
    var a := new string[to - from];
    for i := from to to
      invariant forall j :: from <= j < i ==> a[j - from] == vs[j].bulk
    {
      a[i - from] := vs[i].bulk;
    }
    r := a[..];
  }

  /** LRANGE's reply loop, filling a slice by index. */
  method BulkReplies(list: seq<string>) returns (r: seq<Value>)
    ensures r == BulkValues(list)
  {
    var a := new Value[|list|];
    for i := 0 to |list|
      invariant forall j :: 0 <= j < i ==> a[j] == Bulk(list[j])
    {
      a[i] := Bulk(list[i]);
    }
    r := a[..];
  }

  /** XREAD's option loop, which advances `i` past an option's value by hand. */
  method ScanXReadOptions(args: seq<Value>) returns (r: (int, nat))
    ensures r == XReadOptions(args, 0, 0)
  {
    var count := 0;
    var at := 0;
    var i := 0;
    while i < |args|
      invariant 0 <= i <= |args| + 1
      invariant XReadOptions(args, 0, 0) == XReadOptions(args, i, count)
      decreases |args| - i
    {
      var word := ToUpper(args[i].bulk);
      if word == "COUNT" && i + 1 < |args| {
        count := AtoiOrZero(args[i + 1].bulk);
        i := i + 1;
      } else if word == "BLOCK" && i + 1 < |args| {
        i := i + 1;
      } else if word == "STREAMS" {
        at := i;
        break;
      }
      i := i + 1;
    }
    return (count, at);
  }

  /** XREAD's loop over the arguments after `STREAMS`: the first half are stream names,
      the rest ids. */
  method SplitStreams(args: seq<Value>, at: nat) returns (names: seq<string>, ids: seq<string>)
    requires at < |args|
    ensures (names, ids) == StreamArgs(args, at)
  {
    var rest := args[at + 1..];
    var half := |rest| / 2;
    names, ids := [], [];
    for i := at + 1 to |args|
      invariant i - (at + 1) <= half ==> names == Bulks(rest[..i - (at + 1)]) && ids == []
      invariant i - (at + 1) > half ==> names == Bulks(rest[..half]) && ids == Bulks(rest[half..i - (at + 1)])
    {
      var k := i - (at + 1);
      if i < at + 1 + half {
        names := names + [args[i].bulk];
        assert rest[..k + 1] == rest[..k] + [rest[k]];
      } else {
        ids := ids + [args[i].bulk];
        assert rest[half..k + 1] == rest[half..k] + [rest[k]];
      }
    }
    assert rest[half..|rest|] == rest[half..];
  }

  /** XREAD's `streamsMap[streamNames[i]] = ids[i]` loop. */
  method PairUp(names: seq<string>, ids: seq<string>) returns (m: map<string, string>)
    requires |names| == |ids|
    ensures m == ZipMap(names, ids)
  {
    m := map[];
    for i := 0 to |names|
      invariant m == ZipMap(names[..i], ids[..i])
    {
      assert names[..i + 1][..i] == names[..i] && ids[..i + 1][..i] == ids[..i];
      m := m[names[i] := ids[i]];
    }
    assert names[..|names|] == names && ids[..|ids|] == ids;
  }

  /** The inner `for k, v := range entry.Fields` loop. */
  method RenderEntry(e: StreamEntry) returns (v: Value)
    ensures EntryRendered(e, v)
  {
    var items := [Bulk(e.id)];
    var rest := e.fields.Keys;
    ghost var order: seq<string> := [];
    while rest != {}
      invariant rest <= e.fields.Keys
      invariant forall x :: x in order ==> x in e.fields && x !in rest
      invariant forall x :: x in e.fields ==> x in rest || x in order
      invariant Distinct(order)
      invariant items == [Bulk(e.id)] + FieldPairs(order, e.fields)
      decreases rest
    {
      var k :| k in rest;
      rest := rest - {k};
      items := items + [Bulk(k), Bulk(e.fields[k])];
      FieldPairsAppend(order, k, e.fields);
      DistinctAppend(order, k);
      order := order + [k];
    }
    assert Enumerates(order, e.fields.Keys);
    v := Array(items);
  }

  /** The loop filling `respEntries` by index. */
  method RenderEntries(es: seq<StreamEntry>) returns (v: Value)
    ensures EntriesRendered(es, v)
  {
    var a := new Value[|es|];
    for i := 0 to |es|
      invariant forall j :: 0 <= j < i ==> EntryRendered(es[j], a[j])
    {
      var entry := RenderEntry(es[i]);
      a[i] := entry;
    }
    v := Array(a[..]);
  }

  /** The `for stream, entries := range entriesMap` loop of XREAD. */
  method RenderStreams(hits: map<string, seq<StreamEntry>>) returns (v: Value)
    ensures StreamsRendered(hits, v)
  {
    var items: seq<Value> := [];
    var rest := hits.Keys;
    ghost var order: seq<string> := [];
    while rest != {}
      invariant rest <= hits.Keys
      invariant forall x :: x in order ==> x in hits && x !in rest
      invariant forall x :: x in hits ==> x in rest || x in order
      invariant Distinct(order)
      invariant |order| == |items|
      invariant forall i :: 0 <= i < |order| ==> StreamRendered(order[i], hits[order[i]], items[i])
      decreases rest
    {
      var key :| key in rest;
      rest := rest - {key};
      var entries := RenderEntries(hits[key]);
      items := items + [Array([Bulk(key), entries])];
      DistinctAppend(order, key);
      order := order + [key];
    }
    assert Enumerates(order, hits.Keys);
    v := Array(items);
  }

  // ---------------------------------------------------------------------------
  // Properties
  // ---------------------------------------------------------------------------

  lemma {:induction false} ReplayKeepsWellFormed(db: Db, queue: seq<seq<Value>>, now: int)
    requires WellFormed(db)
    ensures WellFormed(Replay(db, queue, now).0)
    decreases |queue|
  {
    if |queue| > 0 {
      ReplayKeepsWellFormed(db, queue[..|queue| - 1], now);
      var db' := Replay(db, queue[..|queue| - 1], now).0;
      IncrKeepsWellFormed(db', if |queue[|queue| - 1]| == 0 then [] else queue[|queue| - 1][1..], now);
    }
  }

  lemma IncrKeepsWellFormed(db: Db, args: seq<Value>, now: int)
    requires WellFormed(db)
    ensures WellFormed(IncrOp(db, args, now).0)
  {
    if |args| == 1 {
      var key := args[0].bulk;
      SimpleOpsKeepWellFormed(db, key, "", None, [], now);
      var db' := GetOp(db, key, now).0;
      SimpleOpsKeepWellFormed(db', key, "", None, [], now);
      forall value | true
        ensures WellFormed(SetOp(db', key, value, None))
      {
        SimpleOpsKeepWellFormed(db', key, value, None, [], now);
      }
    }
  }

  /** Every turn keeps the stored stream ids readable, so XADD never panics. */
  lemma TransitionKeepsWellFormed(s: Session, db: Db, frame: Value, now: nat)
    requires WellFormed(db)
    ensures WellFormed(Transition(s, db, frame, now).1)
  {
    if frame.kind == ArrayKind && |frame.items| > 0 {
      ReplayKeepsWellFormed(db, s.queued, now);
      var command := CommandOf(ToUpper(frame.items[0].bulk));
      if command.Plain? {
        RunKeepsWellFormed(db, command.op, frame.items[1..], now);
      }
    }
  }

  lemma RunKeepsWellFormed(db: Db, op: Op, args: seq<Value>, now: nat)
    requires WellFormed(db)
    ensures WellFormed(Run(db, op, args, now).0)
  {
    match op
    case SET => SetKeepsWellFormed(db, args, now);
    case GET =>
      if |args| >= 1 {
        SimpleOpsKeepWellFormed(db, args[0].bulk, "", None, [], now);
      }
    case LPUSH =>
      if |args| >= 2 {
        SimpleOpsKeepWellFormed(db, args[0].bulk, "", None, Bulks(args[1..]), now);
      }
    case LPOP =>
      if |args| == 1 {
        SimpleOpsKeepWellFormed(db, args[0].bulk, "", None, [], now);
      }
    case BLPOP =>
      if |args| >= 2 {
        BLPopKeepsWellFormed(db, Bulks(args[..|args| - 1]));
      }
    case XADD => XAddCommandKeepsWellFormed(db, args, now);
    case INCR => IncrKeepsWellFormed(db, args, now);
    case _ =>
  }

  lemma SetKeepsWellFormed(db: Db, args: seq<Value>, now: nat)
    requires WellFormed(db)
    ensures WellFormed(SetCommand(db, args, now).0)
  {
    if |args| >= 2 {
      forall e: Option<int> | true
        ensures WellFormed(SetOp(db, args[0].bulk, args[1].bulk, e))
      {
        SimpleOpsKeepWellFormed(db, args[0].bulk, args[1].bulk, e, [], now);
      }
    }
  }

  lemma XAddCommandKeepsWellFormed(db: Db, args: seq<Value>, now: nat)
    requires WellFormed(db)
    ensures WellFormed(XAddCommand(db, args, now).0)
  {
    if |args| >= 3 && (|args| - 2) % 2 == 0 {
      XAddKeepsWellFormed(db, args[0].bulk, args[1].bulk, FieldMap(args[2..]), now);
    }
  }

  // ---------------------------------------------------------------------------
  // The transaction state machine
  // ---------------------------------------------------------------------------

  /** `f` is a command frame whose name, in any letter case, selects `c`. */
  predicate Names(f: Value, c: Command) {
    f.kind == ArrayKind && |f.items| > 0 && CommandOf(ToUpper(f.items[0].bulk)) == c
  }

  /** A frame a transaction queues: a command other than MULTI, EXEC and DISCARD, known
      or not. */
  predicate Queueable(f: Value) {
    f.kind == ArrayKind && |f.items| > 0 &&
    var c := CommandOf(ToUpper(f.items[0].bulk)); c != MULTI && c != EXEC && c != DISCARD
  }

  /** A frame that is not a non-empty array changes nothing. */
  lemma MalformedFrame(s: Session, db: Db, f: Value, now: nat)
    requires WellFormed(db)
    requires f.kind != ArrayKind || |f.items| == 0
    ensures Transition(s, db, f, now) == (s, db, Send(ErrorString(InvalidFormat)))
  {
  }

  /** Inside a transaction a queueable frame is queued, whatever its arguments, and
      nothing runs. */
  lemma Queues(queued: seq<seq<Value>>, db: Db, f: Value, now: nat)
    requires WellFormed(db) && Queueable(f)
    ensures Transition(Session(true, queued), db, f, now) ==
      (Session(true, queued + [f.items]), db, Send(SimpleString("QUEUED")))
  {
  }

  /** MULTI outside a transaction starts one with an empty queue; inside one it is an
      error that keeps the queue. */
  lemma MultiStarts(s: Session, db: Db, multi: Value, now: nat)
    requires WellFormed(db) && Names(multi, MULTI)
    ensures Transition(s, db, multi, now) ==
      if s.inTransaction then (s, db, Send(ErrorString(NestedMultiError)))
      else (Session(true, []), db, Send(SimpleString("OK")))
  {
  }

  /** EXEC inside a transaction replays the queue and ends the transaction; outside one
      it is an error. */
  lemma ExecEnds(s: Session, db: Db, exec: Value, now: nat)
    requires WellFormed(db) && Names(exec, EXEC)
    ensures Transition(s, db, exec, now) ==
      if s.inTransaction then (Session(false, []), Replay(db, s.queued, now).0, Send(Array(Replay(db, s.queued, now).1)))
      else (s, db, Send(ErrorString(ExecWithoutMultiError)))
  {
  }

  /** DISCARD inside a transaction drops the queue and ends the transaction; outside one
      it is an error. */
  lemma DiscardEnds(s: Session, db: Db, discard: Value, now: nat)
    requires WellFormed(db) && Names(discard, DISCARD)
    ensures Transition(s, db, discard, now) ==
      if s.inTransaction then (Session(false, []), db, Send(SimpleString("OK")))
      else (s, db, Send(ErrorString(DiscardWithoutMultiError)))
  {
  }

  /** Command names are case-insensitive: outside a transaction two frames whose names
      agree once upper-cased, and whose arguments agree, have the same effect. */
  lemma CaseInsensitive(s: Session, db: Db, f: Value, g: Value, now: nat)
    requires WellFormed(db) && !s.inTransaction
    requires f.kind == ArrayKind && g.kind == ArrayKind && |f.items| > 0 && |g.items| > 0
    requires ToUpper(f.items[0].bulk) == ToUpper(g.items[0].bulk) && f.items[1..] == g.items[1..]
    ensures Transition(s, db, f, now) == Transition(s, db, g, now)
  {
  }

  /** An unknown command outside a transaction is answered with its upper-cased name. */
  lemma UnknownCommand(queued: seq<seq<Value>>, db: Db, f: Value, now: nat)
    requires WellFormed(db) && Names(f, Unknown)
    ensures Transition(Session(false, queued), db, f, now) ==
      (Session(false, queued), db, Send(ErrorString(UnknownCommandError(ToUpper(f.items[0].bulk)))))
  {
  }

  lemma ToUpperOfUpper(s: string)
    requires forall i :: 0 <= i < |s| ==> 'A' <= s[i] <= 'Z'
    ensures ToUpper(s) == s
  {
  }

  /** Each result of EXEC is computed on the store the commands before it left. */
  lemma {:induction false} ReplayInOrder(db: Db, queue: seq<seq<Value>>, now: int, i: nat)
    requires i < |queue|
    ensures Replay(db, queue, now).1[i] == ReplayOne(Replay(db, queue[..i], now).0, queue[i], now).1
    decreases |queue|
  {
    var n := |queue| - 1;
    if i < n {
      ReplayInOrder(db, queue[..n], now, i);
      assert queue[..n][..i] == queue[..i];
    } else {
      assert queue[..i] == queue[..n];
    }
  }

  /** A queued command EXEC does not run: an empty one or one other than INCR. */
  predicate Refused(command: seq<Value>) {
    |command| == 0 || ToUpper(command[0].bulk) != "INCR"
  }

  /** The error EXEC gives for a refused command. */
  function Refusal(command: seq<Value>): Value {
    ErrorString(if |command| == 0 then EmptyCommandError else NotSupportedError)
  }

  /** Only INCR runs inside EXEC: a queue without an INCR changes nothing and each of its
      results is an error. */
  lemma {:induction false} ReplayOnlyIncr(db: Db, queue: seq<seq<Value>>, now: int)
    requires forall i :: 0 <= i < |queue| ==> Refused(queue[i])
    ensures Replay(db, queue, now).0 == db
    ensures forall i :: 0 <= i < |queue| ==> Replay(db, queue, now).1[i] == Refusal(queue[i])
    decreases |queue|
  {
    if |queue| > 0 {
      var n := |queue| - 1;
      var before := queue[..n];
      assert forall i :: 0 <= i < n ==> before[i] == queue[i];
      ReplayOnlyIncr(db, before, now);
      var results := Replay(db, before, now).1;
      ReplayOneNotIncr(db, queue[n], now);
      ReplayLast(db, queue, now);
      assert Replay(db, queue, now) == (db, results + [Refusal(queue[n])]);
    }
  }

  lemma ReplayOneNotIncr(db: Db, command: seq<Value>, now: int)
    requires Refused(command)
    ensures ReplayOne(db, command, now) == (db, Refusal(command))
  {
  }

  /** The last step of `Replay`, unfolded once. */
  lemma ReplayLast(db: Db, queue: seq<seq<Value>>, now: int)
    requires |queue| > 0
    ensures var before := Replay(db, queue[..|queue| - 1], now);
      var step := ReplayOne(before.0, queue[|queue| - 1], now);
      Replay(db, queue, now) == (step.0, before.1 + [step.1])
  {
  }

  // ---------------------------------------------------------------------------
  // Properties of single commands
  // ---------------------------------------------------------------------------

  /** INCR on a missing (or expired) key stores `"1"`. */
  lemma IncrAbsent(db: Db, key: string, now: int)
    requires GetOp(db, key, now).1.None?
    ensures var (db', reply) := IncrOp(db, [Bulk(key)], now);
      reply == Integer(1) && GetOp(db', key, now).1 == Some(Itoa(1)) && db'[key].expiration.None?
  {
    assert Itoa(1) == "1";
  }

  /** INCR on a stored integer stores its successor, clearing any expiration. */
  lemma IncrNext(db: Db, key: string, n: int, now: int)
    requires GetOp(db, key, now).1.Some? && Atoi(GetOp(db, key, now).1.value) == Some(n)
    ensures var (db', reply) := IncrOp(db, [Bulk(key)], now);
      reply == Integer(n + 1) && GetOp(db', key, now).1 == Some(Itoa(n + 1)) && db'[key].expiration.None?
  {
    AtoiItoa(n);
  }

  /** INCR on a stored value that is not an integer changes nothing. */
  lemma IncrNotInteger(db: Db, key: string, now: int)
    requires GetOp(db, key, now).1.Some? && Atoi(GetOp(db, key, now).1.value).None?
    ensures IncrOp(db, [Bulk(key)], now) == (db, ErrorString(NotIntegerError))
  {
  }

  lemma ReplayIncr(db: Db, incr: seq<Value>, key: string, now: int)
    requires |incr| == 2 && ToUpper(incr[0].bulk) == "INCR" && incr[1].bulk == key
    ensures ReplayOne(db, incr, now) == IncrOp(db, [Bulk(key)], now)
  {
  }

  /** `k` queued `INCR key` commands (in any case) on a missing key count 1, 2, ..., k. */
  lemma {:induction false} IncrCounts(db: Db, incr: seq<Value>, key: string, k: nat, now: int)
    requires |incr| == 2 && ToUpper(incr[0].bulk) == "INCR" && incr[1].bulk == key
    requires GetOp(db, key, now).1.None?
    ensures var (db', results) := Replay(db, seq(k, _ => incr), now);
      (forall i :: 0 <= i < k ==> results[i] == Integer(i + 1)) &&
      (k > 0 ==> GetOp(db', key, now).1 == Some(Itoa(k)))
    decreases k
  {
    if k > 0 {
      var queue := seq(k, _ => incr);
      IncrCounts(db, incr, key, k - 1, now);
      var shorter := seq(k - 1, _ => incr);
      assert queue[..k - 1] == shorter;
      var (db1, results1) := Replay(db, shorter, now);
      ReplayIncr(db1, incr, key, now);
      var (db2, last) := IncrOp(db1, [Bulk(key)], now);
      assert Replay(db, queue, now) == (db2, results1 + [last]);
      if k == 1 {
        IncrAbsent(db1, key, now);
      } else {
        AtoiItoa(k - 1);
        IncrNext(db1, key, k - 1, now);
      }
    }
  }

  /** `SET key value EX n` (the option in any case) with a positive `n`: the value
      expires `n` seconds after `now`. */
  lemma SetWithEx(db: Db, key: string, value: string, option: string, time: string, n: int, now: int)
    requires ToUpper(option) == "EX" && Atoi(time) == Some(n) && n > 0
    ensures SetCommand(db, [Bulk(key), Bulk(value), Bulk(option), Bulk(time)], now) ==
      (SetOp(db, key, value, Some(now + n * 1000)), Send(SimpleString("OK")))
  {
    var args := [Bulk(key), Bulk(value), Bulk(option), Bulk(time)];
    assert args[2].bulk == option && args[3].bulk == time;
    assert SetOptions(args, 4, Some(now + n * 1000), now) == Ok(Some(now + n * 1000));
  }

  /** `SET key value PX n` with a positive `n`: the value expires `n` milliseconds after
      `now`. */
  lemma SetWithPx(db: Db, key: string, value: string, option: string, time: string, n: int, now: int)
    requires ToUpper(option) == "PX" && Atoi(time) == Some(n) && n > 0
    ensures SetCommand(db, [Bulk(key), Bulk(value), Bulk(option), Bulk(time)], now) ==
      (SetOp(db, key, value, Some(now + n)), Send(SimpleString("OK")))
  {
    var args := [Bulk(key), Bulk(value), Bulk(option), Bulk(time)];
    assert args[2].bulk == option && args[3].bulk == time;
    assert SetOptions(args, 4, Some(now + n), now) == Ok(Some(now + n));
  }

  /** An expiry that is not a positive integer rejects the SET, whatever follows. */
  lemma SetExpiryRejected(db: Db, key: string, value: string, option: string, time: string, rest: seq<Value>, now: int)
    requires ToUpper(option) == "EX" || ToUpper(option) == "PX"
    requires Atoi(time).None? || Atoi(time).value <= 0
    ensures SetCommand(db, [Bulk(key), Bulk(value), Bulk(option), Bulk(time)] + rest, now) ==
      (db, Send(ErrorString(ExpireError)))
  {
  }

  /** An option without its value: `EX` replies with a syntax error; `PX` replies with a
      syntax error and then panics. Either way nothing is stored. */
  lemma SetOptionWithoutValue(db: Db, key: string, value: string, option: string, now: int)
    requires ToUpper(option) == "EX" || ToUpper(option) == "PX"
    ensures SetCommand(db, [Bulk(key), Bulk(value), Bulk(option)], now) ==
      (db, Direct(if ToUpper(option) == "EX" then Sent(ErrorString(SyntaxError)) else Panic([ErrorString(SyntaxError)])))
  {
  }

  /** An option other than `EX` and `PX` is a syntax error, and nothing is stored. */
  lemma SetUnknownOption(db: Db, key: string, value: string, option: string, rest: seq<Value>, now: int)
    requires ToUpper(option) != "EX" && ToUpper(option) != "PX"
    ensures SetCommand(db, [Bulk(key), Bulk(value), Bulk(option)] + rest, now) ==
      (db, Send(ErrorString(SyntaxError)))
  {
    var args := [Bulk(key), Bulk(value), Bulk(option)] + rest;
    assert args[2].bulk == option;
  }

  /** A successful BLPOP removes the first element of the first non-empty list and then
      panics before replying, so the element is lost. */
  lemma BLPopLosesElement(db: Db, args: seq<Value>)
    requires |args| >= 2 && Atoi(args[|args| - 1].bulk).Some? && Atoi(args[|args| - 1].bulk).value >= 0
    requires exists j :: 0 <= j < |args| - 1 && ListAt(db, args[j].bulk) != []
    ensures var (db', reply) := BLPopCommand(db, args);
      var keys := Bulks(args[..|args| - 1]);
      reply == Direct(Panic([])) &&
      exists i: nat :: FirstNonEmpty(db, keys, i) && ListAt(db', keys[i]) == ListAt(db, keys[i])[1..]
  {
    var keys := Bulks(args[..|args| - 1]);
    var j :| 0 <= j < |args| - 1 && ListAt(db, args[j].bulk) != [];
    assert keys[j] == args[j].bulk;
    var (db', popped) := BLPopOp(db, keys);
    assert popped.Some?;
  }

  /** `XREAD COUNT t STREAMS k1 .. kn id1 .. idn` (the words in any case) reads each key
      from its id, with the count `strconv.Atoi` reads from `t`, or 0 (no cap) when it
      refuses `t`. */
  lemma XReadCountStreams(db: Db, countWord: string, t: string, streamsWord: string, names: seq<string>, ids: seq<string>)
    requires ToUpper(countWord) == "COUNT" && ToUpper(streamsWord) == "STREAMS"
    requires |names| == |ids| > 0
    ensures XReadCommand(db, [Bulk(countWord), Bulk(t), Bulk(streamsWord)] + BulkValues(names) + BulkValues(ids)) ==
      (db, ReadStreams(db, names, ids, AtoiOrZero(t)))
  {
    var head := [Bulk(countWord), Bulk(t), Bulk(streamsWord)];
    var args := head + BulkValues(names) + BulkValues(ids);
    HeadAndTail(head, BulkValues(names), BulkValues(ids));
    CountThenStreams(args, countWord, t, streamsWord);
    StreamArgsHalves(args, names, ids);
    XReadParsed(db, args, AtoiOrZero(t), 2, names, ids);
  }

  lemma XReadParsed(db: Db, args: seq<Value>, count: int, at: nat, names: seq<string>, ids: seq<string>)
    requires 0 < at && at + 1 < |args|
    requires XReadOptions(args, 0, 0) == (count, at) && StreamArgs(args, at) == (names, ids)
    ensures XReadCommand(db, args) == (db, ReadStreams(db, names, ids, count))
  {
  }

  lemma HeadAndTail(head: seq<Value>, a: seq<Value>, b: seq<Value>)
    ensures (head + a + b)[..|head|] == head && (head + a + b)[|head|..] == a + b
  {
    assert head + a + b == head + (a + b);
  }

  lemma CountThenStreams(args: seq<Value>, countWord: string, t: string, streamsWord: string)
    requires ToUpper(countWord) == "COUNT" && ToUpper(streamsWord) == "STREAMS"
    requires |args| >= 3 && args[..3] == [Bulk(countWord), Bulk(t), Bulk(streamsWord)]
    ensures XReadOptions(args, 0, 0) == (AtoiOrZero(t), 2)
  {
    assert args[0] == Bulk(countWord) && args[1] == Bulk(t) && args[2] == Bulk(streamsWord);
    assert XReadOptions(args, 2, AtoiOrZero(t)) == (AtoiOrZero(t), 2);
  }

  lemma StreamArgsHalves(args: seq<Value>, names: seq<string>, ids: seq<string>)
    requires |args| >= 3 && |names| == |ids| && args[3..] == BulkValues(names) + BulkValues(ids)
    ensures StreamArgs(args, 2) == (names, ids)
  {
    var rest := args[3..];
    assert rest[..|rest| / 2] == BulkValues(names);
    assert rest[|rest| / 2..] == BulkValues(ids);
    assert Bulks(BulkValues(names)) == names;
    assert Bulks(BulkValues(ids)) == ids;
  }

  /** The two halves after `STREAMS` are equally long exactly when their total is even. */
  lemma StreamArgsBalanced(args: seq<Value>, at: nat)
    requires at < |args|
    ensures |StreamArgs(args, at).0| == |StreamArgs(args, at).1| <==> (|args| - at - 1) % 2 == 0
  {
  }

  /** After `STREAMS`, keys and ids must pair up: an odd number of them is the mismatch
      error, and only that. */
  lemma XReadUnbalanced(db: Db, args: seq<Value>)
    requires var at := XReadOptions(args, 0, 0).1; at > 0 && at + 1 < |args|
    ensures var at := XReadOptions(args, 0, 0).1;
      XReadCommand(db, args).1 == Send(ErrorString(XReadMismatchError)) <==> (|args| - at - 1) % 2 == 1
  {
    var (count, at) := XReadOptions(args, 0, 0);
    var (names, ids) := StreamArgs(args, at);
    XReadParsed(db, args, count, at, names, ids);
    StreamArgsBalanced(args, at);
  }

  /** The option loop's position is 0 or a `STREAMS` word at or after where it started. */
  lemma {:induction false} OptionsAt(args: seq<Value>, i: nat, count: int)
    ensures var at := XReadOptions(args, i, count).1;
      at == 0 || (i <= at < |args| && ToUpper(args[at].bulk) == "STREAMS")
    decreases |args| - i
  {
    if i < |args| {
      var word := ToUpper(args[i].bulk);
      if word == "COUNT" && i + 1 < |args| {
        OptionsAt(args, i + 2, AtoiOrZero(args[i + 1].bulk));
      } else if word == "BLOCK" && i + 1 < |args| {
        OptionsAt(args, i + 2, count);
      } else if word != "STREAMS" {
        OptionsAt(args, i + 1, count);
      }
    }
  }

  /** Without a `STREAMS` word before the last argument, XREAD is a syntax error. */
  lemma STREAMSLastOrAbsent(db: Db, args: seq<Value>)
    requires forall j :: 0 <= j < |args| - 1 ==> ToUpper(args[j].bulk) != "STREAMS"
    ensures XReadCommand(db, args) == (db, Send(ErrorString(XReadSyntaxError)))
  {
    OptionsAt(args, 0, 0);
  }

  /** `STREAMS` as the very first argument is a syntax error: position 0 also stands for
      "not found". */
  lemma XReadStreamsFirst(db: Db, args: seq<Value>)
    requires |args| > 0 && ToUpper(args[0].bulk) == "STREAMS"
    ensures XReadCommand(db, args) == (db, Send(ErrorString(XReadSyntaxError)))
  {
  }

  /** The field names and values of XADD's argument pairs. */
  function FieldNames(vs: seq<Value>): (r: seq<string>)
    requires |vs| % 2 == 0
    ensures |r| == |vs| / 2
    decreases |vs|
  {
    if |vs| == 0 then [] else FieldNames(vs[..|vs| - 2]) + [vs[|vs| - 2].bulk]
  }

  function FieldValues(vs: seq<Value>): (r: seq<string>)
    requires |vs| % 2 == 0
    ensures |r| == |vs| / 2
    decreases |vs|
  {
    if |vs| == 0 then [] else FieldValues(vs[..|vs| - 2]) + [vs[|vs| - 1].bulk]
  }

  /** XADD's fields pair names with values as XREAD pairs keys with ids: a name given
      twice keeps its later value. */
  lemma {:induction false} FieldMapPairs(vs: seq<Value>)
    requires |vs| % 2 == 0
    ensures FieldMap(vs) == ZipMap(FieldNames(vs), FieldValues(vs))
    ensures forall k :: k in FieldMap(vs) <==> k in FieldNames(vs)
    decreases |vs|
  {
    if |vs| > 0 {
      FieldMapPairs(vs[..|vs| - 2]);
      var names, values := FieldNames(vs), FieldValues(vs);
      assert names[..|names| - 1] == FieldNames(vs[..|vs| - 2]);
      assert values[..|values| - 1] == FieldValues(vs[..|vs| - 2]);
    }
    ZipMapMeaning(FieldNames(vs), FieldValues(vs));
  }
}
