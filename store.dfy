/**
  The typed key-value store of `store/kvstore.go`. A key maps to a `Data` record that
  holds a string, a list or a stream, told apart by its `Type` tag. Each operation is
  given twice: as a pure function on the map (`SetOp`, `GetOp`, ...), which the
  dispatcher's specification composes and the lemmas reason about, and as a method of
  the `KeyValueStore` class that updates its `data` field as the Go method updates
  `kv.data`, proved to agree with the function. The clock is the parameter `now`, in
  milliseconds.
*/
module Store {
  import opened Wrappers
  import opened Text
  import opened Streams

  /** `store.Data`, with the `Stream` field the code also uses. `typ` is the Go field
      `Type`: `"list"`, `"stream"`, or `""` as SET leaves it. An `expiration` of `None`
      is Go's zero `time.Time`. */
  datatype Data = Data(value: string, list: seq<string>, typ: string, expiration: Option<int>, stream: seq<StreamEntry>)

  type Db = map<string, Data>

  /** The record LPUSH starts from when the key holds no list. */
  const EmptyList: Data := Data("", [], "list", None, [])

  /** The record XADD starts from when the key holds no stream. */
  const EmptyStream: Data := Data("", [], "stream", None, [])

  /** `!Expiration.IsZero() && now.After(Expiration)`. */
  predicate Expired(d: Data, now: int) {
    d.expiration.Some? && now > d.expiration.value
  }

  /** The list a key holds, as the list commands see it: none unless tagged `"list"`. */
  function ListAt(db: Db, key: string): seq<string> {
    if key in db && db[key].typ == "list" then db[key].list else []
  }

  /** The stream a key holds, as the stream commands see it: none unless tagged `"stream"`. */
  function StreamAt(db: Db, key: string): seq<StreamEntry> {
    if key in db && db[key].typ == "stream" then db[key].stream else []
  }

  /** Every stored stream id has a `-`, so reading it never panics. */
  predicate WellFormed(db: Db) {
    forall k :: k in db ==> forall j :: 0 <= j < |db[k].stream| ==> '-' in db[k].stream[j].id
  }

  /** The ids of a stream, read as numbers, strictly increase. */
  predicate Increasing(stream: seq<StreamEntry>) {
    (forall i :: 0 <= i < |stream| ==> ParseId(stream[i].id).Some?) &&
    forall i, j :: 0 <= i < j < |stream| ==> Less(ParseId(stream[i].id).value, ParseId(stream[j].id).value)
  }

  // ---------------------------------------------------------------------------
  // The operations on the map
  // ---------------------------------------------------------------------------

  /** SET: the key's record is replaced wholesale, with an empty type tag. */
  function SetOp(db: Db, key: string, value: string, expiration: Option<int>): Db {
    db[key := Data(value, [], "", expiration, [])]
  }

  /** GET, with its lazy expiry: an expired key is deleted. The type tag is not looked
      at, so a list or a stream reads as its (empty) `Value`. */
  function GetOp(db: Db, key: string, now: int): (r: (Db, Option<string>))
    ensures r.1.Some? <==> key in db && !Expired(db[key], now)
    ensures r.1.Some? ==> r.1.value == db[key].value && r.0 == db
    ensures r.1.None? ==> r.0 == db - {key}
  {
    if key !in db then (db, None)
    else if Expired(db[key], now) then (db - {key}, None)
    else (db, Some(db[key].value))
  }

  /** LPUSH: the elements go in front of the list, `elements[0]` first; a key holding
      no list starts from an empty one. The result is the new length. */
  function LPushOp(db: Db, key: string, elements: seq<string>): (r: (Db, nat))
    ensures ListAt(r.0, key) == elements + ListAt(db, key)
    ensures r.1 == |elements| + |ListAt(db, key)|
    ensures key in r.0 && r.0 == db[key := r.0[key]]
  {
    var base := if key in db && db[key].typ == "list" then db[key] else EmptyList;
    var entry := base.(list := elements + base.list);
    (db[key := entry], |entry.list|)
  }

  /** The list elements at positions `lo` to `hi`, both included, positions outside the
      list ignored: the meaning of LRANGE once its bounds are normalised. */
  function Window(s: seq<string>, lo: int, hi: int): (r: seq<string>)
    ensures |r| <= |s|
  {
    if |s| == 0 then [] else (if lo <= 0 <= hi then [s[0]] else []) + Window(s[1..], lo - 1, hi - 1)
  }

  /** A negative LRANGE index counts from the end of the list. */
  function Normalise(index: int, length: nat): int {
    if index < 0 then length + index else index
  }

  /** LRANGE: the elements between the normalised bounds. */
  function LRangeOp(db: Db, key: string, start: int, end: int): seq<string> {
    var list := ListAt(db, key);
    Window(list, Normalise(start, |list|), Normalise(end, |list|))
  }

  /** LPOP: the head of a non-empty list is removed and returned; an emptied list stays
      stored. Anything else is not found and changes nothing. */
  function LPopOp(db: Db, key: string): (r: (Db, Option<string>))
    ensures r.1.Some? <==> |ListAt(db, key)| > 0
    ensures r.1.Some? ==>
      r.1.value == ListAt(db, key)[0] && ListAt(r.0, key) == ListAt(db, key)[1..] &&
      r.0 == db[key := db[key].(list := ListAt(db, key)[1..])]
    ensures r.1.None? ==> r.0 == db
  {
    if key in db && db[key].typ == "list" && |db[key].list| > 0 then
      (db[key := db[key].(list := db[key].list[1..])], Some(db[key].list[0]))
    else (db, None)
  }

  /** BLPOP, which does not block: it pops from the first key, in argument order, that
      holds a non-empty list. The popped value comes back as a one-element list, as in
      the Go code. */
  function BLPopOp(db: Db, keys: seq<string>): (r: (Db, Option<(seq<string>, string)>))
    ensures r.1.None? ==> r.0 == db && forall j :: 0 <= j < |keys| ==> ListAt(db, keys[j]) == []
    ensures r.1.Some? ==>
      exists i :: 0 <= i < |keys| && keys[i] == r.1.value.1 && FirstNonEmpty(db, keys, i) &&
        r.1.value.0 == [ListAt(db, keys[i])[0]] && r.0 == LPopOp(db, keys[i]).0
    decreases |keys|
  {
    if |keys| == 0 then (db, None)
    else if |ListAt(db, keys[0])| > 0 then
      var popped := LPopOp(db, keys[0]);
      (popped.0, Some(([popped.1.value], keys[0])))
    else
      var rest := BLPopOp(db, keys[1..]);
      if rest.1.Some? then
        ghost var i :| 0 <= i < |keys[1..]| && keys[1..][i] == rest.1.value.1 && FirstNonEmpty(db, keys[1..], i) &&
          rest.1.value.0 == [ListAt(db, keys[1..][i])[0]] && rest.0 == LPopOp(db, keys[1..][i]).0;
        assert keys[i + 1] == keys[1..][i];
        assert FirstNonEmpty(db, keys, i + 1);
        rest
      else rest
  }

  /** `keys[i]` is the first of `keys` to hold a non-empty list. */
  predicate FirstNonEmpty(db: Db, keys: seq<string>, i: nat) {
    i < |keys| && ListAt(db, keys[i]) != [] && forall j :: 0 <= j < i ==> ListAt(db, keys[j]) == []
  }

  /** TYPE: the key's type tag, `"none"` for an absent key. */
  function TypeOp(db: Db, key: string): string {
    if key in db then db[key].typ else "none"
  }

  const InvalidIdError: string := "ERR Invalid stream ID specified as stream command argument"
  const SmallIdError: string := "ERR The ID specified in XADD is equal or smaller than the target stream's last entry"

  /** XADD: `*` mints an id, any other id must be valid and greater than the stream's
      last; the entry is appended. A key holding no stream starts from an empty one. */
  function XAddOp(db: Db, key: string, id: string, fields: map<string, string>, now: nat): (r: (Db, Result<string, string>))
    requires WellFormed(db)
  {
    var base := if key in db && db[key].typ == "stream" then db[key] else EmptyStream;
    if id == "*" then
      GeneratedId(base.stream, now);
      var minted := GenerateStreamID(base.stream, now).value;
      (db[key := base.(stream := base.stream + [StreamEntry(minted, fields)])], Ok(minted))
    else if !ValidateStreamID(id) then (db, Err(InvalidIdError))
    else
      ParseIdDefined(id);
      ParseIdDefined(if |base.stream| == 0 then "" else base.stream[|base.stream| - 1].id);
      if !IsIDGreater(id, base.stream).value then (db, Err(SmallIdError))
      else (db[key := base.(stream := base.stream + [StreamEntry(id, fields)])], Ok(id))
  }

  /** XRANGE: the scan of the key's stream with `inRange`; `None` is a panic. */
  function XRangeOp(db: Db, key: string, start: string, end: string, count: int): Option<seq<StreamEntry>> {
    Scan(StreamAt(db, key), Between(start, end), count, 0, [])
  }

  /** The scan XREAD makes of the stream at one key. */
  function ReadFrom(db: Db, key: string, startId: string, count: int): Option<seq<StreamEntry>> {
    Scan(StreamAt(db, key), From(startId), count, 0, [])
  }

  /** XREAD: for each requested key, the entries from its start id on; keys with none
      are left out. It panics, whatever order the keys are visited in, when one scan does. */
  function XReadOp(db: Db, streams: map<string, string>, count: int): Option<map<string, seq<StreamEntry>>> {
    if exists k :: k in streams && ReadFrom(db, k, streams[k], count).None? then None
    else Some(Hits(db, streams, count, streams.Keys))
  }

  /** The non-empty scans of the keys in `done`, all of which succeed. */
  function Hits(db: Db, streams: map<string, string>, count: int, done: set<string>): map<string, seq<StreamEntry>>
    requires forall k :: k in done ==> k in streams && ReadFrom(db, k, streams[k], count).Some?
  {
    map k | k in done && ReadFrom(db, k, streams[k], count).value != [] :: ReadFrom(db, k, streams[k], count).value
  }

  lemma HitsAdd(db: Db, streams: map<string, string>, count: int, done: set<string>, key: string, entries: seq<StreamEntry>)
    requires forall k :: k in done ==> k in streams && ReadFrom(db, k, streams[k], count).Some?
    requires key in streams && ReadFrom(db, key, streams[key], count) == Some(entries)
    ensures Hits(db, streams, count, done + {key}) ==
      if entries != [] then Hits(db, streams, count, done)[key := entries] else Hits(db, streams, count, done)
  {
  }

  // ---------------------------------------------------------------------------
  // The store
  // ---------------------------------------------------------------------------

  /** `store.KeyValueStore`; its mutex is not modelled. */
  class KeyValueStore {
    var data: Db

    ghost predicate Valid()
      reads this
    {
      WellFormed(data)
    }

    /** `NewKeyValueStore`. */
    constructor ()
      ensures data == map[] && Valid()
    {
      data := map[];
    }

    method SET(key: string, value: string, expiration: Option<int>)
      requires Valid()
      modifies this
      ensures Valid()
      ensures data == SetOp(old(data), key, value, expiration)
    {
      SimpleOpsKeepWellFormed(data, key, value, expiration, [], 0);
      data := data[key := Data(value, [], "", expiration, [])];
    }

    method GET(key: string, now: int) returns (value: string, found: bool)
      requires Valid()
      modifies this
      ensures Valid()
      ensures data == GetOp(old(data), key, now).0
      ensures found == GetOp(old(data), key, now).1.Some?
      ensures value == if found then GetOp(old(data), key, now).1.value else ""
    {
      SimpleOpsKeepWellFormed(data, key, "", None, [], now);
      if key !in data {
        return "", false;
      }
      var entry := data[key];
      if entry.expiration.Some? && now > entry.expiration.value {
        data := data - {key};
        return "", false;
      }
      return entry.value, true;
    }

    method LPUSH(key: string, elements: seq<string>) returns (length: nat)
      requires Valid()
      modifies this
      ensures Valid()
      ensures (data, length) == LPushOp(old(data), key, elements)
    {
      var entry: Data;
      if key in data && data[key].typ == "list" {
        entry := data[key];
      } else {
        entry := EmptyList;
      }
      var list := Prepend(elements, entry.list);
      entry := entry.(list := list);
      data := data[key := entry];
      length := |entry.list|;
      SimpleOpsKeepWellFormed(old(data), key, "", None, elements, 0);
    }

    method LRANGE(key: string, start: int, end: int) returns (r: seq<string>)
      ensures r == LRangeOp(data, key, start, end)
    {
      if key !in data || data[key].typ != "list" {
        return [];
      }
      var list := data[key].list;
      var l := |list|;
      var lo, hi := start, end;
      if lo < 0 {
        lo := l + lo;
      }
      if hi < 0 {
        hi := l + hi;
      }
      assert lo == Normalise(start, l) && hi == Normalise(end, l);
      WindowSlice(list, lo, hi);
      if lo < 0 {
        lo := 0;
      }
      if hi >= l {
        hi := l - 1;
      }
      if lo > hi || lo >= l {
        return [];
      }
      return list[lo..hi + 1];
    }

    method LLEN(key: string) returns (length: nat)
      ensures length == |ListAt(data, key)|
    {
      if key !in data || data[key].typ != "list" {
        return 0;
      }
      return |data[key].list|;
    }

    method LPOP(key: string) returns (value: string, found: bool)
      requires Valid()
      modifies this
      ensures Valid()
      ensures data == LPopOp(old(data), key).0
      ensures found == LPopOp(old(data), key).1.Some?
      ensures value == if found then LPopOp(old(data), key).1.value else ""
    {
      SimpleOpsKeepWellFormed(data, key, "", None, [], 0);
      if key !in data || data[key].typ != "list" || |data[key].list| == 0 {
        return "", false;
      }
      var entry := data[key];
      data := data[key := entry.(list := entry.list[1..])];
      return entry.list[0], true;
    }

    /** The popped value comes back as in the Go code: a one-element list (`None` for
        Go's `nil`) and the key it came from. */
    method BLPOP(keys: seq<string>) returns (popped: Option<seq<string>>, from: string)
      requires Valid()
      modifies this
      ensures Valid()
      ensures data == BLPopOp(old(data), keys).0
      ensures popped.Some? == BLPopOp(old(data), keys).1.Some?
      ensures popped.Some? ==> (popped.value, from) == BLPopOp(old(data), keys).1.value
    {
      BLPopKeepsWellFormed(data, keys);
      for i := 0 to |keys|
        invariant data == old(data)
        invariant BLPopOp(data, keys) == BLPopOp(data, keys[i..])
      {
        assert keys[i..][1..] == keys[i + 1..];
        var key := keys[i];
        if key in data && data[key].typ == "list" && |data[key].list| > 0 {
          var entry := data[key];
          data := data[key := entry.(list := entry.list[1..])];
          return Some([entry.list[0]]), key;
        }
      }
      return None, "";
    }

    method TYPE(key: string) returns (t: string)
      ensures t == TypeOp(data, key)
    {
      if key !in data {
        return "none";
      }
      return data[key].typ;
    }

    method XADD(key: string, id: string, fields: map<string, string>, now: nat) returns (r: Result<string, string>)
      requires Valid()
      modifies this
      ensures Valid()
      ensures (data, r) == XAddOp(old(data), key, id, fields, now)
    {
      XAddKeepsWellFormed(data, key, id, fields, now);
      var entry: Data;
      if key in data && data[key].typ == "stream" {
        entry := data[key];
      } else {
        entry := EmptyStream;
      }
      var newId := id;
      if id == "*" {
        GeneratedId(entry.stream, now);
        newId := GenerateStreamID(entry.stream, now).value;
      } else {
        if !ValidateStreamID(id) {
          return Err(InvalidIdError);
        }
        ParseIdDefined(id);
        ParseIdDefined(if |entry.stream| == 0 then "" else entry.stream[|entry.stream| - 1].id);
        if !IsIDGreater(id, entry.stream).value {
          return Err(SmallIdError);
        }
      }
      entry := entry.(stream := entry.stream + [StreamEntry(newId, fields)]);
      data := data[key := entry];
      return Ok(newId);
    }

    method XRANGE(key: string, start: string, end: string, count: int) returns (r: Option<seq<StreamEntry>>)
      ensures r == XRangeOp(data, key, start, end, count)
    {
      if key !in data || data[key].typ != "stream" {
        return Some([]);
      }
      r := ScanEntries(data[key].stream, Between(start, end), count);
    }

    /** The keys are visited in no particular order, as Go ranges over a map. */
    method XREAD(streams: map<string, string>, count: int) returns (r: Option<map<string, seq<StreamEntry>>>)
      ensures r == XReadOp(data, streams, count)
    {
      var result: map<string, seq<StreamEntry>> := map[];
      var todo := streams.Keys;
      ghost var done: set<string> := {};
      while todo != {}
        invariant todo <= streams.Keys
        invariant done == streams.Keys - todo
        invariant forall k :: k in done ==> k in streams && ReadFrom(data, k, streams[k], count).Some?
        invariant result == Hits(data, streams, count, done)
        decreases todo
      {
        var key :| key in todo;
        todo := todo - {key};
        var entries: Option<seq<StreamEntry>>;
        if key !in data || data[key].typ != "stream" {
          entries := Some([]);
        } else {
          entries := ScanEntries(data[key].stream, From(streams[key]), count);
        }
        if entries.None? {
          return None;
        }
        HitsAdd(data, streams, count, done, key, entries.value);
        done := done + {key};
        if |entries.value| > 0 {
          result := result[key := entries.value];
        }
      }
      assert done == streams.Keys;
      return Some(result);
    }
  }

  /** LPUSH's loop, putting the elements in front of the list one at a time, the last
      element first. */
  method Prepend(elements: seq<string>, list: seq<string>) returns (r: seq<string>)
    ensures r == elements + list
  {
    r := list;
    var i: int := |elements| - 1;
    while i >= 0
      invariant -1 <= i < |elements|
      invariant r == elements[i + 1..] + list
    {
      assert elements[i..] == [elements[i]] + elements[i + 1..];
      r := [elements[i]] + r;
      i := i - 1;
    }
    assert elements[0..] == elements;
  }

  /** The entry loop of XRANGE and XREAD. */
  method ScanEntries(stream: seq<StreamEntry>, f: Filter, count: int) returns (r: Option<seq<StreamEntry>>)
    ensures r == Scan(stream, f, count, 0, [])
  {
    var result: seq<StreamEntry> := [];
    for i := 0 to |stream|
      invariant Scan(stream, f, count, 0, []) == Scan(stream, f, count, i, result)
    {
      var passes := Test(f, stream[i].id);
      if passes.None? {
        return None;
      }
      if passes.value {
        result := result + [stream[i]];
        if count > 0 && |result| >= count {
          return Some(result);
        }
      }
    }
    return Some(result);
  }

  // ---------------------------------------------------------------------------
  // Properties
  // ---------------------------------------------------------------------------

  /** LRANGE's clamp-and-slice computes the window between the normalised bounds. */
  lemma WindowSlice(s: seq<string>, lo: int, hi: int)
    ensures var a := if lo < 0 then 0 else lo;
            var b := if hi >= |s| then |s| - 1 else hi;
            Window(s, lo, hi) == if a > b || a >= |s| then [] else s[a..b + 1]
  {
    if lo >= |s| {
      WindowBeyond(s, lo, hi);
    } else if lo <= 0 {
      WindowFromStart(s, lo, hi);
    } else {
      WindowSkip(s, lo, hi);
      WindowFromStart(s[lo..], 0, hi - lo);
      if lo <= hi < |s| {
        assert s[lo..][..hi - lo + 1] == s[lo..hi + 1];
      }
    }
  }

  lemma {:induction false} WindowBeyond(s: seq<string>, lo: int, hi: int)
    requires lo >= |s|
    ensures Window(s, lo, hi) == []
    decreases |s|
  {
    if |s| > 0 {
      WindowBeyond(s[1..], lo - 1, hi - 1);
    }
  }

  lemma {:induction false} WindowFromStart(s: seq<string>, lo: int, hi: int)
    requires lo <= 0
    ensures Window(s, lo, hi) == if hi < 0 then [] else if hi >= |s| then s else s[..hi + 1]
    decreases |s|
  {
    if |s| > 0 {
      var rest := Window(s[1..], lo - 1, hi - 1);
      assert Window(s, lo, hi) == (if hi >= 0 then [s[0]] else []) + rest;
      WindowFromStart(s[1..], lo - 1, hi - 1);
      if hi < 0 {
        assert rest == [];
      } else if hi < |s| {
        assert rest == s[1..][..hi];
        assert s[..hi + 1] == [s[0]] + s[1..][..hi];
      } else {
        assert rest == s[1..];
        assert s == [s[0]] + s[1..];
      }
    }
  }

  lemma {:induction false} WindowSkip(s: seq<string>, lo: int, hi: int)
    requires 0 <= lo <= |s|
    ensures Window(s, lo, hi) == Window(s[lo..], 0, hi - lo)
    decreases lo
  {
    if lo > 0 {
      WindowSkip(s[1..], lo - 1, hi - 1);
      assert s[1..][lo - 1..] == s[lo..];
    } else {
      assert s[0..] == s;
    }
  }

  /** `LRANGE key 0 -1` is the whole list. */
  lemma LRangeAll(db: Db, key: string)
    ensures LRangeOp(db, key, 0, -1) == ListAt(db, key)
  {
    var list := ListAt(db, key);
    WindowSlice(list, 0, |list| - 1);
    assert list[0..|list|] == list;
  }

  /** A GET after a SET finds the value written, unless its expiration has passed, in
      which case the key is gone. */
  lemma GetAfterSet(db: Db, key: string, value: string, expiration: Option<int>, now: int)
    ensures var written := SetOp(db, key, value, expiration);
      GetOp(written, key, now) ==
        if expiration.Some? && now > expiration.value then (written - {key}, None) else (written, Some(value))
  {
  }

  /** SET drops whatever list or stream the key held, and TYPE then reports `""`;
      no other key changes. */
  lemma SetReplaces(db: Db, key: string, value: string, expiration: Option<int>)
    ensures var written := SetOp(db, key, value, expiration);
      TypeOp(written, key) == "" && ListAt(written, key) == [] && StreamAt(written, key) == [] &&
      forall k :: k != key ==> (k in written <==> k in db) && (k in db ==> written[k] == db[k])
  {
  }

  /** LPOP undoes an LPUSH of one element. */
  lemma LPopAfterLPush(db: Db, key: string, x: string)
    ensures var pushed := LPushOp(db, key, [x]).0;
      LPopOp(pushed, key).1 == Some(x) && ListAt(LPopOp(pushed, key).0, key) == ListAt(db, key)
  {
    var pushed := LPushOp(db, key, [x]).0;
    assert ListAt(pushed, key) == [x] + ListAt(db, key);
    assert ([x] + ListAt(db, key))[1..] == ListAt(db, key);
  }

  /** The last id of a non-empty stream is at or above `id`, both read as numbers. */
  predicate NotAbove(id: string, stream: seq<StreamEntry>) {
    |stream| > 0 && ParseId(id).Some? && ParseId(stream[|stream| - 1].id).Some? &&
    !Less(ParseId(stream[|stream| - 1].id).value, ParseId(id).value)
  }

  /** XADD's errors: exactly an explicit id that is malformed, or not above the last id,
      is refused, and a refusal changes nothing. */
  lemma XAddErrors(db: Db, key: string, id: string, fields: map<string, string>, now: nat)
    requires WellFormed(db)
    ensures var r := XAddOp(db, key, id, fields, now);
      (r.1 == Err(InvalidIdError) <==> id != "*" && !ValidateStreamID(id)) &&
      (r.1 == Err(SmallIdError) <==>
        id != "*" && ValidateStreamID(id) && NotAbove(id, StreamAt(db, key))) &&
      (r.1.Err? ==> r.0 == db)
  {
    var stream := StreamAt(db, key);
    if id != "*" && ValidateStreamID(id) {
      ParseIdDefined(id);
      if |stream| > 0 {
        ParseIdDefined(stream[|stream| - 1].id);
      }
    }
  }

  /** A successful XADD appends one entry, with the id it returns, to the key's stream
      (a fresh one if the key held none), and changes no other key. */
  lemma XAddAppends(db: Db, key: string, id: string, fields: map<string, string>, now: nat)
    requires WellFormed(db)
    ensures var r := XAddOp(db, key, id, fields, now);
      r.1.Ok? ==>
        StreamAt(r.0, key) == StreamAt(db, key) + [StreamEntry(r.1.value, fields)] &&
        r.0[key].typ == "stream" && r.0 == db[key := r.0[key]] &&
        (id != "*" ==> r.1.value == id)
  {
  }

  /** XADD keeps a stream's ids increasing, provided a minted id is not asked for after
      the clock went back behind the last id. */
  lemma XAddIncreasing(db: Db, key: string, id: string, fields: map<string, string>, now: nat)
    requires WellFormed(db) && Increasing(StreamAt(db, key))
    requires id == "*" && |StreamAt(db, key)| > 0 ==>
      now >= ParseId(StreamAt(db, key)[|StreamAt(db, key)| - 1].id).value.ms
    ensures Increasing(StreamAt(XAddOp(db, key, id, fields, now).0, key))
  {
    var stream := StreamAt(db, key);
    var r := XAddOp(db, key, id, fields, now);
    if r.1.Ok? {
      var e := StreamEntry(r.1.value, fields);
      var next := ParseId(r.1.value);
      if id == "*" {
        GeneratedId(stream, now);
      } else {
        ParseIdDefined(id);
        if |stream| > 0 {
          ParseIdDefined(stream[|stream| - 1].id);
        }
      }
      assert next.Some?;
      assert |stream| > 0 ==> Less(ParseId(stream[|stream| - 1].id).value, next.value);
      AppendIncreasing(stream, e);
    }
  }

  lemma AppendIncreasing(stream: seq<StreamEntry>, e: StreamEntry)
    requires Increasing(stream) && ParseId(e.id).Some?
    requires |stream| > 0 ==> Less(ParseId(stream[|stream| - 1].id).value, ParseId(e.id).value)
    ensures Increasing(stream + [e])
  {
    var s := stream + [e];
    forall i, j | 0 <= i < j < |s|
      ensures Less(ParseId(s[i].id).value, ParseId(s[j].id).value)
    {
      if j == |stream| && i < |stream| - 1 {
        assert Less(ParseId(stream[i].id).value, ParseId(stream[|stream| - 1].id).value);
      }
    }
  }

  /** SET, GET, LPUSH and LPOP keep stored stream ids readable. */
  lemma SimpleOpsKeepWellFormed(db: Db, key: string, value: string, expiration: Option<int>, elements: seq<string>, now: int)
    requires WellFormed(db)
    ensures WellFormed(SetOp(db, key, value, expiration))
    ensures WellFormed(GetOp(db, key, now).0)
    ensures WellFormed(LPushOp(db, key, elements).0)
    ensures WellFormed(LPopOp(db, key).0)
  {
  }

  /** BLPOP keeps stored stream ids readable. */
  lemma BLPopKeepsWellFormed(db: Db, keys: seq<string>)
    requires WellFormed(db)
    ensures WellFormed(BLPopOp(db, keys).0)
  {
    var b := BLPopOp(db, keys);
    if b.1.Some? {
      var i :| 0 <= i < |keys| && b.0 == LPopOp(db, keys[i]).0;
      assert WellFormed(LPopOp(db, keys[i]).0);
    }
  }

  /** XADD only stores ids with a `-`. */
  lemma XAddKeepsWellFormed(db: Db, key: string, id: string, fields: map<string, string>, now: nat)
    requires WellFormed(db)
    ensures WellFormed(XAddOp(db, key, id, fields, now).0)
  {
    var r := XAddOp(db, key, id, fields, now);
    if r.1.Ok? {
      if id == "*" {
        GeneratedId(StreamAt(db, key), now);
      }
      ParseIdDefined(r.1.value);
      var e := StreamEntry(r.1.value, fields);
      assert '-' in e.id;
      assert r.0 == db[key := r.0[key]];
      assert r.0[key].stream == StreamAt(db, key) + [e];
    }
  }

  /** `id` lies in the closed range from `start` to `end`, `-` and `+` meaning no bound. */
  predicate Within(id: string, start: string, end: string) {
    ParseId(id).Some? &&
    (start == "-" || (ParseId(start).Some? && !Less(ParseId(id).value, ParseId(start).value))) &&
    (end == "+" || (ParseId(end).Some? && !Less(ParseId(end).value, ParseId(id).value)))
  }

  /** For bounds that can be read, XRANGE yields, in stream order, the first `count`
      entries (all of them when `count <= 0`) with ids in the closed range. */
  lemma XRangeMeaning(db: Db, key: string, start: string, end: string, count: int)
    requires WellFormed(db)
    requires start == "-" || ParseId(start).Some?
    requires end == "+" || ParseId(end).Some?
    ensures XRangeOp(db, key, start, end, count) == Some(Cap(Matching(StreamAt(db, key), Between(start, end)), count))
    ensures forall e :: e in Matching(StreamAt(db, key), Between(start, end)) ==> Within(e.id, start, end)
  {
    var stream := StreamAt(db, key);
    ParseIdDefined(start);
    ParseIdDefined(end);
    forall j | 0 <= j < |stream|
      ensures Test(Between(start, end), stream[j].id).Some?
    {
      ParseIdDefined(stream[j].id);
      InRangeInclusive(stream[j].id, start, end);
    }
    ScanIsCappedFilter(stream, Between(start, end), count);
    MatchingSelects(stream, Between(start, end));
    forall e | e in Matching(stream, Between(start, end))
      ensures Within(e.id, start, end)
    {
      ParseIdDefined(e.id);
      InRangeInclusive(e.id, start, end);
    }
  }

  /** XREAD panics exactly when a start id without `-` meets a non-empty stream;
      otherwise each key it reports maps to the first `count` entries (all when
      `count <= 0`) with ids at or after its start id, and a key with none is left out. */
  lemma XReadMeaning(db: Db, streams: map<string, string>, count: int)
    requires WellFormed(db)
    ensures XReadOp(db, streams, count).None? <==>
      exists k :: k in streams && '-' !in streams[k] && |StreamAt(db, k)| > 0
    ensures XReadOp(db, streams, count).Some? ==>
      var m := XReadOp(db, streams, count).value;
      (forall k :: k in m <==> k in streams && Matching(StreamAt(db, k), From(streams[k])) != []) &&
      (forall k :: k in m ==> m[k] == Cap(Matching(StreamAt(db, k), From(streams[k])), count))
  {
    forall k | k in streams
      ensures ReadFrom(db, k, streams[k], count).None? <==> '-' !in streams[k] && |StreamAt(db, k)| > 0
      ensures '-' in streams[k] ==>
        ReadFrom(db, k, streams[k], count) == Some(Cap(Matching(StreamAt(db, k), From(streams[k])), count))
    {
      var stream := StreamAt(db, k);
      FromPanics(stream, streams[k], count);
      if '-' in streams[k] {
        ScanIsCappedFilter(stream, From(streams[k]), count);
      } else if |stream| == 0 {
        assert ReadFrom(db, k, streams[k], count) == Some([]);
      }
    }
    if XReadOp(db, streams, count).Some? {
      forall k | k in streams
        ensures '-' in streams[k] || |StreamAt(db, k)| == 0
      {
      }
      forall k | k in streams
        ensures Cap(Matching(StreamAt(db, k), From(streams[k])), count) == [] <==>
          Matching(StreamAt(db, k), From(streams[k])) == []
      {
      }
    }
  }
}
