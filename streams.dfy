/**
  The stream helpers of `store/kvstore.go`: entries, the `ms-seq` ids they carry, and
  the pure functions `validateStreamID`, `compareStreamIDs`, `isIDGreater`,
  `isIDGreaterOrEqual`, `inRange` and `generateStreamID` (with the clock passed in as
  `now`, in milliseconds). Ids are stored as the strings the client sent; the numbers in
  them are read afresh at every comparison, leniently, as the Go code does.
*/
module Streams {
  import opened Wrappers
  import opened Text

  /** `store.StreamEntry`: an id and its field-value pairs. */
  datatype StreamEntry = StreamEntry(id: string, fields: map<string, string>)

  /** The two numbers of a stream id: milliseconds and sequence number. */
  datatype Id = Id(ms: int, seqNo: int)

  /** The order `compareStreamIDs` sorts ids by: by milliseconds, then by sequence. */
  predicate Less(a: Id, b: Id) {
    a.ms < b.ms || (a.ms == b.ms && a.seqNo < b.seqNo)
  }

  /** How `compareStreamIDs` and `generateStreamID` read an id: the first two pieces
      around `-`, each a failed parse counting as 0. `None` is an id without `-`,
      where the Go code indexes past the pieces and panics. */
  function ParseId(s: string): Option<Id> {
    var parts := Split(s, '-');
    if |parts| < 2 then None else Some(Id(AtoiOrZero(parts[0]), AtoiOrZero(parts[1])))
  }

  /** Exactly an id with a `-` can be read, and what is read is never negative:
      a piece between separators never holds the `-` a negative number would need. */
  lemma ParseIdDefined(s: string)
    ensures ParseId(s).Some? <==> '-' in s
    ensures ParseId(s).Some? ==> ParseId(s).value.ms >= 0 && ParseId(s).value.seqNo >= 0
  {
    var parts := Split(s, '-');
    SplitHasSeparator(s, '-');
    if |parts| >= 2 {
      AtoiSyntax(parts[0]);
      AtoiSyntax(parts[1]);
    }
  }

  /** `validateStreamID`: exactly two pieces around `-`, both integers. */
  function ValidateStreamID(s: string): bool {
    var parts := Split(s, '-');
    |parts| == 2 && Atoi(parts[0]).Some? && Atoi(parts[1]).Some?
  }

  /** A valid id is read exactly: neither number falls back to 0. */
  lemma ValidIdParses(s: string)
    requires ValidateStreamID(s)
    ensures ParseId(s) == Some(Id(Atoi(Split(s, '-')[0]).value, Atoi(Split(s, '-')[1]).value))
    ensures ParseId(s).value.ms >= 0 && ParseId(s).value.seqNo >= 0
  {
    ParseIdDefined(s);
  }

  /** `fmt.Sprintf("%d-%d", ms, seq)`. */
  function FormatId(id: Id): string {
    Itoa(id.ms) + "-" + Itoa(id.seqNo)
  }

  /** An id the code writes is valid and reads back as the numbers written. */
  lemma FormatIdParses(id: Id)
    requires id.ms >= 0 && id.seqNo >= 0
    ensures ValidateStreamID(FormatId(id))
    ensures ParseId(FormatId(id)) == Some(id)
  {
    NatToStringHasNoDash(id.ms);
    NatToStringHasNoDash(id.seqNo);
    SplitFirst(Itoa(id.ms), Itoa(id.seqNo), '-');
    SplitNoSeparator(Itoa(id.seqNo), '-');
    assert Split(FormatId(id), '-') == [Itoa(id.ms), Itoa(id.seqNo)];
    AtoiItoa(id.ms);
    AtoiItoa(id.seqNo);
  }

  /** The numeric comparison at the end of `compareStreamIDs`. */
  function CompareIds(a: Id, b: Id): (c: int)
    ensures -1 <= c <= 1
    ensures c == 0 <==> a == b
    ensures c < 0 <==> Less(a, b)
    ensures c > 0 <==> Less(b, a)
  {
    if a.ms < b.ms then -1
    else if a.ms > b.ms then 1
    else if a.seqNo < b.seqNo then -1
    else if a.seqNo > b.seqNo then 1
    else 0
  }

  /** `compareStreamIDs(a, b)`; `None` is the panic on an id without `-`. */
  function CompareStreamIDs(a: string, b: string): Option<int> {
    match (ParseId(a), ParseId(b))
    case (Some(x), Some(y)) => Some(CompareIds(x, y))
    case _ => None
  }

  /** `compareStreamIDs` panics exactly when one of the ids has no `-`, and otherwise
      orders them lexicographically by the numbers read. */
  lemma CompareStreamIDsMeaning(a: string, b: string)
    ensures CompareStreamIDs(a, b).None? <==> '-' !in a || '-' !in b
    ensures CompareStreamIDs(a, b).Some? ==>
      (CompareStreamIDs(a, b).value == 0 <==> ParseId(a) == ParseId(b)) &&
      (CompareStreamIDs(a, b).value < 0 <==> Less(ParseId(a).value, ParseId(b).value))
  {
    ParseIdDefined(a);
    ParseIdDefined(b);
  }

  /** `isIDGreater`: any id is greater than those of an empty stream. */
  function IsIDGreater(id: string, stream: seq<StreamEntry>): Option<bool> {
    if |stream| == 0 then Some(true)
    else match CompareStreamIDs(id, stream[|stream| - 1].id)
      case None => None
      case Some(c) => Some(c > 0)
  }

  /** `isIDGreaterOrEqual`. */
  function IsIDGreaterOrEqual(id: string, startID: string): Option<bool> {
    match CompareStreamIDs(id, startID)
    case None => None
    case Some(c) => Some(c >= 0)
  }

  /** The first operand of the `&&` in `inRange`: `-` is no lower bound. */
  function AtOrAfter(id: string, start: string): Option<bool> {
    if start == "-" then Some(true) else IsIDGreaterOrEqual(id, start)
  }

  /** The second operand of the `&&` in `inRange`: `+` is no upper bound. */
  function AtOrBefore(id: string, end: string): Option<bool> {
    if end == "+" then Some(true)
    else match CompareStreamIDs(id, end)
      case None => None
      case Some(c) => Some(c <= 0)
  }

  /** `inRange`, with the short circuit of `&&`: the upper bound is not looked at,
      and so cannot panic, once the lower bound fails. */
  function InRange(id: string, start: string, end: string): Option<bool> {
    match AtOrAfter(id, start)
    case None => None
    case Some(false) => Some(false)
    case Some(true) => AtOrBefore(id, end)
  }

  /** For bounds that can be read, `inRange` is the closed interval `[start, end]`,
      `-` and `+` standing for no bound. */
  lemma InRangeInclusive(id: string, start: string, end: string)
    requires ParseId(id).Some?
    requires start == "-" || ParseId(start).Some?
    requires end == "+" || ParseId(end).Some?
    ensures InRange(id, start, end) == Some(
      (start == "-" || !Less(ParseId(id).value, ParseId(start).value)) &&
      (end == "+" || !Less(ParseId(end).value, ParseId(id).value)))
  {
    ParseIdDefined(id);
    ParseIdDefined(start);
    ParseIdDefined(end);
  }

  /** `inRange` panics on a lower bound it cannot read, and on an upper bound it cannot
      read only for an id that passes the lower bound. */
  lemma InRangePanics(id: string, start: string, end: string)
    requires '-' in id
    ensures InRange(id, start, end).None? <==>
      (start != "-" && '-' !in start) ||
      (AtOrAfter(id, start) == Some(true) && end != "+" && '-' !in end)
  {
    ParseIdDefined(id);
    ParseIdDefined(start);
    ParseIdDefined(end);
  }

  /** `generateStreamID`: `now-0` for an empty stream; otherwise the next sequence
      number when the last id has the current millisecond, else `now-0`. `None` is the
      panic on a last id without `-`. */
  function GenerateStreamID(stream: seq<StreamEntry>, now: nat): Option<string> {
    if |stream| == 0 then Some(FormatId(Id(now, 0)))
    else match ParseId(stream[|stream| - 1].id)
      case None => None
      case Some(last) =>
        if last.ms == now then Some(FormatId(Id(last.ms, last.seqNo + 1)))
        else Some(FormatId(Id(now, 0)))
  }

  /** The generated id is valid and reads back as promised; it comes after the last id
      of the stream whenever the clock has not gone back behind that id. */
  lemma GeneratedId(stream: seq<StreamEntry>, now: nat)
    requires |stream| == 0 || '-' in stream[|stream| - 1].id
    ensures GenerateStreamID(stream, now).Some?
    ensures ValidateStreamID(GenerateStreamID(stream, now).value)
    ensures |stream| == 0 ==> ParseId(GenerateStreamID(stream, now).value) == Some(Id(now, 0))
    ensures |stream| > 0 ==>
      var last := ParseId(stream[|stream| - 1].id).value;
      ParseId(GenerateStreamID(stream, now).value) ==
        Some(if last.ms == now then Id(now, last.seqNo + 1) else Id(now, 0)) &&
      (now >= last.ms ==> Less(last, ParseId(GenerateStreamID(stream, now).value).value))
  {
    if |stream| == 0 {
      FormatIdParses(Id(now, 0));
    } else {
      var last := ParseId(stream[|stream| - 1].id);
      ParseIdDefined(stream[|stream| - 1].id);
      if last.value.ms == now {
        FormatIdParses(Id(now, last.value.seqNo + 1));
      } else {
        FormatIdParses(Id(now, 0));
      }
    }
  }

  // ---------------------------------------------------------------------------
  // The scans of XRANGE and XREAD
  // ---------------------------------------------------------------------------

  /** What an entry is tested with: `inRange(id, start, end)` for XRANGE,
      `isIDGreaterOrEqual(id, startID)` for XREAD. */
  datatype Filter = Between(start: string, end: string) | From(startId: string)

  function Test(f: Filter, id: string): Option<bool> {
    match f
    case Between(start, end) => InRange(id, start, end)
    case From(startId) => IsIDGreaterOrEqual(id, startId)
  }

  /** The `for _, entry := range data.Stream` loop of XRANGE and XREAD, from entry `i`
      on with `acc` collected so far: matching entries are appended in order, and the
      loop stops once `count > 0` of them are collected. `None` is a panic in a test. */
  function Scan(stream: seq<StreamEntry>, f: Filter, count: int, i: nat, acc: seq<StreamEntry>): Option<seq<StreamEntry>>
    requires i <= |stream|
    decreases |stream| - i
  {
    if i == |stream| then Some(acc)
    else match Test(f, stream[i].id)
      case None => None
      case Some(false) => Scan(stream, f, count, i + 1, acc)
      case Some(true) =>
        var acc' := acc + [stream[i]];
        if count > 0 && |acc'| >= count then Some(acc') else Scan(stream, f, count, i + 1, acc')
  }

  /** Every entry that passes the test, in stream order. */
  function Matching(stream: seq<StreamEntry>, f: Filter): (r: seq<StreamEntry>)
    ensures |r| <= |stream|
  {
    if |stream| == 0 then []
    else (if Test(f, stream[0].id) == Some(true) then [stream[0]] else []) + Matching(stream[1..], f)
  }

  /** The first `count` elements of `s`, or all of them when `count <= 0`. */
  function Cap<T>(s: seq<T>, count: int): seq<T> {
    if count > 0 && |s| > count then s[..count] else s
  }

  /** Every entry a filter selects passes the test and comes from the stream. */
  lemma {:induction false} MatchingSelects(stream: seq<StreamEntry>, f: Filter)
    ensures forall e :: e in Matching(stream, f) ==> e in stream && Test(f, e.id) == Some(true)
  {
    if |stream| > 0 {
      MatchingSelects(stream[1..], f);
    }
  }

  predicate NoPanic(stream: seq<StreamEntry>, f: Filter) {
    forall j :: 0 <= j < |stream| ==> Test(f, stream[j].id).Some?
  }

  /** When no test panics, the scan yields the first `count` matching entries in stream
      order, or all of them when `count <= 0`. */
  lemma ScanIsCappedFilter(stream: seq<StreamEntry>, f: Filter, count: int)
    requires NoPanic(stream, f)
    ensures Scan(stream, f, count, 0, []) == Some(Cap(Matching(stream, f), count))
  {
    ScanFrom(stream, f, count, 0, []);
    assert stream[0..] == stream;
    assert [] + Matching(stream, f) == Matching(stream, f);
  }

  lemma {:induction false} ScanFrom(stream: seq<StreamEntry>, f: Filter, count: int, i: nat, acc: seq<StreamEntry>)
    requires i <= |stream| && NoPanic(stream, f)
    requires count <= 0 || |acc| < count
    ensures Scan(stream, f, count, i, acc) == Some(Cap(acc + Matching(stream[i..], f), count))
    decreases |stream| - i
  {
    if i == |stream| {
      assert acc + Matching(stream[i..], f) == acc;
    } else {
      var rest := stream[i + 1..];
      assert stream[i..][1..] == rest;
      var m := Matching(rest, f);
      if Test(f, stream[i].id) == Some(true) {
        var acc' := acc + [stream[i]];
        assert acc + Matching(stream[i..], f) == acc' + m;
        if count > 0 && |acc'| >= count {
          if |m| == 0 {
            assert acc' + m == acc';
          } else {
            assert (acc' + m)[..count] == acc';
          }
        } else {
          ScanFrom(stream, f, count, i + 1, acc');
        }
      } else {
        assert acc + Matching(stream[i..], f) == acc + m;
        ScanFrom(stream, f, count, i + 1, acc);
      }
    }
  }

  /** XREAD's test panics on every entry when the start id has no `-`, and on none when
      it has one and the stream's ids all have theirs. */
  lemma FromPanics(stream: seq<StreamEntry>, startId: string, count: int)
    requires forall j :: 0 <= j < |stream| ==> '-' in stream[j].id
    ensures '-' in startId ==> NoPanic(stream, From(startId))
    ensures '-' !in startId && |stream| > 0 ==> Scan(stream, From(startId), count, 0, []).None?
  {
    ParseIdDefined(startId);
    forall j | 0 <= j < |stream|
      ensures ParseId(stream[j].id).Some?
    {
      ParseIdDefined(stream[j].id);
    }
  }
}
