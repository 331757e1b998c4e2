/**
  The RESP2 codec of `resp/resp.go`: `Read` decodes one framed value from the bytes a
  client sends, `Respond` writes a `Value` back. The decoder is the imperative `Reader`
  class (a cursor over the input, advanced byte by byte), proved against the pure
  specification `Parse`, which reads the input from an offset and gives the offset it
  stops at; `Respond` is a pure function, and `RoundTrip` ties the two.
*/
module Resp {
  import opened Wrappers
  import opened Text

  /** The Go field `Value.Type`. Each tag the code uses, "string", "error", "integer",
      "bulk", "array" and "nil", has a constructor; `Other` stands for any other tag, and
      an `Other` carrying one of those six names stands for no Go value. */
  datatype Kind = StringKind | ErrorKind | IntegerKind | BulkKind | ArrayKind | NilKind | Other(tag: string)

  /** The Go struct `resp.Value`: its `Type` and one payload field per kind (`items` is
      the Go field `Array`). */
  datatype Value = Value(kind: Kind, str: string, num: int, bulk: string, items: seq<Value>)

  function SimpleString(s: string): Value { Value(StringKind, s, 0, "", []) }
  function ErrorString(s: string): Value { Value(ErrorKind, s, 0, "", []) }
  function Integer(n: int): Value { Value(IntegerKind, "", n, "", []) }
  function Bulk(s: string): Value { Value(BulkKind, "", 0, s, []) }
  function Array(a: seq<Value>): Value { Value(ArrayKind, "", 0, "", a) }
  const Nil: Value := Value(NilKind, "", 0, "", [])

  /** Why `Read` fails. `EndOfInput` is `io.EOF`, `UnexpectedEnd` is `io.ErrUnexpectedEOF`,
      `NotAnInteger` is a `strconv.Atoi` failure, `NegativeLength` is the length `make`
      is handed for `$-1` or `*-1` (a run-time panic in the Go code), and
      `UnknownType` the "unknown RESP type" error. */
  datatype ReadError =
    | EndOfInput
    | UnexpectedEnd
    | NotAnInteger(text: string)
    | NegativeLength(length: int)
    | UnknownType(marker: char)

  const CRLF: string := "\r\n"

  // ---------------------------------------------------------------------------
  // Decoding, specified on the whole input `s` and an offset `i` into it
  // ---------------------------------------------------------------------------

  /** The offset of the first `'\n'` at or after offset `i`, if there is one. */
  function NewlineFrom(s: seq<char>, i: nat): (j: Option<nat>)
    requires i <= |s|
    ensures j.Some? ==> i <= j.value < |s|
    decreases |s| - i
  {
    if i == |s| then None else if s[i] == '\n' then Some(i) else NewlineFrom(s, i + 1)
  }

  /** `NewlineFrom` finds the first `'\n'`: there is none before the offset it gives,
      and it gives none only when there is none at all. */
  lemma {:induction false} NewlineFromFirst(s: seq<char>, i: nat)
    requires i <= |s|
    ensures NewlineFrom(s, i).None? <==> forall j :: i <= j < |s| ==> s[j] != '\n'
    ensures NewlineFrom(s, i).Some? ==>
      var n := NewlineFrom(s, i).value; s[n] == '\n' && forall j :: i <= j < n ==> s[j] != '\n'
    decreases |s| - i
  {
    if i < |s| && s[i] != '\n' {
      NewlineFromFirst(s, i + 1);
    }
  }

  /** A `'\n'` at `n` with none in `[i, n)` is the one `NewlineFrom` finds. */
  lemma {:induction false} NewlineFromAt(s: seq<char>, i: nat, n: nat)
    requires i <= n < |s| && s[n] == '\n'
    requires forall j :: i <= j < n ==> s[j] != '\n'
    ensures NewlineFrom(s, i) == Some(n)
    decreases n - i
  {
    if i < n {
      NewlineFromAt(s, i + 1, n);
    }
  }

  /** `strings.TrimSuffix(line, "\r\n")`. */
  function TrimCRLF(line: string): string {
    if |line| >= 2 && line[|line| - 2] == '\r' && line[|line| - 1] == '\n' then line[..|line| - 2] else line
  }

  /** `readLine` at offset `i`: the line up to and including the next `'\n'` with one
      trailing CRLF removed, and the offset just past that `'\n'`. Without a `'\n'`,
      `ReadString` reports `io.EOF` (having consumed the rest of the input). */
  function LineAt(s: seq<char>, i: nat): (r: Result<(string, nat), ReadError>)
    requires i <= |s|
    ensures r.Ok? ==> i < r.value.1 <= |s|
  {
    match NewlineFrom(s, i)
    case None => Err(EndOfInput)
    case Some(n) => Ok((TrimCRLF(s[i..n + 1]), n + 1))
  }

  /** What `LineAt` gives: the error exactly when no `'\n'` follows, and otherwise the
      bytes up to and including the first `'\n'`, with one final CRLF removed; a bare
      `'\n'` stays. */
  lemma LineAtMeaning(s: seq<char>, i: nat)
    requires i <= |s|
    ensures LineAt(s, i).Err? <==> forall j :: i <= j < |s| ==> s[j] != '\n'
    ensures LineAt(s, i).Err? ==> LineAt(s, i).error == EndOfInput
    ensures LineAt(s, i).Ok? ==>
      var (text, e) := LineAt(s, i).value;
      s[e - 1] == '\n' && (forall j :: i <= j < e - 1 ==> s[j] != '\n') &&
      if e - i >= 2 && s[e - 2] == '\r' then text + CRLF == s[i..e] else text == s[i..e]
  {
    NewlineFromFirst(s, i);
  }

  /** `Read` from offset `i`: the value and the offset just past it. */
  function Parse(s: seq<char>, i: nat): (r: Result<(Value, nat), ReadError>)
    requires i <= |s|
    ensures r.Ok? ==> i < r.value.1 <= |s|
    decreases |s| - i, 0
  {
    if i == |s| then Err(EndOfInput)
    else match s[i]
      case '+' => ParseSimple(s, i + 1, StringKind)
      case '-' => ParseSimple(s, i + 1, ErrorKind)
      case ':' => ParseInteger(s, i + 1)
      case '$' => ParseBulk(s, i + 1)
      case '*' => ParseArray(s, i + 1)
      case c => Err(UnknownType(c))
  }

  /** The first byte chooses how the rest is read. */
  lemma ParseMarker(s: seq<char>, i: nat)
    requires i < |s|
    ensures s[i] == '+' ==> Parse(s, i) == ParseSimple(s, i + 1, StringKind)
    ensures s[i] == '-' ==> Parse(s, i) == ParseSimple(s, i + 1, ErrorKind)
    ensures s[i] == ':' ==> Parse(s, i) == ParseInteger(s, i + 1)
    ensures s[i] == '$' ==> Parse(s, i) == ParseBulk(s, i + 1)
    ensures s[i] == '*' ==> Parse(s, i) == ParseArray(s, i + 1)
  {
  }

  /** A simple string or error: the rest of the line. */
  function ParseSimple(s: seq<char>, i: nat, kind: Kind): (r: Result<(Value, nat), ReadError>)
    requires i <= |s|
    ensures r.Ok? ==> i < r.value.1 <= |s|
  {
    match LineAt(s, i)
    case Err(e) => Err(e)
    case Ok((line, j)) => Ok((Value(kind, line, 0, "", []), j))
  }

  /** An integer: the line through `strconv.Atoi`. A failed `readLine` gives the empty
      line, so its error is replaced by the one `Atoi` reports for "". */
  function ParseInteger(s: seq<char>, i: nat): (r: Result<(Value, nat), ReadError>)
    requires i <= |s|
    ensures r.Ok? ==> i < r.value.1 <= |s|
  {
    match LineAt(s, i)
    case Err(_) => Err(NotAnInteger(""))
    case Ok((line, j)) =>
      match Atoi(line)
      case None => Err(NotAnInteger(line))
      case Some(n) => Ok((Integer(n), j))
  }

  /** The length line of a bulk string or an array; `make` refuses a negative length. */
  function ParseLength(s: seq<char>, i: nat): (r: Result<(nat, nat), ReadError>)
    requires i <= |s|
    ensures r.Ok? ==> i < r.value.1 <= |s|
  {
    match LineAt(s, i)
    case Err(e) => Err(e)
    case Ok((line, j)) =>
      match Atoi(line)
      case None => Err(NotAnInteger(line))
      case Some(n) => if n < 0 then Err(NegativeLength(n)) else Ok((n, j))
  }

  /** A bulk string: its length, exactly that many bytes (`io.ReadFull`), then the rest
      of that line, whatever it holds. */
  function ParseBulk(s: seq<char>, i: nat): (r: Result<(Value, nat), ReadError>)
    requires i <= |s|
    ensures r.Ok? ==> i < r.value.1 <= |s|
  {
    match ParseLength(s, i)
    case Err(e) => Err(e)
    case Ok((len, j)) =>
      if |s| - j < len then Err(if j == |s| then EndOfInput else UnexpectedEnd)
      else
        match LineAt(s, j + len)
        case Err(e) => Err(e)
        case Ok((_, m)) => Ok((Bulk(s[j..j + len]), m))
  }

  /** An array: its length, then that many values. */
  function ParseArray(s: seq<char>, i: nat): (r: Result<(Value, nat), ReadError>)
    requires i <= |s|
    ensures r.Ok? ==> i < r.value.1 <= |s|
    decreases |s| - i, 2
  {
    match ParseLength(s, i)
    case Err(e) => Err(e)
    case Ok((len, j)) =>
      match ParseElements(s, j, len, [])
      case Err(e) => Err(e)
      case Ok((vs, m)) => Ok((Array(vs), m))
  }

  /** `count` more values from offset `k`, after the elements `acc` already read. */
  function ParseElements(s: seq<char>, k: nat, count: nat, acc: seq<Value>): (r: Result<(seq<Value>, nat), ReadError>)
    requires k <= |s|
    ensures r.Ok? ==> k <= r.value.1 <= |s|
    decreases |s| - k, 1, count
  {
    if count == 0 then Ok((acc, k))
    else
      match Parse(s, k)
      case Err(e) => Err(e)
      case Ok((v, k')) => ParseElements(s, k', count - 1, acc + [v])
  }

  /** A `Reader` result `r`, with the cursor left at `pos`, agrees with the specification:
      the same value and the offset just past it, or the same error. */
  predicate Decoded<T(==)>(r: Result<T, ReadError>, pos: nat, spec: Result<(T, nat), ReadError>) {
    match spec
    case Ok((v, n)) => r == Ok(v) && n == pos
    case Err(e) => r == Err(e)
  }

  /** One element of an array: how `ParseElements` goes on once `Parse` has given `v`. */
  lemma ElementsStep(s: seq<char>, k: nat, count: nat, acc: seq<Value>, v: Result<Value, ReadError>, k': nat,
                     total: Result<(seq<Value>, nat), ReadError>)
    requires k <= |s| && count > 0
    requires Decoded(v, k', Parse(s, k))
    requires total == ParseElements(s, k, count, acc)
    ensures v.Ok? ==> k < k' <= |s| && total == ParseElements(s, k', count - 1, acc + [v.value])
    ensures v.Err? ==> total == Err(v.error)
  {
  }

  // ---------------------------------------------------------------------------
  // The decoder: a cursor over the bytes read so far
  // ---------------------------------------------------------------------------

  /** `resp.Resp`: a buffered reader over the client's bytes. The bytes the connection will
      deliver are `input`; `pos` is how many of them have been consumed. */
  class Reader {
    const input: seq<char>
    var pos: nat

    ghost predicate Valid()
      reads this
    {
      pos <= |input|
    }

    /** `NewResp`: nothing consumed yet. */
    constructor (input: seq<char>)
      ensures Valid() && this.input == input && pos == 0
    {
      this.input := input;
      pos := 0;
    }

    /** `bufio.Reader.ReadByte`. */
    method ReadByte() returns (r: Result<char, ReadError>)
      requires Valid()
      modifies this
      ensures Valid()
      ensures old(pos) < |input| ==> r == Ok(input[old(pos)]) && pos == old(pos) + 1
      ensures old(pos) == |input| ==> r == Err(EndOfInput) && pos == old(pos)
    {
      if pos == |input| {
        return Err(EndOfInput);
      }
      r := Ok(input[pos]);
      pos := pos + 1;
    }

    /** `readLine`: `ReadString('\n')` scans to the next newline. */
    method ReadLine() returns (r: Result<string, ReadError>)
      requires Valid()
      modifies this
      ensures Valid() && old(pos) <= pos
      ensures Decoded(r, pos, LineAt(input, old(pos)))
    {
      var i := pos;
      while i < |input| && input[i] != '\n'
        invariant pos <= i <= |input|
        invariant NewlineFrom(input, i) == NewlineFrom(input, pos)
        decreases |input| - i
      {
        i := i + 1;
      }
      if i == |input| {
        pos := i;
        return Err(EndOfInput);
      }
      r := Ok(TrimCRLF(input[pos..i + 1]));
      pos := i + 1;
    }

    /** `io.ReadFull` into a buffer of `n` bytes. */
    method ReadFull(n: nat) returns (r: Result<string, ReadError>)
      requires Valid()
      modifies this
      ensures Valid() && old(pos) <= pos
      ensures old(pos) + n <= |input| ==> r == Ok(input[old(pos)..old(pos) + n]) && pos == old(pos) + n
      ensures old(pos) + n > |input| ==> r == Err(if old(pos) == |input| then EndOfInput else UnexpectedEnd)
    {
      if |input| - pos < n {
        r := Err(if pos == |input| then EndOfInput else UnexpectedEnd);
        pos := |input|;
        return;
      }
      r := Ok(input[pos..pos + n]);
      pos := pos + n;
    }

    /** `Read`: one value, chosen by its first byte. */
    method Read() returns (r: Result<Value, ReadError>)
      requires Valid()
      modifies this
      ensures Valid() && old(pos) <= pos
      ensures Decoded(r, pos, Parse(input, old(pos)))
      decreases |input| - pos, 1
    {
      var marker := ReadByte();
      if marker.Err? {
        return Err(marker.error);
      }
      match marker.value
      case '+' => r := ReadSimple(StringKind);
      case '-' => r := ReadSimple(ErrorKind);
      case ':' => r := ReadInteger();
      case '$' => r := ReadBulk();
      case '*' => r := ReadArray();
      case c => r := Err(UnknownType(c));
    }

    method ReadSimple(kind: Kind) returns (r: Result<Value, ReadError>)
      requires Valid()
      modifies this
      ensures Valid() && old(pos) <= pos
      ensures Decoded(r, pos, ParseSimple(input, old(pos), kind))
    {
      var line := ReadLine();
      if line.Err? {
        return Err(line.error);
      }
      r := Ok(Value(kind, line.value, 0, "", []));
    }

    method ReadInteger() returns (r: Result<Value, ReadError>)
      requires Valid()
      modifies this
      ensures Valid() && old(pos) <= pos
      ensures Decoded(r, pos, ParseInteger(input, old(pos)))
    {
      var line := ReadLine();
      var text := if line.Ok? then line.value else "";
      var n := Atoi(text);
      if n.None? {
        return Err(NotAnInteger(text));
      }
      r := Ok(Integer(n.value));
    }

    /** The length line of a bulk string or an array. */
    method ReadLength() returns (r: Result<nat, ReadError>)
      requires Valid()
      modifies this
      ensures Valid() && old(pos) <= pos
      ensures Decoded(r, pos, ParseLength(input, old(pos)))
    {
      var line := ReadLine();
      if line.Err? {
        return Err(line.error);
      }
      var n := Atoi(line.value);
      if n.None? {
        return Err(NotAnInteger(line.value));
      }
      if n.value < 0 {
        return Err(NegativeLength(n.value));
      }
      r := Ok(n.value);
    }

    method ReadBulk() returns (r: Result<Value, ReadError>)
      requires Valid()
      modifies this
      ensures Valid() && old(pos) <= pos
      ensures Decoded(r, pos, ParseBulk(input, old(pos)))
    {
      ghost var start := pos;
      var length := ReadLength();
      if length.Err? {
        return Err(length.error);
      }
      ghost var j := pos;
      assert ParseLength(input, start) == Ok((length.value, j));
      var bulk := ReadFull(length.value);
      if bulk.Err? {
        return Err(bulk.error);
      }
      assert j + length.value <= |input| && pos == j + length.value;
      var trailer := ReadLine();
      if trailer.Err? {
        return Err(trailer.error);
      }
      r := Ok(Bulk(bulk.value));
    }

    method ReadArray() returns (r: Result<Value, ReadError>)
      requires Valid()
      modifies this
      ensures Valid() && old(pos) <= pos
      ensures Decoded(r, pos, ParseArray(input, old(pos)))
      decreases |input| - pos, 3
    {
      var length := ReadLength();
      if length.Err? {
        return Err(length.error);
      }
      var elements := ReadElements(length.value);
      if elements.Err? {
        return Err(elements.error);
      }
      r := Ok(Array(elements.value));
    }

    /** The loop that fills the array, one `Read` per element. */
    method ReadElements(count: nat) returns (r: Result<seq<Value>, ReadError>)
      requires Valid()
      modifies this
      ensures Valid() && old(pos) <= pos
      ensures Decoded(r, pos, ParseElements(input, old(pos), count, []))
      decreases |input| - pos, 2
    {
      ghost var total := ParseElements(input, pos, count, []);
      var elements: seq<Value> := [];
      var i := 0;
      while i < count
        invariant Valid() && old(pos) <= pos
        invariant 0 <= i <= count
        invariant total == ParseElements(input, pos, count - i, elements)
      {
        ghost var p := pos;
        var v := Read();
        ElementsStep(input, p, count - i, elements, v, pos, total);
        if v.Err? {
          return Err(v.error);
        }
        elements := elements + [v.value];
        i := i + 1;
      }
      r := Ok(elements);
    }
  }

  // ---------------------------------------------------------------------------
  // The encoder
  // ---------------------------------------------------------------------------

  /** What `Respond` leaves on the writer: the bytes written, and whether it returned a
      nil error. On an error the bytes already written stay written; `ok` is false for a
      value whose `kind` has no wire form. */
  datatype Written = Written(bytes: seq<char>, ok: bool)

  /** `Respond`: the RESP2 encoding of `v`. */
  function Respond(v: Value): Written
    decreases v, 1
  {
    match v.kind
    case StringKind => Written("+" + v.str + CRLF, true)
    case ErrorKind => Written("-" + v.str + CRLF, true)
    case IntegerKind => Written(":" + Itoa(v.num) + CRLF, true)
    case BulkKind => Written("$" + Itoa(|v.bulk|) + CRLF + v.bulk + CRLF, true)
    case ArrayKind =>
      var elems := RespondAll(v, v.items);
      Written("*" + Itoa(|v.items|) + CRLF + elems.bytes, elems.ok)
    case NilKind => Written("$-1" + CRLF, true)
    case Other(_) => Written([], false)
  }

  /** The elements of an array, in order, up to and including the first one that fails. */
  function RespondAll(parent: Value, vs: seq<Value>): Written
    requires forall i :: 0 <= i < |vs| ==> vs[i] < parent
    decreases parent, 0, |vs|
  {
    if |vs| == 0 then Written([], true)
    else
      var first := Respond(vs[0]);
      if !first.ok then first
      else
        var rest := RespondAll(parent, vs[1..]);
        Written(first.bytes + rest.bytes, rest.ok)
  }

  /** A value `Respond` cannot write is written as nothing, with an error. */
  lemma RespondOther(v: Value)
    requires v.kind.Other? && v.kind.tag !in ["string", "error", "integer", "bulk", "array", "nil"]
    ensures Respond(v) == Written([], false)
  {
  }

  /** The elements of an array are written without error exactly when each one is. */
  lemma {:induction false} RespondAllOk(parent: Value, vs: seq<Value>)
    requires forall i :: 0 <= i < |vs| ==> vs[i] < parent
    ensures RespondAll(parent, vs).ok <==> forall i :: 0 <= i < |vs| ==> Respond(vs[i]).ok
    decreases |vs|
  {
    if |vs| > 0 && Respond(vs[0]).ok {
      RespondAllOk(parent, vs[1..]);
      assert forall i :: 1 <= i < |vs| ==> vs[i] == vs[1..][i - 1];
    }
  }

  /** The values `Respond` writes and `Read` reads back unchanged: simple strings and
      errors without a `'\n'`, integers, bulk strings, and arrays of these; each with
      the payload fields of other kinds left at their zero values, as `Read` builds them. */
  predicate Wire(v: Value) {
    match v.kind
    case StringKind => v == SimpleString(v.str) && '\n' !in v.str
    case ErrorKind => v == ErrorString(v.str) && '\n' !in v.str
    case IntegerKind => v == Integer(v.num)
    case BulkKind => v == Bulk(v.bulk)
    case ArrayKind => v == Array(v.items) && forall i :: 0 <= i < |v.items| ==> Wire(v.items[i])
    case _ => false
  }

  // ---------------------------------------------------------------------------
  // Reading back what was written
  // ---------------------------------------------------------------------------

  /** The bytes `w` occur in `s` at offset `k`, compared byte by byte. */
  predicate At(s: seq<char>, k: nat, w: seq<char>)
    decreases |w|
  {
    if |w| == 0 then k <= |s| else k < |s| && s[k] == w[0] && At(s, k + 1, w[1..])
  }

  /** `At` means that each byte of `w` is the byte of `s` at the same place after `k`. */
  lemma {:induction false} AtIndex(s: seq<char>, k: nat, w: seq<char>)
    requires At(s, k, w)
    ensures k + |w| <= |s| && forall i :: 0 <= i < |w| ==> s[k + i] == w[i]
    decreases |w|
  {
    if |w| > 0 {
      AtIndex(s, k + 1, w[1..]);
      assert forall i :: 1 <= i < |w| ==> w[i] == w[1..][i - 1];
    }
  }

  lemma {:induction false} AtAppend(s: seq<char>, k: nat, a: seq<char>, b: seq<char>)
    requires At(s, k, a + b)
    ensures At(s, k, a) && At(s, k + |a|, b)
    decreases |a|
  {
    if |a| == 0 {
      assert a + b == b;
    } else {
      assert (a + b)[0] == a[0];
      assert (a + b)[1..] == a[1..] + b;
      AtAppend(s, k + 1, a[1..], b);
    }
  }

  lemma AtHead(s: seq<char>, k: nat, c: char, w: seq<char>)
    requires At(s, k, [c] + w)
    ensures k < |s| && s[k] == c && At(s, k + 1, w)
  {
    assert ([c] + w)[1..] == w;
  }

  lemma AtSlice(s: seq<char>, k: nat, w: seq<char>)
    requires At(s, k, w)
    ensures k + |w| <= |s| && s[k..k + |w|] == w
  {
    AtIndex(s, k, w);
    forall i | 0 <= i < |w|
      ensures s[k..k + |w|][i] == w[i]
    {
      assert s[k + i] == w[i];
    }
  }

  /** Bytes at the start of an input occur there. */
  lemma {:induction false} AtPrefix(w: seq<char>, rest: seq<char>)
    ensures At(w + rest, 0, w)
  {
    AtFrom(w + rest, 0, w);
  }

  lemma {:induction false} AtFrom(s: seq<char>, k: nat, w: seq<char>)
    requires k + |w| <= |s| && s[k..k + |w|] == w
    ensures At(s, k, w)
    decreases |w|
  {
    if |w| > 0 {
      assert s[k] == w[0];
      assert s[k + 1..k + 1 + |w[1..]|] == w[1..];
      AtFrom(s, k + 1, w[1..]);
    }
  }

  /** A line without `'\n'`, ended by CRLF, reads back as that line. */
  lemma LineAtText(s: seq<char>, k: nat, text: string)
    requires '\n' !in text && At(s, k, text + CRLF)
    ensures LineAt(s, k) == Ok((text, k + |text| + 2))
  {
    LineEndAt(s, k, text);
    AtSlice(s, k, text + CRLF);
    LineOfSlice(s, k, text);
  }

  lemma LineOfSlice(s: seq<char>, k: nat, text: string)
    requires k + |text| + 2 <= |s| && s[k..k + |text| + 2] == text + CRLF
    requires NewlineFrom(s, k) == Some(k + |text| + 1)
    ensures LineAt(s, k) == Ok((text, k + |text| + 2))
  {
    LineFrom(s, k, k + |text| + 1, text + CRLF);
    TrimCRLFOf(text);
  }

  /** `LineAt` from the offset of the newline and the bytes of the line. */
  lemma LineFrom(s: seq<char>, k: nat, n: nat, line: string)
    requires k <= n < |s| && NewlineFrom(s, k) == Some(n) && s[k..n + 1] == line
    ensures LineAt(s, k) == Ok((TrimCRLF(line), n + 1))
  {
  }

  /** The `'\n'` of the CRLF after a text without `'\n'` is the first one. */
  lemma LineEndAt(s: seq<char>, k: nat, text: string)
    requires '\n' !in text && At(s, k, text + CRLF)
    ensures NewlineFrom(s, k) == Some(k + |text| + 1)
  {
    AtAppend(s, k, text, CRLF);
    NoNewlineAt(s, k, text);
    AtIndex(s, k + |text|, CRLF);
    assert s[k + |text| + 0] == CRLF[0] && s[k + |text| + 1] == CRLF[1];
    NewlineFromAt(s, k, k + |text| + 1);
  }

  /** Where a text without `'\n'` occurs, there is no `'\n'`. */
  lemma NoNewlineAt(s: seq<char>, k: nat, text: string)
    requires '\n' !in text && At(s, k, text)
    ensures k + |text| <= |s| && forall j :: k <= j < k + |text| ==> s[j] != '\n'
  {
    AtIndex(s, k, text);
    forall j | k <= j < k + |text|
      ensures s[j] != '\n'
    {
      assert s[k + (j - k)] == text[j - k];
    }
  }

  lemma TrimCRLFOf(text: string)
    ensures TrimCRLF(text + CRLF) == text
  {
    assert (text + CRLF)[..|text|] == text;
  }

  /** A number `Respond` writes, ended by CRLF, reads back as that number. */
  lemma NumberAt(s: seq<char>, k: nat, n: int)
    requires At(s, k, Itoa(n) + CRLF)
    ensures LineAt(s, k) == Ok((Itoa(n), k + |Itoa(n)| + 2))
    ensures Atoi(Itoa(n)) == Some(n)
  {
    ItoaHasNoNewline(n);
    LineAtText(s, k, Itoa(n));
    AtoiItoa(n);
  }

  /** A length `Respond` writes reads back as that length. */
  lemma LengthAt(s: seq<char>, k: nat, n: nat)
    requires At(s, k, Itoa(n) + CRLF)
    ensures ParseLength(s, k) == Ok((n, k + |Itoa(n)| + 2))
  {
    NumberAt(s, k, n);
  }

  /** What `Respond` writes for a wire value, found at offset `k` of any input, reads
      back as that value and ends where those bytes end. */
  lemma {:induction false} RoundTripAt(v: Value, s: seq<char>, k: nat)
    requires Wire(v) && At(s, k, Respond(v).bytes)
    ensures Respond(v).ok
    ensures Parse(s, k) == Ok((v, k + |Respond(v).bytes|))
    decreases v, 2
  {
    match v.kind
    case StringKind => SimpleAt(v, s, k);
    case ErrorKind => SimpleAt(v, s, k);
    case IntegerKind => IntegerAt(v, s, k);
    case BulkKind => BulkAt(v, s, k);
    case ArrayKind => ArrayAt(v, s, k);
  }

  lemma SimpleAt(v: Value, s: seq<char>, k: nat)
    requires (v.kind == StringKind || v.kind == ErrorKind) && Wire(v) && At(s, k, Respond(v).bytes)
    ensures Respond(v).ok
    ensures Parse(s, k) == Ok((v, k + |Respond(v).bytes|))
  {
    var marker := if v.kind == StringKind then '+' else '-';
    assert Respond(v).bytes == [marker] + (v.str + CRLF);
    AtHead(s, k, marker, v.str + CRLF);
    LineAtText(s, k + 1, v.str);
    ParseMarker(s, k);
  }

  lemma IntegerAt(v: Value, s: seq<char>, k: nat)
    requires v.kind == IntegerKind && Wire(v) && At(s, k, Respond(v).bytes)
    ensures Respond(v).ok
    ensures Parse(s, k) == Ok((v, k + |Respond(v).bytes|))
  {
    assert Respond(v).bytes == [':'] + (Itoa(v.num) + CRLF);
    AtHead(s, k, ':', Itoa(v.num) + CRLF);
    NumberAt(s, k + 1, v.num);
    ParseMarker(s, k);
  }

  lemma BulkAt(v: Value, s: seq<char>, k: nat)
    requires v.kind == BulkKind && Wire(v) && At(s, k, Respond(v).bytes)
    ensures Respond(v).ok
    ensures Parse(s, k) == Ok((v, k + |Respond(v).bytes|))
  {
    var b := v.bulk;
    assert Respond(v).bytes == ['$'] + ((Itoa(|b|) + CRLF) + (b + CRLF));
    var j := BulkPiecesAt(s, k, b);
    BulkParse(s, k + 1, b, j, j + |b| + 2);
    ParseMarker(s, k);
  }

  /** The pieces of a bulk string `Respond` writes: the marker, the length line, the
      bytes and the trailer, each where `Read` looks for it. */
  lemma BulkPiecesAt(s: seq<char>, k: nat, b: string) returns (j: nat)
    requires At(s, k, ['$'] + ((Itoa(|b|) + CRLF) + (b + CRLF)))
    ensures j == k + 1 + |Itoa(|b|)| + 2
    ensures k < |s| && s[k] == '$'
    ensures ParseLength(s, k + 1) == Ok((|b|, j))
    ensures j + |b| <= |s| && s[j..j + |b|] == b
    ensures LineAt(s, j + |b|) == Ok(("", j + |b| + 2))
  {
    var len := Itoa(|b|) + CRLF;
    AtHead(s, k, '$', len + (b + CRLF));
    AtAppend(s, k + 1, len, b + CRLF);
    LengthAt(s, k + 1, |b|);
    j := k + 1 + |len|;
    AtAppend(s, j, b, CRLF);
    AtSlice(s, j, b);
    TrailerAt(s, j + |b|);
  }

  /** The CRLF after a bulk string's bytes reads back as an empty line. */
  lemma TrailerAt(s: seq<char>, k: nat)
    requires At(s, k, CRLF)
    ensures LineAt(s, k) == Ok(("", k + 2))
  {
    AtIndex(s, k, CRLF);
    assert s[k + 0] == CRLF[0] && s[k + 1] == CRLF[1];
    NewlineFromAt(s, k, k + 1);
  }

  /** A bulk string read from its pieces: the length, the bytes, and the trailer line. */
  lemma BulkParse(s: seq<char>, i: nat, b: string, j: nat, m: nat)
    requires i <= |s|
    requires ParseLength(s, i) == Ok((|b|, j))
    requires j + |b| <= |s| && s[j..j + |b|] == b
    requires LineAt(s, j + |b|).Ok? && LineAt(s, j + |b|).value.1 == m
    ensures ParseBulk(s, i) == Ok((Bulk(b), m))
  {
  }

  lemma {:induction false} ArrayAt(v: Value, s: seq<char>, k: nat)
    requires v.kind == ArrayKind && Wire(v) && At(s, k, Respond(v).bytes)
    ensures Respond(v).ok
    ensures Parse(s, k) == Ok((v, k + |Respond(v).bytes|))
    decreases v, 1
  {
    var j, ends := ArrayLayout(v, s, k);
    ElementsAt(v, v.items, s, ends);
    ArrayParse(s, k + 1, v.items, j, ends[|v.items|]);
    ParseMarker(s, k);
  }

  /** Where the pieces of an array `Respond` writes lie: the marker at `k`, the length
      line after it, and element `i` from `ends[i]` to `ends[i + 1]`. */
  lemma ArrayLayout(v: Value, s: seq<char>, k: nat) returns (j: nat, ends: seq<nat>)
    requires v.kind == ArrayKind && Wire(v) && At(s, k, Respond(v).bytes)
    ensures Respond(v).ok
    ensures k < |s| && s[k] == '*' && ParseLength(s, k + 1) == Ok((|v.items|, j))
    ensures |ends| == |v.items| + 1 && ends[0] == j && ends[|v.items|] == k + |Respond(v).bytes|
    ensures j <= |s| && ends[|v.items|] <= |s|
    ensures forall i :: 0 <= i < |v.items| ==> WrittenAt(s, v.items, ends, i)
  {
    WireOk(v);
    var elems := RespondAll(v, v.items);
    assert Respond(v).bytes == ['*'] + ((Itoa(|v.items|) + CRLF) + elems.bytes);
    j := ArrayPiecesAt(s, k, |v.items|, elems.bytes);
    ends := ElementsLayout(v, v.items, s, j);
  }

  /** Element `j` of `items` is written from `ends[j]` to `ends[j + 1]`. */
  predicate WrittenAt(s: seq<char>, items: seq<Value>, ends: seq<nat>, j: nat)
    requires j < |items| && |ends| == |items| + 1
  {
    ends[j + 1] == ends[j] + |Respond(items[j]).bytes| && At(s, ends[j], Respond(items[j]).bytes)
  }

  /** Element `j` of `items` is read from `ends[j]`, and the read ends at `ends[j + 1]`. */
  predicate ReadAt(s: seq<char>, items: seq<Value>, ends: seq<nat>, j: nat)
    requires j < |items| && |ends| == |items| + 1
  {
    ends[j] <= |s| && Parse(s, ends[j]) == Ok((items[j], ends[j + 1]))
  }

  /** Wire values laid out one after another read back as those values. */
  lemma {:induction false} ElementsAt(parent: Value, items: seq<Value>, s: seq<char>, ends: seq<nat>)
    requires forall i :: 0 <= i < |items| ==> items[i] < parent && Wire(items[i])
    requires |ends| == |items| + 1
    requires forall i :: 0 <= i < |items| ==> WrittenAt(s, items, ends, i)
    requires ends[0] <= |s| && ends[|items|] <= |s|
    ensures ParseElements(s, ends[0], |items|, []) == Ok((items, ends[|items|]))
    decreases parent, 0
  {
    forall i | 0 <= i < |items|
      ensures ReadAt(s, items, ends, i)
    {
      assert WrittenAt(s, items, ends, i);
      RoundTripAt(items[i], s, ends[i]);
    }
    ElementsFrom(s, items, ends, 0, []);
    assert [] + items[0..] == items;
  }

  /** Every wire value is written without error. */
  lemma {:induction false} WireOk(v: Value)
    requires Wire(v)
    ensures Respond(v).ok
    decreases v
  {
    if v.kind == ArrayKind {
      forall i | 0 <= i < |v.items|
        ensures Respond(v.items[i]).ok
      {
        WireOk(v.items[i]);
      }
      RespondAllOk(v, v.items);
    }
  }

  /** The pieces of an array `Respond` writes: the marker, the length line, and the
      elements, each where `Read` looks for it. */
  lemma ArrayPiecesAt(s: seq<char>, k: nat, n: nat, elems: seq<char>) returns (j: nat)
    requires At(s, k, ['*'] + ((Itoa(n) + CRLF) + elems))
    ensures j == k + 1 + |Itoa(n)| + 2
    ensures k < |s| && s[k] == '*'
    ensures ParseLength(s, k + 1) == Ok((n, j))
    ensures At(s, j, elems)
  {
    var len := Itoa(n) + CRLF;
    AtHead(s, k, '*', len + elems);
    AtAppend(s, k + 1, len, elems);
    LengthAt(s, k + 1, n);
    j := k + 1 + |len|;
  }

  /** An array read from its pieces: the length, then the elements. */
  lemma ArrayParse(s: seq<char>, i: nat, items: seq<Value>, j: nat, m: nat)
    requires i <= |s|
    requires ParseLength(s, i) == Ok((|items|, j))
    requires ParseElements(s, j, |items|, []) == Ok((items, m))
    ensures ParseArray(s, i) == Ok((Array(items), m))
  {
  }

  /** Where the elements `RespondAll` writes at offset `k` lie: element `i` occupies
      `[ends[i], ends[i + 1])`. */
  lemma {:induction false} ElementsLayout(parent: Value, items: seq<Value>, s: seq<char>, k: nat) returns (ends: seq<nat>)
    requires forall i :: 0 <= i < |items| ==> items[i] < parent && Wire(items[i])
    requires At(s, k, RespondAll(parent, items).bytes)
    ensures |ends| == |items| + 1 && ends[0] == k && ends[|items|] == k + |RespondAll(parent, items).bytes|
    ensures ends[|items|] <= |s|
    ensures forall i :: 0 <= i < |items| ==> WrittenAt(s, items, ends, i)
    decreases |items|
  {
    AtIndex(s, k, RespondAll(parent, items).bytes);
    if |items| == 0 {
      ends := [k];
    } else {
      var first := Respond(items[0]);
      var rest := RespondAll(parent, items[1..]);
      WireOk(items[0]);
      RespondAllCons(parent, items);
      AtAppend(s, k, first.bytes, rest.bytes);
      var more := ElementsLayout(parent, items[1..], s, k + |first.bytes|);
      ends := [k] + more;
      LayoutCons(s, items, k, more);
    }
  }

  /** The layout of all elements, from the first element's offset and the layout of the rest. */
  lemma LayoutCons(s: seq<char>, items: seq<Value>, k: nat, more: seq<nat>)
    requires |items| > 0 && |more| == |items| && more[0] == k + |Respond(items[0]).bytes|
    requires At(s, k, Respond(items[0]).bytes)
    requires forall i :: 0 <= i < |items| - 1 ==> WrittenAt(s, items[1..], more, i)
    ensures forall i :: 0 <= i < |items| ==> WrittenAt(s, items, [k] + more, i)
  {
    var ends := [k] + more;
    forall i | 0 <= i < |items|
      ensures WrittenAt(s, items, ends, i)
    {
      if i > 0 {
        assert WrittenAt(s, items[1..], more, i - 1);
        assert items[i] == items[1..][i - 1];
        assert ends[i] == more[i - 1] && ends[i + 1] == more[i];
      }
    }
  }

  /** Values that lie one after another from `ends[i]` on are read by `ParseElements`. */
  lemma {:induction false} ElementsFrom(s: seq<char>, items: seq<Value>, ends: seq<nat>, i: nat, acc: seq<Value>)
    requires |ends| == |items| + 1 && i <= |items| && ends[i] <= |s|
    requires forall j :: i <= j < |items| ==> ReadAt(s, items, ends, j)
    ensures ParseElements(s, ends[i], |items| - i, acc) == Ok((acc + items[i..], ends[|items|]))
    decreases |items| - i
  {
    if i == |items| {
      assert acc + items[i..] == acc;
    } else {
      assert ReadAt(s, items, ends, i);
      ElementsFrom(s, items, ends, i + 1, acc + [items[i]]);
      assert acc + [items[i]] + items[i + 1..] == acc + items[i..];
      ElementsCons(s, ends[i], |items| - i, acc, items[i], ends[i + 1], Ok((acc + items[i..], ends[|items|])));
    }
  }

  /** How `RespondAll` goes on after the first element. */
  lemma RespondAllCons(parent: Value, items: seq<Value>)
    requires |items| > 0 && forall i :: 0 <= i < |items| ==> items[i] < parent
    ensures Respond(items[0]).ok ==>
      RespondAll(parent, items) == Written(Respond(items[0]).bytes + RespondAll(parent, items[1..]).bytes,
                                          RespondAll(parent, items[1..]).ok)
    ensures !Respond(items[0]).ok ==> RespondAll(parent, items) == Respond(items[0])
  {
  }

  /** How `ParseElements` goes on after the first element. */
  lemma ElementsCons(s: seq<char>, k: nat, count: nat, acc: seq<Value>, v: Value, k': nat,
                     total: Result<(seq<Value>, nat), ReadError>)
    requires k <= |s| && count > 0
    requires Parse(s, k) == Ok((v, k'))
    requires ParseElements(s, k', count - 1, acc + [v]) == total
    ensures ParseElements(s, k, count, acc) == total
  {
  }

  /** What `Respond` writes for a wire value, `Read` reads back as that value, consuming
      exactly those bytes, whatever the client sends after them. */
  lemma RoundTrip(v: Value, rest: seq<char>)
    requires Wire(v)
    ensures Respond(v).ok
    ensures Parse(Respond(v).bytes + rest, 0) == Ok((v, |Respond(v).bytes|))
  {
    var w := Respond(v).bytes;
    AtPrefix(w, rest);
    RoundTripAt(v, w + rest, 0);
  }

  /** `Read` does not accept the nil bulk string `Respond` writes: the length -1 is
      handed to `make`. */
  lemma NilNotReadBack(rest: seq<char>)
    ensures Respond(Nil) == Written("$-1\r\n", true)
    ensures Parse(Respond(Nil).bytes + rest, 0) == Err(NegativeLength(-1))
  {
    var s := Respond(Nil).bytes + rest;
    AtPrefix(Respond(Nil).bytes, rest);
    assert Itoa(-1) == "-1";
    assert Respond(Nil).bytes == ['$'] + (Itoa(-1) + CRLF);
    AtHead(s, 0, '$', Itoa(-1) + CRLF);
    AtoiItoa(-1);
    ItoaHasNoNewline(-1);
    NegativeLengthAt(s, 1, Itoa(-1), -1);
    ParseMarker(s, 0);
  }

  /** A length line `strconv.Atoi` reads as a negative number, written in any form, is
      refused before anything after it is read. */
  lemma NegativeLengthAt(s: seq<char>, k: nat, text: string, n: int)
    requires n < 0 && '\n' !in text && Atoi(text) == Some(n) && At(s, k, text + CRLF)
    ensures ParseLength(s, k) == Err(NegativeLength(n))
    ensures ParseBulk(s, k) == Err(NegativeLength(n)) && ParseArray(s, k) == Err(NegativeLength(n))
  {
    LineAtText(s, k, text);
  }

  /** A first byte that is not one of `+ - : $ *` is refused as an unknown type. */
  lemma UnknownMarker(s: seq<char>, i: nat)
    requires i < |s| && s[i] !in "+-:$*"
    ensures Parse(s, i) == Err(UnknownType(s[i]))
  {
  }

  /** A length line that `strconv.Atoi` does not accept is reported with its text. */
  lemma BadLength(s: seq<char>, i: nat, text: string)
    requires '\n' !in text && !IntSyntax(text) && At(s, i, text + CRLF)
    ensures ParseLength(s, i) == Err(NotAnInteger(text))
    ensures ParseBulk(s, i) == Err(NotAnInteger(text)) && ParseArray(s, i) == Err(NotAnInteger(text))
  {
    AtoiSyntax(text);
    LineAtText(s, i, text);
  }

  /** A length line ended by a bare `'\n'` keeps that `'\n'`, so `strconv.Atoi` refuses
      it, whatever precedes it, and the error carries the line with its `'\n'`. */
  lemma BareNewlineLength(s: seq<char>, i: nat, text: string)
    requires '\n' !in text && (|text| == 0 || text[|text| - 1] != '\r') && At(s, i, text + "\n")
    ensures ParseLength(s, i) == Err(NotAnInteger(text + "\n"))
    ensures ParseBulk(s, i) == Err(NotAnInteger(text + "\n")) && ParseArray(s, i) == Err(NotAnInteger(text + "\n"))
  {
    var line := text + "\n";
    AtAppend(s, i, text, "\n");
    NoNewlineAt(s, i, text);
    AtIndex(s, i + |text|, "\n");
    assert s[i + |text| + 0] == "\n"[0];
    NewlineFromAt(s, i, i + |text|);
    AtSlice(s, i, line);
    LineFrom(s, i, i + |text|, line);
    assert TrimCRLF(line) == line by {
      if |line| >= 2 {
        assert line[|line| - 2] == text[|text| - 1];
      }
    }
    assert !IsDigit(line[|line| - 1]);
    assert !AllDigits(line) && (|line| > 1 ==> !AllDigits(line[1..])) by {
      if |line| > 1 {
        assert line[1..][|line| - 2] == line[|line| - 1];
      }
    }
    AtoiSyntax(line);
  }
}
