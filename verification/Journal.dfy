/** The bytes of a JSONL journal: what a crash inside Append leaves behind, and
    how reopening cuts the file back to a number of complete records. */
module Journal {
  import opened Keys

  newtype byte = x: int | 0 <= x < 256

  const NEWLINE: byte := 10

  const CARRIAGE_RETURN: byte := 13

  const CHUNK: nat := 4096

  /** The scanner's buffer: a line and its newline must fit into it. */
  const MAX_LINE: nat := 16 * 1024 * 1024

  // ---------------------------------------------------------------- records and bytes

  predicate OneLine(bytes: seq<byte>) {
    NEWLINE !in bytes
  }

  /** What a sequence of complete Appends writes. */
  function Encoded(records: seq<seq<byte>>): seq<byte> {
    if records == [] then [] else records[0] + [NEWLINE] + Encoded(records[1..])
  }

  /** Position of the first newline, or the length. */
  function FirstNewline(bytes: seq<byte>): (i: nat)
    ensures i <= |bytes| && OneLine(bytes[..i]) && (i < |bytes| ==> bytes[i] == NEWLINE)
  {
    if bytes == [] || bytes[0] == NEWLINE then 0
    else
      var i := FirstNewline(bytes[1..]);
      assert bytes[..i + 1] == [bytes[0]] + bytes[1..][..i];
      i + 1
  }

  /** The complete records of a file. */
  function Records(bytes: seq<byte>): seq<seq<byte>> {
    var i := FirstNewline(bytes);
    if i == |bytes| then [] else [bytes[..i]] + Records(bytes[i + 1..])
  }

  /** What follows the last newline. */
  function Tail(bytes: seq<byte>): seq<byte> {
    var i := FirstNewline(bytes);
    if i == |bytes| then bytes else Tail(bytes[i + 1..])
  }

  lemma EncodedStep(record: seq<byte>, rest: seq<seq<byte>>)
    ensures Encoded([record] + rest) == record + [NEWLINE] + Encoded(rest)
  {
    assert ([record] + rest)[1..] == rest;
  }

  lemma Regroup(a: seq<byte>, b: seq<byte>, c: seq<byte>)
    ensures (a + b) + c == a + (b + c)
  {
  }

  lemma AroundNewline(bytes: seq<byte>, i: nat)
    requires i < |bytes| && bytes[i] == NEWLINE
    ensures bytes == bytes[..i] + [NEWLINE] + bytes[i + 1..]
  {
  }

  /** Every file is its complete records and a tail without newline ... */
  lemma {:induction false} EveryFileSplits(bytes: seq<byte>)
    ensures Encoded(Records(bytes)) + Tail(bytes) == bytes
    ensures OneLine(Tail(bytes)) && forall r | r in Records(bytes) :: OneLine(r)
  {
    var i := FirstNewline(bytes);
    if i == |bytes| {
      assert bytes[..i] == bytes;
    } else {
      var rest := bytes[i + 1..];
      EveryFileSplits(rest);
      EncodedStep(bytes[..i], Records(rest));
      AroundNewline(bytes, i);
      Regroup(bytes[..i] + [NEWLINE], Encoded(Records(rest)), Tail(rest));
    }
  }

  lemma FirstNewlineIs(line: seq<byte>, rest: seq<byte>)
    requires OneLine(line)
    ensures FirstNewline(line + [NEWLINE] + rest) == |line|
  {
    var b := line + [NEWLINE] + rest;
    var i := FirstNewline(b);
    assert b[|line|] == NEWLINE;
    assert forall j :: 0 <= j < |line| ==> b[j] == line[j] && line[j] in line;
    assert forall j :: 0 <= j < i ==> b[j] == b[..i][j] && b[..i][j] in b[..i];
  }

  /** ... and in only one way. */
  lemma {:induction false} SplitIsUnique(records: seq<seq<byte>>, tail: seq<byte>)
    requires OneLine(tail) && forall r | r in records :: OneLine(r)
    ensures Records(Encoded(records) + tail) == records
    ensures Tail(Encoded(records) + tail) == tail
  {
    var b := Encoded(records) + tail;
    if records == [] {
      assert b == tail;
    } else {
      var rest := Encoded(records[1..]) + tail;
      assert b == records[0] + [NEWLINE] + rest;
      FirstNewlineIs(records[0], rest);
      assert b[|records[0]| + 1..] == rest && b[..|records[0]|] == records[0];
      SplitIsUnique(records[1..], tail);
    }
  }

  lemma {:induction false} EncodedConcat(a: seq<seq<byte>>, b: seq<seq<byte>>)
    ensures Encoded(a + b) == Encoded(a) + Encoded(b)
  {
    if a == [] {
      assert a + b == b;
    } else {
      EncodedConcat(a[1..], b);
      assert (a + b)[1..] == a[1..] + b;
      Regroup(a[0] + [NEWLINE], Encoded(a[1..]), Encoded(b));
    }
  }

  /** A cut right after a newline with none behind it keeps exactly the complete records. */
  lemma CutAtLastNewline(bytes: seq<byte>, cut: nat)
    requires cut <= |bytes| && OneLine(bytes[cut..]) && (cut == 0 || bytes[cut - 1] == NEWLINE)
    ensures bytes[..cut] == Encoded(Records(bytes))
  {
    EveryFileSplits(bytes);
    EncodedEndsInNewline(Records(bytes));
    LastNewlineIsUnique(bytes, cut, Encoded(Records(bytes)), Tail(bytes));
  }

  /** Two ways to cut a file after its last newline are the same. */
  lemma LastNewlineIsUnique(bytes: seq<byte>, cut: nat, front: seq<byte>, back: seq<byte>)
    requires cut <= |bytes| && OneLine(bytes[cut..]) && (cut == 0 || bytes[cut - 1] == NEWLINE)
    requires bytes == front + back && OneLine(back) && (front == [] || front[|front| - 1] == NEWLINE)
    ensures bytes[..cut] == front
  {
    var behind := bytes[cut..];
    assert forall j :: cut <= j < |bytes| ==> behind[j - cut] in behind && bytes[j] == behind[j - cut] != NEWLINE;
    assert forall j :: |front| <= j < |bytes| ==> back[j - |front|] in back && bytes[j] == back[j - |front|] != NEWLINE;
    assert forall j :: 0 <= j < |front| ==> bytes[j] == front[j];
  }

  lemma {:induction false} EncodedEndsInNewline(records: seq<seq<byte>>)
    ensures records != [] ==> |Encoded(records)| > 0 && Encoded(records)[|Encoded(records)| - 1] == NEWLINE
    ensures records == [] <==> Encoded(records) == []
  {
    if records != [] {
      EncodedEndsInNewline(records[1..]);
    }
  }

  // ---------------------------------------------------------------- reading lines back

  /** The scanner's view of the bytes: a line loses one trailing carriage return,
      and lines that are then empty are skipped. */
  function Text(line: seq<byte>): seq<seq<byte>> {
    var text := if line != [] && line[|line| - 1] == CARRIAGE_RETURN then line[..|line| - 1] else line;
    if text == [] then [] else [text]
  }

  /** Every line, and what follows the last newline, fits into the scanner's buffer. */
  predicate Fits(bytes: seq<byte>) {
    var i := FirstNewline(bytes);
    i < MAX_LINE && (i < |bytes| ==> Fits(bytes[i + 1..]))
  }

  /** The values a scanner finds in the bytes. */
  function Values(bytes: seq<byte>): seq<seq<byte>> {
    var i := FirstNewline(bytes);
    Text(bytes[..i]) + if i < |bytes| then Values(bytes[i + 1..]) else []
  }

  /** Fits, said of the records: no record and no tail is too long. */
  lemma {:induction false} FitsMeans(bytes: seq<byte>)
    ensures Fits(bytes) <==> (forall r | r in Records(bytes) :: |r| < MAX_LINE) && |Tail(bytes)| < MAX_LINE
  {
    var i := FirstNewline(bytes);
    if i < |bytes| {
      FitsMeans(bytes[i + 1..]);
      assert Records(bytes) == [bytes[..i]] + Records(bytes[i + 1..]);
      assert bytes[..i] in Records(bytes);
    }
  }

  /** What json.Marshal writes: one line, not empty, and no carriage return in it. */
  predicate JsonText(text: seq<byte>) {
    text != [] && NEWLINE !in text && CARRIAGE_RETURN !in text
  }

  lemma FirstValue(text: seq<byte>, rest: seq<byte>)
    requires JsonText(text)
    ensures Values(text + [NEWLINE] + rest) == [text] + Values(rest)
  {
    FirstNewlineIs(text, rest);
    var b := text + [NEWLINE] + rest;
    assert b[..|text|] == text && b[|text| + 1..] == rest;
    assert text[|text| - 1] in text;
  }

  /** A journal of JSON texts reads back as those texts. */
  lemma {:induction false} ValuesOfJournal(records: seq<seq<byte>>)
    requires forall r | r in records :: JsonText(r)
    ensures Values(Encoded(records)) == records
  {
    if records != [] {
      hide JsonText, Text, FirstNewline;
      assert JsonText(records[0]);
      ValuesOfJournal(records[1..]);
      FirstValue(records[0], Encoded(records[1..]));
    }
  }

  /** Reading a committed journal succeeds exactly when no record is too long, and
      gives the records back. */
  lemma CommittedReadBack(records: seq<seq<byte>>)
    requires forall r | r in records :: JsonText(r)
    ensures Values(Encoded(records)) == records
    ensures Fits(Encoded(records)) <==> forall i :: 0 <= i < |records| ==> |records[i]| < MAX_LINE
  {
    ValuesOfJournal(records);
    FitsMeans(Encoded(records));
    SplitIsUnique(records, []);
    assert Encoded(records) + [] == Encoded(records);
    assert forall i :: 0 <= i < |records| ==> records[i] in records;
  }

  datatype Scanned = Token(line: seq<byte>, next: nat) | AtEnd | TooLong

  datatype Last = Found(line: seq<byte>) | NoValue | Failed

  // ---------------------------------------------------------------- the file

  class File {
    var bytes: seq<byte>

    constructor (content: seq<byte>)
      ensures bytes == content
    {
      bytes := content;
    }

    method Truncate(size: nat)
      requires size <= |bytes|
      modifies this
      ensures bytes == old(bytes)[..size]
    {
      bytes := bytes[..size];
    }

    /** A complete Append: one line and its newline in a single write. */
    method Append(record: seq<byte>)
      modifies this
      ensures bytes == old(bytes) + record + [NEWLINE]
    {
      bytes := bytes + record + [NEWLINE];
    }

    /** Scans one chunk backwards; the position after its last newline, or -1. */
    method LastNewlineIn(start: nat, end: nat) returns (cut: int)
      requires start <= end <= |bytes|
      ensures cut == -1 ==> OneLine(bytes[start..end])
      ensures cut != -1 ==> start < cut <= end && bytes[cut - 1] == NEWLINE && OneLine(bytes[cut..end])
    {
      var index := end;
      while index > start
        invariant start <= index <= end
        invariant OneLine(bytes[index..end])
      {
        index := index - 1;
        if bytes[index] == NEWLINE {
          return index + 1;
        }
        assert bytes[index..end] == [bytes[index]] + bytes[index + 1..end];
      }
      cut := -1;
    }

    /** Cuts a partial last line, reading backwards in chunks. */
    method RepairPartialLine()
      modifies this
      ensures bytes == Encoded(Records(old(bytes)))
    {
      if |bytes| == 0 {
        return;
      }
      if bytes[|bytes| - 1] == NEWLINE {
        CutAtLastNewline(bytes, |bytes|);
        assert bytes[..|bytes|] == bytes;
        return;
      }
      var position := |bytes|;
      while position > 0
        invariant 0 <= position <= |bytes| && bytes == old(bytes)
        invariant OneLine(bytes[position..])
      {
        var start := if position < CHUNK then 0 else position - CHUNK;
        var cut := LastNewlineIn(start, position);
        if cut != -1 {
          assert bytes[cut..] == bytes[cut..position] + bytes[position..];
          CutAtLastNewline(bytes, cut);
          Truncate(cut);
          return;
        }
        assert bytes[start..] == bytes[start..position] + bytes[position..];
        position := start;
      }
      CutAtLastNewline(bytes, 0);
      Truncate(0);
    }

    /** bufio.Reader.ReadBytes: up to and including the next newline, or what is left. */
    method ReadBytes(offset: nat) returns (line: seq<byte>, eof: bool)
      requires offset <= |bytes|
      ensures eof <==> FirstNewline(bytes[offset..]) == |bytes| - offset
      ensures line == if eof then bytes[offset..] else bytes[offset..offset + FirstNewline(bytes[offset..]) + 1]
    {
      var i := FirstNewline(bytes[offset..]);
      eof := i == |bytes| - offset;
      line := if eof then bytes[offset..] else bytes[offset..offset + i + 1];
    }

    /** bufio.Scanner.Scan: the next line without its newline, or what is left. */
    method Scan(offset: nat) returns (scanned: Scanned)
      requires offset <= |bytes|
      ensures var i, rest := FirstNewline(bytes[offset..]), bytes[offset..];
              scanned == if i >= MAX_LINE then TooLong else if rest == [] then AtEnd
                         else Token(rest[..i], if i == |rest| then |bytes| else offset + i + 1)
    {
      var rest := bytes[offset..];
      var i := FirstNewline(rest);
      if i >= MAX_LINE {
        return TooLong;
      }
      if |rest| == 0 {
        return AtEnd;
      }
      scanned := Token(rest[..i], if i == |rest| then |bytes| else offset + i + 1);
    }

    /** All values; fails on a line too long. */
    method ScanAll() returns (ok: bool, values: seq<seq<byte>>)
      ensures ok <==> Fits(bytes)
      ensures ok ==> values == Values(bytes)
    {
      hide Fits, Values, FirstNewline, Text;
      values := [];
      var offset := 0;
      assert bytes[0..] == bytes;
      while true
        invariant offset <= |bytes|
        invariant Fits(bytes) <==> Fits(bytes[offset..])
        invariant Values(bytes) == values + Values(bytes[offset..])
        decreases |bytes| - offset
      {
        NextScan(bytes, offset);
        var scanned := Scan(offset);
        match scanned
        case TooLong => return false, values;
        case AtEnd => return true, values;
        case Token(line, next) =>
          assert values + (Text(line) + Values(bytes[next..])) == values + Text(line) + Values(bytes[next..]);
          values := values + Text(line);
          offset := next;
      }
    }

    /** Reads exactly so many values; fails on a line too long or another count. */
    method ReadJSONLines(exactly: int) returns (values: Option<seq<seq<byte>>>)
      ensures values.Some? <==> Fits(bytes) && |Values(bytes)| == exactly
      ensures values.Some? ==> values.value == Values(bytes)
    {
      if exactly < 0 {
        return None;
      }
      var ok, result := ScanAll();
      if !ok || |result| != exactly {
        return None;
      }
      values := Some(result);
    }

    /** The last value of the file; an empty file has none. */
    method ReadLastJSONLine() returns (last: Last)
      ensures last == if !Fits(bytes) then Failed
                      else if Values(bytes) == [] then NoValue else Found(Values(bytes)[|Values(bytes)| - 1])
    {
      hide Fits, Values, FirstNewline, Text;
      ghost var result: seq<seq<byte>> := [];
      var latest: seq<byte> := [];
      var offset := 0;
      assert bytes[0..] == bytes;
      while true
        invariant offset <= |bytes|
        invariant Fits(bytes) <==> Fits(bytes[offset..])
        invariant Values(bytes) == result + Values(bytes[offset..])
        invariant if result == [] then latest == [] else latest == result[|result| - 1] != []
        decreases |bytes| - offset
      {
        NextScan(bytes, offset);
        var scanned := Scan(offset);
        match scanned
        case TooLong => return Failed;
        case AtEnd =>
          assert result + [] == result;
          break;
        case Token(line, next) =>
          assert result + (Text(line) + Values(bytes[next..])) == result + Text(line) + Values(bytes[next..]);
          AtMostOneText(line);
          result := result + Text(line);
          if |Text(line)| > 0 {
            latest := Text(line)[0];
          }
          offset := next;
      }
      last := if |latest| == 0 then NoValue else Found(latest);
    }

    /** Repairs the tail and keeps the first `keep` records; fails when there are fewer. */
    method KeepJSONLines(keep: int) returns (ok: bool)
      modifies this
      ensures ok <==> 0 <= keep <= |Records(old(bytes))|
      ensures ok ==> bytes == Encoded(Records(old(bytes))[..keep])
      ensures !ok ==> bytes == if keep < 0 then old(bytes) else Encoded(Records(old(bytes)))
    {
      if keep < 0 {
        return false;
      }
      ghost var records := Records(bytes);
      EveryFileSplits(bytes);
      RepairPartialLine();
      var count, boundary := Boundary(keep, records);
      if count < keep {
        return false;
      }
      assert records[..|records|] == records;
      if count > keep {
        Truncate(boundary);
      }
      ok := true;
    }

    /** The scan: how many records there are, and where the first `keep` end. */
    method Boundary(keep: nat, ghost records: seq<seq<byte>>) returns (count: nat, boundary: nat)
      requires bytes == Encoded(records) && forall r | r in records :: OneLine(r)
      ensures count == |records|
      ensures keep <= count ==> AtRecord(bytes, records, boundary, keep)
    {
      hide AtRecord, Encoded, FirstNewline;
      AtFirstRecord(bytes, records);
      count, boundary := 0, 0;
      var offset, eof := 0, false;
      while !eof
        invariant offset <= |bytes| && count <= |records| && AtRecord(bytes, records, offset, count)
        invariant 0 < keep <= count ==> AtRecord(bytes, records, boundary, keep)
        invariant eof ==> count == |records|
        decreases |bytes| - offset, !eof
      {
        RestIsAhead(bytes, records, offset, count);
        var line;
        line, eof := ReadBytes(offset);
        if |line| > 0 {
          OneFurther(bytes, records, offset, count);
          count := count + 1;
          offset := offset + |line|;
          if count == keep {
            boundary := offset;
          }
        }
      }
      if keep == 0 {
        boundary := 0;
      }
    }
  }

  lemma AtMostOneText(line: seq<byte>)
    ensures |Text(line)| <= 1 && (|Text(line)| > 0 ==> Text(line)[0] != [])
  {
  }

  lemma FirstLine(rest: seq<byte>, i: nat)
    requires rest != [] && i == FirstNewline(rest)
    ensures Fits(rest) <==> i < MAX_LINE && Fits(if i == |rest| then [] else rest[i + 1..])
    ensures Values(rest) == Text(rest[..i]) + Values(if i == |rest| then [] else rest[i + 1..])
  {
    NothingLeft();
    hide FirstNewline, Text;
  }

  lemma NothingLeft()
    ensures Fits([]) && Values([]) == [] && FirstNewline([]) == 0
  {
  }

  /** One scan peels off the first line of what is left. */
  lemma NextScan(bytes: seq<byte>, offset: nat)
    requires offset <= |bytes|
    ensures var rest := bytes[offset..];
            var i := FirstNewline(rest);
            && (i >= MAX_LINE ==> !Fits(rest))
            && (rest == [] ==> Fits(rest) && Values(rest) == [])
            && (rest != [] && i < MAX_LINE ==>
                  var next := if i == |rest| then |bytes| else offset + i + 1;
                  (Fits(rest) <==> Fits(bytes[next..])) && Values(rest) == Text(rest[..i]) + Values(bytes[next..]))
  {
    hide FirstNewline, Text, Fits, Values;
    var rest := bytes[offset..];
    var i := FirstNewline(rest);
    NothingLeft();
    if rest != [] {
      FirstLine(rest, i);
      if i < |rest| {
        assert rest[i + 1..] == bytes[offset + i + 1..];
      } else {
        assert bytes[|bytes|..] == [];
      }
    }
  }

  /** Byte `offset` is where record `count` starts. */
  ghost predicate AtRecord(bytes: seq<byte>, records: seq<seq<byte>>, offset: nat, count: nat) {
    && offset <= |bytes| && count <= |records|
    && bytes[..offset] == Encoded(records[..count]) && bytes[offset..] == Encoded(records[count..])
  }

  lemma AtFirstRecord(bytes: seq<byte>, records: seq<seq<byte>>)
    requires bytes == Encoded(records)
    ensures AtRecord(bytes, records, 0, 0)
  {
    assert records[0..] == records && bytes[0..] == bytes;
  }

  lemma RestIsAhead(bytes: seq<byte>, records: seq<seq<byte>>, offset: nat, count: nat)
    requires AtRecord(bytes, records, offset, count) && forall r | r in records :: OneLine(r)
    ensures count < |records| ==> FirstNewline(bytes[offset..]) == |records[count]| < |bytes| - offset
    ensures count == |records| ==> offset == |bytes|
  {
    NextLine(records[count..]);
  }

  lemma OneFurther(bytes: seq<byte>, records: seq<seq<byte>>, offset: nat, count: nat)
    requires AtRecord(bytes, records, offset, count) && count < |records|
    ensures AtRecord(bytes, records, offset + |records[count]| + 1, count + 1)
  {
    var record, rest := records[count], records[count + 1..];
    assert records[count..] == [record] + rest;
    EncodedStep(record, rest);
    EncodedConcat(records[..count], [record]);
    assert records[..count] + [record] == records[..count + 1];
    EncodedStep(record, []);
    assert bytes == bytes[..offset] + bytes[offset..];
  }

  /** Reading one line of complete records consumes exactly one record. */
  lemma NextLine(records: seq<seq<byte>>)
    requires forall r | r in records :: OneLine(r)
    ensures var b := Encoded(records);
            if records == [] then b == [] && FirstNewline(b) == 0
            else FirstNewline(b) == |records[0]| < |b| && b[..|records[0]| + 1] == records[0] + [NEWLINE]
                 && b[|records[0]| + 1..] == Encoded(records[1..])
  {
    if records != [] {
      FirstNewlineIs(records[0], Encoded(records[1..]));
    }
  }

  /** Whatever Appends completed, whatever partial line the crash left: the first
      `keep` records survive, byte for byte, and keeping them again changes nothing. */
  lemma KeepsCompleteRecords(records: seq<seq<byte>>, tail: seq<byte>, keep: nat)
    requires OneLine(tail) && (forall r | r in records :: OneLine(r)) && keep <= |records|
    ensures |Records(Encoded(records) + tail)| == |records|
    ensures Encoded(Records(Encoded(records) + tail)[..keep]) == Encoded(records[..keep])
    ensures Records(Encoded(records[..keep])) == records[..keep] && Tail(Encoded(records[..keep])) == []
  {
    SplitIsUnique(records, tail);
    SplitIsUnique(records[..keep], []);
    assert Encoded(records[..keep]) + [] == Encoded(records[..keep]);
  }
}
