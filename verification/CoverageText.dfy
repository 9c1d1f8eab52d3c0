/** From the printed text of a model state back to its tuples of numbers and logs. */
module CoverageText {
  import opened Arithmetic
  import opened Keys
  import opened TlaTuples
  import C = Coverage

  // ---------------------------------------------------------------- numbers

  function Digit(d: nat): char
    requires d < 10
  {
    ('0' as int + d) as char
  }

  predicate IsDigit(c: char) {
    '0' <= c <= '9'
  }

  /** FormatUint in base 10. */
  function Decimal(n: nat): string {
    if n < 10 then [Digit(n)] else Decimal(n / 10) + [Digit(n % 10)]
  }

  predicate AllDigits(s: string) {
    forall i :: 0 <= i < |s| ==> IsDigit(s[i])
  }

  function NumberIn(s: string): nat
    requires AllDigits(s)
  {
    if s == "" then 0 else NumberIn(s[..|s| - 1]) * 10 + (s[|s| - 1] as int - '0' as int)
  }

  /** ParseUint in base 10 with 64 bits. */
  function Parsed(s: string): Option<nat> {
    if s == "" || !AllDigits(s) || NumberIn(s) >= TWO_64 then None else Some(NumberIn(s))
  }

  lemma {:induction false} DecimalRoundTrip(n: nat)
    ensures Decimal(n) != "" && AllDigits(Decimal(n)) && NumberIn(Decimal(n)) == n
  {
    if n >= 10 {
      DecimalRoundTrip(n / 10);
      var text := Decimal(n);
      assert text[..|text| - 1] == Decimal(n / 10);
    }
  }

  // ---------------------------------------------------------------- tuples of numbers

  function NumberValue(n: nat): Value {
    Atom(Decimal(n))
  }

  function NumbersValue(numbers: seq<nat>): Value {
    Tuple(seq(|numbers|, i requires 0 <= i < |numbers| => NumberValue(numbers[i])))
  }

  lemma NumberIsPrintable(n: nat)
    ensures Printable(NumberValue(n))
  {
    DecimalRoundTrip(n);
    var text := Decimal(n);
    assert forall i :: 0 <= i < |text| ==> IsDigit(text[i]);
  }

  function Texts(items: seq<Value>): seq<string> {
    seq(|items|, i requires 0 <= i < |items| => Print(items[i]))
  }

  lemma {:induction false} ListIsJoin(items: seq<Value>)
    ensures PrintList(items) == Join(Texts(items))
    decreases |items|
  {
    if |items| > 1 {
      ListIsJoin(items[1..]);
      assert Texts(items)[1..] == Texts(items[1..]);
    }
  }

  /** Splitting a printed tuple value gives the texts of its items. */
  lemma PrintedTupleSplits(items: seq<Value>)
    requires forall i :: 0 <= i < |items| ==> Printable(items[i])
    ensures SplitTuple(Print(Tuple(items))) == Some(Texts(items))
  {
    ListIsJoin(items);
    forall i | 0 <= i < |items|
      ensures Print(items[i]) != "" && Trimmed(Print(items[i])) && Balanced(Print(items[i]))
    {
      PrintedIsBalanced(items[i]);
    }
    hide Print, SplitTuple, Balanced;
    SplitInvertsPrinting(Texts(items));
    TupleIsBracketed(items);
  }

  lemma TupleIsBracketed(items: seq<Value>)
    ensures Print(Tuple(items)) == "<<" + PrintList(items) + ">>"
  {
  }

  function ParsedAll(parts: seq<string>): Option<seq<nat>> {
    if parts == [] then Some([])
    else
      var init, last := ParsedAll(parts[..|parts| - 1]), Parsed(TrimSpace(parts[|parts| - 1]));
      if init.None? || last.None? then None else Some(init.value + [last.value])
  }

  function ParsedTuple(value: string): Option<seq<nat>> {
    var parts := SplitTuple(value);
    if parts.None? then None else ParsedAll(parts.value)
  }

  lemma {:induction false} ParsingStops(parts: seq<string>, i: nat)
    requires i <= |parts| && ParsedAll(parts[..i]).None?
    ensures ParsedAll(parts).None?
    decreases |parts|
  {
    if i < |parts| {
      var init := parts[..|parts| - 1];
      assert init[..i] == parts[..i];
      ParsingStops(init, i);
    } else {
      assert parts[..i] == parts;
    }
  }

  /** parseUintTuple; None stands for the nil slice. */
  method ParseUintTuple(value: string) returns (numbers: Option<seq<nat>>)
    ensures numbers == ParsedTuple(value)
  {
    hide Parsed, TrimSpace;
    var parts := SplitTLATuple(value);
    if parts.None? {
      return None;
    }
    var result: seq<nat> := [];
    for i := 0 to |parts.value|
      invariant ParsedAll(parts.value[..i]) == Some(result)
    {
      assert parts.value[..i + 1][..i] == parts.value[..i];
      var parsed := Parsed(TrimSpace(parts.value[i]));
      if parsed.None? {
        ParsingStops(parts.value, i + 1);
        return None;
      }
      result := result + [parsed.value];
    }
    assert parts.value[..|parts.value|] == parts.value;
    numbers := Some(result);
  }

  lemma {:induction false} DecimalsParse(parts: seq<string>, numbers: seq<nat>)
    requires |parts| == |numbers| && forall i :: 0 <= i < |parts| ==> numbers[i] < TWO_64 && parts[i] == Decimal(numbers[i])
    ensures ParsedAll(parts) == Some(numbers)
    decreases |parts|
  {
    hide Decimal, NumberIn;
    if parts == [] {
      assert numbers == [];
    } else {
      var last := numbers[|numbers| - 1];
      DecimalsParse(parts[..|parts| - 1], numbers[..|numbers| - 1]);
      DecimalRoundTrip(last);
      NumberIsPrintable(last);
      DigitsAreTrimmed(Decimal(last));
      assert numbers == numbers[..|numbers| - 1] + [last];
    }
  }

  lemma DigitsAreTrimmed(text: string)
    requires text != "" && AllDigits(text)
    ensures TrimSpace(text) == text
  {
    assert IsDigit(text[0]) && IsDigit(text[|text| - 1]);
    TrimOne(text);
  }

  /** commitIndex and each row of matchIndex are read back from their printed text. */
  lemma NumbersReadBack(numbers: seq<nat>)
    requires forall i :: 0 <= i < |numbers| ==> numbers[i] < TWO_64
    ensures Printable(NumbersValue(numbers)) && ParsedTuple(Print(NumbersValue(numbers))) == Some(numbers)
  {
    hide Print, Decimal, SplitTuple, ParsedAll;
    var items := NumbersValue(numbers).items;
    forall i | 0 <= i < |items|
      ensures Printable(items[i])
    {
      NumberIsPrintable(numbers[i]);
    }
    PrintedTupleSplits(items);
    forall i | 0 <= i < |items|
      ensures Texts(items)[i] == Decimal(numbers[i])
    {
      AtomText(numbers[i]);
    }
    DecimalsParse(Texts(items), numbers);
  }

  lemma AtomText(n: nat)
    ensures Print(NumberValue(n)) == Decimal(n)
  {
  }

  // ---------------------------------------------------------------- matrices and logs

  function RowsValue(rows: seq<seq<nat>>): Value {
    Tuple(seq(|rows|, i requires 0 <= i < |rows| => NumbersValue(rows[i])))
  }

  /** matchIndex: every row comes back, so replicationShape sees the matrix itself. */
  lemma RowsReadBack(rows: seq<seq<nat>>)
    requires forall i, k :: 0 <= i < |rows| && 0 <= k < |rows[i]| ==> rows[i][k] < TWO_64
    ensures var parts := SplitTuple(Print(RowsValue(rows)));
            && parts.Some? && |parts.value| == |rows|
            && forall i :: 0 <= i < |rows| ==> ParsedTuple(parts.value[i]) == Some(rows[i])
  {
    hide Print, SplitTuple, ParsedTuple, NumbersValue;
    var items := RowsValue(rows).items;
    forall i | 0 <= i < |rows|
      ensures Printable(items[i]) && ParsedTuple(Print(items[i])) == Some(rows[i])
    {
      NumbersReadBack(rows[i]);
    }
    PrintedTupleSplits(items);
  }

  function EntryValue(e: C.LogEntry): Value {
    Record([Field("term", NumberValue(e.term)), Field("value", NumberValue(e.value))])
  }

  function EntriesOf(log: seq<C.LogEntry>): seq<Value> {
    seq(|log|, k requires 0 <= k < |log| => EntryValue(log[k]))
  }

  function LogValue(log: seq<seq<C.LogEntry>>): Value {
    Tuple(seq(|log|, i requires 0 <= i < |log| => Tuple(EntriesOf(log[i]))))
  }

  lemma EntryIsPrintable(e: C.LogEntry)
    ensures Printable(EntryValue(e))
  {
    hide Decimal;
    NumberIsPrintable(e.term);
    NumberIsPrintable(e.value);
    assert Word("term") && Word("value");
  }

  /** The log's text is taken apart into the nodes' logs, and each of those into the
      texts of its entries, in order: the shape and the lengths semanticLog works on. */
  lemma LogReadBack(log: seq<seq<C.LogEntry>>)
    ensures var nodes := SplitTuple(Print(LogValue(log)));
            && nodes.Some? && |nodes.value| == |log|
            && forall i :: 0 <= i < |log| ==> SplitTuple(nodes.value[i]) == Some(Texts(EntriesOf(log[i])))
  {
    hide Print, SplitTuple, EntryValue;
    var items := LogValue(log).items;
    forall i | 0 <= i < |log|
      ensures Printable(items[i]) && SplitTuple(Print(items[i])) == Some(Texts(EntriesOf(log[i])))
    {
      forall k | 0 <= k < |log[i]|
        ensures Printable(EntriesOf(log[i])[k])
      {
        EntryIsPrintable(log[i][k]);
      }
      PrintedTupleSplits(EntriesOf(log[i]));
    }
    PrintedTupleSplits(items);
  }
}
