/** Reading TLA+ tuples back from their printed text. */
module TlaTuples {
  import opened Keys

  /** unicode.IsSpace. */
  predicate Blank(c: char) {
    var u := c as int;
    || 9 <= u <= 13 || u == 32 || u == 0x85 || u == 0xA0 || u == 0x1680 || 0x2000 <= u <= 0x200A
    || u == 0x2028 || u == 0x2029 || u == 0x202F || u == 0x205F || u == 0x3000
  }

  // ---------------------------------------------------------------- trimming

  function TrimLeft(s: string): string {
    if s != "" && Blank(s[0]) then TrimLeft(s[1..]) else s
  }

  function TrimRight(s: string): string {
    if s != "" && Blank(s[|s| - 1]) then TrimRight(s[..|s| - 1]) else s
  }

  function TrimSpace(s: string): string {
    TrimRight(TrimLeft(s))
  }

  predicate Trimmed(s: string) {
    s == "" || (!Blank(s[0]) && !Blank(s[|s| - 1]))
  }

  lemma TrimOne(s: string)
    requires Trimmed(s) && s != ""
    ensures TrimSpace(s) == s && TrimSpace(" " + s) == s
  {
    assert (" " + s)[1..] == s;
  }

  // ---------------------------------------------------------------- splitTLATuple

  datatype Depth = Depth(angle: int, square: int, brace: int)

  const TOP: Depth := Depth(0, 0, 0)

  predicate Opens(s: string) {
    |s| >= 2 && s[0] == '<' && s[1] == '<'
  }

  predicate Closes(s: string) {
    |s| >= 2 && s[0] == '>' && s[1] == '>'
  }

  /** The depth after one bracket character. */
  function Enter(d: Depth, c: char): Depth {
    if c == '[' then d.(square := d.square + 1)
    else if c == ']' then d.(square := d.square - 1)
    else if c == '{' then d.(brace := d.brace + 1)
    else if c == '}' then d.(brace := d.brace - 1)
    else d
  }

  /** The parts of what is left to read, `acc` being the part already begun. */
  function Split(s: string, acc: string, d: Depth): Option<seq<string>>
    decreases |s|
  {
    if s == "" then
      if d == TOP then Some([TrimSpace(acc)]) else None
    else if Opens(s) then Split(s[2..], acc + s[..2], d.(angle := d.angle + 1))
    else if Closes(s) then Split(s[2..], acc + s[..2], d.(angle := d.angle - 1))
    else if s[0] == ',' && d == TOP then
      var rest := Split(s[1..], "", d);
      if rest.None? then None else Some([TrimSpace(acc)] + rest.value)
    else Split(s[1..], acc + s[..1], Enter(d, s[0]))
  }

  /** Two opening and two closing characters; they never overlap. */
  predicate Enclosed(text: string)
    ensures Enclosed(text) ==> |text| >= 4
  {
    var enclosed := |text| >= 2 && text[..2] == "<<" && text[|text| - 2..] == ">>";
    assert enclosed ==> text[..2][1] == '<' && text[|text| - 2..][0] == '>' && text[|text| - 2..][1] == '>';
    enclosed
  }

  function SplitTuple(value: string): Option<seq<string>> {
    var text := TrimSpace(value);
    if !Enclosed(text) then None
    else
      var inside := TrimSpace(text[2..|text| - 2]);
      if inside == "" then Some([]) else Split(inside, "", TOP)
  }

  /** splitTLATuple: one pass over the characters with three nesting counters. */
  method SplitTLATuple(value: string) returns (parts: Option<seq<string>>)
    ensures parts == SplitTuple(value)
  {
    hide TrimSpace, Enter, Enclosed, Split;
    var text := TrimSpace(value);
    if !Enclosed(text) {
      return None;
    }
    var inside := TrimSpace(text[2..|text| - 2]);
    if inside == "" {
      return Some([]);
    }
    var found: seq<string> := [];
    var start, index := 0, 0;
    var depth := TOP;
    PrependNone(Split(inside, "", TOP));
    assert inside[0..] == inside;
    while index < |inside|
      invariant 0 <= start <= index <= |inside|
      invariant Split(inside, "", TOP) == Prepended(found, Split(inside[index..], inside[start..index], depth))
      decreases |inside| - index
    {
      ReadOne(inside, start, index, depth);
      if index + 1 < |inside| && inside[index] == '<' && inside[index + 1] == '<' {
        depth := depth.(angle := depth.angle + 1);
        index := index + 2;
      } else if index + 1 < |inside| && inside[index] == '>' && inside[index + 1] == '>' {
        depth := depth.(angle := depth.angle - 1);
        index := index + 2;
      } else if inside[index] == ',' && depth == TOP {
        PrependOne(found, TrimSpace(inside[start..index]), Split(inside[index + 1..], "", TOP));
        assert inside[index + 1..index + 1] == "";
        found := found + [TrimSpace(inside[start..index])];
        index := index + 1;
        start := index;
      } else {
        depth := Enter(depth, inside[index]);
        index := index + 1;
      }
    }
    assert inside[index..] == "" && inside[start..index] == inside[start..];
    NothingLeft(inside[start..], depth);
    if depth != TOP {
      return None;
    }
    parts := Some(found + [TrimSpace(inside[start..])]);
  }

  /** One turn of the scanner's loop follows one step of the specification. */
  lemma ReadOne(inside: string, start: nat, index: nat, d: Depth)
    requires start <= index < |inside|
    ensures var now := Split(inside[index..], inside[start..index], d);
            if index + 1 < |inside| && inside[index] == '<' && inside[index + 1] == '<' then
              now == Split(inside[index + 2..], inside[start..index + 2], d.(angle := d.angle + 1))
            else if index + 1 < |inside| && inside[index] == '>' && inside[index + 1] == '>' then
              now == Split(inside[index + 2..], inside[start..index + 2], d.(angle := d.angle - 1))
            else if inside[index] == ',' && d == TOP then
              now == Prepended([TrimSpace(inside[start..index])], Split(inside[index + 1..], "", TOP))
            else now == Split(inside[index + 1..], inside[start..index + 1], Enter(d, inside[index]))
  {
    hide TrimSpace, Enter;
    var rest, begun := inside[index..], inside[start..index];
    assert rest[1..] == inside[index + 1..] && begun + rest[..1] == inside[start..index + 1];
    if index + 1 < |inside| {
      assert rest[2..] == inside[index + 2..] && begun + rest[..2] == inside[start..index + 2];
    }
  }

  lemma NothingLeft(acc: string, d: Depth)
    ensures Split("", acc, d) == if d == TOP then Some([TrimSpace(acc)]) else None
  {
  }

  function Prepended(parts: seq<string>, rest: Option<seq<string>>): Option<seq<string>> {
    if rest.None? then None else Some(parts + rest.value)
  }

  lemma PrependNone(rest: Option<seq<string>>)
    ensures Prepended([], rest) == rest
  {
    if rest.Some? {
      assert [] + rest.value == rest.value;
    }
  }

  lemma PrependOne(parts: seq<string>, part: string, rest: Option<seq<string>>)
    ensures Prepended(parts, Prepended([part], rest)) == Prepended(parts + [part], rest)
  {
    if rest.Some? {
      assert parts + ([part] + rest.value) == parts + [part] + rest.value;
    }
  }

  // ---------------------------------------------------------------- items and their tuple

  /** The depth after reading `text`; None when it has a comma at the top level. */
  function Scan(text: string, d: Depth): Option<Depth>
    decreases |text|
  {
    if text == "" then Some(d)
    else if Opens(text) then Scan(text[2..], d.(angle := d.angle + 1))
    else if Closes(text) then Scan(text[2..], d.(angle := d.angle - 1))
    else if text[0] == ',' && d == TOP then None
    else Scan(text[1..], Enter(d, text[0]))
  }

  /** Brackets add up and every comma is inside some bracket. */
  predicate Balanced(text: string) {
    Scan(text, TOP) == Some(TOP)
  }

  function Join(items: seq<string>): string {
    if items == [] then "" else if |items| == 1 then items[0] else items[0] + ", " + Join(items[1..])
  }

  /** What is read first leaves its depth and its text behind, up to a comma or the end. */
  lemma {:induction false} ReadAhead(text: string, rest: string, acc: string, d: Depth)
    requires Scan(text, d).Some? && (rest == "" || rest[0] == ',')
    ensures Split(text + rest, acc, d) == Split(rest, acc + text, Scan(text, d).value)
    decreases |text|
  {
    var s := text + rest;
    if text == "" {
      assert s == rest && acc + text == acc;
    } else if Opens(text) || Closes(text) {
      assert s[2..] == text[2..] + rest && s[..2] == text[..2];
      assert acc + text[..2] + text[2..] == acc + text;
      ReadAhead(text[2..], rest, acc + text[..2], d.(angle := if Opens(text) then d.angle + 1 else d.angle - 1));
    } else {
      assert s[1..] == text[1..] + rest && s[..1] == text[..1] && s[0] == text[0];
      assert !Opens(s) && !Closes(s);
      assert acc + text[..1] + text[1..] == acc + text;
      ReadAhead(text[1..], rest, acc + text[..1], Enter(d, text[0]));
    }
  }

  /** How far the first part goes: up to a comma at the top level, or to the end. */
  function PartLength(s: string, d: Depth): (n: nat)
    ensures n <= |s| && (n < |s| ==> s[n] == ',')
    decreases |s|
  {
    if s == "" then 0
    else if Opens(s) then 2 + PartLength(s[2..], d.(angle := d.angle + 1))
    else if Closes(s) then 2 + PartLength(s[2..], d.(angle := d.angle - 1))
    else if s[0] == ',' && d == TOP then 0
    else 1 + PartLength(s[1..], Enter(d, s[0]))
  }

  lemma {:induction false} PartScans(s: string, d: Depth)
    ensures Scan(s[..PartLength(s, d)], d).Some?
    ensures PartLength(s, d) < |s| ==> Scan(s[..PartLength(s, d)], d) == Some(TOP)
    decreases |s|
  {
    var n := PartLength(s, d);
    var part := s[..n];
    if s != "" && !(s[0] == ',' && d == TOP) {
      if Opens(s) || Closes(s) {
        PartScans(s[2..], d.(angle := if Opens(s) then d.angle + 1 else d.angle - 1));
        assert part[2..] == s[2..][..n - 2] && part[0] == s[0] && part[1] == s[1];
      } else {
        PartScans(s[1..], Enter(d, s[0]));
        assert part[1..] == s[1..][..n - 1] && part[0] == s[0];
        assert !Opens(part) && !Closes(part);
      }
    }
  }

  /** The first part of what is split is balanced; the rest is split behind the comma. */
  lemma SplitFirst(s: string, acc: string)
    requires Split(s, acc, TOP).Some?
    ensures var n := PartLength(s, TOP);
            && Balanced(s[..n])
            && (if n == |s| then Split(s, acc, TOP) == Some([TrimSpace(acc + s)])
                else && Split(s[n + 1..], "", TOP).Some?
                     && Split(s, acc, TOP).value == [TrimSpace(acc + s[..n])] + Split(s[n + 1..], "", TOP).value)
  {
    var n := PartLength(s, TOP);
    PartScans(s, TOP);
    assert s == s[..n] + s[n..];
    ReadAhead(s[..n], s[n..], acc, TOP);
    if n == |s| {
      assert s[..n] == s && s[n..] == "";
    } else {
      assert s[n..][1..] == s[n + 1..];
    }
  }

  // ---------------------------------------------------------------- blanks do not count

  lemma {:induction false} ScanTrailingBlank(text: string, b: char, d: Depth)
    requires Blank(b)
    ensures Scan(text + [b], d) == Scan(text, d)
    decreases |text|
  {
    var s := text + [b];
    if text == "" {
      assert s == [b] && s[1..] == "" && Enter(d, b) == d;
    } else if Opens(text) || Closes(text) {
      assert s[2..] == text[2..] + [b];
      ScanTrailingBlank(text[2..], b, d.(angle := if Opens(text) then d.angle + 1 else d.angle - 1));
    } else {
      assert s[1..] == text[1..] + [b] && s[0] == text[0];
      assert !Opens(s) && !Closes(s);
      ScanTrailingBlank(text[1..], b, Enter(d, text[0]));
    }
  }

  lemma {:induction false} ScanTrimLeft(s: string, d: Depth)
    ensures Scan(TrimLeft(s), d) == Scan(s, d)
  {
    if s != "" && Blank(s[0]) {
      ScanTrimLeft(s[1..], d);
    }
  }

  lemma {:induction false} ScanTrimRight(s: string, d: Depth)
    ensures Scan(TrimRight(s), d) == Scan(s, d)
  {
    if s != "" && Blank(s[|s| - 1]) {
      var init := s[..|s| - 1];
      assert s == init + [s[|s| - 1]];
      ScanTrailingBlank(init, s[|s| - 1], d);
      ScanTrimRight(init, d);
    }
  }

  lemma TrimKeepsBalance(s: string)
    ensures Balanced(TrimSpace(s)) <==> Balanced(s)
  {
    ScanTrimLeft(s, TOP);
    ScanTrimRight(TrimLeft(s), TOP);
  }

  lemma BlankKeepsBalance(s: string, lead: string)
    requires lead == "" || lead == " "
    ensures Balanced(lead + s) <==> Balanced(s)
  {
    if lead == " " {
      assert (" " + s)[1..] == s;
    } else {
      assert lead + s == s;
    }
  }

  /** Every part the splitter ever returns is balanced. */
  lemma {:induction false} PartsAreBalanced(s: string, lead: string)
    requires Split(s, lead, TOP).Some? && (lead == "" || lead == " ")
    ensures forall part | part in Split(s, lead, TOP).value :: Balanced(part)
    decreases |s|
  {
    var n := PartLength(s, TOP);
    SplitFirst(s, lead);
    hide Split, Balanced, Scan;
    BlankKeepsBalance(s[..n], lead);
    TrimKeepsBalance(lead + s[..n]);
    if n < |s| {
      PartsAreBalanced(s[n + 1..], "");
    } else {
      assert s[..n] == s;
    }
  }

  // ---------------------------------------------------------------- splitting inverts printing

  /** Items as a printer writes them: not empty, no blanks around them. */
  predicate Written(items: seq<string>) {
    forall i :: 0 <= i < |items| ==> items[i] != "" && Trimmed(items[i])
  }

  predicate AllBalanced(items: seq<string>) {
    forall i :: 0 <= i < |items| ==> Balanced(items[i])
  }

  /** A leading blank, left by the separator, is trimmed away. */
  lemma LeadIsTrimmed(item: string, lead: string)
    requires item != "" && Trimmed(item) && (lead == "" || lead == " ")
    ensures TrimSpace(lead + item) == item
  {
    TrimOne(item);
    assert "" + item == item;
  }

  lemma SplitLast(item: string, lead: string)
    requires item != "" && Trimmed(item) && Balanced(item) && (lead == "" || lead == " ")
    ensures Split(item, lead, TOP) == Some([item])
  {
    LeadIsTrimmed(item, lead);
    ReadAhead(item, "", lead, TOP);
    assert item + "" == item;
  }

  lemma SplitNext(item: string, rest: string, lead: string)
    requires item != "" && Trimmed(item) && Balanced(item) && (lead == "" || lead == " ")
    ensures Split(item + ", " + rest, lead, TOP) == Prepended([item], Split(rest, " ", TOP))
  {
    LeadIsTrimmed(item, lead);
    var tail := ", " + rest;
    ReadAhead(item, tail, lead, TOP);
    assert item + ", " + rest == item + tail;
    SplitAtComma(rest, lead + item);
  }

  lemma SplitAtComma(rest: string, acc: string)
    ensures Split(", " + rest, acc, TOP) == Prepended([TrimSpace(acc)], Split(rest, " ", TOP))
  {
    var tail := ", " + rest;
    assert tail[0] == ',' && tail[1..] == " " + rest;
    assert (" " + rest)[1..] == rest && (" " + rest)[..1] == " " && "" + " " == " ";
  }

  lemma {:induction false} SplitList(items: seq<string>, lead: string)
    requires items != [] && Written(items) && AllBalanced(items) && (lead == "" || lead == " ")
    ensures Split(Join(items), lead, TOP) == Some(items)
    decreases |items|
  {
    hide Split, Balanced, Trimmed;
    if |items| == 1 {
      SplitLast(items[0], lead);
      assert items == [items[0]];
    } else {
      SplitNext(items[0], Join(items[1..]), lead);
      SplitList(items[1..], " ");
      assert items == [items[0]] + items[1..];
    }
  }

  lemma {:induction false} JoinIsTrimmed(items: seq<string>)
    requires items != [] && Written(items)
    ensures Join(items) != "" && Trimmed(Join(items))
    decreases |items|
  {
    if |items| > 1 {
      JoinIsTrimmed(items[1..]);
    }
  }

  lemma TupleUnwraps(items: seq<string>)
    requires Written(items)
    ensures SplitTuple("<<" + Join(items) + ">>") == if items == [] then Some([]) else Split(Join(items), "", TOP)
  {
    var inside := Join(items);
    var text := "<<" + inside + ">>";
    TrimOne(text);
    assert text[..2] == "<<" && text[|text| - 2..] == ">>" && text[2..|text| - 2] == inside;
    if items != [] {
      JoinIsTrimmed(items);
      TrimOne(inside);
    } else {
      assert TrimSpace("") == "";
    }
  }

  /** splitTLATuple gives back the items of a printed tuple, whatever they are,
      exactly when each of them is balanced. */
  lemma SplitInvertsPrinting(items: seq<string>)
    requires Written(items)
    ensures SplitTuple("<<" + Join(items) + ">>") == Some(items) <==> AllBalanced(items)
  {
    TupleUnwraps(items);
    if items != [] {
      hide Split, Balanced, SplitTuple;
      if AllBalanced(items) {
        SplitList(items, "");
      }
      if Split(Join(items), "", TOP) == Some(items) {
        PartsAreBalanced(Join(items), "");
        assert forall i :: 0 <= i < |items| ==> items[i] in items;
      }
    }
  }

  /** The splitter does not know quotes: a comma inside a string splits it. */
  lemma QuotedCommaSplits()
    ensures !Balanced("\"a,b\"") && Written(["\"a,b\""])
    ensures SplitTuple("<<" + Join(["\"a,b\""]) + ">>") != Some(["\"a,b\""])
  {
    var item := "\"a,b\"";
    assert item[1..] == "a,b\"" && item[1..][1..] == ",b\"";
    assert !Balanced(item);
    SplitInvertsPrinting([item]);
  }

  // ---------------------------------------------------------------- the values TLC prints

  /** An atom is a number, a model value or a quoted string without brackets and
      commas; blanks inside it do not matter. */
  datatype Value =
    | Atom(text: string)
    | Tuple(items: seq<Value>)
    | SetOf(items: seq<Value>)
    | Record(fields: seq<Field>)
    | Function(pairs: seq<Pair>)

  datatype Field = Field(name: string, value: Value)

  datatype Pair = Pair(key: Value, value: Value)

  predicate Plain(c: char) {
    c != '<' && c != '>' && c != '[' && c != ']' && c != '{' && c != '}' && c != ','
  }

  predicate Word(text: string) {
    text != "" && Trimmed(text) && forall i :: 0 <= i < |text| ==> Plain(text[i])
  }

  predicate Printable(v: Value) {
    match v
    case Atom(text) => Word(text)
    case Tuple(items) => forall i :: 0 <= i < |items| ==> Printable(items[i])
    case SetOf(items) => forall i :: 0 <= i < |items| ==> Printable(items[i])
    case Record(fields) => forall i :: 0 <= i < |fields| ==> Word(fields[i].name) && Printable(fields[i].value)
    case Function(pairs) => forall i :: 0 <= i < |pairs| ==> Printable(pairs[i].key) && Printable(pairs[i].value)
  }

  function Print(v: Value): string
    decreases v, 0
  {
    match v
    case Atom(text) => text
    case Tuple(items) => "<<" + PrintList(items) + ">>"
    case SetOf(items) => "{" + PrintList(items) + "}"
    case Record(fields) => "[" + PrintFields(fields) + "]"
    case Function(pairs) => "(" + PrintPairs(pairs) + ")"
  }

  function PrintList(items: seq<Value>): string
    decreases items, 1
  {
    if items == [] then ""
    else if |items| == 1 then Print(items[0])
    else Print(items[0]) + ", " + PrintList(items[1..])
  }

  function PrintFields(fields: seq<Field>): string
    decreases fields, 2
  {
    if fields == [] then ""
    else
      var first := fields[0].name + " |-> " + Print(fields[0].value);
      if |fields| == 1 then first else first + ", " + PrintFields(fields[1..])
  }

  function PrintPairs(pairs: seq<Pair>): string
    decreases pairs, 2
  {
    if pairs == [] then ""
    else
      var first := PrintPair(pairs[0]);
      if |pairs| == 1 then first else first + " @@ " + PrintPairs(pairs[1..])
  }

  function PrintPair(pair: Pair): string
    decreases pair, 1
  {
    Print(pair.key) + " :> " + Print(pair.value)
  }

  predicate Positive(d: Depth) {
    d.angle >= 0 && d.square >= 0 && d.brace >= 0
  }

  /** Reading `text` leaves the depth alone, whatever follows. */
  ghost predicate Neutral(text: string, d: Depth) {
    forall rest: string :: Scan(text + rest, d) == Scan(rest, d)
  }

  lemma NeutralTwo(a: string, b: string, d: Depth)
    requires Neutral(a, d) && Neutral(b, d)
    ensures Neutral(a + b, d)
  {
    forall rest: string
      ensures Scan(a + b + rest, d) == Scan(rest, d)
    {
      assert a + b + rest == a + (b + rest);
    }
  }

  lemma NeutralThree(a: string, b: string, c: string, d: Depth)
    requires Neutral(a, d) && Neutral(b, d) && Neutral(c, d)
    ensures Neutral(a + b + c, d)
  {
    NeutralTwo(a, b, d);
    NeutralTwo(a + b, c, d);
  }

  lemma NeutralChar(c: char, d: Depth)
    requires c != '<' && c != '>' && Enter(d, c) == d && (c == ',' ==> d != TOP)
    ensures Neutral([c], d)
  {
    forall rest: string
      ensures Scan([c] + rest, d) == Scan(rest, d)
    {
      assert ([c] + rest)[1..] == rest;
    }
  }

  lemma {:induction false} NeutralWord(text: string, d: Depth)
    requires forall i :: 0 <= i < |text| ==> Plain(text[i])
    ensures Neutral(text, d)
  {
    if text == "" {
      assert forall rest: string :: text + rest == rest;
    } else {
      NeutralChar(text[0], d);
      NeutralWord(text[1..], d);
      NeutralTwo([text[0]], text[1..], d);
      assert text == [text[0]] + text[1..];
    }
  }

  /** The '>' of an arrow is followed by a blank and is no bracket. */
  lemma NeutralArrow(before: string, d: Depth)
    requires forall i :: 0 <= i < |before| ==> Plain(before[i])
    ensures Neutral(before + "> ", d)
  {
    NeutralWord(before, d);
    forall rest: string
      ensures Scan("> " + rest, d) == Scan(rest, d)
    {
      var s := "> " + rest;
      assert s[0] == '>' && s[1] == ' ' && s[1..] == " " + rest;
      assert (" " + rest)[1..] == rest;
    }
    NeutralTwo(before, "> ", d);
  }

  /** Bracketed text is neutral when its inside is, one level deeper. */
  lemma NeutralAngles(inside: string, d: Depth)
    requires Neutral(inside, d.(angle := d.angle + 1))
    ensures Neutral("<<" + inside + ">>", d)
  {
    var text, deeper := "<<" + inside + ">>", d.(angle := d.angle + 1);
    forall rest: string
      ensures Scan(text + rest, d) == Scan(rest, d)
    {
      var s, tail := text + rest, ">>" + rest;
      assert s[2..] == inside + tail && tail[2..] == rest;
      assert Scan(s, d) == Scan(inside + tail, deeper) == Scan(tail, deeper);
    }
  }

  lemma NeutralBrackets(open: char, inside: string, close: char, d: Depth, deeper: Depth)
    requires (open == '[' && close == ']') || (open == '{' && close == '}') || (open == '(' && close == ')')
    requires deeper == Enter(d, open) && Neutral(inside, deeper)
    ensures Neutral([open] + inside + [close], d)
  {
    var text := [open] + inside + [close];
    forall rest: string
      ensures Scan(text + rest, d) == Scan(rest, d)
    {
      var s, tail := text + rest, [close] + rest;
      assert s[1..] == inside + tail && tail[1..] == rest;
      assert Scan(s, d) == Scan(inside + tail, deeper) == Scan(tail, deeper);
    }
  }

  lemma NeutralComma(d: Depth)
    requires d != TOP
    ensures Neutral(", ", d)
  {
    NeutralChar(',', d);
    NeutralChar(' ', d);
    NeutralTwo(",", " ", d);
    assert "," + " " == ", ";
  }

  /** A printed value is neutral at every depth: functions need no brackets of their
      own, since their pairs are not separated by commas. */
  lemma {:induction false} NeutralValue(v: Value, d: Depth)
    requires Printable(v) && Positive(d)
    ensures Neutral(Print(v), d)
    decreases v, 0
  {
    match v
    case Atom(text) => NeutralWord(text, d);
    case Tuple(items) =>
      NeutralList(items, d.(angle := d.angle + 1));
      NeutralAngles(PrintList(items), d);
    case SetOf(items) =>
      NeutralList(items, d.(brace := d.brace + 1));
      NeutralBrackets('{', PrintList(items), '}', d, d.(brace := d.brace + 1));
    case Record(fields) =>
      NeutralFields(fields, d.(square := d.square + 1));
      NeutralBrackets('[', PrintFields(fields), ']', d, d.(square := d.square + 1));
    case Function(pairs) =>
      NeutralPairs(pairs, d);
      NeutralBrackets('(', PrintPairs(pairs), ')', d, d);
  }

  lemma {:induction false} NeutralList(items: seq<Value>, d: Depth)
    requires (forall i :: 0 <= i < |items| ==> Printable(items[i])) && Positive(d) && d != TOP
    ensures Neutral(PrintList(items), d)
    decreases items, 1
  {
    if items == [] {
      NeutralWord("", d);
    } else {
      NeutralValue(items[0], d);
      if |items| > 1 {
        NeutralComma(d);
        NeutralList(items[1..], d);
        NeutralThree(Print(items[0]), ", ", PrintList(items[1..]), d);
      }
    }
  }

  lemma {:induction false} NeutralFields(fields: seq<Field>, d: Depth)
    requires (forall i :: 0 <= i < |fields| ==> Word(fields[i].name) && Printable(fields[i].value)) && Positive(d) && d != TOP
    ensures Neutral(PrintFields(fields), d)
    decreases fields, 2
  {
    if fields == [] {
      NeutralWord("", d);
    } else {
      NeutralWord(fields[0].name, d);
      NeutralArrow(" |-", d);
      assert " |-" + "> " == " |-> ";
      NeutralValue(fields[0].value, d);
      NeutralThree(fields[0].name, " |-> ", Print(fields[0].value), d);
      if |fields| > 1 {
        NeutralComma(d);
        NeutralFields(fields[1..], d);
        NeutralThree(fields[0].name + " |-> " + Print(fields[0].value), ", ", PrintFields(fields[1..]), d);
      }
    }
  }

  lemma {:induction false} NeutralPairs(pairs: seq<Pair>, d: Depth)
    requires (forall i :: 0 <= i < |pairs| ==> Printable(pairs[i].key) && Printable(pairs[i].value)) && Positive(d)
    ensures Neutral(PrintPairs(pairs), d)
    decreases pairs, 2
  {
    if pairs == [] {
      NeutralWord("", d);
    } else {
      NeutralPair(pairs[0], d);
      if |pairs| > 1 {
        NeutralWord(" @@ ", d);
        NeutralPairs(pairs[1..], d);
        NeutralThree(PrintPair(pairs[0]), " @@ ", PrintPairs(pairs[1..]), d);
      }
    }
  }

  lemma {:induction false} NeutralPair(pair: Pair, d: Depth)
    requires Printable(pair.key) && Printable(pair.value) && Positive(d)
    ensures Neutral(PrintPair(pair), d)
    decreases pair, 1
  {
    NeutralValue(pair.key, d);
    NeutralArrow(" :", d);
    assert " :" + "> " == " :> ";
    NeutralValue(pair.value, d);
    NeutralThree(Print(pair.key), " :> ", Print(pair.value), d);
  }

  /** What TLC prints is balanced, so the items of a printed tuple come back. */
  lemma PrintedIsBalanced(v: Value)
    requires Printable(v)
    ensures Print(v) != "" && Trimmed(Print(v)) && Balanced(Print(v))
  {
    NeutralValue(v, TOP);
    assert Print(v) + "" == Print(v);
    assert Scan(Print(v) + "", TOP) == Scan("", TOP);
  }
}
