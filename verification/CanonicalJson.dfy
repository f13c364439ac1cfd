/**
 * The canonical form of a call's arguments: JSON text with every object's keys
 * sorted, over strings of UTF-16 code units as JavaScript has them.
 */
module CanonicalJson {

  type Unit = u: int | 0 <= u < 0x1_0000
  type Text = seq<Unit>

  /** A number stands for its shortest decimal text, which is what is printed of it. */
  datatype Json =
    | Undefined
    | Null
    | Bool(value: bool)
    | Num(decimal: Text)
    | Str(text: Text)
    | Arr(items: seq<Json>)
    | Obj(members: seq<Member>)

  datatype Member = Member(key: Text, value: Json)

  const QUOTE: Unit := 0x22
  const BACKSLASH: Unit := 0x5C
  const COMMA: Unit := 0x2C
  const COLON: Unit := 0x3A
  const OPEN: Unit := 0x5B
  const CLOSE: Unit := 0x5D
  const BEGIN: Unit := 0x7B
  const END: Unit := 0x7D
  const NULL_TEXT: Text := [0x6E, 0x75, 0x6C, 0x6C]
  const TRUE_TEXT: Text := [0x74, 0x72, 0x75, 0x65]
  const FALSE_TEXT: Text := [0x66, 0x61, 0x6C, 0x73, 0x65]

  /** Digits, signs, a point and an exponent. */
  predicate Numeric(u: Unit) {
    0x30 <= u <= 0x39 || u == 0x2B || u == 0x2D || u == 0x2E || u == 0x65
  }

  predicate IsDecimal(t: Text) {
    t != [] && (0x30 <= t[0] <= 0x39 || t[0] == 0x2D) && forall i :: 0 <= i < |t| ==> Numeric(t[i])
  }

  /** A value a request can carry: no object has a key twice. */
  predicate WellFormed(v: Json) {
    match v
    case Num(decimal) => IsDecimal(decimal)
    case Arr(items) => forall i :: 0 <= i < |items| ==> WellFormed(items[i])
    case Obj(members) =>
      && (forall i :: 0 <= i < |members| ==> WellFormed(members[i].value))
      && forall i, j :: 0 <= i < j < |members| ==> members[i].key != members[j].key
    case _ => true
  }

  // ------------------------------------------------------------------ strings

  predicate High(u: Unit) {
    0xD800 <= u <= 0xDBFF
  }

  predicate Low(u: Unit) {
    0xDC00 <= u <= 0xDFFF
  }

  function HexDigit(d: int): Unit
    requires 0 <= d < 16
  {
    if d < 10 then 0x30 + d else 0x61 + (d - 10)
  }

  function UnicodeEscape(u: Unit): Text {
    [BACKSLASH, 0x75, HexDigit(u / 4096), HexDigit(u / 256 % 16), HexDigit(u / 16 % 16), HexDigit(u % 16)]
  }

  /** One unit that is not half of a pair, as `JSON.stringify` prints it. */
  function Escape(u: Unit): Text {
    if u == QUOTE || u == BACKSLASH then [BACKSLASH, u]
    else if u == 0x08 then [BACKSLASH, 0x62]
    else if u == 0x09 then [BACKSLASH, 0x74]
    else if u == 0x0A then [BACKSLASH, 0x6E]
    else if u == 0x0C then [BACKSLASH, 0x66]
    else if u == 0x0D then [BACKSLASH, 0x72]
    else if u < 0x20 || High(u) || Low(u) then UnicodeEscape(u)
    else [u]
  }

  predicate StartsPair(t: Text) {
    |t| >= 2 && High(t[0]) && Low(t[1])
  }

  function Escaped(t: Text): Text {
    if t == [] then []
    else if StartsPair(t) then t[..2] + Escaped(t[2..])
    else Escape(t[0]) + Escaped(t[1..])
  }

  function Quote(t: Text): Text {
    [QUOTE] + Escaped(t) + [QUOTE]
  }

  // ------------------------------------------------------------------ the code

  /** The order of `<` on strings: unit by unit, a prefix first. */
  predicate Before(a: Text, b: Text) {
    if a == [] then b != []
    else if b == [] then false
    else if a[0] != b[0] then a[0] < b[0]
    else Before(a[1..], b[1..])
  }

  function Join(texts: seq<Text>): Text {
    if texts == [] then [] else if |texts| == 1 then texts[0] else texts[0] + [COMMA] + Join(texts[1..])
  }

  /** A member that is printed, beside the key it is sorted by. */
  datatype Entry = Entry(key: Text, text: Text)

  function InsertEntry(e: Entry, sorted: seq<Entry>): seq<Entry> {
    if sorted == [] then [e]
    else if Before(e.key, sorted[0].key) then [e] + sorted
    else [sorted[0]] + InsertEntry(e, sorted[1..])
  }

  function SortEntries(entries: seq<Entry>): seq<Entry> {
    if entries == [] then [] else InsertEntry(entries[0], SortEntries(entries[1..]))
  }

  function Texts(entries: seq<Entry>): seq<Text> {
    if entries == [] then [] else [entries[0].text] + Texts(entries[1..])
  }

  /** `stableStringify`; the members are sorted by key after they are printed, which comes to the same. */
  function Stringify(v: Json): Text
    decreases v
  {
    match v
    case Undefined => NULL_TEXT
    case Null => NULL_TEXT
    case Bool(b) => if b then TRUE_TEXT else FALSE_TEXT
    case Num(decimal) => decimal
    case Str(text) => Quote(text)
    case Arr(items) => [OPEN] + Join(StringifyAll(items)) + [CLOSE]
    case Obj(members) => [BEGIN] + Join(Texts(SortEntries(Entries(members)))) + [END]
  }

  function StringifyAll(items: seq<Json>): seq<Text>
    decreases items
  {
    if items == [] then [] else [Stringify(items[0])] + StringifyAll(items[1..])
  }

  /** The members that are not undefined, printed. */
  function Entries(members: seq<Member>): seq<Entry>
    decreases members
  {
    if members == [] then []
    else if members[0].value.Undefined? then Entries(members[1..])
    else [Entry(members[0].key, Quote(members[0].key) + [COLON] + Stringify(members[0].value))] + Entries(members[1..])
  }

  // -------------------------------------------------------------- what is meant

  /** The value a key stands for, when it stands for one. */
  predicate Holds(members: seq<Member>, key: Text, value: Json) {
    Member(key, value) in members && !value.Undefined?
  }

  /** The same JSON value: objects whatever the order of their keys, and what is undefined is not there. */
  ghost predicate Same(a: Json, b: Json)
    decreases a
  {
    match a
    case Undefined => b.Undefined? || b.Null?
    case Null => b.Undefined? || b.Null?
    case Bool(_) => a == b
    case Num(_) => a == b
    case Str(_) => a == b
    case Arr(items) => b.Arr? && |items| == |b.items| && forall i :: 0 <= i < |items| ==> Same(items[i], b.items[i])
    case Obj(members) =>
      && b.Obj?
      && (forall i :: 0 <= i < |members| && !members[i].value.Undefined? ==>
            exists y :: Holds(b.members, members[i].key, y) && Same(members[i].value, y))
      && (forall key, y :: Holds(b.members, key, y) ==> exists x :: Holds(members, key, x))
  }

  // ------------------------------------------------------------ canonical values

  function InsertMember(m: Member, sorted: seq<Member>): seq<Member> {
    if sorted == [] then [m]
    else if Before(m.key, sorted[0].key) then [m] + sorted
    else [sorted[0]] + InsertMember(m, sorted[1..])
  }

  /** A value with its objects' members sorted and nothing undefined. */
  function Canon(v: Json): Json
    decreases v
  {
    match v
    case Undefined => Null
    case Arr(items) => Arr(CanonAll(items))
    case Obj(members) => Obj(CanonMembers(members))
    case _ => v
  }

  function CanonAll(items: seq<Json>): (r: seq<Json>)
    ensures |r| == |items|
    decreases items
  {
    if items == [] then [] else [Canon(items[0])] + CanonAll(items[1..])
  }

  function CanonMembers(members: seq<Member>): seq<Member>
    decreases members
  {
    if members == [] then []
    else if members[0].value.Undefined? then CanonMembers(members[1..])
    else InsertMember(Member(members[0].key, Canon(members[0].value)), CanonMembers(members[1..]))
  }

  /** A canonical value as text, member by member in the order they are in. */
  function Print(v: Json): Text
    decreases v
  {
    match v
    case Undefined => NULL_TEXT
    case Null => NULL_TEXT
    case Bool(b) => if b then TRUE_TEXT else FALSE_TEXT
    case Num(decimal) => decimal
    case Str(text) => Quote(text)
    case Arr(items) => [OPEN] + PrintItems(items)
    case Obj(members) => [BEGIN] + PrintMembers(members)
  }

  /** The items up to and with the closing bracket. */
  function PrintItems(items: seq<Json>): Text
    decreases items
  {
    if items == [] then [CLOSE]
    else if |items| == 1 then Print(items[0]) + [CLOSE]
    else Print(items[0]) + [COMMA] + PrintItems(items[1..])
  }

  function PrintMember(m: Member): Text
    decreases m
  {
    Quote(m.key) + [COLON] + Print(m.value)
  }

  function PrintMembers(members: seq<Member>): Text
    decreases members
  {
    if members == [] then [END]
    else if |members| == 1 then PrintMember(members[0]) + [END]
    else PrintMember(members[0]) + [COMMA] + PrintMembers(members[1..])
  }

  // --------------------------------------- the code prints the canonical value

  function Printed(members: seq<Member>): seq<Entry> {
    if members == [] then [] else [Entry(members[0].key, PrintMember(members[0]))] + Printed(members[1..])
  }

  lemma {:induction false} InsertPrinted(m: Member, sorted: seq<Member>)
    ensures Printed(InsertMember(m, sorted)) == InsertEntry(Entry(m.key, PrintMember(m)), Printed(sorted))
  {
    if sorted == [] {
      assert [m][1..] == [];
    } else if Before(m.key, sorted[0].key) {
      assert ([m] + sorted)[1..] == sorted;
    } else {
      InsertPrinted(m, sorted[1..]);
      assert ([sorted[0]] + InsertMember(m, sorted[1..]))[1..] == InsertMember(m, sorted[1..]);
      assert Printed(sorted)[1..] == Printed(sorted[1..]);
    }
  }

  lemma {:induction false} JoinPrinted(members: seq<Member>)
    ensures Join(Texts(Printed(members))) + [END] == PrintMembers(members)
  {
    if members != [] {
      JoinPrinted(members[1..]);
      var rest := Texts(Printed(members[1..]));
      assert Printed(members)[1..] == Printed(members[1..]);
      assert Texts(Printed(members)) == [PrintMember(members[0])] + rest;
      assert ([PrintMember(members[0])] + rest)[1..] == rest;
      if |members| == 1 {
        assert rest == [];
      } else {
        assert rest != [];
        assert PrintMember(members[0]) + [COMMA] + Join(rest) + [END] == PrintMember(members[0]) + [COMMA] + (Join(rest) + [END]);
      }
    }
  }

  lemma {:induction false} JoinItems(texts: seq<Text>, items: seq<Json>)
    requires |texts| == |items| && forall i :: 0 <= i < |items| ==> texts[i] == Print(items[i])
    ensures Join(texts) + [CLOSE] == PrintItems(items)
  {
    if items != [] {
      JoinItems(texts[1..], items[1..]);
      if |items| > 1 {
        assert texts[0] + [COMMA] + Join(texts[1..]) + [CLOSE] == texts[0] + [COMMA] + (Join(texts[1..]) + [CLOSE]);
      }
    }
  }

  /** Printing sorted members is sorting printed ones: the code prints the canonical value. */
  lemma {:induction false} StringifyPrints(v: Json)
    ensures Stringify(v) == Print(Canon(v))
    decreases v
  {
    match v
    case Arr(items) =>
      AllPrint(items);
      JoinItems(StringifyAll(items), CanonAll(items));
      assert [OPEN] + Join(StringifyAll(items)) + [CLOSE] == [OPEN] + (Join(StringifyAll(items)) + [CLOSE]);
    case Obj(members) =>
      EntriesPrint(members);
      JoinPrinted(CanonMembers(members));
      var texts := Texts(SortEntries(Entries(members)));
      assert [BEGIN] + Join(texts) + [END] == [BEGIN] + (Join(texts) + [END]);
    case _ =>
  }

  lemma {:induction false} AllPrint(items: seq<Json>)
    ensures |StringifyAll(items)| == |items|
    ensures forall i :: 0 <= i < |items| ==> StringifyAll(items)[i] == Print(CanonAll(items)[i])
    decreases items
  {
    if items != [] {
      StringifyPrints(items[0]);
      AllPrint(items[1..]);
    }
  }

  lemma {:induction false} EntriesPrint(members: seq<Member>)
    ensures SortEntries(Entries(members)) == Printed(CanonMembers(members))
    decreases members
  {
    if members != [] {
      EntriesPrint(members[1..]);
      if !members[0].value.Undefined? {
        StringifyPrints(members[0].value);
        InsertPrinted(Member(members[0].key, Canon(members[0].value)), CanonMembers(members[1..]));
        var e := Entry(members[0].key, Quote(members[0].key) + [COLON] + Stringify(members[0].value));
        assert ([e] + Entries(members[1..]))[1..] == Entries(members[1..]);
      }
    }
  }
}
