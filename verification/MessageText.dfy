/** The text of a message to a node, as json_dumps prints it with an indent of one, and its length. Characters are those
    of C: a character outside ASCII is several of them. */
module MessageText {
  import opened Common
  import opened GatewayTypes
  import opened GatewaySpec

  // ----- JSON as it is printed

  const HexDigits: string := "0123456789ABCDEF"

  function EscapedChar(c: char): string {
    if c == '\"' then "\\\""
    else if c == '\\' then "\\\\"
    else if c == '\n' then "\\n"
    else if c == '\r' then "\\r"
    else if c == '\t' then "\\t"
    else if c as int == 8 then "\\b"
    else if c as int == 12 then "\\f"
    else if c as int < 32 then "\\u00" + [HexDigits[c as int / 16], HexDigits[c as int % 16]]
    else [c]
  }

  function Escaped(s: string): string {
    if s == "" then "" else EscapedChar(s[0]) + Escaped(s[1..])
  }

  function Quoted(s: string): string {
    "\"" + Escaped(s) + "\""
  }

  function Pair(key: string, value: string): string {
    Quoted(key) + ": " + value
  }

  function NewLine(depth: nat): string {
    "\n" + seq(depth, _ => ' ')
  }

  /** The parts of an object or array that stands at this depth, each on a line of its own. */
  function Lines(parts: seq<string>, depth: nat): string {
    if parts == [] then ""
    else NewLine(depth + 1) + parts[0] + (if |parts| == 1 then NewLine(depth) else "," + Lines(parts[1..], depth))
  }

  function ObjectText(fields: seq<string>, depth: nat): string {
    "{" + Lines(fields, depth) + "}"
  }

  function ArrayText(items: seq<string>, depth: nat): string {
    "[" + Lines(items, depth) + "]"
  }

  // ----- the messages

  function ItemText(i: WireItem): string {
    var id := Pair("CAP_ID", Quoted(i.capId));
    ObjectText(if i.value.Some? then [id, Pair("VALUE", Quoted(i.value.value))] else [id], 2)
  }

  function ItemsText(items: seq<WireItem>): string {
    ArrayText(ItemTexts(items), 1)
  }

  function ItemTexts(items: seq<WireItem>): seq<string> {
    if items == [] then [] else [ItemText(items[0])] + ItemTexts(items[1..])
  }

  function JsonText(m: NodeMsg): string {
    match m
    case SendHello => ObjectText([Pair("MSGTYPE", "2")], 0)
    case SendGet(items) => ObjectText([Pair("MSGTYPE", "3"), Pair("REQ_ARRAY", ItemsText(items))], 0)
    case SendSet(sender, items) =>
      ObjectText([Pair("MSGTYPE", "5"), Pair("REQ_SENDER_NAME", Quoted(sender)), Pair("REQ_ARRAY", ItemsText(items))],
        0)
  }

  /** A build in which the length of a text is that of the JSON. */
  ghost predicate PrintsJson(build: Build) {
    forall m :: build.textSize(m) == |JsonText(m)|
  }

  // ----- lengths

  /** Printable ASCII that JSON does not escape. */
  predicate PlainText(s: string) {
    forall i :: 0 <= i < |s| ==> ' ' <= s[i] <= '~' && s[i] != '\"' && s[i] != '\\'
  }

  lemma {:induction false} PlainIsNotEscaped(s: string)
    requires PlainText(s)
    ensures Escaped(s) == s
  {
    if s != "" {
      PlainIsNotEscaped(s[1..]);
    }
  }

  function Sum(parts: seq<string>): nat {
    if parts == [] then 0 else |parts[0]| + Sum(parts[1..])
  }

  lemma {:induction false} LinesLength(parts: seq<string>, depth: nat)
    ensures |Lines(parts, depth)| == if parts == [] then 0 else |parts| * (depth + 3) + depth + Sum(parts)
  {
    if parts != [] {
      LinesLength(parts[1..], depth);
      assert |parts| * (depth + 3) == (|parts| - 1) * (depth + 3) + (depth + 3);
    }
  }

  lemma PairLength(key: string, value: string)
    requires PlainText(key)
    ensures |Pair(key, value)| == |key| + 4 + |value|
  {
    PlainIsNotEscaped(key);
  }

  /** The characters that one item takes, with the line it begins and the comma before the next. */
  function ItemLength(i: WireItem): nat {
    25 + |Escaped(i.capId)| + if i.value.Some? then 16 + |Escaped(i.value.value)| else 0
  }

  function ItemsLength(items: seq<WireItem>): nat {
    if items == [] then 0 else ItemLength(items[0]) + ItemsLength(items[1..])
  }

  lemma ItemTextLength(i: WireItem)
    ensures |ItemText(i)| + 4 == ItemLength(i)
  {
    hide Lines, Escaped;
    var id := Pair("CAP_ID", Quoted(i.capId));
    PairLength("CAP_ID", Quoted(i.capId));
    assert Sum([id]) == |id| + Sum([]);
    LinesLength([id], 2);
    if i.value.Some? {
      var value := Pair("VALUE", Quoted(i.value.value));
      PairLength("VALUE", Quoted(i.value.value));
      assert [id, value][1..] == [value] && Sum([value]) == |value| + Sum([]);
      LinesLength([id, value], 2);
    }
  }

  lemma {:induction false} SumOfItems(items: seq<WireItem>)
    ensures |ItemTexts(items)| == |items| && Sum(ItemTexts(items)) + 4 * |items| == ItemsLength(items)
  {
    hide ItemText, ItemLength;
    if items != [] {
      ItemTextLength(items[0]);
      SumOfItems(items[1..]);
    }
  }

  lemma ItemsTextLength(items: seq<WireItem>)
    ensures |ItemsText(items)| == 2 + if items == [] then 0 else 1 + ItemsLength(items)
  {
    hide Lines, ItemTexts, ItemsLength, Sum;
    LinesLength(ItemTexts(items), 1);
    SumOfItems(items);
  }

  /** How long the text of every message is. */
  lemma TextLength(m: NodeMsg)
    ensures m.SendHello? ==> |JsonText(m)| == 17
    ensures m.SendGet? ==> |JsonText(m)| == 35 + if m.items == [] then 0 else 1 + ItemsLength(m.items)
    ensures m.SendSet? ==>
      |JsonText(m)| == 59 + |Escaped(m.sender)| + if m.items == [] then 0 else 1 + ItemsLength(m.items)
  {
    hide Lines, Escaped, ItemsText, ItemsLength;
    match m
    case SendHello =>
      PairLength("MSGTYPE", "2");
      SumOfParts(Pair("MSGTYPE", "2"), "", "");
      LinesLength([Pair("MSGTYPE", "2")], 0);
    case SendGet(items) =>
      var a, b := Pair("MSGTYPE", "3"), Pair("REQ_ARRAY", ItemsText(items));
      PairLength("MSGTYPE", "3");
      PairLength("REQ_ARRAY", ItemsText(items));
      ItemsTextLength(items);
      SumOfParts(a, b, "");
      LinesLength([a, b], 0);
    case SendSet(sender, items) =>
      var a, b, c := Pair("MSGTYPE", "5"), Pair("REQ_SENDER_NAME", Quoted(sender)), Pair("REQ_ARRAY", ItemsText(items));
      PairLength("MSGTYPE", "5");
      PairLength("REQ_SENDER_NAME", Quoted(sender));
      PairLength("REQ_ARRAY", ItemsText(items));
      ItemsTextLength(items);
      SumOfParts(a, b, c);
      LinesLength([a, b, c], 0);
  }

  lemma SumOfParts(a: string, b: string, c: string)
    ensures Sum([a]) == |a| && Sum([a, b]) == |a| + |b| && Sum([a, b, c]) == |a| + |b| + |c|
  {
    assert [a, b, c][1..] == [b, c] && [b, c][1..] == [c] && [a, b][1..] == [b];
    assert Sum([a]) == |a| + Sum([]) && Sum([b]) == |b| + Sum([]) && Sum([c]) == |c| + Sum([]);
  }

  // ----- messages that are written for ever

  lemma {:induction false} IdsLength(items: seq<WireItem>, longest: nat)
    requires forall k :: 0 <= k < |items| ==>
      items[k].value.None? && PlainText(items[k].capId) && 1 <= |items[k].capId| <= longest
    ensures 26 * |items| <= ItemsLength(items) <= (25 + longest) * |items|
  {
    hide PlainText, Escaped;
    if items != [] {
      PlainIsNotEscaped(items[0].capId);
      IdsLength(items[1..], longest);
      assert (25 + longest) * |items| == (25 + longest) * (|items| - 1) + 25 + longest;
    }
  }

  /** A GET for nine capabilities, each of whose ids has at most 13 characters, is written for ever, whether char is
      signed or not and whatever errno is. */
  lemma NineCapabilitiesAreEndless(items: seq<WireItem>, eintr: bool, signed: bool)
    requires |items| == 9 && forall k :: 0 <= k < |items| ==>
      items[k].value.None? && PlainText(items[k].capId) && 1 <= |items[k].capId| <= 13
    ensures SendLoop.Endless(|JsonText(SendGet(items))|, eintr, signed)
  {
    hide JsonText, PlainText, ItemLength, ItemsLength;
    IdsLength(items, 13);
    TextLength(SendGet(items));
  }

  /** A SET of one capability has 101 characters beside those of the sender, the id and the value, and this decides
      whether it is written for ever. */
  lemma OneValueIsEndlessIff(sender: string, id: string, value: string, eintr: bool, signed: bool)
    requires PlainText(sender) && PlainText(id) && PlainText(value)
    ensures var n := 101 + |sender| + |id| + |value|;
      && |JsonText(SendSet(sender, [WireItem(id, Some(value))]))| == n
      && (SendLoop.Endless(|JsonText(SendSet(sender, [WireItem(id, Some(value))]))|, eintr, signed) <==>
            if signed then n >= 128 && (n % 256 < 128 || eintr) else n >= 256)
  {
    hide JsonText, PlainText, Escaped;
    var item := WireItem(id, Some(value));
    TextLength(SendSet(sender, [item]));
    assert ItemsLength([item]) == ItemLength(item) + ItemsLength([]);
    PlainIsNotEscaped(sender);
    PlainIsNotEscaped(id);
    PlainIsNotEscaped(value);
  }

  /** HELLO is always written once. */
  lemma HelloEnds(eintr: bool, signed: bool)
    ensures !SendLoop.Endless(|JsonText(SendHello)|, eintr, signed)
  {
    TextLength(SendHello);
    hide JsonText;
  }
}
