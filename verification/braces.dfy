/** Finding a JSON object in free text by counting braces outside of strings (the strings of
    section 7 of RFC 8259). */
module Braces {
  import opened Wrappers
  import opened Seqs

  // -- the scanner ------------------------------------------------------------------------

  datatype Mode = Mode(depth: int, inString: bool, escape: bool)

  // One character.
  function Moved(m: Mode, c: char): Mode {
    if m.inString then
      if m.escape then m.(escape := false)
      else if c == '\\' then m.(escape := true)
      else if c == '\"' then m.(inString := false)
      else m
    else if c == '\"' then m.(inString := true)
    else if c == '{' then m.(depth := m.depth + 1)
    else if c == '}' then m.(depth := m.depth - 1)
    else m
  }

  // The character closes the outermost brace.
  predicate Closes(m: Mode, c: char) {
    !m.inString && c == '}' && m.depth == 1
  }

  // How many characters there are up to the closing brace, and with it.
  function Scan(m: Mode, s: string): (r: Option<nat>)
    ensures r.Some? ==> 0 < r.value <= |s| && s[r.value - 1] == '}'
    decreases |s|
  {
    if s == "" then None
    else if Closes(m, s[0]) then Some(1)
    else
      match Scan(Moved(m, s[0]), s[1..])
      case None => None
      case Some(n) => Some(n + 1)
  }

  const OUTSIDE: Mode := Mode(0, false, false)

  function FindBrace(s: string, from: nat): (r: Option<nat>)
    ensures r.Some? ==> from <= r.value < |s| && s[r.value] == '{' && forall j :: from <= j < r.value ==> s[j] != '{'
    ensures r.None? ==> forall j :: from <= j < |s| ==> s[j] != '{'
    decreases |s| - from
  {
    if from >= |s| then None else if s[from] == '{' then Some(from) else FindBrace(s, from + 1)
  }

  // What parses between the opening brace at i and the closing brace the scan finds.
  function AtBrace<T>(parse: string -> Option<T>, s: string, i: nat): Option<T>
    requires i < |s|
  {
    var n := Scan(OUTSIDE, s[i..]);
    if n.Some? then parse(s[i..i + n.value]) else None
  }

  // The search over all opening braces from a position on.
  function Search<T>(parse: string -> Option<T>, s: string, from: nat): Option<T>
    decreases |s| - from
  {
    var i := FindBrace(s, from);
    if i.None? then None
    else if AtBrace(parse, s, i.value).Some? then AtBrace(parse, s, i.value)
    else Search(parse, s, i.value + 1)
  }

  // The first candidate that parses.
  function FirstParsed<T>(parse: string -> Option<T>, candidates: seq<string>): (r: Option<T>)
    ensures r.Some? ==> exists k ::
              && 0 <= k < |candidates| && parse(candidates[k]) == r
              && forall j :: 0 <= j < k ==> parse(candidates[j]).None?
    ensures r.None? ==> forall j :: 0 <= j < |candidates| ==> parse(candidates[j]).None?
  {
    if candidates == [] then None
    else if parse(candidates[0]).Some? then parse(candidates[0])
    else FirstParsed(parse, candidates[1..])
  }

  // No opening brace from a to b gives anything.
  ghost predicate NoneGives<T>(parse: string -> Option<T>, s: string, a: nat, b: nat) {
    forall j {:trigger AtBrace(parse, s, j)} :: a <= j < b && j < |s| && s[j] == '{' ==> AtBrace(parse, s, j).None?
  }

  lemma NoneUntil<T>(parse: string -> Option<T>, s: string, a: nat, b: nat)
    requires forall j :: a <= j < b && j < |s| ==> s[j] != '{'
    ensures NoneGives(parse, s, a, b)
  {
  }

  lemma NoneBoth<T>(parse: string -> Option<T>, s: string, a: nat, b: nat, c: nat)
    requires NoneGives(parse, s, a, b) && b < |s| && AtBrace(parse, s, b).None? && NoneGives(parse, s, b + 1, c)
    ensures NoneGives(parse, s, a, c)
  {
    forall j | a <= j < c && j < |s| && s[j] == '{'
      ensures AtBrace(parse, s, j).None?
    {
    }
  }

  lemma SearchNext<T>(parse: string -> Option<T>, s: string, from: nat)
    ensures var i := FindBrace(s, from);
            Search(parse, s, from) == if i.None? then None
                                      else if AtBrace(parse, s, i.value).Some? then AtBrace(parse, s, i.value)
                                      else Search(parse, s, i.value + 1)
  {
  }

  /** The search yields what the first opening brace gives that gives anything, and nothing if none
      does. */
  lemma {:induction false} SearchIsFirst<T>(parse: string -> Option<T>, s: string, from: nat) returns (i: nat)
    ensures from <= i && NoneGives(parse, s, from, i)
    ensures if i < |s| then s[i] == '{' && AtBrace(parse, s, i).Some? && Search(parse, s, from) == AtBrace(parse, s, i)
            else Search(parse, s, from).None?
    decreases |s| - from
  {
    SearchNext(parse, s, from);
    var found := FindBrace(s, from);
    if found.None? {
      i := from + |s|;
      NoneUntil(parse, s, from, i);
    } else {
      i := found.value;
      NoneUntil(parse, s, from, i);
      if AtBrace(parse, s, i).None? {
        var k := SearchIsFirst(parse, s, i + 1);
        NoneBoth(parse, s, from, i, k);
        i := k;
      }
    }
  }

  // -- the program ------------------------------------------------------------------------

  function Shift(r: Option<nat>, n: nat): Option<nat> {
    if r.Some? then Some(r.value + n) else None
  }

  lemma ScanTurn(m: Mode, s: string, index: nat)
    requires index < |s|
    ensures Scan(m, s[index..]) == if Closes(m, s[index]) then Some(1) else Shift(Scan(Moved(m, s[index]), s[index + 1..]), 1)
  {
    assert s[index..][1..] == s[index + 1..];
  }

  // The body of the inner loop; closes says that it breaks out.
  method Move(m: Mode, c: char) returns (next: Mode, closes: bool)
    ensures closes == Closes(m, c) && (!closes ==> next == Moved(m, c))
  {
    var depth, inString, escape := m.depth, m.inString, m.escape;
    closes := false;
    if inString {
      if escape {
        escape := false;
      } else if c == '\\' {
        escape := true;
      } else if c == '\"' {
        inString := false;
      }
    } else if c == '\"' {
      inString := true;
    } else if c == '{' {
      depth := depth + 1;
    } else if c == '}' {
      depth := depth - 1;
      closes := depth == 0;
    }
    next := Mode(depth, inString, escape);
  }

  // The inner loop: the index of the closing brace of the object that opens at start.
  method ScanFrom(s: string, start: nat) returns (end: Option<nat>)
    requires start < |s|
    ensures Shift(end, 1) == Shift(Scan(OUTSIDE, s[start..]), start)
  {
    var m := OUTSIDE;
    ghost var whole := Shift(Scan(OUTSIDE, s[start..]), start);
    for index := start to |s|
      invariant whole == Shift(Scan(m, s[index..]), index)
    {
      ScanTurn(m, s, index);
      var next, closes := Move(m, s[index]);
      if closes {
        return Some(index);
      }
      m := next;
    }
    assert s[|s|..] == "";
    return None;
  }

  method TryCandidates<T>(parse: string -> Option<T>, candidates: seq<string>) returns (r: Option<T>)
    ensures r == FirstParsed(parse, candidates)
  {
    for k := 0 to |candidates|
      invariant FirstParsed(parse, candidates) == FirstParsed(parse, candidates[k..])
    {
      r := parse(candidates[k]);
      if r.Some? {
        return;
      }
      assert candidates[k..][1..] == candidates[k + 1..];
    }
    return None;
  }

  // One turn of the outer loop.
  method TryBrace<T>(parse: string -> Option<T>, s: string, start: nat) returns (r: Option<T>)
    requires start < |s|
    ensures r == AtBrace(parse, s, start)
  {
    var end := ScanFrom(s, start);
    if end.None? {
      return None;
    }
    r := parse(s[start..end.value + 1]);
  }

  // The outer loop, over all opening braces; each turn begins further on.
  method SearchBraces<T>(parse: string -> Option<T>, s: string) returns (r: Option<T>)
    ensures r == Search(parse, s, 0)
  {
    ghost var from := 0;
    var start := FindBrace(s, 0);
    while start.Some?
      invariant start == FindBrace(s, from) && Search(parse, s, 0) == Search(parse, s, from)
      decreases if start.Some? then |s| - start.value else -1
    {
      r := TryBrace(parse, s, start.value);
      if r.Some? {
        return;
      }
      from := start.value + 1;
      start := FindBrace(s, start.value + 1);
    }
    return None;
  }

  // extract_first_json_object: candidates are the stripped text and its fenced parts, parse is
  // the JSON library.
  method ExtractFirstJsonObject<T>(parse: string -> Option<T>, candidates: seq<string>, s: string) returns (r: Option<T>)
    ensures s == "" ==> r == None
    ensures s != "" ==> r == if FirstParsed(parse, candidates).Some? then FirstParsed(parse, candidates) else Search(parse, s, 0)
  {
    if s == "" {
      return None;
    }
    r := TryCandidates(parse, candidates);
    if r.None? {
      r := SearchBraces(parse, s);
    }
  }

  // -- text in braces ---------------------------------------------------------------------

  // A character of a string, or an escape: a backslash and the character behind it. (The four
  // digits of a \u escape are characters of their own.)
  datatype Piece = Plain(c: char) | Escaped(c: char)

  // What stands between two braces: characters that are neither quotes nor braces, strings, and
  // nested braces. Every JSON object, with any white space, is such text.
  datatype Item = Raw(c: char) | Text(pieces: seq<Piece>) | Nested(items: seq<Item>)

  predicate GoodPiece(p: Piece) {
    p.Plain? ==> p.c != '\"' && p.c != '\\'
  }

  predicate GoodItem(item: Item) {
    match item
    case Raw(c) => c != '\"' && c != '{' && c != '}'
    case Text(pieces) => forall i :: 0 <= i < |pieces| ==> GoodPiece(pieces[i])
    case Nested(items) => forall i :: 0 <= i < |items| ==> GoodItem(items[i])
  }

  predicate GoodItems(items: seq<Item>) {
    forall i :: 0 <= i < |items| ==> GoodItem(items[i])
  }

  function ShowPieces(pieces: seq<Piece>): string {
    if pieces == [] then ""
    else (if pieces[0].Plain? then [pieces[0].c] else ['\\', pieces[0].c]) + ShowPieces(pieces[1..])
  }

  function ShowItem(item: Item): string {
    match item
    case Raw(c) => [c]
    case Text(pieces) => "\"" + ShowPieces(pieces) + "\""
    case Nested(items) => "{" + Show(items) + "}"
  }

  function Show(items: seq<Item>): string {
    if items == [] then "" else ShowItem(items[0]) + Show(items[1..])
  }

  // -- the scanner passes over it ---------------------------------------------------------

  // Scanning x + rest in mode m passes over x and goes on with rest in mode n.
  ghost predicate Leads(m: Mode, x: string, n: Mode, rest: string) {
    Scan(m, x + rest) == Shift(Scan(n, rest), |x|)
  }

  lemma LeadsNowhere(m: Mode, rest: string)
    ensures Leads(m, "", m, rest)
  {
    assert "" + rest == rest;
  }

  lemma LeadsChar(m: Mode, c: char, rest: string)
    requires !Closes(m, c)
    ensures Leads(m, [c], Moved(m, c), rest)
  {
    assert ([c] + rest)[1..] == rest;
  }

  lemma LeadsBoth(m: Mode, x: string, n: Mode, y: string, o: Mode, rest: string)
    requires Leads(m, x, n, y + rest) && Leads(n, y, o, rest)
    ensures Leads(m, x + y, o, rest)
  {
    Associates(x, y, rest);
  }

  lemma LeadsPiece(m: Mode, p: Piece, rest: string)
    requires m.inString && !m.escape && GoodPiece(p)
    ensures Leads(m, if p.Plain? then [p.c] else ['\\', p.c], m, rest)
  {
    if p.Plain? {
      LeadsChar(m, p.c, rest);
    } else {
      LeadsChar(m.(escape := true), p.c, rest);
      LeadsChar(m, '\\', [p.c] + rest);
      LeadsBoth(m, ['\\'], m.(escape := true), [p.c], m, rest);
      assert ['\\'] + [p.c] == ['\\', p.c];
    }
  }

  lemma {:induction false} LeadsPieces(m: Mode, pieces: seq<Piece>, rest: string)
    requires m.inString && !m.escape && forall i :: 0 <= i < |pieces| ==> GoodPiece(pieces[i])
    ensures Leads(m, ShowPieces(pieces), m, rest)
  {
    if pieces == [] {
      LeadsNowhere(m, rest);
    } else {
      var p := pieces[0];
      var tail := ShowPieces(pieces[1..]);
      LeadsPieces(m, pieces[1..], rest);
      LeadsPiece(m, p, tail + rest);
      LeadsBoth(m, if p.Plain? then [p.c] else ['\\', p.c], m, tail, m, rest);
    }
  }

  lemma LeadsText(m: Mode, pieces: seq<Piece>, rest: string)
    requires !m.inString && !m.escape && forall i :: 0 <= i < |pieces| ==> GoodPiece(pieces[i])
    ensures Leads(m, ShowItem(Text(pieces)), m, rest)
  {
    var inside := m.(inString := true);
    var body := ShowPieces(pieces);
    LeadsChar(inside, '\"', rest);
    LeadsPieces(inside, pieces, "\"" + rest);
    LeadsBoth(inside, body, inside, "\"", m, rest);
    LeadsChar(m, '\"', (body + "\"") + rest);
    LeadsBoth(m, "\"", inside, body + "\"", m, rest);
    Associates("\"", body, "\"");
  }

  lemma {:induction false} LeadsItem(m: Mode, item: Item, rest: string)
    requires m.depth > 0 && !m.inString && !m.escape && GoodItem(item)
    ensures Leads(m, ShowItem(item), m, rest)
    decreases item, 1
  {
    match item
    case Raw(c) => LeadsChar(m, c, rest);
    case Text(pieces) => LeadsText(m, pieces, rest);
    case Nested(items) =>
      var deeper := m.(depth := m.depth + 1);
      LeadsItems(deeper, items, "}" + rest);
      LeadsBraces(m, items, rest);
  }

  // Around what is nested.
  lemma LeadsBraces(m: Mode, items: seq<Item>, rest: string)
    requires m.depth > 0 && !m.inString && !m.escape
    requires Leads(m.(depth := m.depth + 1), Show(items), m.(depth := m.depth + 1), "}" + rest)
    ensures Leads(m, ShowItem(Nested(items)), m, rest)
  {
    var deeper := m.(depth := m.depth + 1);
    LeadsChar(deeper, '}', rest);
    LeadsBoth(deeper, Show(items), deeper, "}", m, rest);
    LeadsChar(m, '{', (Show(items) + "}") + rest);
    LeadsBoth(m, "{", deeper, Show(items) + "}", m, rest);
    Associates("{", Show(items), "}");
  }

  lemma {:induction false} LeadsItems(m: Mode, items: seq<Item>, rest: string)
    requires m.depth > 0 && !m.inString && !m.escape && forall i :: 0 <= i < |items| ==> GoodItem(items[i])
    ensures Leads(m, Show(items), m, rest)
    decreases items, 0
  {
    if items == [] {
      LeadsNowhere(m, rest);
    } else {
      LeadsItems(m, items[1..], rest);
      LeadsItem(m, items[0], Show(items[1..]) + rest);
      LeadsBoth(m, ShowItem(items[0]), m, Show(items[1..]), m, rest);
    }
  }

  /** Whatever follows, the scan that begins at the opening brace of an object stops exactly at its
      closing brace. */
  lemma ScanFindsClosing(items: seq<Item>, rest: string)
    requires GoodItems(items)
    ensures Scan(OUTSIDE, ShowItem(Nested(items)) + rest) == Some(|ShowItem(Nested(items))|)
  {
    var m := Mode(1, false, false);
    var inner := Show(items);
    LeadsItems(m, items, "}" + rest);
    assert Scan(m, "}" + rest) == Some(1);
    LeadsChar(OUTSIDE, '{', inner + ("}" + rest));
    Associates("{" + inner, "}", rest);
    Associates("{", inner, "}" + rest);
    assert ShowItem(Nested(items)) + rest == "{" + (inner + ("}" + rest));
  }

  /** An object preceded by text without an opening brace is found, whatever follows it. */
  lemma SearchFindsObject<T>(parse: string -> Option<T>, before: string, items: seq<Item>, rest: string)
    requires GoodItems(items) && '{' !in before && parse(ShowItem(Nested(items))).Some?
    ensures Search(parse, before + ShowItem(Nested(items)) + rest, 0) == parse(ShowItem(Nested(items)))
  {
    var obj := ShowItem(Nested(items));
    var s := before + obj + rest;
    ScanFindsClosing(items, rest);
    assert s[|before|..] == obj + rest && s[|before|] == '{';
    assert forall j :: 0 <= j < |before| ==> s[j] == before[j] && s[j] in before;
    assert FindBrace(s, 0) == Some(|before|);
    assert s[|before|..|before| + |obj|] == obj;
  }

  // -- JSON -------------------------------------------------------------------------------

  datatype Member = Member(key: seq<Piece>, value: Json)

  datatype Json =
    | Null
    | Bool(b: bool)
    | Number(digits: string)
    | Str(text: seq<Piece>)
    | Arr(elements: seq<Json>)
    | Obj(members: seq<Member>)

  predicate NumberChar(c: char) {
    '0' <= c <= '9' || c in {'+', '-', '.', 'e', 'E'}
  }

  predicate GoodPieces(pieces: seq<Piece>) {
    forall i :: 0 <= i < |pieces| ==> GoodPiece(pieces[i])
  }

  predicate GoodJson(j: Json) {
    match j
    case Null => true
    case Bool(_) => true
    case Number(digits) => forall i :: 0 <= i < |digits| ==> NumberChar(digits[i])
    case Str(text) => GoodPieces(text)
    case Arr(elements) => forall i :: 0 <= i < |elements| ==> GoodJson(elements[i])
    case Obj(members) => forall i :: 0 <= i < |members| ==> GoodPieces(members[i].key) && GoodJson(members[i].value)
  }

  function PrintString(text: seq<Piece>): string {
    "\"" + ShowPieces(text) + "\""
  }

  function Print(j: Json): string
    decreases j, 1
  {
    match j
    case Null => "null"
    case Bool(b) => if b then "true" else "false"
    case Number(digits) => digits
    case Str(text) => PrintString(text)
    case Arr(elements) => "[" + PrintElements(elements) + "]"
    case Obj(members) => "{" + PrintMembers(members) + "}"
  }

  function PrintElements(elements: seq<Json>): string
    decreases elements, 0
  {
    if elements == [] then "" else Print(elements[0]) + (if |elements| == 1 then "" else ",") + PrintElements(elements[1..])
  }

  function PrintMembers(members: seq<Member>): string
    decreases members, 0
  {
    if members == [] then ""
    else PrintString(members[0].key) + ":" + Print(members[0].value) + (if |members| == 1 then "" else ",") + PrintMembers(members[1..])
  }

  function Raws(s: string): seq<Item> {
    if s == "" then [] else [Raw(s[0])] + Raws(s[1..])
  }

  function ItemsOf(j: Json): seq<Item>
    decreases j, 1
  {
    match j
    case Null => Raws("null")
    case Bool(b) => Raws(if b then "true" else "false")
    case Number(digits) => Raws(digits)
    case Str(text) => [Text(text)]
    case Arr(elements) => [Raw('[')] + ElementItems(elements) + [Raw(']')]
    case Obj(members) => [Nested(MemberItems(members))]
  }

  function ElementItems(elements: seq<Json>): seq<Item>
    decreases elements, 0
  {
    if elements == [] then [] else ItemsOf(elements[0]) + Raws(if |elements| == 1 then "" else ",") + ElementItems(elements[1..])
  }

  function MemberItems(members: seq<Member>): seq<Item>
    decreases members, 0
  {
    if members == [] then []
    else [Text(members[0].key), Raw(':')] + ItemsOf(members[0].value) + Raws(if |members| == 1 then "" else ",") + MemberItems(members[1..])
  }

  lemma {:induction false} ShowAppend(a: seq<Item>, b: seq<Item>)
    ensures Show(a + b) == Show(a) + Show(b)
  {
    if a == [] {
      assert a + b == b;
    } else {
      ShowAppend(a[1..], b);
      assert (a + b)[1..] == a[1..] + b;
      Associates(ShowItem(a[0]), Show(a[1..]), Show(b));
    }
  }

  lemma {:induction false} RawsShow(s: string)
    requires forall i :: 0 <= i < |s| ==> s[i] != '\"' && s[i] != '{' && s[i] != '}'
    ensures Show(Raws(s)) == s && GoodItems(Raws(s))
  {
    if s != "" {
      RawsShow(s[1..]);
      assert s == [s[0]] + s[1..];
    }
  }

  lemma GoodAppend(a: seq<Item>, b: seq<Item>)
    requires GoodItems(a) && GoodItems(b)
    ensures GoodItems(a + b)
  {
  }

  lemma ShowOne(item: Item)
    ensures Show([item]) == ShowItem(item)
  {
    assert [item][1..] == [];
  }

  // Every JSON value prints as such items.
  lemma {:induction false} PrintIsShown(j: Json)
    requires GoodJson(j)
    ensures Show(ItemsOf(j)) == Print(j) && GoodItems(ItemsOf(j))
    decreases j, 1
  {
    match j
    case Null => RawsShow("null");
    case Bool(b) => RawsShow(if b then "true" else "false");
    case Number(digits) => RawsShow(digits);
    case Str(text) => ShowOne(Text(text));
    case Arr(elements) =>
      ElementsShown(elements);
      ShowOne(Raw('['));
      ShowOne(Raw(']'));
      ShowAppend([Raw('[')], ElementItems(elements));
      ShowAppend([Raw('[')] + ElementItems(elements), [Raw(']')]);
    case Obj(members) =>
      MembersShown(members);
      ShowOne(Nested(MemberItems(members)));
  }

  lemma {:induction false} ElementsShown(elements: seq<Json>)
    requires forall i :: 0 <= i < |elements| ==> GoodJson(elements[i])
    ensures Show(ElementItems(elements)) == PrintElements(elements) && GoodItems(ElementItems(elements))
    decreases elements, 0
  {
    if elements != [] {
      var comma := if |elements| == 1 then "" else ",";
      PrintIsShown(elements[0]);
      RawsShow(comma);
      ElementsShown(elements[1..]);
      ShowAppend(ItemsOf(elements[0]), Raws(comma));
      ShowAppend(ItemsOf(elements[0]) + Raws(comma), ElementItems(elements[1..]));
      GoodAppend(ItemsOf(elements[0]), Raws(comma));
      GoodAppend(ItemsOf(elements[0]) + Raws(comma), ElementItems(elements[1..]));
    }
  }

  lemma KeyShown(key: seq<Piece>)
    requires GoodPieces(key)
    ensures Show([Text(key), Raw(':')]) == PrintString(key) + ":" && GoodItems([Text(key), Raw(':')])
  {
    ShowOne(Text(key));
    ShowOne(Raw(':'));
    ShowAppend([Text(key)], [Raw(':')]);
    assert [Text(key)] + [Raw(':')] == [Text(key), Raw(':')];
  }

  lemma {:induction false} MembersShown(members: seq<Member>)
    requires forall i :: 0 <= i < |members| ==> GoodPieces(members[i].key) && GoodJson(members[i].value)
    ensures Show(MemberItems(members)) == PrintMembers(members) && GoodItems(MemberItems(members))
    decreases members, 0
  {
    if members != [] {
      var comma := if |members| == 1 then "" else ",";
      var key := [Text(members[0].key), Raw(':')];
      KeyShown(members[0].key);
      PrintIsShown(members[0].value);
      RawsShow(comma);
      MembersShown(members[1..]);
      ShowAppend(key, ItemsOf(members[0].value));
      ShowAppend(key + ItemsOf(members[0].value), Raws(comma));
      ShowAppend(key + ItemsOf(members[0].value) + Raws(comma), MemberItems(members[1..]));
      GoodAppend(key, ItemsOf(members[0].value));
      GoodAppend(key + ItemsOf(members[0].value), Raws(comma));
      GoodAppend(key + ItemsOf(members[0].value) + Raws(comma), MemberItems(members[1..]));
    }
  }

  /** Every printed JSON object, preceded by text without an opening brace and followed by anything,
      is found by the search, exactly. */
  lemma SearchFindsJson<T>(parse: string -> Option<T>, before: string, obj: Json, rest: string)
    requires obj.Obj? && GoodJson(obj) && '{' !in before && parse(Print(obj)).Some?
    ensures Scan(OUTSIDE, Print(obj) + rest) == Some(|Print(obj)|)
    ensures Search(parse, before + Print(obj) + rest, 0) == parse(Print(obj))
  {
    var items := MemberItems(obj.members);
    PrintIsShown(obj);
    assert ItemsOf(obj) == [Nested(items)] && GoodItem(ItemsOf(obj)[0]);
    ShowOne(Nested(items));
    ScanFindsClosing(items, rest);
    SearchFindsObject(parse, before, items, rest);
  }
}
