/** The state file of a node: the text saved, what loading makes of any text, and a save that a crash may cut short. */
module Persistence {
  import opened Core
  import opened NetworkSpec

  datatype LoadError = UnrecognizedTag(tag: string) | MissingNodeId

  // ---- The text --------------------------------------------------------------------------------------

  function Line(tag: string, value: string): string {
    tag + "|" + value + "\n"
  }

  function Block(tag: string, values: seq<string>): string {
    if values == [] then ""
    else Block(tag, values[..|values| - 1]) + Line(tag, values[|values| - 1])
  }

  /** What a completed save leaves in the file; it depends on the sets alone, not on how they are iterated. */
  ghost function Render(node: Node): string {
    Line("NODE_ID", node.nodeId) + Block("LEDGER", Listing(node.ledger)) + Block("SPENT", Listing(node.spent))
  }

  /** Position of the first newline, or the length of the text. */
  function LineEnd(text: string): (i: nat)
    ensures i <= |text| && '\n' !in text[..i] && (i < |text| ==> text[i] == '\n')
  {
    if text == "" || text[0] == '\n' then 0
    else
      assert text == [text[0]] + text[1..];
      1 + LineEnd(text[1..])
  }

  /** A terminated line loses its newline and then one carriage return before it. */
  function Chomp(s: string): string {
    if s != "" && s[|s| - 1] == '\r' then s[..|s| - 1] else s
  }

  /** The first line of a text; an unterminated one keeps its carriage return. */
  function HeadLine(text: string): string {
    var i := LineEnd(text);
    if i == |text| then text else Chomp(text[..i])
  }

  function AfterHead(text: string): (rest: string)
    requires text != ""
    ensures |rest| < |text|
  {
    var i := LineEnd(text);
    if i == |text| then "" else text[i + 1..]
  }

  /** The lines a buffered reader yields. */
  function Lines(text: string): seq<string>
    decreases |text|
  {
    if text == "" then [] else [HeadLine(text)] + Lines(AfterHead(text))
  }

  /** The two parts of a line at its first bar; without a bar the value is empty. */
  function Cut(line: string): (parts: (string, string))
    ensures line == parts.0 + "|" + parts.1 || (line == parts.0 && parts.1 == "")
    ensures '|' !in parts.0
  {
    if line == "" then ("", "")
    else if line[0] == '|' then ("", line[1..])
    else
      var rest := Cut(line[1..]);
      assert line == [line[0]] + line[1..];
      ([line[0]] + rest.0, rest.1)
  }

  datatype Progress = Progress(nodeId: Option<string>, ledger: set<string>, spent: set<string>)

  /** One line of the file: a later node id replaces an earlier one, empty lines are skipped. */
  function Read(p: Progress, line: string): Result<Progress, LoadError> {
    var (tag, value) := Cut(line);
    if line == "" then Ok(p)
    else if tag == "NODE_ID" then Ok(p.(nodeId := Some(value)))
    else if tag == "LEDGER" then Ok(p.(ledger := p.ledger + {value}))
    else if tag == "SPENT" then Ok(p.(spent := p.spent + {value}))
    else Err(UnrecognizedTag(tag))
  }

  function ReadAll(p: Progress, lines: seq<string>): Result<Progress, LoadError>
    decreases |lines|
  {
    if lines == [] then Ok(p)
    else
      match Read(p, lines[0])
      case Ok(next) => ReadAll(next, lines[1..])
      case Err(e) => Err(e)
  }

  function Finish(p: Progress): Result<Node, LoadError> {
    match p.nodeId
    case Some(id) => Ok(Node(id, p.ledger, p.spent))
    case None => Err(MissingNodeId)
  }

  function After(p: Progress, text: string): Result<Progress, LoadError> {
    ReadAll(p, Lines(text))
  }

  function Parse(text: string): Result<Node, LoadError> {
    match After(Progress(None, {}, {}), text)
    case Ok(p) => Finish(p)
    case Err(e) => Err(e)
  }

  // ---- What a file says, line by line -------------------------------------------------------------------

  /** A line that is not empty and has none of the three tags. */
  predicate Unknown(line: string) {
    line != "" && Cut(line).0 != "NODE_ID" && Cut(line).0 != "LEDGER" && Cut(line).0 != "SPENT"
  }

  ghost predicate UnknownAt(lines: seq<string>, i: int, tag: string) {
    0 <= i < |lines| && Unknown(lines[i]) && Cut(lines[i]).0 == tag && forall j | 0 <= j < i :: !Unknown(lines[j])
  }

  /** The first unknown line has this tag. */
  ghost predicate FirstUnknown(lines: seq<string>, tag: string) {
    exists i :: UnknownAt(lines, i, tag)
  }

  /** Every line that is not empty has one of the three tags. */
  ghost predicate AllKnown(lines: seq<string>) {
    forall i | 0 <= i < |lines| :: !Unknown(lines[i])
  }

  /** No line names the node. */
  ghost predicate Nameless(lines: seq<string>) {
    forall i | 0 <= i < |lines| :: Cut(lines[i]).0 != "NODE_ID"
  }

  ghost predicate NamedAt(lines: seq<string>, i: int, id: string) {
    && 0 <= i < |lines| && Cut(lines[i]) == ("NODE_ID", id)
    && forall j | i < j < |lines| :: Cut(lines[j]).0 != "NODE_ID"
  }

  /** The last line that names the node gives it this name. */
  ghost predicate LastName(lines: seq<string>, id: string) {
    exists i :: NamedAt(lines, i, id)
  }

  ghost predicate Says(lines: seq<string>, tag: string, value: string) {
    exists i :: 0 <= i < |lines| && Cut(lines[i]) == (tag, value)
  }

  lemma UnknownLater(line: string, rest: seq<string>, i: int, tag: string)
    requires !Unknown(line) && 0 <= i
    ensures UnknownAt([line] + rest, i + 1, tag) <==> UnknownAt(rest, i, tag)
  {
    var lines := [line] + rest;
    assert forall j | 0 <= j < |rest| :: lines[j + 1] == rest[j];
    assert forall j | 0 < j < |lines| :: lines[j] == rest[j - 1];
  }

  lemma UnknownFirst(line: string, rest: seq<string>, tag: string)
    ensures FirstUnknown([line] + rest, tag) <==>
            if Unknown(line) then Cut(line).0 == tag else FirstUnknown(rest, tag)
  {
    var lines := [line] + rest;
    assert lines[0] == line;
    if Unknown(line) {
      assert UnknownAt(lines, 0, Cut(line).0);
    } else {
      if i :| UnknownAt(rest, i, tag) {
        UnknownLater(line, rest, i, tag);
      }
      if i :| UnknownAt(lines, i, tag) {
        UnknownLater(line, rest, i - 1, tag);
      }
    }
  }

  lemma SaysFirst(line: string, rest: seq<string>, tag: string, value: string)
    ensures Says([line] + rest, tag, value) <==> Cut(line) == (tag, value) || Says(rest, tag, value)
  {
    var lines := [line] + rest;
    if Cut(line) == (tag, value) {
      assert lines[0] == line;
    }
    if i :| 0 <= i < |rest| && Cut(rest[i]) == (tag, value) {
      assert lines[i + 1] == rest[i];
    }
    if i :| 0 <= i < |lines| && Cut(lines[i]) == (tag, value) {
      assert i > 0 ==> rest[i - 1] == lines[i];
    }
  }

  lemma NamedLater(line: string, rest: seq<string>, i: int, id: string)
    requires 0 <= i
    ensures NamedAt([line] + rest, i + 1, id) <==> NamedAt(rest, i, id)
  {
    var lines := [line] + rest;
    assert forall j | 0 <= j < |rest| :: lines[j + 1] == rest[j];
    assert forall j | 0 < j < |lines| :: lines[j] == rest[j - 1];
  }

  lemma NamelessFirst(line: string, rest: seq<string>)
    ensures Nameless([line] + rest) <==> Cut(line).0 != "NODE_ID" && Nameless(rest)
  {
    var lines := [line] + rest;
    assert lines[0] == line && forall j | 0 <= j < |rest| :: lines[j + 1] == rest[j];
    assert forall j | 0 < j < |lines| :: lines[j] == rest[j - 1];
  }

  lemma NamedHere(line: string, rest: seq<string>, id: string)
    ensures NamedAt([line] + rest, 0, id) <==> Cut(line) == ("NODE_ID", id) && Nameless(rest)
  {
    var lines := [line] + rest;
    assert lines[0] == line && forall j | 0 <= j < |rest| :: lines[j + 1] == rest[j];
    assert forall j | 0 < j < |lines| :: lines[j] == rest[j - 1];
  }

  lemma NameFirst(line: string, rest: seq<string>, id: string)
    ensures LastName([line] + rest, id) <==>
            LastName(rest, id) || (Cut(line) == ("NODE_ID", id) && Nameless(rest))
  {
    var lines := [line] + rest;
    NamedHere(line, rest, id);
    forall i | 0 <= i ensures NamedAt(lines, i + 1, id) <==> NamedAt(rest, i, id) {
      NamedLater(line, rest, i, id);
    }
    ShiftedName(lines, rest, id);
  }

  lemma ShiftedName(lines: seq<string>, rest: seq<string>, id: string)
    requires forall i | 0 <= i :: NamedAt(lines, i + 1, id) <==> NamedAt(rest, i, id)
    ensures LastName(lines, id) <==> LastName(rest, id) || NamedAt(lines, 0, id)
  {
    if i :| NamedAt(lines, i, id) && i > 0 {
      assert NamedAt(rest, i - 1, id) <==> NamedAt(lines, i - 1 + 1, id);
    }
    if i :| NamedAt(rest, i, id) {
      assert NamedAt(lines, i + 1, id);
    }
  }

  /** Reading stops at the first unknown line, and only there. */
  lemma {:induction false} ReadingStops(p: Progress, lines: seq<string>)
    ensures ReadAll(p, lines).Err? ==> ReadAll(p, lines).error.UnrecognizedTag?
    ensures forall tag :: ReadAll(p, lines) == Err(UnrecognizedTag(tag)) <==> FirstUnknown(lines, tag)
    decreases |lines|
  {
    if lines != [] {
      assert lines == [lines[0]] + lines[1..];
      if Read(p, lines[0]).Ok? {
        ReadingStops(Read(p, lines[0]).value, lines[1..]);
      }
      forall tag ensures ReadAll(p, lines) == Err(UnrecognizedTag(tag)) <==> FirstUnknown(lines, tag) {
        UnknownFirst(lines[0], lines[1..], tag);
      }
    }
  }

  lemma {:induction false} ReadsThrough(p: Progress, lines: seq<string>)
    ensures ReadAll(p, lines).Ok? <==> AllKnown(lines)
    decreases |lines|
  {
    if lines != [] {
      assert AllKnown(lines) <==> !Unknown(lines[0]) && AllKnown(lines[1..]) by {
        assert lines == [lines[0]] + lines[1..];
        assert forall i | 0 < i < |lines| :: lines[i] == lines[1..][i - 1];
        assert forall i | 0 <= i < |lines[1..]| :: lines[1..][i] == lines[i + 1];
      }
      if Read(p, lines[0]).Ok? {
        ReadsThrough(Read(p, lines[0]).value, lines[1..]);
      }
    }
  }

  lemma {:induction false} NamelessRead(p: Progress, lines: seq<string>)
    requires ReadAll(p, lines).Ok?
    ensures ReadAll(p, lines).value.nodeId == None <==> p.nodeId == None && Nameless(lines)
    decreases |lines|
  {
    if lines != [] {
      assert lines == [lines[0]] + lines[1..];
      NamelessFirst(lines[0], lines[1..]);
      NamelessRead(Read(p, lines[0]).value, lines[1..]);
    }
  }

  /** What has been read in the end: every ledger and spent line, and the last name. */
  lemma {:induction false} ReadingGathers(p: Progress, lines: seq<string>, v: string)
    requires ReadAll(p, lines).Ok?
    ensures var q := ReadAll(p, lines).value;
            && (v in q.ledger <==> v in p.ledger || Says(lines, "LEDGER", v))
            && (v in q.spent <==> v in p.spent || Says(lines, "SPENT", v))
            && (q.nodeId == Some(v) <==>
                  LastName(lines, v) || (p.nodeId == Some(v) && Nameless(lines)))
    decreases |lines|
  {
    if lines != [] {
      var first, rest := lines[0], lines[1..];
      assert lines == [first] + rest;
      ReadingGathers(Read(p, first).value, rest, v);
      SaysFirst(first, rest, "LEDGER", v);
      SaysFirst(first, rest, "SPENT", v);
      NameFirst(first, rest, v);
      NamelessFirst(first, rest);
      NameIsSaid(rest, v);
    }
  }

  lemma NameIsSaid(lines: seq<string>, id: string)
    ensures LastName(lines, id) ==> !Nameless(lines)
  {
  }

  lemma {:induction false} LineEndNone(s: string)
    requires '\n' !in s
    ensures LineEnd(s) == |s|
  {
    if s != "" {
      LineEndNone(s[1..]);
    }
  }

  /** A text without a newline is one line as it is; a newline ends a line, less one carriage return before it. */
  lemma LinesOfText(s: string, rest: string)
    requires '\n' !in s
    ensures Lines(s) == if s == "" then [] else [s]
    ensures Lines(s + ("\n" + rest)) == [Chomp(s)] + Lines(rest)
  {
    LineEndNone(s);
    var text := s + ("\n" + rest);
    LineEndAt(s, rest);
    assert text[..|s|] == s && text[|s| + 1..] == rest;
  }

  lemma ChompExactly(s: string)
    ensures Chomp(s + "\r") == s
    ensures (s == "" || s[|s| - 1] != '\r') ==> Chomp(s) == s
  {
    assert (s + "\r")[..|s|] == s;
  }

  function Unlines(lines: seq<string>): string {
    if lines == [] then "" else Unlines(lines[..|lines| - 1]) + (lines[|lines| - 1] + "\n")
  }

  function Tagged(tag: string, values: seq<string>): seq<string> {
    seq(|values|, i requires 0 <= i < |values| => tag + "|" + values[i])
  }

  lemma TaggedSnoc(before: seq<string>, tag: string, values: seq<string>)
    requires values != []
    ensures var front, last := values[..|values| - 1], values[|values| - 1];
            before + Tagged(tag, values) == before + Tagged(tag, front) + [tag + "|" + last]
  {
  }

  lemma UnlinesSnoc(lines: seq<string>, line: string)
    ensures Unlines(lines + [line]) == Unlines(lines) + (line + "\n")
  {
    assert (lines + [line])[..|lines|] == lines;
  }

  lemma {:induction false} UnlinesTagged(before: seq<string>, tag: string, values: seq<string>)
    ensures Unlines(before + Tagged(tag, values)) == Unlines(before) + Block(tag, values)
    decreases |values|
  {
    if values == [] {
      assert before + Tagged(tag, values) == before;
    } else {
      var front, last := values[..|values| - 1], values[|values| - 1];
      UnlinesTagged(before, tag, front);
      TaggedSnoc(before, tag, values);
      UnlinesSnoc(before + Tagged(tag, front), tag + "|" + last);
      Regroup(Unlines(before), Block(tag, front), Line(tag, last));
    }
  }

  /** The file of a node, spelled out: its name, then what it holds and then what it has spent, each sorted. */
  lemma RenderedLines(node: Node, ledger: seq<string>, spent: seq<string>)
    requires IsListing(ledger, node.ledger) && IsListing(spent, node.spent)
    ensures Render(node) ==
            Unlines(["NODE_ID" + "|" + node.nodeId] + Tagged("LEDGER", ledger) + Tagged("SPENT", spent))
  {
    var name := ["NODE_ID" + "|" + node.nodeId];
    ListingUnique(ledger, Listing(node.ledger));
    ListingUnique(spent, Listing(node.spent));
    UnlinesTagged(name, "LEDGER", ledger);
    UnlinesTagged(name + Tagged("LEDGER", ledger), "SPENT", spent);
    assert name[..0] == [];
    assert Unlines(name) == Line("NODE_ID", node.nodeId);
  }

  // ---- Round trip --------------------------------------------------------------------------------------

  /** A value that one line of the file can carry. */
  predicate Storable(v: string) {
    '\n' !in v && Chomp(v) == v
  }

  predicate NewlineFree(node: Node) {
    '\n' !in node.nodeId && forall b | b in node.ledger + node.spent :: '\n' !in b
  }

  function Chomped(values: set<string>): set<string> {
    set v | v in values :: Chomp(v)
  }

  lemma {:induction false} CutLine(tag: string, value: string)
    requires '|' !in tag
    ensures Cut(tag + "|" + value) == (tag, value)
  {
    if tag != "" {
      CutLine(tag[1..], value);
      var line := tag + "|" + value;
      assert line[0] == tag[0] && line[1..] == tag[1..] + "|" + value;
      assert tag == [tag[0]] + tag[1..];
    } else {
      assert tag + "|" + value == ['|'] + value;
    }
  }

  lemma {:induction false} LineEndAt(body: string, rest: string)
    requires '\n' !in body
    ensures LineEnd(body + ("\n" + rest)) == |body|
  {
    var text := body + ("\n" + rest);
    if body != "" {
      assert text[0] == body[0] && text[1..] == body[1..] + ("\n" + rest);
      LineEndAt(body[1..], rest);
    }
  }

  lemma LinesLine(tag: string, value: string, rest: string)
    requires '\n' !in tag && '\n' !in value
    ensures Lines(Line(tag, value) + rest) == [tag + "|" + Chomp(value)] + Lines(rest)
  {
    var body := tag + "|" + value;
    var text := Line(tag, value) + rest;
    assert text == body + ("\n" + rest);
    LineEndAt(body, rest);
    assert text[..|body|] == body && text[|body| + 1..] == rest;
    assert Chomp(body) == tag + "|" + Chomp(value) by {
      assert body[|body| - 1] == if value == "" then '|' else value[|value| - 1];
    }
  }

  lemma ReadLine(p: Progress, tag: string, value: string)
    requires '|' !in tag
    ensures Read(p, tag + "|" + value) ==
            if tag == "NODE_ID" then Ok(p.(nodeId := Some(value)))
            else if tag == "LEDGER" then Ok(p.(ledger := p.ledger + {value}))
            else if tag == "SPENT" then Ok(p.(spent := p.spent + {value}))
            else Err(UnrecognizedTag(tag))
  {
    CutLine(tag, value);
  }

  function Add(p: Progress, tag: string, values: set<string>): Progress {
    if tag == "LEDGER" then p.(ledger := p.ledger + values) else p.(spent := p.spent + values)
  }

  lemma ReadFirst(p: Progress, tag: string, value: string, rest: string)
    requires (tag == "LEDGER" || tag == "SPENT") && '\n' !in value
    ensures After(p, Line(tag, value) + rest) == After(Add(p, tag, {Chomp(value)}), rest)
  {
    LinesLine(tag, value, rest);
    ReadLine(p, tag, Chomp(value));
  }

  lemma ReadName(p: Progress, value: string, rest: string)
    requires '\n' !in value
    ensures After(p, Line("NODE_ID", value) + rest) == After(p.(nodeId := Some(Chomp(value))), rest)
  {
    LinesLine("NODE_ID", value, rest);
    ReadLine(p, "NODE_ID", Chomp(value));
  }

  lemma Regroup(a: string, b: string, c: string)
    ensures (a + b) + c == a + (b + c)
  {
  }

  lemma ChompedSnoc(front: seq<string>, last: string)
    ensures Chomped(Elements(front + [last])) == Chomped(Elements(front)) + {Chomp(last)}
  {
    assert Elements(front + [last]) == Elements(front) + {last};
    assert Chomp(last) in Chomped(Elements(front + [last]));
    forall v | v in Elements(front) ensures Chomp(v) in Chomped(Elements(front + [last])) {
      assert v in Elements(front + [last]);
    }
  }

  lemma AddNothing(p: Progress, tag: string)
    ensures Add(p, tag, {}) == p
  {
    assert p.ledger + {} == p.ledger && p.spent + {} == p.spent;
  }

  lemma AddTwice(p: Progress, tag: string, some: set<string>, more: set<string>)
    ensures Add(Add(p, tag, some), tag, more) == Add(p, tag, some + more)
  {
    assert p.ledger + some + more == p.ledger + (some + more) && p.spent + some + more == p.spent + (some + more);
  }

  lemma {:induction false} ReadBlock(p: Progress, tag: string, values: seq<string>, rest: string)
    requires tag == "LEDGER" || tag == "SPENT"
    requires forall v | v in values :: '\n' !in v
    ensures After(p, Block(tag, values) + rest) == After(Add(p, tag, Chomped(Elements(values))), rest)
    decreases |values|
  {
    if values == [] {
      assert "" + rest == rest;
      assert Chomped(Elements(values)) == {};
      AddNothing(p, tag);
    } else {
      var front, last := values[..|values| - 1], values[|values| - 1];
      Regroup(Block(tag, front), Line(tag, last), rest);
      ReadBlock(p, tag, front, Line(tag, last) + rest);
      ReadFirst(Add(p, tag, Chomped(Elements(front))), tag, last, rest);
      assert values == front + [last];
      ChompedSnoc(front, last);
      AddTwice(p, tag, Chomped(Elements(front)), {Chomp(last)});
    }
  }

  lemma ReadListing(p: Progress, tag: string, values: set<string>, rest: string)
    requires tag == "LEDGER" || tag == "SPENT"
    requires forall v | v in values :: '\n' !in v
    ensures After(p, Block(tag, Listing(values)) + rest) == After(Add(p, tag, Chomped(values)), rest)
  {
    var xs := Listing(values);
    assert forall v | v in xs :: v in Elements(xs);
    ReadBlock(p, tag, xs, rest);
  }

  lemma ReadRest(id: string, ledger: set<string>, spent: set<string>)
    requires forall v | v in ledger :: '\n' !in v
    requires forall v | v in spent :: '\n' !in v
    ensures After(Progress(Some(id), {}, {}), Block("LEDGER", Listing(ledger)) + Block("SPENT", Listing(spent))) ==
            Ok(Progress(Some(id), Chomped(ledger), Chomped(spent)))
  {
    var tail := Block("SPENT", Listing(spent));
    ReadListing(Progress(Some(id), {}, {}), "LEDGER", ledger, tail);
    assert {} + Chomped(ledger) == Chomped(ledger) && {} + Chomped(spent) == Chomped(spent);
    ReadListing(Progress(Some(id), Chomped(ledger), {}), "SPENT", spent, "");
    assert tail + "" == tail;
  }

  /** Loading a saved node strips one trailing carriage return from each of its values. */
  lemma LoadStrips(node: Node)
    requires NewlineFree(node)
    ensures Parse(Render(node)) == Ok(Node(Chomp(node.nodeId), Chomped(node.ledger), Chomped(node.spent)))
  {
    var ledger, tail := Block("LEDGER", Listing(node.ledger)), Block("SPENT", Listing(node.spent));
    Regroup(Line("NODE_ID", node.nodeId), ledger, tail);
    ReadName(Progress(None, {}, {}), node.nodeId, ledger + tail);
    ReadRest(Chomp(node.nodeId), node.ledger, node.spent);
  }

  predicate ProgressNewlineFree(p: Progress) {
    && (p.nodeId.Some? ==> '\n' !in p.nodeId.value)
    && forall b | b in p.ledger + p.spent :: '\n' !in b
  }

  lemma {:induction false} LinesNewlineFree(text: string)
    ensures forall l | l in Lines(text) :: '\n' !in l
    decreases |text|
  {
    if text != "" {
      LinesNewlineFree(AfterHead(text));
      assert '\n' !in HeadLine(text) by {
        assert text[..|text|] == text;
      }
    }
  }

  lemma {:induction false} ReadAllNewlineFree(p: Progress, lines: seq<string>)
    requires ProgressNewlineFree(p) && forall l | l in lines :: '\n' !in l
    decreases |lines|
    ensures ReadAll(p, lines).Ok? ==> ProgressNewlineFree(ReadAll(p, lines).value)
  {
    if lines != [] && Read(p, lines[0]).Ok? {
      var parts := Cut(lines[0]);
      assert forall c | c in parts.1 :: c in lines[0];
      ReadAllNewlineFree(Read(p, lines[0]).value, lines[1..]);
    }
  }

  /** Whatever the file says, no loaded value contains a newline. */
  lemma LoadedNewlineFree(text: string)
    requires Parse(text).Ok?
    ensures NewlineFree(Parse(text).value)
  {
    LinesNewlineFree(text);
    ReadAllNewlineFree(Progress(None, {}, {}), Lines(text));
  }

  lemma {:induction false} LengthBound(values: set<string>) returns (bound: nat)
    ensures forall v | v in values :: |v| <= bound
  {
    if values == {} {
      bound := 0;
    } else {
      var v :| v in values;
      bound := LengthBound(values - {v});
      bound := if |v| > bound then |v| else bound;
    }
  }

  /**
   * A finite set that stripping leaves as it is has nothing to strip: its longest stripped value would come from a
   * longer one.
   */
  lemma {:induction false} StrippedFixed(values: set<string>, v: string, bound: nat)
    requires Chomped(values) == values && v in values && forall w | w in values :: |w| <= bound
    ensures Chomp(v) == v
    decreases bound - |v|
  {
    if Chomp(v) != v {
      var w :| w in values && Chomp(w) == v;
      StrippedFixed(values, w, bound);
    }
  }

  lemma StrippedFixedAll(values: set<string>)
    ensures Chomped(values) == values <==> forall v | v in values :: Chomp(v) == v
  {
    if Chomped(values) == values {
      var bound := LengthBound(values);
      forall v | v in values ensures Chomp(v) == v {
        StrippedFixed(values, v, bound);
      }
    }
    if forall v | v in values :: Chomp(v) == v {
      assert forall v :: v in Chomped(values) ==> v in values;
      forall v | v in values ensures v in Chomped(values) {
        assert Chomp(v) in Chomped(values);
      }
    }
  }

  predicate NodeStorable(node: Node) {
    Storable(node.nodeId) && forall b | b in node.ledger + node.spent :: Storable(b)
  }

  /**
   * Saving and loading gives the node back exactly when none of its values has a newline or ends in a carriage
   * return.
   */
  lemma SaveLoadExactly(node: Node)
    ensures Parse(Render(node)) == Ok(node) <==> NodeStorable(node)
  {
    StrippedFixedAll(node.ledger);
    StrippedFixedAll(node.spent);
    if Parse(Render(node)) == Ok(node) {
      LoadedNewlineFree(Render(node));
      LoadStrips(node);
    }
    if NodeStorable(node) {
      assert NewlineFree(node);
      LoadStrips(node);
      assert forall b | b in node.ledger :: b in node.ledger + node.spent;
      assert forall b | b in node.spent :: b in node.ledger + node.spent;
    }
  }

  lemma ChompedOne(v: string)
    ensures Chomped({v}) == {Chomp(v)} && Chomped({}) == {}
  {
    assert Chomp(v) in Chomped({v});
  }

  /** The documented exact round trip fails here: a final carriage return is taken for part of the line ending. */
  lemma CarriageReturnLost(node: Node, b: string)
    requires Storable(node.nodeId) && '\n' !in b && node.ledger == {b + "\r"} && node.spent == {}
    ensures Parse(Render(node)) == Ok(node.(ledger := {b}))
  {
    assert NewlineFree(node);
    LoadStrips(node);
    ChompedOne(b + "\r");
    assert (b + "\r")[..|b|] == b;
  }

  /** So two storable nodes with the same file are the same node. */
  lemma SavedFilesDiffer(left: Node, right: Node)
    requires NodeStorable(left) && NodeStorable(right) && Render(left) == Render(right)
    ensures left == right
  {
    SaveLoadExactly(left);
    SaveLoadExactly(right);
  }

  // ---- The file operations of a save ------------------------------------------------------------------

  /**
   * A path as the standard library splits it: what follows the last dot of the file name, past its first character,
   * is its extension.
   */
  datatype Path = Path(directory: string, stem: string, extension: Option<string>) {
    function WithExtension(ext: string): Path {
      this.(extension := Some(ext))
    }
  }

  /** The stem has no dot that the extension should start at: only a leading one, as in a hidden file's name. */
  predicate Canonical(path: Path) {
    && path.stem != ""
    && (path.extension.None? ==> '.' !in path.stem[1..])
    && (path.extension.Some? ==> '.' !in path.extension.value)
  }

  function FileName(path: Path): string {
    match path.extension
    case None => path.stem
    case Some(ext) => path.stem + "." + ext
  }

  /** Canonical paths with the same directory and file name are the same path. */
  lemma CanonicalUnique(left: Path, right: Path)
    requires Canonical(left) && Canonical(right)
    requires left.directory == right.directory && FileName(left) == FileName(right)
    ensures left == right
  {
    var name := FileName(left);
    SplitsAtLastDot(left, name);
    SplitsAtLastDot(right, name);
    if left.extension.Some? && right.extension.Some? {
      assert |left.stem| == |right.stem|;
      assert left.stem == name[..|left.stem|] && left.extension.value == name[|left.stem| + 1..];
    }
  }

  lemma SplitsAtLastDot(path: Path, name: string)
    requires Canonical(path) && name == FileName(path)
    ensures path.extension.Some? ==> |path.stem| < |name| && name[|path.stem|] == '.'
    ensures path.extension.Some? ==> forall i | |path.stem| < i < |name| :: name[i] != '.'
    ensures path.extension.None? ==> forall i | 1 <= i < |name| :: name[i] != '.'
  {
    if path.extension.Some? {
      forall i | |path.stem| < i < |name| ensures name[i] != '.' {
        assert name[i] == path.extension.value[i - |path.stem| - 1];
      }
    } else {
      forall i | 1 <= i < |name| ensures name[i] != '.' {
        assert name[i] == path.stem[1..][i - 1];
      }
    }
  }

  type Files = map<Path, string>

  datatype FileOp =
    | Create(path: Path)
    | Append(path: Path, text: string)
    | Rename(from: Path, to: Path)

  function Apply(files: Files, op: FileOp): Files {
    match op
    case Create(p) => files[p := ""]
    case Append(p, text) => if p in files then files[p := files[p] + text] else files
    case Rename(from, to) => if from in files then (files - {from})[to := files[from]] else files
  }

  ghost function Replay(files: Files, ops: seq<FileOp>): Files {
    if ops == [] then files
    else Apply(Replay(files, ops[..|ops| - 1]), ops[|ops| - 1])
  }

  function Temporary(path: Path): Path {
    path.WithExtension("tmp")
  }

  function LineOps(path: Path, tag: string, values: seq<string>): (ops: seq<FileOp>)
    ensures |ops| == |values| && forall op | op in ops :: op.Append? && op.path == path
  {
    if values == [] then []
    else LineOps(path, tag, values[..|values| - 1]) + [Append(path, Line(tag, values[|values| - 1]))]
  }

  ghost function WriteOps(node: Node, tmp: Path): seq<FileOp> {
    [Create(tmp), Append(tmp, Line("NODE_ID", node.nodeId))]
    + LineOps(tmp, "LEDGER", Listing(node.ledger)) + LineOps(tmp, "SPENT", Listing(node.spent))
  }

  /** All file operations of one save, in order. */
  ghost function SaveOps(node: Node, path: Path): seq<FileOp> {
    WriteOps(node, Temporary(path)) + [Rename(Temporary(path), path)]
  }

  /** What a crash can leave: the first `k` operations done, and of a write after them only the first `j` characters. */
  ghost function Torn(files: Files, ops: seq<FileOp>, k: nat, j: nat): Files
    requires k <= |ops|
  {
    var done := Replay(files, ops[..k]);
    if k < |ops| && ops[k].Append? && j <= |ops[k].text| then Apply(done, Append(ops[k].path, ops[k].text[..j]))
    else done
  }

  function Content(files: Files, path: Path): Option<string> {
    if path in files then Some(files[path]) else None
  }

  function Load(files: Files, path: Path): Result<Option<Node>, LoadError> {
    if path !in files then Ok(None)
    else
      match Parse(files[path])
      case Ok(node) => Ok(Some(node))
      case Err(e) => Err(e)
  }

  /** The parse fails at the first unknown line, or else for want of a name. */
  lemma ParseFails(text: string)
    ensures forall tag :: Parse(text) == Err(UnrecognizedTag(tag)) <==> FirstUnknown(Lines(text), tag)
    ensures Parse(text) == Err(MissingNodeId) <==> AllKnown(Lines(text)) && Nameless(Lines(text))
  {
    var p, lines := Progress(None, {}, {}), Lines(text);
    ReadingStops(p, lines);
    ReadsThrough(p, lines);
    forall tag ensures Parse(text) == Err(UnrecognizedTag(tag)) <==> FirstUnknown(lines, tag) {
      assert ReadAll(p, lines) == Err(UnrecognizedTag(tag)) <==> FirstUnknown(lines, tag);
    }
    if ReadAll(p, lines).Ok? {
      NamelessRead(p, lines);
      assert Parse(text) == Finish(ReadAll(p, lines).value);
    } else {
      assert Parse(text) == Err(ReadAll(p, lines).error);
    }
  }

  /** Otherwise it gives the last name and every bearer some line lists. */
  lemma ParseGathers(text: string)
    requires Parse(text).Ok?
    ensures LastName(Lines(text), Parse(text).value.nodeId)
    ensures forall b :: b in Parse(text).value.ledger <==> Says(Lines(text), "LEDGER", b)
    ensures forall b :: b in Parse(text).value.spent <==> Says(Lines(text), "SPENT", b)
  {
    var p, lines := Progress(None, {}, {}), Lines(text);
    ReadingGathers(p, lines, Parse(text).value.nodeId);
    forall b ensures b in Parse(text).value.ledger <==> Says(lines, "LEDGER", b)
             ensures b in Parse(text).value.spent <==> Says(lines, "SPENT", b)
    {
      ReadingGathers(p, lines, b);
    }
  }

  /** Loading, read off the file's lines: no file, no node; otherwise the first unknown line, or else what they say. */
  lemma LoadExactly(files: Files, path: Path)
    ensures Load(files, path) == Ok(None) <==> path !in files
    ensures path in files ==>
              var lines := Lines(files[path]);
              && (forall tag :: Load(files, path) == Err(UnrecognizedTag(tag)) <==> FirstUnknown(lines, tag))
              && (Load(files, path) == Err(MissingNodeId) <==> AllKnown(lines) && Nameless(lines))
    ensures path in files && Load(files, path).Ok? ==>
              var lines, node := Lines(files[path]), Load(files, path).value.value;
              && LastName(lines, node.nodeId)
              && (forall b :: b in node.ledger <==> Says(lines, "LEDGER", b))
              && forall b :: b in node.spent <==> Says(lines, "SPENT", b)
  {
    if path in files {
      ParseFails(files[path]);
      if Parse(files[path]).Ok? {
        ParseGathers(files[path]);
      }
    }
  }

  lemma {:induction false} ReplaySplit(files: Files, before: seq<FileOp>, after: seq<FileOp>)
    ensures Replay(files, before + after) == Replay(Replay(files, before), after)
    decreases |after|
  {
    if after == [] {
      assert before + after == before;
    } else {
      var n := |after| - 1;
      ReplaySplit(files, before, after[..n]);
      assert (before + after)[..|before| + n] == before + after[..n];
    }
  }

  lemma ReplaySnoc(files: Files, ops: seq<FileOp>, op: FileOp)
    ensures Replay(files, ops + [op]) == Apply(Replay(files, ops), op)
  {
    assert (ops + [op])[..|ops|] == ops;
  }

  lemma AppendAgain(files: Files, path: Path, text: string, more: string)
    ensures Apply(files[path := text], Append(path, more)) == files[path := text + more]
  {
  }

  lemma {:induction false} ReplayLines(files: Files, path: Path, tag: string, values: seq<string>)
    requires path in files
    ensures Replay(files, LineOps(path, tag, values)) == files[path := files[path] + Block(tag, values)]
    decreases |values|
  {
    if values == [] {
      assert files[path] + "" == files[path];
    } else {
      var front, line := values[..|values| - 1], Line(tag, values[|values| - 1]);
      ReplayLines(files, path, tag, front);
      ReplaySnoc(files, LineOps(path, tag, front), Append(path, line));
      AppendAgain(files, path, files[path] + Block(tag, front), line);
      Regroup(files[path], Block(tag, front), line);
    }
  }

  lemma ReplayHead(files: Files, tmp: Path, text: string)
    ensures Replay(files, [Create(tmp), Append(tmp, text)]) == files[tmp := text]
  {
    var head := [Create(tmp), Append(tmp, text)];
    assert head[..1] == [Create(tmp)] && head[..1][..0] == [];
    assert Replay(files, head[..1]) == files[tmp := ""];
    assert "" + text == text;
  }

  lemma ReplayMore(files: Files, ops: seq<FileOp>, tmp: Path, text: string, tag: string, values: seq<string>)
    requires Replay(files, ops) == files[tmp := text]
    ensures Replay(files, ops + LineOps(tmp, tag, values)) == files[tmp := text + Block(tag, values)]
  {
    ReplaySplit(files, ops, LineOps(tmp, tag, values));
    ReplayLines(files[tmp := text], tmp, tag, values);
  }

  lemma ReplayWrite(files: Files, node: Node, tmp: Path)
    ensures Replay(files, WriteOps(node, tmp)) == files[tmp := Render(node)]
  {
    var name := Line("NODE_ID", node.nodeId);
    var head := [Create(tmp), Append(tmp, name)];
    var middle := LineOps(tmp, "LEDGER", Listing(node.ledger));
    ReplayHead(files, tmp, name);
    ReplayMore(files, head, tmp, name, "LEDGER", Listing(node.ledger));
    ReplayMore(files, head + middle, tmp, name + Block("LEDGER", Listing(node.ledger)), "SPENT", Listing(node.spent));
  }

  /** A completed save leaves the rendered node under the path, no temporary file, and every other file alone. */
  lemma SaveCompletes(files: Files, node: Node, path: Path)
    ensures Replay(files, SaveOps(node, path)) == (files - {Temporary(path)})[path := Render(node)]
    ensures Load(Replay(files, SaveOps(node, path)), path) == Ok(Some(node)) <==> NodeStorable(node)
  {
    var tmp := Temporary(path);
    ReplayWrite(files, node, tmp);
    ReplaySplit(files, WriteOps(node, tmp), [Rename(tmp, path)]);
    var written := files[tmp := Render(node)];
    assert [Rename(tmp, path)][..0] == [];
    assert Replay(written, [Rename(tmp, path)]) == Apply(written, Rename(tmp, path));
    assert written - {tmp} == files - {tmp};
    SaveLoadExactly(node);
  }

  lemma {:induction false} ReplayElsewhere(files: Files, ops: seq<FileOp>, tmp: Path, path: Path)
    requires tmp != path
    requires forall op | op in ops :: op == Create(tmp) || (op.Append? && op.path == tmp)
    ensures Content(Replay(files, ops), path) == Content(files, path)
    decreases |ops|
  {
    if ops != [] {
      ReplayElsewhere(files, ops[..|ops| - 1], tmp, path);
      assert ops[|ops| - 1] in ops;
    }
  }

  /** Wherever the save is cut short, the path has its old content or the new one. */
  ghost predicate Atomic(files: Files, node: Node, path: Path) {
    var ops := SaveOps(node, path);
    forall k: nat, j: nat | k <= |ops| ::
      Content(Torn(files, ops, k, j), path) in [Content(files, path), Some(Render(node))]
  }

  lemma WritesOnlyTo(node: Node, tmp: Path)
    ensures forall op | op in WriteOps(node, tmp) :: op == Create(tmp) || (op.Append? && op.path == tmp)
  {
  }

  lemma TornElsewhere(files: Files, node: Node, path: Path, k: nat, j: nat)
    requires Temporary(path) != path && k <= |SaveOps(node, path)|
    ensures Content(Torn(files, SaveOps(node, path), k, j), path) in [Content(files, path), Some(Render(node))]
  {
    var ops, tmp := SaveOps(node, path), Temporary(path);
    if k == |ops| {
      assert ops[..k] == ops;
      SaveCompletes(files, node, path);
    } else {
      WritesOnlyTo(node, tmp);
      assert forall op | op in ops[..k] :: op in WriteOps(node, tmp);
      ReplayElsewhere(files, ops[..k], tmp, path);
      assert k < |WriteOps(node, tmp)| ==> ops[k] in WriteOps(node, tmp);
    }
  }

  /** Saving onto a path that is its own temporary passes through an empty file and then a one-letter file. */
  lemma TornInPlace(files: Files, node: Node, path: Path)
    requires Temporary(path) == path
    ensures !Atomic(files, node, path)
  {
    var ops := SaveOps(node, path);
    assert ops[..1] == [Create(path)] && ops[..1][..0] == [];
    assert ops[1] == Append(path, Line("NODE_ID", node.nodeId));
    var emptied := files[path := ""];
    assert Replay(files, ops[..1]) == emptied;
    assert Line("NODE_ID", node.nodeId)[..1] == "N" && Line("NODE_ID", node.nodeId)[..0] == "";
    assert "" + "N" == "N" && "" + "" == "";
    assert Content(Torn(files, ops, 1, 0), path) == Some("") && Content(Torn(files, ops, 1, 1), path) == Some("N");
    assert |Render(node)| > 1;
  }

  /** A save is atomic exactly when the path does not already end in the temporary extension. */
  lemma SaveAtomicExactly(files: Files, node: Node, path: Path)
    requires Canonical(path)
    ensures Atomic(files, node, path) <==> path.extension != Some("tmp")
  {
    if path.extension == Some("tmp") {
      TornInPlace(files, node, path);
    } else {
      forall k: nat, j: nat | k <= |SaveOps(node, path)|
        ensures Content(Torn(files, SaveOps(node, path), k, j), path) in [Content(files, path), Some(Render(node))]
      {
        TornElsewhere(files, node, path, k, j);
      }
    }
  }

  /** So after a crash at any point the old node or the new one is loaded. */
  lemma CrashLoadsOldOrNew(files: Files, node: Node, path: Path, k: nat, j: nat)
    requires Canonical(path) && path.extension != Some("tmp") && NodeStorable(node) && k <= |SaveOps(node, path)|
    ensures Load(Torn(files, SaveOps(node, path), k, j), path) in [Load(files, path), Ok(Some(node))]
  {
    SaveAtomicExactly(files, node, path);
    SaveLoadExactly(node);
    assert Content(Torn(files, SaveOps(node, path), k, j), path) in [Content(files, path), Some(Render(node))];
  }

  // ---- The operations themselves ------------------------------------------------------------------------

  lemma TraceOfSave(before: seq<FileOp>, node: Node, path: Path)
    ensures var tmp := Temporary(path);
            before + [Create(tmp)] + [Append(tmp, Line("NODE_ID", node.nodeId))]
            + LineOps(tmp, "LEDGER", Listing(node.ledger)) + LineOps(tmp, "SPENT", Listing(node.spent))
            + [Rename(tmp, path)]
            == before + SaveOps(node, path)
  {
    var tmp := Temporary(path);
    GatherOps(before, Create(tmp), Append(tmp, Line("NODE_ID", node.nodeId)),
            LineOps(tmp, "LEDGER", Listing(node.ledger)), LineOps(tmp, "SPENT", Listing(node.spent)),
            Rename(tmp, path));
  }

  lemma GatherOps(a: seq<FileOp>, b: FileOp, c: FileOp, d: seq<FileOp>, e: seq<FileOp>, f: FileOp)
    ensures a + [b] + [c] + d + e + [f] == a + ([b, c] + d + e + [f])
  {
  }

  class FileStore {
    var files: Files
    ghost var start: Files
    ghost var trace: seq<FileOp>

    /** The files are what the operations so far make of those at the start. */
    ghost predicate Valid()
      reads this
    {
      files == Replay(start, trace)
    }

    constructor (initial: Files)
      ensures Valid() && files == initial && trace == []
    {
      files, start, trace := initial, initial, [];
    }

    method Perform(op: FileOp)
      requires Valid()
      modifies this
      ensures Valid() && start == old(start) && trace == old(trace) + [op]
      ensures files == Apply(old(files), op)
    {
      files := Apply(files, op);
      trace := trace + [op];
      assert trace[..|trace| - 1] == old(trace);
    }

    method WriteLines(path: Path, tag: string, values: seq<string>)
      requires Valid()
      modifies this
      ensures Valid() && start == old(start) && trace == old(trace) + LineOps(path, tag, values)
    {
      for i := 0 to |values|
        invariant Valid() && start == old(start) && trace == old(trace) + LineOps(path, tag, values[..i])
      {
        Perform(Append(path, Line(tag, values[i])));
        assert values[..i + 1][..i] == values[..i];
      }
      assert values[..|values|] == values;
    }

    /** Performs exactly the operations of a save, whatever order the sets are iterated in. */
    method SaveNodeState(node: Node, path: Path)
      requires Valid()
      modifies this
      ensures Valid() && start == old(start) && trace == old(trace) + SaveOps(node, path)
      ensures files == (old(files) - {Temporary(path)})[path := Render(node)]
    {
      var tmp := path.WithExtension("tmp");
      Perform(Create(tmp));
      Perform(Append(tmp, Line("NODE_ID", node.nodeId)));
      var ledger := SortedVec(node.ledger);
      WriteLines(tmp, "LEDGER", ledger);
      var spent := SortedVec(node.spent);
      WriteLines(tmp, "SPENT", spent);
      Perform(Rename(tmp, path));
      TraceOfSave(old(trace), node, path);
      ReplaySplit(start, old(trace), SaveOps(node, path));
      SaveCompletes(old(files), node, path);
    }
  }

  method NextLineEnd(text: string, at: nat) returns (end: nat)
    requires at <= |text|
    ensures end == at + LineEnd(text[at..])
  {
    end := at;
    while end < |text| && text[end] != '\n'
      invariant at <= end <= |text|
      invariant at + LineEnd(text[at..]) == end + LineEnd(text[end..])
    {
      assert text[end..][1..] == text[end + 1..];
      end := end + 1;
    }
  }

  lemma Slices(text: string, at: nat, i: nat)
    requires at + i <= |text|
    ensures text[at..][..i] == text[at..at + i]
    ensures at + i < |text| ==> text[at..][i + 1..] == text[at + i + 1..]
  {
  }

  /** Reads one line starting at `at`, and the position after it. */
  method NextLine(text: string, at: nat) returns (line: string, next: nat)
    requires at < |text|
    ensures at < next <= |text|
    ensures line == HeadLine(text[at..]) && text[next..] == AfterHead(text[at..])
  {
    var end := NextLineEnd(text, at);
    Slices(text, at, end - at);
    if end < |text| {
      line, next := Chomp(text[at..end]), end + 1;
    } else {
      line, next := text[at..], end;
    }
  }

  lemma ReadAllFirst(p: Progress, line: string, rest: seq<string>)
    ensures ReadAll(p, [line] + rest) ==
            if Read(p, line).Ok? then ReadAll(Read(p, line).value, rest) else Err(Read(p, line).error)
  {
    assert ([line] + rest)[1..] == rest;
  }

  /** Loads a node line by line: a missing file is no node, an unknown tag or a missing id an error. */
  method LoadNodeState(files: Files, path: Path) returns (r: Result<Option<Node>, LoadError>)
    ensures r == Load(files, path)
    ensures r == Ok(None) <==> path !in files
    ensures path in files ==>
              forall tag :: r == Err(UnrecognizedTag(tag)) <==> FirstUnknown(Lines(files[path]), tag)
    ensures path in files ==>
              (r == Err(MissingNodeId) <==> AllKnown(Lines(files[path])) && Nameless(Lines(files[path])))
    ensures path in files && r.Ok? ==>
              var lines, node := Lines(files[path]), r.value.value;
              && LastName(lines, node.nodeId)
              && (forall b :: b in node.ledger <==> Says(lines, "LEDGER", b))
              && forall b :: b in node.spent <==> Says(lines, "SPENT", b)
  {
    LoadExactly(files, path);
    if path !in files {
      return Ok(None);
    }
    var text := files[path];
    var p := Progress(None, {}, {});
    var at := 0;
    while at < |text|
      invariant at <= |text|
      invariant ReadAll(Progress(None, {}, {}), Lines(text)) == ReadAll(p, Lines(text[at..]))
      decreases |text| - at
    {
      var line, next := NextLine(text, at);
      ReadAllFirst(p, line, Lines(text[next..]));
      match Read(p, line)
      case Err(e) =>
        return Err(e);
      case Ok(grown) =>
        p, at := grown, next;
    }
    match p.nodeId
    case None =>
      r := Err(MissingNodeId);
    case Some(id) =>
      r := Ok(Some(Node(id, p.ledger, p.spent)));
  }
}
