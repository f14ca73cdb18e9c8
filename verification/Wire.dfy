/** The three message types of the wire protocol, their printers and their parsers. */
module Wire {
  import opened Core
  import opened Scanner

  datatype WireError = Malformed(line: string)

  datatype PeerMessage =
    | LinkUpHello(from: string, ledger: seq<string>, spent: seq<string>)
    | LinkUpAck(from: string, ledger: seq<string>, spent: seq<string>)
    | LinkDown(from: string)
    | PropagateRequest(from: string)
    | PropagateReply(from: string, bearers: seq<string>)
    | SpentNotify(from: string, bearer: string)
    | StatusRequest(from: string)
    | StatusReply(from: string, ledger: seq<string>, spent: seq<string>)

  datatype AdminMessage =
    | AdminLinkUp(peer: string)
    | AdminLinkDown(peer: string)
    | AdminPropagate(peer: string)
    | AdminSpendAt(bearer: string)
    | AdminStatus
    | AdminSeed(bearer: string)
    | AdminConversionDay

  datatype AdminReply =
    | ReplyOk
    | ReplyError(detail: string)
    | StatusReport(nodeId: string, ledger: seq<string>, spent: seq<string>, links: seq<string>)

  function Fields(line: string): (fields: seq<string>)
    ensures fields != []
  {
    Split(TrimNewlines(line), '|')
  }

  function Print(tag: string, texts: seq<string>): string {
    Join([tag] + texts, '|')
  }

  function EncodePeer(m: PeerMessage): string {
    match m
    case LinkUpHello(from, ledger, spent) =>
      Print("LINK_UP_HELLO", [Escape(from), EncodeList(ledger), EncodeList(spent)])
    case LinkUpAck(from, ledger, spent) =>
      Print("LINK_UP_ACK", [Escape(from), EncodeList(ledger), EncodeList(spent)])
    case LinkDown(from) => Print("LINK_DOWN", [Escape(from)])
    case PropagateRequest(from) => Print("PROPAGATE_REQUEST", [Escape(from)])
    case PropagateReply(from, bearers) => Print("PROPAGATE_REPLY", [Escape(from), EncodeList(bearers)])
    case SpentNotify(from, bearer) => Print("SPENT_NOTIFY", [Escape(from), Escape(bearer)])
    case StatusRequest(from) => Print("STATUS_REQUEST", [Escape(from)])
    case StatusReply(from, ledger, spent) =>
      Print("STATUS_REPLY", [Escape(from), EncodeList(ledger), EncodeList(spent)])
  }

  function DecodePeer(line: string): Result<PeerMessage, WireError> {
    var f := Fields(line);
    if f[0] == "LINK_UP_HELLO" && |f| == 4 then Ok(LinkUpHello(Unescape(f[1]), DecodeList(f[2]), DecodeList(f[3])))
    else if f[0] == "LINK_UP_ACK" && |f| == 4 then Ok(LinkUpAck(Unescape(f[1]), DecodeList(f[2]), DecodeList(f[3])))
    else if f[0] == "LINK_DOWN" && |f| == 2 then Ok(LinkDown(Unescape(f[1])))
    else if f[0] == "PROPAGATE_REQUEST" && |f| == 2 then Ok(PropagateRequest(Unescape(f[1])))
    else if f[0] == "PROPAGATE_REPLY" && |f| == 3 then Ok(PropagateReply(Unescape(f[1]), DecodeList(f[2])))
    else if f[0] == "SPENT_NOTIFY" && |f| == 3 then Ok(SpentNotify(Unescape(f[1]), Unescape(f[2])))
    else if f[0] == "STATUS_REQUEST" && |f| == 2 then Ok(StatusRequest(Unescape(f[1])))
    else if f[0] == "STATUS_REPLY" && |f| == 4 then Ok(StatusReply(Unescape(f[1]), DecodeList(f[2]), DecodeList(f[3])))
    else Err(Malformed(line))
  }

  function EncodeAdmin(m: AdminMessage): string {
    match m
    case AdminLinkUp(peer) => Print("ADMIN_LINK_UP", [Escape(peer)])
    case AdminLinkDown(peer) => Print("ADMIN_LINK_DOWN", [Escape(peer)])
    case AdminPropagate(peer) => Print("ADMIN_PROPAGATE", [Escape(peer)])
    case AdminSpendAt(bearer) => Print("ADMIN_SPEND_AT", [Escape(bearer)])
    case AdminStatus => Print("ADMIN_STATUS", [])
    case AdminSeed(bearer) => Print("ADMIN_SEED", [Escape(bearer)])
    case AdminConversionDay => Print("ADMIN_CONVERSION_DAY", [])
  }

  function DecodeAdmin(line: string): Result<AdminMessage, WireError> {
    var f := Fields(line);
    if f[0] == "ADMIN_LINK_UP" && |f| == 2 then Ok(AdminLinkUp(Unescape(f[1])))
    else if f[0] == "ADMIN_LINK_DOWN" && |f| == 2 then Ok(AdminLinkDown(Unescape(f[1])))
    else if f[0] == "ADMIN_PROPAGATE" && |f| == 2 then Ok(AdminPropagate(Unescape(f[1])))
    else if f[0] == "ADMIN_SPEND_AT" && |f| == 2 then Ok(AdminSpendAt(Unescape(f[1])))
    else if f[0] == "ADMIN_STATUS" && |f| == 1 then Ok(AdminStatus)
    else if f[0] == "ADMIN_SEED" && |f| == 2 then Ok(AdminSeed(Unescape(f[1])))
    else if f[0] == "ADMIN_CONVERSION_DAY" && |f| == 1 then Ok(AdminConversionDay)
    else Err(Malformed(line))
  }

  function EncodeReply(m: AdminReply): string {
    match m
    case ReplyOk => Print("REPLY_OK", [])
    case ReplyError(detail) => Print("REPLY_ERROR", [Escape(detail)])
    case StatusReport(nodeId, ledger, spent, links) =>
      Print("REPLY_STATUS", [Escape(nodeId), EncodeList(ledger), EncodeList(spent), EncodeList(links)])
  }

  function DecodeReply(line: string): Result<AdminReply, WireError> {
    var f := Fields(line);
    if f[0] == "REPLY_OK" && |f| == 1 then Ok(ReplyOk)
    else if f[0] == "REPLY_ERROR" && |f| == 2 then Ok(ReplyError(Unescape(f[1])))
    else if f[0] == "REPLY_STATUS" && |f| == 5 then
      Ok(StatusReport(Unescape(f[1]), DecodeList(f[2]), DecodeList(f[3]), DecodeList(f[4])))
    else Err(Malformed(line))
  }

  // ---- The shape all messages share ---------------------------------------------------------------

  datatype Field = Text(text: string) | Items(items: seq<string>)

  /** A message seen as a tag and its field values in printing order. */
  datatype Shape = Shape(tag: string, fields: seq<Field>)

  function FieldText(f: Field): string {
    match f
    case Text(text) => Escape(text)
    case Items(items) => EncodeList(items)
  }

  function FieldTexts(fields: seq<Field>): (texts: seq<string>)
    ensures |texts| == |fields|
  {
    seq(|fields|, i requires 0 <= i < |fields| => FieldText(fields[i]))
  }

  /** A printed field reads back as a value of the same kind. */
  predicate ReadsAs(text: string, f: Field) {
    match f
    case Text(value) => Unescape(text) == value
    case Items(items) => DecodeList(text) == items
  }

  function PrintShape(s: Shape): string {
    Print(s.tag, FieldTexts(s.fields))
  }

  predicate ParsesTo(line: string, s: Shape) {
    var f := Fields(line);
    f[0] == s.tag && |f| == 1 + |s.fields| && forall i | 0 <= i < |s.fields| :: ReadsAs(f[i + 1], s.fields[i])
  }

  /** The text printed last in a field. */
  function LastText(f: Field): string {
    match f
    case Text(text) => text
    case Items(items) => if items == [] then "" else items[|items| - 1]
  }

  /** What the format can carry: no list of one empty string, and no newline at the very end. */
  predicate Carried(s: Shape) {
    && (forall f | f in s.fields :: f != Items([""]))
    && (s.fields != [] ==> EndsClean(LastText(s.fields[|s.fields| - 1])))
  }

  predicate FieldNewlineFree(f: Field) {
    match f
    case Text(text) => '\n' !in text
    case Items(items) => forall x | x in items :: '\n' !in x
  }

  /** No value contains a newline. */
  predicate NewlineFree(s: Shape) {
    forall f | f in s.fields :: FieldNewlineFree(f)
  }

  predicate CleanTag(tag: string) {
    forall c | c in tag :: c != '\\' && c != '|' && c != '\n'
  }

  lemma {:induction false} CleanTagScans(tag: string)
    requires CleanTag(tag)
    ensures Closed(tag) && Plain(tag, '|')
  {
    if tag != "" {
      assert forall c | c in tag[1..] :: c in tag;
      assert tag[0] in tag;
      CleanTagScans(tag[1..]);
    }
  }

  lemma FieldScans(f: Field)
    ensures Closed(FieldText(f)) && Plain(FieldText(f), '|')
  {
    match f
    case Text(text) => EscapeScans(text, '|');
    case Items(items) => EncodeListScans(items);
  }

  lemma FieldRoundTrip(f: Field)
    ensures ReadsAs(FieldText(f), f) <==> f != Items([""])
  {
    match f
    case Text(text) => UnescapeEscape(text);
    case Items(items) => ListRoundTrip(items);
  }

  lemma FieldEnd(f: Field)
    ensures EndsClean(FieldText(f)) <==> EndsClean(LastText(f))
  {
    match f
    case Text(text) => if text == "" { EscapeEmptyExactly(text); } else { EscapeKeepsEnd(text); }
    case Items(items) =>
      if items != [] {
        var texts := EscapeAll(items);
        var last := items[|items| - 1];
        JoinKeepsEnd(texts, ',');
        if last == "" { EscapeEmptyExactly(last); } else { EscapeKeepsEnd(last); }
      }
  }

  /**
   * Reading gives a value the format can carry: never the list of one empty string, and a clean end from clean text.
   */
  lemma ReadField(text: string, f: Field)
    requires ReadsAs(text, f)
    ensures f != Items([""])
    ensures EndsClean(text) ==> EndsClean(LastText(f))
  {
    match f
    case Text(_) => if text != "" { UnescapeKeepsEnd(text); }
    case Items(items) =>
      if text != "" {
        var parts := Split(text, ',');
        JoinSplit(text, ',');
        JoinKeepsEnd(parts, ',');
        var last := parts[|parts| - 1];
        if last != "" { UnescapeKeepsEnd(last); }
        assert |items| == |parts| && items[0] == Unescape(parts[0]);
        if |parts| == 1 {
          UnescapeKeepsEnd(text);
          assert items != [""];
        }
      }
  }

  lemma PrintFields(s: Shape)
    requires CleanTag(s.tag) && EndsClean(PrintShape(s))
    ensures Fields(PrintShape(s)) == [s.tag] + FieldTexts(s.fields)
  {
    var parts := [s.tag] + FieldTexts(s.fields);
    CleanTagScans(s.tag);
    forall i | 0 <= i < |parts| ensures Closed(parts[i]) && Plain(parts[i], '|') {
      if i > 0 { FieldScans(s.fields[i - 1]); }
    }
    SplitJoin(parts, '|');
  }

  lemma PrintEnd(s: Shape)
    requires CleanTag(s.tag)
    ensures EndsClean(PrintShape(s)) <==> s.fields != [] ==> EndsClean(LastText(s.fields[|s.fields| - 1]))
  {
    var parts := [s.tag] + FieldTexts(s.fields);
    JoinKeepsEnd(parts, '|');
    if s.fields != [] {
      FieldEnd(s.fields[|s.fields| - 1]);
      assert parts[|parts| - 1] == FieldText(s.fields[|s.fields| - 1]);
    } else if s.tag != "" {
      assert s.tag[|s.tag| - 1] in s.tag;
    }
  }

  /** Whatever a line parses to can be carried. */
  lemma ParsedIsCarried(line: string, s: Shape)
    requires ParsesTo(line, s)
    ensures Carried(s)
  {
    var f := Fields(line);
    forall x | x in s.fields ensures x != Items([""]) {
      var i :| 0 <= i < |s.fields| && s.fields[i] == x;
      ReadField(f[i + 1], s.fields[i]);
    }
    ParsedEnd(line, s);
  }

  lemma ParsedEnd(line: string, s: Shape)
    requires ParsesTo(line, s)
    ensures s.fields != [] ==> EndsClean(LastText(s.fields[|s.fields| - 1]))
  {
    if s.fields != [] {
      var f, k := Fields(line), |s.fields| - 1;
      JoinSplit(TrimNewlines(line), '|');
      JoinKeepsEnd(f, '|');
      ReadField(f[k + 1], s.fields[k]);
    }
  }

  /** Printing then parsing gives a shape back exactly when it can be carried. */
  lemma ShapeRoundTrip(s: Shape)
    requires CleanTag(s.tag)
    ensures ParsesTo(PrintShape(s), s) <==> Carried(s)
  {
    if Carried(s) {
      PrintEnd(s);
      PrintFields(s);
      var f := Fields(PrintShape(s));
      forall i | 0 <= i < |s.fields| ensures ReadsAs(f[i + 1], s.fields[i]) {
        assert f[i + 1] == FieldTexts(s.fields)[i];
        assert s.fields[i] in s.fields;
        FieldRoundTrip(s.fields[i]);
      }
    }
    if ParsesTo(PrintShape(s), s) {
      ParsedIsCarried(PrintShape(s), s);
    }
  }

  // ---- Framing ------------------------------------------------------------------------------------

  /** `read_line`: up to and including the first newline. */
  function ReadLine(stream: string): (line: string)
    ensures line <= stream
  {
    if stream == "" then ""
    else if stream[0] == '\n' then "\n"
    else [stream[0]] + ReadLine(stream[1..])
  }

  lemma {:induction false} ReadLineFrame(text: string, rest: string)
    ensures '\n' !in text ==> ReadLine(text + "\n" + rest) == text + "\n"
    ensures '\n' !in TrimNewlines(ReadLine(text + "\n" + rest))
    decreases |text|
  {
    if text != "" && text[0] != '\n' {
      assert (text + "\n" + rest)[1..] == text[1..] + "\n" + rest;
      ReadLineFrame(text[1..], rest);
      TrimCons(text[0], ReadLine(text[1..] + "\n" + rest));
    } else {
      assert (text + "\n" + rest)[0] == '\n';
      assert TrimNewlines("\n") == TrimNewlines("\n"[..0]);
    }
  }

  lemma {:induction false} TrimCons(c: char, s: string)
    requires c != '\n'
    ensures TrimNewlines([c] + s) == [c] + TrimNewlines(s)
    decreases |s|
  {
    if !EndsClean(s) {
      assert ([c] + s)[..|[c] + s| - 1] == [c] + s[..|s| - 1];
      TrimCons(c, s[..|s| - 1]);
    }
  }

  lemma TrimFrame(text: string)
    ensures TrimNewlines(text + "\n") == TrimNewlines(text)
  {
    assert (text + "\n")[..|text + "\n"| - 1] == text;
  }

  lemma PrintNewlines(s: Shape)
    requires CleanTag(s.tag)
    ensures '\n' !in PrintShape(s) <==> NewlineFree(s)
  {
    JoinContains([s.tag] + FieldTexts(s.fields), '|', '\n');
    if NewlineFree(s) {
      forall i | 0 <= i < 1 + |s.fields| ensures '\n' !in ([s.tag] + FieldTexts(s.fields))[i] {
        if i > 0 { PartNewlines(s, i - 1); }
      }
    } else {
      var i :| 0 <= i < |s.fields| && !FieldNewlineFree(s.fields[i]);
      PartNewlines(s, i);
    }
  }

  lemma PartNewlines(s: Shape, i: nat)
    requires i < |s.fields|
    ensures '\n' in ([s.tag] + FieldTexts(s.fields))[i + 1] <==> !FieldNewlineFree(s.fields[i])
  {
    FieldNewlines(s.fields[i]);
  }

  lemma FieldNewlines(f: Field)
    ensures '\n' in FieldText(f) <==> !FieldNewlineFree(f)
  {
    match f
    case Text(text) => EscapeContains(text, '\n');
    case Items(items) =>
      if items != [] {
        var texts := EscapeAll(items);
        JoinContains(texts, ',', '\n');
        forall i | 0 <= i < |items| ensures '\n' in texts[i] <==> '\n' in items[i] {
          EscapeContains(items[i], '\n');
        }
      }
  }

  lemma ReadNewlines(text: string, f: Field)
    requires ReadsAs(text, f) && '\n' !in text
    ensures FieldNewlineFree(f)
  {
    match f
    case Text(_) => UnescapeContains(text, '\n');
    case Items(items) =>
      if text != "" {
        var parts := Split(text, ',');
        JoinSplit(text, ',');
        JoinContains(parts, ',', '\n');
        forall i | 0 <= i < |items| ensures '\n' !in items[i] {
          assert '\n' !in parts[i];
          UnescapeContains(parts[i], '\n');
        }
      }
  }

  /**
   * A shape survives a newline-terminated frame followed by anything exactly when no value has a newline and no list
   * is [""].
   */
  lemma FrameRoundTrip(s: Shape, rest: string)
    requires CleanTag(s.tag)
    ensures ParsesTo(ReadLine(PrintShape(s) + "\n" + rest), s) <==>
            NewlineFree(s) && forall f | f in s.fields :: f != Items([""])
  {
    if NewlineFree(s) && forall f | f in s.fields :: f != Items([""]) {
      FrameArrives(s, rest);
    }
    ReadLineFrame(PrintShape(s), rest);
    if ParsesTo(ReadLine(PrintShape(s) + "\n" + rest), s) {
      ParsedIsCarried(ReadLine(PrintShape(s) + "\n" + rest), s);
      ParsedNewlines(ReadLine(PrintShape(s) + "\n" + rest), s);
    }
  }

  lemma FrameArrives(s: Shape, rest: string)
    requires CleanTag(s.tag) && NewlineFree(s) && forall f | f in s.fields :: f != Items([""])
    ensures ParsesTo(ReadLine(PrintShape(s) + "\n" + rest), s)
  {
    ReadLineFrame(PrintShape(s), rest);
    PrintNewlines(s);
    TrimFrame(PrintShape(s));
    CleanLast(s);
    ShapeRoundTrip(s);
  }

  lemma ParsedNewlines(line: string, s: Shape)
    requires ParsesTo(line, s) && '\n' !in TrimNewlines(line)
    ensures NewlineFree(s)
  {
    JoinSplit(TrimNewlines(line), '|');
    JoinContains(Fields(line), '|', '\n');
    forall f | f in s.fields ensures FieldNewlineFree(f) {
      var i :| 0 <= i < |s.fields| && s.fields[i] == f;
      assert '\n' !in Fields(line)[i + 1];
      ReadNewlines(Fields(line)[i + 1], f);
    }
  }

  lemma CleanLast(s: Shape)
    requires NewlineFree(s)
    ensures s.fields != [] ==> EndsClean(LastText(s.fields[|s.fields| - 1]))
  {
    if s.fields != [] {
      var f := s.fields[|s.fields| - 1];
      assert f in s.fields && FieldNewlineFree(f);
      var last := LastText(f);
      assert last != "" ==> last[|last| - 1] in last;
      assert f.Items? && f.items != [] ==> last in f.items;
    }
  }

  // ---- Peer messages ------------------------------------------------------------------------------

  function PeerShape(m: PeerMessage): Shape {
    match m
    case LinkUpHello(from, ledger, spent) => Shape("LINK_UP_HELLO", [Text(from), Items(ledger), Items(spent)])
    case LinkUpAck(from, ledger, spent) => Shape("LINK_UP_ACK", [Text(from), Items(ledger), Items(spent)])
    case LinkDown(from) => Shape("LINK_DOWN", [Text(from)])
    case PropagateRequest(from) => Shape("PROPAGATE_REQUEST", [Text(from)])
    case PropagateReply(from, bearers) => Shape("PROPAGATE_REPLY", [Text(from), Items(bearers)])
    case SpentNotify(from, bearer) => Shape("SPENT_NOTIFY", [Text(from), Text(bearer)])
    case StatusRequest(from) => Shape("STATUS_REQUEST", [Text(from)])
    case StatusReply(from, ledger, spent) => Shape("STATUS_REPLY", [Text(from), Items(ledger), Items(spent)])
  }

  lemma LinkTags()
    ensures CleanTag("LINK_UP_HELLO") && CleanTag("LINK_UP_ACK") && CleanTag("LINK_DOWN")
  {
  }

  lemma SpreadTags()
    ensures CleanTag("PROPAGATE_REQUEST") && CleanTag("PROPAGATE_REPLY") && CleanTag("SPENT_NOTIFY")
  {
  }

  lemma StatusTags()
    ensures CleanTag("STATUS_REQUEST") && CleanTag("STATUS_REPLY")
  {
  }

  lemma PeerTag(m: PeerMessage)
    ensures CleanTag(PeerShape(m).tag)
  {
    LinkTags();
    SpreadTags();
    StatusTags();
  }

  lemma PeerByShape(m: PeerMessage, line: string)
    ensures EncodePeer(m) == PrintShape(PeerShape(m))
    ensures DecodePeer(line) == Ok(m) <==> ParsesTo(line, PeerShape(m))
    ensures DecodePeer(line).Err? ==> DecodePeer(line).error == Malformed(line)
  {
    PeerTexts(m);
    PeerParses(m, line);
  }

  lemma PeerTexts(m: PeerMessage)
    ensures EncodePeer(m) == PrintShape(PeerShape(m))
  {
    match m
    case LinkUpHello(from, ledger, spent) =>
      assert FieldTexts(PeerShape(m).fields) == [Escape(from), EncodeList(ledger), EncodeList(spent)];
    case LinkUpAck(from, ledger, spent) =>
      assert FieldTexts(PeerShape(m).fields) == [Escape(from), EncodeList(ledger), EncodeList(spent)];
    case LinkDown(from) => assert FieldTexts(PeerShape(m).fields) == [Escape(from)];
    case PropagateRequest(from) => assert FieldTexts(PeerShape(m).fields) == [Escape(from)];
    case PropagateReply(from, bearers) =>
      assert FieldTexts(PeerShape(m).fields) == [Escape(from), EncodeList(bearers)];
    case SpentNotify(from, bearer) => assert FieldTexts(PeerShape(m).fields) == [Escape(from), Escape(bearer)];
    case StatusRequest(from) => assert FieldTexts(PeerShape(m).fields) == [Escape(from)];
    case StatusReply(from, ledger, spent) =>
      assert FieldTexts(PeerShape(m).fields) == [Escape(from), EncodeList(ledger), EncodeList(spent)];
  }

  lemma PeerParses(m: PeerMessage, line: string)
    ensures DecodePeer(line) == Ok(m) <==> ParsesTo(line, PeerShape(m))
  {
    FieldsRead(Fields(line), PeerShape(m).fields);
  }

  /** Up to three fields read as they should exactly when each of them does. */
  lemma FieldsRead(f: seq<string>, g: seq<Field>)
    requires 1 <= |g| <= 3
    ensures |f| == 1 + |g| ==>
              ((forall i | 0 <= i < |g| :: ReadsAs(f[i + 1], g[i])) <==>
               ReadsAs(f[1], g[0]) && (|g| >= 2 ==> ReadsAs(f[2], g[1])) && (|g| == 3 ==> ReadsAs(f[3], g[2])))
  {
    if |f| == 1 + |g| {
      assert f[0 + 1] == f[1] && (|g| >= 2 ==> f[1 + 1] == f[2]) && (|g| == 3 ==> f[2 + 1] == f[3]);
    }
  }

  lemma JoinFirst(first: string, rest: seq<string>)
    requires rest != []
    ensures Join([first] + rest, '|') == first + "|" + Join(rest, '|')
  {
    assert ([first] + rest)[1..] == rest;
  }

  lemma PrintOne(tag: string, a: string)
    ensures Print(tag, [a]) == tag + "|" + a
  {
    JoinFirst(tag, [a]);
  }

  lemma PrintTwo(tag: string, a: string, b: string)
    ensures Print(tag, [a, b]) == tag + "|" + a + "|" + b
  {
    JoinFirst(tag, [a, b]);
    JoinFirst(a, [b]);
    assert [a] + [b] == [a, b];
  }

  lemma PrintThree(tag: string, a: string, b: string, c: string)
    ensures Print(tag, [a, b, c]) == tag + "|" + a + "|" + b + "|" + c
  {
    JoinFirst(tag, [a, b, c]);
    PrintTwo(a, b, c);
    assert [a] + [b, c] == [a, b, c];
  }

  /** The line each message is written as, spelled out: those about links, */
  lemma LinkLine(m: PeerMessage)
    ensures m.LinkUpHello? ==>
              EncodePeer(m) == "LINK_UP_HELLO" + "|" + Escape(m.from) + "|" + EncodeList(m.ledger)
                               + "|" + EncodeList(m.spent)
    ensures m.LinkUpAck? ==>
              EncodePeer(m) == "LINK_UP_ACK" + "|" + Escape(m.from) + "|" + EncodeList(m.ledger)
                               + "|" + EncodeList(m.spent)
    ensures m.LinkDown? ==> EncodePeer(m) == "LINK_DOWN" + "|" + Escape(m.from)
  {
    if m.LinkUpHello? {
      PrintThree("LINK_UP_HELLO", Escape(m.from), EncodeList(m.ledger), EncodeList(m.spent));
    } else if m.LinkUpAck? {
      PrintThree("LINK_UP_ACK", Escape(m.from), EncodeList(m.ledger), EncodeList(m.spent));
    } else if m.LinkDown? {
      PrintOne("LINK_DOWN", Escape(m.from));
    }
  }

  /** those that spread holdings and spends, */
  lemma SpreadLine(m: PeerMessage)
    ensures m.PropagateRequest? ==> EncodePeer(m) == "PROPAGATE_REQUEST" + "|" + Escape(m.from)
    ensures m.PropagateReply? ==>
              EncodePeer(m) == "PROPAGATE_REPLY" + "|" + Escape(m.from) + "|" + EncodeList(m.bearers)
    ensures m.SpentNotify? ==> EncodePeer(m) == "SPENT_NOTIFY" + "|" + Escape(m.from) + "|" + Escape(m.bearer)
  {
    if m.PropagateRequest? {
      PrintOne("PROPAGATE_REQUEST", Escape(m.from));
    } else if m.PropagateReply? {
      PrintTwo("PROPAGATE_REPLY", Escape(m.from), EncodeList(m.bearers));
    } else if m.SpentNotify? {
      PrintTwo("SPENT_NOTIFY", Escape(m.from), Escape(m.bearer));
    }
  }

  /** and those of a settlement round. */
  lemma StatusLine(m: PeerMessage)
    ensures m.StatusRequest? ==> EncodePeer(m) == "STATUS_REQUEST" + "|" + Escape(m.from)
    ensures m.StatusReply? ==>
              EncodePeer(m) == "STATUS_REPLY" + "|" + Escape(m.from) + "|" + EncodeList(m.ledger)
                               + "|" + EncodeList(m.spent)
  {
    if m.StatusRequest? {
      PrintOne("STATUS_REQUEST", Escape(m.from));
    } else if m.StatusReply? {
      PrintThree("STATUS_REPLY", Escape(m.from), EncodeList(m.ledger), EncodeList(m.spent));
    }
  }

  /** Round trip, both ways: a peer message decodes to itself exactly when the format can carry it. */
  lemma PeerRoundTrip(m: PeerMessage)
    ensures DecodePeer(EncodePeer(m)) == Ok(m) <==> Carried(PeerShape(m))
  {
    PeerTag(m);
    PeerByShape(m, EncodePeer(m));
    ShapeRoundTrip(PeerShape(m));
  }

  /** Whatever any line decodes to re-encodes to a line that decodes to the same message. */
  lemma PeerCanonical(line: string)
    ensures DecodePeer(line).Ok? ==> DecodePeer(EncodePeer(DecodePeer(line).value)) == DecodePeer(line)
  {
    if DecodePeer(line).Ok? {
      var m := DecodePeer(line).value;
      PeerByShape(m, line);
      ParsedIsCarried(line, PeerShape(m));
      PeerRoundTrip(m);
    }
  }

  /** Through a newline-terminated frame, exactly the newline-free messages without a [""] list arrive. */
  lemma PeerFrame(m: PeerMessage, rest: string)
    ensures DecodePeer(ReadLine(EncodePeer(m) + "\n" + rest)) == Ok(m) <==>
            NewlineFree(PeerShape(m)) && forall f | f in PeerShape(m).fields :: f != Items([""])
  {
    PeerTag(m);
    PeerByShape(m, ReadLine(EncodePeer(m) + "\n" + rest));
    FrameRoundTrip(PeerShape(m), rest);
  }

  /** What a peer reads of a message: it is written with a newline, and one line is read and decoded. */
  function Transmit(m: PeerMessage): Result<PeerMessage, WireError> {
    DecodePeer(ReadLine(EncodePeer(m) + "\n"))
  }

  /** Every bearer a message names. */
  function Mentioned(m: PeerMessage): set<string> {
    match m
    case LinkUpHello(_, ledger, spent) => Elements(ledger) + Elements(spent)
    case LinkUpAck(_, ledger, spent) => Elements(ledger) + Elements(spent)
    case PropagateReply(_, bearers) => Elements(bearers)
    case SpentNotify(_, bearer) => {bearer}
    case StatusReply(_, ledger, spent) => Elements(ledger) + Elements(spent)
    case _ => {}
  }

  /** No name in the message has a newline. */
  predicate OneLine(m: PeerMessage) {
    '\n' !in m.from && forall b | b in Mentioned(m) :: '\n' !in b
  }

  function Unblanked(items: seq<string>): seq<string> {
    if items == [""] then [] else items
  }

  /** A message as its receiver reads it: a list that is the blank bearer alone arrives empty. */
  function AsHeard(m: PeerMessage): PeerMessage {
    match m
    case LinkUpHello(from, ledger, spent) => LinkUpHello(from, Unblanked(ledger), Unblanked(spent))
    case LinkUpAck(from, ledger, spent) => LinkUpAck(from, Unblanked(ledger), Unblanked(spent))
    case PropagateReply(from, bearers) => PropagateReply(from, Unblanked(bearers))
    case StatusReply(from, ledger, spent) => StatusReply(from, Unblanked(ledger), Unblanked(spent))
    case _ => m
  }

  lemma UnblankedEncodes(items: seq<string>)
    ensures EncodeList(Unblanked(items)) == EncodeList(items) && Unblanked(items) != [""]
  {
    assert EscapeAll([""]) == [""];
  }

  lemma AsHeardEncodes(m: PeerMessage)
    ensures EncodePeer(AsHeard(m)) == EncodePeer(m)
  {
    match m
    case LinkUpHello(_, ledger, spent) =>
      UnblankedEncodes(ledger);
      UnblankedEncodes(spent);
    case LinkUpAck(_, ledger, spent) =>
      UnblankedEncodes(ledger);
      UnblankedEncodes(spent);
    case PropagateReply(_, bearers) => UnblankedEncodes(bearers);
    case StatusReply(_, ledger, spent) =>
      UnblankedEncodes(ledger);
      UnblankedEncodes(spent);
    case _ =>
  }

  lemma ItemsOneLine(items: seq<string>, mentioned: set<string>)
    requires Elements(items) <= mentioned && forall b | b in mentioned :: '\n' !in b
    ensures FieldNewlineFree(Items(Unblanked(items))) && Items(Unblanked(items)) != Items([""])
  {
    forall b | b in items ensures '\n' !in b {
      assert b in Elements(items);
    }
  }

  lemma AsHeardCarried(m: PeerMessage, f: Field)
    requires OneLine(m) && f in PeerShape(AsHeard(m)).fields
    ensures FieldNewlineFree(f) && f != Items([""])
  {
    match m
    case LinkUpHello(_, ledger, spent) =>
      ItemsOneLine(ledger, Mentioned(m));
      ItemsOneLine(spent, Mentioned(m));
    case LinkUpAck(_, ledger, spent) =>
      ItemsOneLine(ledger, Mentioned(m));
      ItemsOneLine(spent, Mentioned(m));
    case PropagateReply(_, bearers) => ItemsOneLine(bearers, Mentioned(m));
    case StatusReply(_, ledger, spent) =>
      ItemsOneLine(ledger, Mentioned(m));
      ItemsOneLine(spent, Mentioned(m));
    case SpentNotify(_, bearer) => assert bearer in Mentioned(m);
    case _ =>
  }

  /** Exactly what arrives of any message without newlines: nothing is lost but the blank bearer where it is alone. */
  lemma HeardExactly(m: PeerMessage)
    requires OneLine(m)
    ensures Transmit(m) == Ok(AsHeard(m))
  {
    AsHeardEncodes(m);
    forall f | f in PeerShape(AsHeard(m)).fields ensures FieldNewlineFree(f) && f != Items([""]) {
      AsHeardCarried(m, f);
    }
    PeerFrame(AsHeard(m), "");
    assert EncodePeer(AsHeard(m)) + "\n" + "" == EncodePeer(m) + "\n";
  }

  // ---- Admin messages -----------------------------------------------------------------------------

  function AdminShape(m: AdminMessage): Shape {
    match m
    case AdminLinkUp(peer) => Shape("ADMIN_LINK_UP", [Text(peer)])
    case AdminLinkDown(peer) => Shape("ADMIN_LINK_DOWN", [Text(peer)])
    case AdminPropagate(peer) => Shape("ADMIN_PROPAGATE", [Text(peer)])
    case AdminSpendAt(bearer) => Shape("ADMIN_SPEND_AT", [Text(bearer)])
    case AdminStatus => Shape("ADMIN_STATUS", [])
    case AdminSeed(bearer) => Shape("ADMIN_SEED", [Text(bearer)])
    case AdminConversionDay => Shape("ADMIN_CONVERSION_DAY", [])
  }

  lemma AdminPeerTags()
    ensures CleanTag("ADMIN_LINK_UP") && CleanTag("ADMIN_LINK_DOWN") && CleanTag("ADMIN_PROPAGATE")
  {
  }

  lemma AdminOtherTags()
    ensures CleanTag("ADMIN_SPEND_AT") && CleanTag("ADMIN_STATUS") && CleanTag("ADMIN_SEED")
    ensures CleanTag("ADMIN_CONVERSION_DAY")
  {
  }

  lemma AdminTag(m: AdminMessage)
    ensures CleanTag(AdminShape(m).tag)
  {
    AdminPeerTags();
    AdminOtherTags();
  }

  lemma AdminTexts(m: AdminMessage)
    ensures EncodeAdmin(m) == PrintShape(AdminShape(m))
  {
    var g := AdminShape(m).fields;
    if |g| == 1 {
      assert FieldTexts(g) == [FieldText(g[0])];
    } else {
      assert FieldTexts(g) == [];
    }
  }

  lemma AdminParses(m: AdminMessage, line: string)
    ensures DecodeAdmin(line) == Ok(m) <==> ParsesTo(line, AdminShape(m))
  {
    var f, g := Fields(line), AdminShape(m).fields;
    if |f| == 1 + |g| {
      assert |g| == 1 ==> (ReadsAs(f[0 + 1], g[0]) <==> ReadsAs(f[1], g[0]));
    }
  }

  lemma AdminByShape(m: AdminMessage, line: string)
    ensures EncodeAdmin(m) == PrintShape(AdminShape(m))
    ensures DecodeAdmin(line) == Ok(m) <==> ParsesTo(line, AdminShape(m))
    ensures DecodeAdmin(line).Err? ==> DecodeAdmin(line).error == Malformed(line)
  {
    AdminTexts(m);
    AdminParses(m, line);
  }

  /** The line each command is written as, spelled out. */
  lemma AdminLine(m: AdminMessage)
    ensures m.AdminLinkUp? ==> EncodeAdmin(m) == "ADMIN_LINK_UP" + "|" + Escape(m.peer)
    ensures m.AdminLinkDown? ==> EncodeAdmin(m) == "ADMIN_LINK_DOWN" + "|" + Escape(m.peer)
    ensures m.AdminPropagate? ==> EncodeAdmin(m) == "ADMIN_PROPAGATE" + "|" + Escape(m.peer)
    ensures m.AdminSpendAt? ==> EncodeAdmin(m) == "ADMIN_SPEND_AT" + "|" + Escape(m.bearer)
    ensures m.AdminSeed? ==> EncodeAdmin(m) == "ADMIN_SEED" + "|" + Escape(m.bearer)
    ensures m.AdminStatus? ==> EncodeAdmin(m) == "ADMIN_STATUS"
    ensures m.AdminConversionDay? ==> EncodeAdmin(m) == "ADMIN_CONVERSION_DAY"
  {
    match m
    case AdminLinkUp(peer) => PrintOne("ADMIN_LINK_UP", Escape(peer));
    case AdminLinkDown(peer) => PrintOne("ADMIN_LINK_DOWN", Escape(peer));
    case AdminPropagate(peer) => PrintOne("ADMIN_PROPAGATE", Escape(peer));
    case AdminSpendAt(bearer) => PrintOne("ADMIN_SPEND_AT", Escape(bearer));
    case AdminSeed(bearer) => PrintOne("ADMIN_SEED", Escape(bearer));
    case _ =>
  }

  lemma AdminRoundTrip(m: AdminMessage)
    ensures DecodeAdmin(EncodeAdmin(m)) == Ok(m) <==> Carried(AdminShape(m))
  {
    AdminTag(m);
    AdminByShape(m, EncodeAdmin(m));
    ShapeRoundTrip(AdminShape(m));
  }

  lemma AdminCanonical(line: string)
    ensures DecodeAdmin(line).Ok? ==> DecodeAdmin(EncodeAdmin(DecodeAdmin(line).value)) == DecodeAdmin(line)
  {
    if DecodeAdmin(line).Ok? {
      var m := DecodeAdmin(line).value;
      AdminByShape(m, line);
      ParsedIsCarried(line, AdminShape(m));
      AdminRoundTrip(m);
    }
  }

  lemma AdminFrame(m: AdminMessage, rest: string)
    ensures DecodeAdmin(ReadLine(EncodeAdmin(m) + "\n" + rest)) == Ok(m) <==> NewlineFree(AdminShape(m))
  {
    AdminTag(m);
    AdminByShape(m, ReadLine(EncodeAdmin(m) + "\n" + rest));
    FrameRoundTrip(AdminShape(m), rest);
  }

  lemma {:induction false} ReadLineTrimmed(stream: string)
    ensures '\n' !in TrimNewlines(ReadLine(stream))
    decreases |stream|
  {
    if stream == "" {
    } else if stream[0] == '\n' {
      assert TrimNewlines("\n") == TrimNewlines("\n"[..0]);
    } else {
      ReadLineTrimmed(stream[1..]);
      TrimCons(stream[0], ReadLine(stream[1..]));
    }
  }

  /** No command read from a connection names anything with a newline in it, whatever is sent. */
  lemma CommandsAreOneLine(stream: string)
    ensures DecodeAdmin(ReadLine(stream)).Ok? ==> NewlineFree(AdminShape(DecodeAdmin(ReadLine(stream)).value))
  {
    if DecodeAdmin(ReadLine(stream)).Ok? {
      var m := DecodeAdmin(ReadLine(stream)).value;
      ReadLineTrimmed(stream);
      AdminByShape(m, ReadLine(stream));
      ParsedNewlines(ReadLine(stream), AdminShape(m));
    }
  }

  // ---- Admin replies ------------------------------------------------------------------------------

  function ReplyShape(m: AdminReply): Shape {
    match m
    case ReplyOk => Shape("REPLY_OK", [])
    case ReplyError(detail) => Shape("REPLY_ERROR", [Text(detail)])
    case StatusReport(nodeId, ledger, spent, links) =>
      Shape("REPLY_STATUS", [Text(nodeId), Items(ledger), Items(spent), Items(links)])
  }

  lemma ReplyTag(m: AdminReply)
    ensures CleanTag(ReplyShape(m).tag)
  {
  }

  lemma ReplyByShape(m: AdminReply, line: string)
    ensures EncodeReply(m) == PrintShape(ReplyShape(m))
    ensures DecodeReply(line) == Ok(m) <==> ParsesTo(line, ReplyShape(m))
    ensures DecodeReply(line).Err? ==> DecodeReply(line).error == Malformed(line)
  {
    if m.StatusReport? {
      ReportByShape(m, line);
    } else {
      PlainReplyByShape(m, line);
    }
  }

  lemma PlainReplyByShape(m: AdminReply, line: string)
    requires !m.StatusReport?
    ensures EncodeReply(m) == PrintShape(ReplyShape(m))
    ensures DecodeReply(line) == Ok(m) <==> ParsesTo(line, ReplyShape(m))
  {
    var f, g := Fields(line), ReplyShape(m).fields;
    assert FieldTexts(g) == if m.ReplyOk? then [] else [Escape(m.detail)];
    assert |g| == 1 && |f| == 2 ==> (ReadsAs(f[0 + 1], g[0]) <==> ReadsAs(f[1], g[0]));
  }

  lemma ReportByShape(m: AdminReply, line: string)
    requires m.StatusReport?
    ensures EncodeReply(m) == PrintShape(ReplyShape(m))
    ensures DecodeReply(line) == Ok(m) <==> ParsesTo(line, ReplyShape(m))
  {
    ReportReads(m, line);
    assert FieldTexts(ReplyShape(m).fields) ==
           [Escape(m.nodeId), EncodeList(m.ledger), EncodeList(m.spent), EncodeList(m.links)];
  }

  lemma ReportReads(m: AdminReply, line: string)
    requires m.StatusReport?
    ensures DecodeReply(line) == Ok(m) <==> ParsesTo(line, ReplyShape(m))
  {
    var f, g := Fields(line), ReplyShape(m).fields;
    if |f| == 5 {
      FourRead(f, g);
    }
  }

  lemma FourRead(f: seq<string>, g: seq<Field>)
    requires |f| == 5 && |g| == 4
    ensures (forall i | 0 <= i < 4 :: ReadsAs(f[i + 1], g[i])) <==>
            ReadsAs(f[1], g[0]) && ReadsAs(f[2], g[1]) && ReadsAs(f[3], g[2]) && ReadsAs(f[4], g[3])
  {
    assert f[0 + 1] == f[1] && f[1 + 1] == f[2] && f[2 + 1] == f[3] && f[3 + 1] == f[4];
  }

  /** The line each reply is written as, spelled out. */
  lemma ReplyLine(m: AdminReply)
    ensures m.ReplyOk? ==> EncodeReply(m) == "REPLY_OK"
    ensures m.ReplyError? ==> EncodeReply(m) == "REPLY_ERROR" + "|" + Escape(m.detail)
    ensures m.StatusReport? ==>
              EncodeReply(m) == "REPLY_STATUS" + "|" + Escape(m.nodeId) + "|" + EncodeList(m.ledger)
                                + "|" + EncodeList(m.spent) + "|" + EncodeList(m.links)
  {
    match m
    case ReplyOk =>
    case ReplyError(detail) => PrintOne("REPLY_ERROR", Escape(detail));
    case StatusReport(nodeId, ledger, spent, links) =>
      PrintFour("REPLY_STATUS", Escape(nodeId), EncodeList(ledger), EncodeList(spent), EncodeList(links));
  }

  lemma PrintFour(tag: string, a: string, b: string, c: string, d: string)
    ensures Print(tag, [a, b, c, d]) == tag + "|" + a + "|" + b + "|" + c + "|" + d
  {
    JoinFirst(tag, [a, b, c, d]);
    PrintThree(a, b, c, d);
    assert [a] + [b, c, d] == [a, b, c, d];
  }

  lemma ReplyRoundTrip(m: AdminReply)
    ensures DecodeReply(EncodeReply(m)) == Ok(m) <==> Carried(ReplyShape(m))
  {
    ReplyTag(m);
    ReplyByShape(m, EncodeReply(m));
    ShapeRoundTrip(ReplyShape(m));
  }

  lemma ReplyCanonical(line: string)
    ensures DecodeReply(line).Ok? ==> DecodeReply(EncodeReply(DecodeReply(line).value)) == DecodeReply(line)
  {
    if DecodeReply(line).Ok? {
      var m := DecodeReply(line).value;
      ReplyByShape(m, line);
      ParsedIsCarried(line, ReplyShape(m));
      ReplyRoundTrip(m);
    }
  }

  lemma ReplyFrame(m: AdminReply, rest: string)
    ensures DecodeReply(ReadLine(EncodeReply(m) + "\n" + rest)) == Ok(m) <==>
            NewlineFree(ReplyShape(m)) && forall f | f in ReplyShape(m).fields :: f != Items([""])
  {
    ReplyTag(m);
    ReplyByShape(m, ReadLine(EncodeReply(m) + "\n" + rest));
    FrameRoundTrip(ReplyShape(m), rest);
  }
}
