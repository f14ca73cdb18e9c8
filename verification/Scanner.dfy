/** The text layer of the wire format: escaping, separator scanning and list fields. */
module Scanner {

  // ---- Escaping -----------------------------------------------------------------------------------

  /** `str::replace` for a one-character pattern. */
  function Replace(s: string, c: char, with: string): string {
    if s == "" then ""
    else (if s[0] == c then with else [s[0]]) + Replace(s[1..], c, with)
  }

  /** Three whole-string replacements, the backslash first. */
  function Escape(s: string): string {
    Replace(Replace(Replace(s, '\\', "\\\\"), '|', "\\|"), ',', "\\,")
  }

  predicate Special(c: char) {
    c == '\\' || c == '|' || c == ','
  }

  /** The one-pass character map that escaping is meant to be. */
  function EscapeEach(s: string): string {
    if s == "" then ""
    else (if Special(s[0]) then ['\\', s[0]] else [s[0]]) + EscapeEach(s[1..])
  }

  lemma {:induction false} ReplaceAppend(a: string, b: string, c: char, with: string)
    ensures Replace(a + b, c, with) == Replace(a, c, with) + Replace(b, c, with)
  {
    if a == "" {
      assert a + b == b;
    } else {
      assert (a + b)[1..] == a[1..] + b;
      ReplaceAppend(a[1..], b, c, with);
    }
  }

  lemma ReplaceOne(x: char, c: char, with: string)
    ensures Replace([x], c, with) == if x == c then with else [x]
  {
    assert Replace([x][1..], c, with) == "";
  }

  lemma EscapeAppend(a: string, b: string)
    ensures Escape(a + b) == Escape(a) + Escape(b)
  {
    ReplaceAppend(a, b, '\\', "\\\\");
    var a1, b1 := Replace(a, '\\', "\\\\"), Replace(b, '\\', "\\\\");
    ReplaceAppend(a1, b1, '|', "\\|");
    ReplaceAppend(Replace(a1, '|', "\\|"), Replace(b1, '|', "\\|"), ',', "\\,");
  }

  lemma EscapeOne(x: char)
    ensures Escape([x]) == EscapeEach([x])
  {
    ReplaceOne(x, '\\', "\\\\");
    assert "\\\\" == ['\\'] + ['\\'] && "\\|" == ['\\'] + ['|'];
    ReplaceAppend(['\\'], ['\\'], '|', "\\|");
    ReplaceOne('\\', '|', "\\|");
    ReplaceOne(x, '|', "\\|");
    ReplaceAppend(['\\'], ['\\'], ',', "\\,");
    ReplaceAppend(['\\'], ['|'], ',', "\\,");
    ReplaceOne('\\', ',', "\\,");
    ReplaceOne('|', ',', "\\,");
    ReplaceOne(x, ',', "\\,");
    assert EscapeEach([x][1..]) == "";
  }

  /** The three sequential replacements equal the one-pass map: none of them re-escapes what another inserted. */
  lemma {:induction false} EscapeIsOnePass(s: string)
    ensures Escape(s) == EscapeEach(s)
  {
    if s != "" {
      assert s == [s[0]] + s[1..];
      EscapeAppend([s[0]], s[1..]);
      EscapeOne(s[0]);
      EscapeIsOnePass(s[1..]);
      assert EscapeEach([s[0]]) == if Special(s[0]) then ['\\', s[0]] else [s[0]] by {
        assert EscapeEach([s[0]][1..]) == "";
      }
    }
  }

  /** Undoes escapes of the three special characters; any other backslash stands for itself. */
  function Unescape(s: string): string {
    if s == "" then ""
    else if s[0] != '\\' then [s[0]] + Unescape(s[1..])
    else if |s| == 1 then "\\"
    else (if Special(s[1]) then [s[1]] else ['\\', s[1]]) + Unescape(s[2..])
  }

  lemma UnescapeFrom(out: string, s: string, i: nat)
    requires i < |s|
    ensures var k := if s[i] == '\\' && i + 1 < |s| then i + 2 else i + 1;
            var piece := if k == i + 2 && Special(s[i + 1]) then [s[i + 1]] else s[i..k];
            out + Unescape(s[i..]) == (out + piece) + Unescape(s[k..])
  {
    var tail := s[i..];
    var k := if s[i] == '\\' && i + 1 < |s| then i + 2 else i + 1;
    assert tail[k - i..] == s[k..];
    if k == i + 2 {
      assert s[i..k] == ['\\', s[i + 1]];
    } else {
      assert s[i..k] == [s[i]];
    }
  }

  /** Unescaping as `src/wire.rs` does it: a character iterator and an output buffer. */
  method UnescapeLoop(s: string) returns (out: string)
    ensures out == Unescape(s)
  {
    out := "";
    var i := 0;
    assert s[0..] == s;
    while i < |s|
      invariant 0 <= i <= |s|
      invariant out + Unescape(s[i..]) == Unescape(s)
    {
      UnescapeFrom(out, s, i);
      ghost var first, before := i, out;
      var c := s[i];
      i := i + 1;
      if c == '\\' {
        if i < |s| {
          var next := s[i];
          i := i + 1;
          if Special(next) {
            out := out + [next];
          } else {
            out := out + ['\\'];
            out := out + [next];
            assert s[first..i] == ['\\', next] && out == before + s[first..i];
          }
        } else {
          out := out + ['\\'];
          assert s[first..i] == ['\\'];
        }
      } else {
        out := out + [c];
        assert s[first..i] == [c];
      }
    }
    assert s[i..] == "";
  }

  lemma {:induction false} UnescapeEscapeEach(s: string)
    ensures Unescape(EscapeEach(s)) == s
  {
    if s != "" {
      UnescapeEscapeEach(s[1..]);
      var e := EscapeEach(s);
      if Special(s[0]) {
        assert e[2..] == EscapeEach(s[1..]);
      } else {
        assert e[1..] == EscapeEach(s[1..]);
      }
      assert s == [s[0]] + s[1..];
    }
  }

  /** Unescaping undoes escaping, for every string. */
  lemma UnescapeEscape(s: string)
    ensures Unescape(Escape(s)) == s
  {
    EscapeIsOnePass(s);
    UnescapeEscapeEach(s);
  }

  // ---- Scanning for an unescaped separator ------------------------------------------------------------

  /** Cuts at unescaped separators; the pieces keep their escapes. */
  function Split(s: string, sep: char): (parts: seq<string>)
    ensures parts != []
    decreases |s|
  {
    if s == "" then [""]
    else if s[0] == '\\' && |s| > 1 then Glue(s[..2], Split(s[2..], sep))
    else if s[0] == '\\' || s[0] != sep then Glue(s[..1], Split(s[1..], sep))
    else [""] + Split(s[1..], sep)
  }

  /** Puts text in front of the first piece. */
  function Glue(text: string, parts: seq<string>): (glued: seq<string>)
    requires parts != []
    ensures |glued| == |parts|
  {
    [text + parts[0]] + parts[1..]
  }

  function Join(parts: seq<string>, sep: char): string
    requires parts != []
    decreases |parts|
  {
    if |parts| == 1 then parts[0] else parts[0] + [sep] + Join(parts[1..], sep)
  }

  lemma GlueGlue(a: string, b: string, parts: seq<string>)
    requires parts != []
    ensures Glue(a, Glue(b, parts)) == Glue(a + b, parts)
  {
    assert a + (b + parts[0]) == (a + b) + parts[0];
  }

  lemma GlueEmpty(parts: seq<string>)
    requires parts != []
    ensures Glue("", parts) == parts
  {
    assert "" + parts[0] == parts[0];
  }

  lemma GlueFirst(text: string, rest: seq<string>)
    ensures Glue(text, [""] + rest) == [text] + rest
  {
    assert text + "" == text;
  }

  /** One turn of the scanner, seen from the piece it is building. */
  lemma SplitFrom(current: string, s: string, i: nat, sep: char)
    requires i < |s| && sep != '\\'
    ensures var k := if s[i] == '\\' && i + 1 < |s| then i + 2 else i + 1;
            Glue(current, Split(s[i..], sep)) ==
            if s[i] == sep then [current] + Split(s[k..], sep) else Glue(current + s[i..k], Split(s[k..], sep))
  {
    var tail := s[i..];
    var k := if s[i] == '\\' && i + 1 < |s| then i + 2 else i + 1;
    assert tail[k - i..] == s[k..] && tail[..k - i] == s[i..k];
    if s[i] == sep {
      GlueFirst(current, Split(s[k..], sep));
    } else {
      GlueGlue(current, s[i..k], Split(s[k..], sep));
    }
  }

  /** The pieces still to come from position `i` when the scanner is in the middle of a piece. */
  ghost function Ahead(current: string, s: string, i: nat, sep: char): seq<string>
    requires i <= |s|
  {
    Glue(current, Split(s[i..], sep))
  }

  lemma AheadFrom(current: string, s: string, i: nat, sep: char)
    requires i < |s| && sep != '\\'
    ensures var k := if s[i] == '\\' && i + 1 < |s| then i + 2 else i + 1;
            Ahead(current, s, i, sep) ==
            if s[i] == sep then [current] + Ahead("", s, k, sep) else Ahead(current + s[i..k], s, k, sep)
  {
    SplitFrom(current, s, i, sep);
    if s[i] == sep {
      GlueEmpty(Split(s[i + 1..], sep));
    }
  }

  lemma AheadEnd(current: string, s: string, sep: char)
    ensures Ahead(current, s, |s|, sep) == [current]
  {
    assert s[|s|..] == "" && current + "" == current;
  }

  /** Appends the next character to the current piece, and the one a backslash protects along with it. */
  method PushChar(current: string, s: string, i: nat) returns (grown: string, next: nat)
    requires i < |s|
    ensures next == if s[i] == '\\' && i + 1 < |s| then i + 2 else i + 1
    ensures grown == current + s[i..next]
  {
    grown := current + [s[i]];
    next := i + 1;
    if s[i] == '\\' && next < |s| {
      grown := grown + [s[next]];
      next := next + 1;
    }
  }

  /** The field scanner: one character of lookahead, a current piece, the pieces so far. */
  method SplitLoop(line: string, sep: char) returns (fields: seq<string>)
    requires sep != '\\'
    ensures fields == Split(line, sep)
  {
    fields := [];
    var current := "";
    var i := 0;
    assert line[0..] == line;
    GlueEmpty(Split(line, sep));
    while i < |line|
      invariant 0 <= i <= |line|
      invariant Split(line, sep) == fields + Ahead(current, line, i, sep)
    {
      AheadFrom(current, line, i, sep);
      if line[i] == sep {
        i := i + 1;
        fields := fields + [current];
        current := "";
      } else {
        current, i := PushChar(current, line, i);
      }
    }
    AheadEnd(current, line, sep);
    fields := fields + [current];
  }

  /** Free of unescaped separators. */
  ghost predicate Plain(s: string, sep: char) {
    if s == "" then true
    else if s[0] == '\\' && |s| > 1 then Plain(s[2..], sep)
    else s[0] != sep && Plain(s[1..], sep)
  }

  /** Does not end inside an escape, so that text put after it scans on its own. */
  ghost predicate Closed(s: string) {
    if s == "" then true
    else if s[0] == '\\' then |s| > 1 && Closed(s[2..])
    else Closed(s[1..])
  }

  lemma {:induction false} ClosedAppend(a: string, b: string)
    requires Closed(a)
    ensures Closed(a + b) <==> Closed(b)
    decreases |a|
  {
    if a == "" {
      assert a + b == b;
    } else if a[0] == '\\' {
      assert (a + b)[2..] == a[2..] + b;
      ClosedAppend(a[2..], b);
    } else {
      assert (a + b)[1..] == a[1..] + b;
      ClosedAppend(a[1..], b);
    }
  }

  lemma {:induction false} PlainAppend(a: string, b: string, sep: char)
    requires Closed(a) && Plain(a, sep)
    ensures Plain(a + b, sep) <==> Plain(b, sep)
    decreases |a|
  {
    if a == "" {
      assert a + b == b;
    } else if a[0] == '\\' {
      assert (a + b)[2..] == a[2..] + b;
      PlainAppend(a[2..], b, sep);
    } else {
      assert (a + b)[1..] == a[1..] + b;
      PlainAppend(a[1..], b, sep);
    }
  }

  /** Scanning closed, separator-free text puts it in front of the next piece. */
  lemma {:induction false} SplitAppend(a: string, b: string, sep: char)
    requires sep != '\\' && Closed(a) && Plain(a, sep)
    ensures Split(a + b, sep) == Glue(a, Split(b, sep))
    decreases |a|
  {
    if a == "" {
      assert a + b == b;
      GlueEmpty(Split(b, sep));
    } else if a[0] == '\\' {
      assert (a + b)[2..] == a[2..] + b && (a + b)[..2] == a[..2];
      SplitAppend(a[2..], b, sep);
      GlueGlue(a[..2], a[2..], Split(b, sep));
      assert a == a[..2] + a[2..];
    } else {
      assert (a + b)[1..] == a[1..] + b && (a + b)[..1] == a[..1];
      SplitAppend(a[1..], b, sep);
      GlueGlue(a[..1], a[1..], Split(b, sep));
      assert a == a[..1] + a[1..];
    }
  }

  lemma {:induction false} SplitPlain(s: string, sep: char)
    requires sep != '\\' && Plain(s, sep)
    ensures Split(s, sep) == [s]
    decreases |s|
  {
    if s != "" {
      if s[0] == '\\' && |s| > 1 {
        SplitPlain(s[2..], sep);
        assert s == s[..2] + s[2..];
      } else {
        SplitPlain(s[1..], sep);
        assert s == s[..1] + s[1..];
      }
    }
  }

  /** Pieces that the scanner can recover: no unescaped separator, and only the last may end inside an escape. */
  ghost predicate Splittable(parts: seq<string>, sep: char) {
    && parts != []
    && (forall i | 0 <= i < |parts| :: Plain(parts[i], sep))
    && forall i | 0 <= i < |parts| - 1 :: Closed(parts[i])
  }

  /** Scanning a joined line gives back its pieces. */
  lemma {:induction false} SplitJoin(parts: seq<string>, sep: char)
    requires sep != '\\' && Splittable(parts, sep)
    ensures Split(Join(parts, sep), sep) == parts
    decreases |parts|
  {
    if |parts| == 1 {
      SplitPlain(parts[0], sep);
    } else {
      var rest := Join(parts[1..], sep);
      SplitJoin(parts[1..], sep);
      assert parts[0] + [sep] + rest == parts[0] + ([sep] + rest);
      SplitAppend(parts[0], [sep] + rest, sep);
      assert ([sep] + rest)[1..] == rest;
      GlueFirst(parts[0], parts[1..]);
    }
  }

  /** Joining the scanned pieces gives back the line, and each piece is free of unescaped separators. */
  lemma {:induction false} JoinSplit(s: string, sep: char)
    requires sep != '\\'
    ensures Join(Split(s, sep), sep) == s
    ensures Splittable(Split(s, sep), sep)
    decreases |s|
  {
    if s != "" {
      var k := if s[0] == '\\' && |s| > 1 then 2 else 1;
      var rest := Split(s[k..], sep);
      JoinSplit(s[k..], sep);
      assert s == s[..k] + s[k..];
      if k == 1 && s[0] == sep {
        assert ([""] + rest)[1..] == rest;
      } else {
        JoinGlue(s[..k], rest, sep);
        var glued := Glue(s[..k], rest);
        assert glued == Split(s, sep);
        if k == 2 {
          assert glued[0][2..] == rest[0];
        } else {
          assert glued[0][1..] == rest[0];
          if s[0] == '\\' {
            assert s[1..] == "";
          }
        }
      }
    }
  }

  lemma JoinGlue(text: string, parts: seq<string>, sep: char)
    requires parts != []
    ensures Join(Glue(text, parts), sep) == text + Join(parts, sep)
  {
    if |parts| > 1 {
      assert Glue(text, parts)[1..] == parts[1..];
      assert text + parts[0] + [sep] + Join(parts[1..], sep) == text + (parts[0] + [sep] + Join(parts[1..], sep));
    }
  }

  // ---- Escaped text and list fields ---------------------------------------------------------------------

  lemma {:induction false} EscapeEachScans(s: string, sep: char)
    requires sep == '|' || sep == ','
    ensures Closed(EscapeEach(s)) && Plain(EscapeEach(s), sep)
  {
    if s != "" {
      EscapeEachScans(s[1..], sep);
      var e := EscapeEach(s);
      if Special(s[0]) {
        assert e[2..] == EscapeEach(s[1..]);
      } else {
        assert e[1..] == EscapeEach(s[1..]);
      }
    }
  }

  function EscapeAll(items: seq<string>): (texts: seq<string>)
    ensures |texts| == |items|
  {
    seq(|items|, i requires 0 <= i < |items| => Escape(items[i]))
  }

  function UnescapeAll(texts: seq<string>): (items: seq<string>)
    ensures |items| == |texts|
  {
    seq(|texts|, i requires 0 <= i < |texts| => Unescape(texts[i]))
  }

  function EncodeList(items: seq<string>): string {
    if items == [] then "" else Join(EscapeAll(items), ',')
  }

  function DecodeList(s: string): seq<string> {
    if s == "" then [] else UnescapeAll(Split(s, ','))
  }

  /** The items still to come from position `i` when the scanner is in the middle of an item. */
  ghost function Pending(current: string, s: string, i: nat): seq<string>
    requires i <= |s|
  {
    UnescapeAll(Ahead(current, s, i, ','))
  }

  lemma PendingFrom(current: string, s: string, i: nat)
    requires i < |s|
    ensures var k := if s[i] == '\\' && i + 1 < |s| then i + 2 else i + 1;
            Pending(current, s, i) ==
            if s[i] == ',' then [Unescape(current)] + Pending("", s, k) else Pending(current + s[i..k], s, k)
  {
    AheadFrom(current, s, i, ',');
    if s[i] == ',' {
      UnescapeFirst(current, Ahead("", s, i + 1, ','));
    }
  }

  lemma UnescapeFirst(current: string, rest: seq<string>)
    ensures UnescapeAll([current] + rest) == [Unescape(current)] + UnescapeAll(rest)
  {
  }

  lemma PendingEnd(current: string, s: string)
    ensures Pending(current, s, |s|) == [Unescape(current)]
  {
    AheadEnd(current, s, ',');
  }

  /** The list scanner, which unescapes each item as it is completed. */
  method DecodeListLoop(s: string) returns (items: seq<string>)
    ensures items == DecodeList(s)
  {
    items := [];
    if s == "" {
      return;
    }
    var current := "";
    var i := 0;
    assert s[0..] == s;
    GlueEmpty(Split(s, ','));
    while i < |s|
      invariant 0 <= i <= |s|
      invariant DecodeList(s) == items + Pending(current, s, i)
    {
      PendingFrom(current, s, i);
      if s[i] == ',' {
        i := i + 1;
        var item := UnescapeLoop(current);
        items := items + [item];
        current := "";
      } else {
        current, i := PushChar(current, s, i);
      }
    }
    PendingEnd(current, s);
    var item := UnescapeLoop(current);
    items := items + [item];
  }

  lemma EscapeScans(s: string, sep: char)
    requires sep == '|' || sep == ','
    ensures Closed(Escape(s)) && Plain(Escape(s), sep)
  {
    EscapeIsOnePass(s);
    EscapeEachScans(s, sep);
  }

  lemma {:induction false} JoinScans(parts: seq<string>, sep: char, other: char)
    requires parts != [] && sep != '\\' && sep != other
    requires forall i | 0 <= i < |parts| :: Closed(parts[i]) && Plain(parts[i], other)
    ensures Closed(Join(parts, sep)) && Plain(Join(parts, sep), other)
    decreases |parts|
  {
    if |parts| > 1 {
      var rest := Join(parts[1..], sep);
      JoinScans(parts[1..], sep, other);
      assert parts[0] + [sep] + rest == parts[0] + ([sep] + rest);
      assert ([sep] + rest)[1..] == rest;
      ClosedAppend(parts[0], [sep] + rest);
      PlainAppend(parts[0], [sep] + rest, other);
    }
  }

  /** A list field can sit between `|` separators. */
  lemma EncodeListScans(items: seq<string>)
    ensures Closed(EncodeList(items)) && Plain(EncodeList(items), '|')
  {
    if items != [] {
      forall i | 0 <= i < |items| ensures Closed(EscapeAll(items)[i]) && Plain(EscapeAll(items)[i], '|') {
        EscapeScans(items[i], '|');
      }
      JoinScans(EscapeAll(items), ',', '|');
    }
  }

  lemma {:induction false} JoinEmptyExactly(parts: seq<string>, sep: char)
    requires parts != []
    ensures Join(parts, sep) == "" <==> parts == [""]
  {
  }

  lemma EscapeEmptyExactly(s: string)
    ensures Escape(s) == "" <==> s == ""
  {
    EscapeIsOnePass(s);
  }

  /** A list survives exactly when it is not the one-element list of the empty string. */
  lemma ListRoundTrip(items: seq<string>)
    ensures DecodeList(EncodeList(items)) == items <==> items != [""]
  {
    if items != [] {
      var texts := EscapeAll(items);
      forall i | 0 <= i < |items| ensures Closed(texts[i]) && Plain(texts[i], ',') && Unescape(texts[i]) == items[i] {
        EscapeScans(items[i], ',');
        UnescapeEscape(items[i]);
      }
      SplitJoin(texts, ',');
      assert UnescapeAll(texts) == items;
      JoinEmptyExactly(texts, ',');
      EscapeEmptyExactly(items[0]);
      if EncodeList(items) == "" {
        assert texts == [""];
        assert items == [items[0]];
      }
    }
  }

  // ---- Line ends -------------------------------------------------------------------------------------

  /** Not ending in a newline. */
  predicate EndsClean(s: string) {
    s == "" || s[|s| - 1] != '\n'
  }

  /** `trim_end_matches('\n')`. */
  function TrimNewlines(s: string): (t: string)
    ensures EndsClean(t) && t <= s
    ensures EndsClean(s) ==> t == s
  {
    if EndsClean(s) then s else TrimNewlines(s[..|s| - 1])
  }

  lemma {:induction false} UnescapeKeepsEnd(s: string)
    requires s != ""
    ensures Unescape(s) != "" && Unescape(s)[|Unescape(s)| - 1] == s[|s| - 1]
    decreases |s|
  {
    var k := if s[0] == '\\' && |s| > 1 then 2 else 1;
    if |s| > k {
      UnescapeKeepsEnd(s[k..]);
    } else {
      assert s[k..] == "";
    }
  }

  lemma {:induction false} EscapeKeepsEnd(s: string)
    requires s != ""
    ensures Escape(s) != "" && Escape(s)[|Escape(s)| - 1] == s[|s| - 1]
  {
    EscapeIsOnePass(s);
    var front, last := s[..|s| - 1], s[|s| - 1];
    assert s == front + [last];
    EscapeAppend(front, [last]);
    EscapeOne(last);
    assert EscapeEach([last]) == if Special(last) then ['\\', last] else [last] by {
      assert EscapeEach([last][1..]) == "";
    }
  }

  lemma {:induction false} JoinKeepsEnd(parts: seq<string>, sep: char)
    requires parts != [] && sep != '\n'
    ensures EndsClean(Join(parts, sep)) <==> EndsClean(parts[|parts| - 1])
    decreases |parts|
  {
    if |parts| > 1 {
      JoinKeepsEnd(parts[1..], sep);
    }
  }

  /** A character other than the separator occurs in a joined line exactly when it occurs in a piece. */
  lemma {:induction false} JoinContains(parts: seq<string>, sep: char, c: char)
    requires parts != [] && sep != c
    ensures c in Join(parts, sep) <==> exists i | 0 <= i < |parts| :: c in parts[i]
    decreases |parts|
  {
    if |parts| > 1 {
      JoinContains(parts[1..], sep, c);
      if i :| 0 <= i < |parts| && c in parts[i] {
        if i > 0 {
          assert parts[1..][i - 1] == parts[i];
        }
      }
      if c in Join(parts[1..], sep) {
        var i :| 0 <= i < |parts[1..]| && c in parts[1..][i];
        assert c in parts[i + 1];
      }
    }
  }

  lemma {:induction false} EscapeContains(s: string, c: char)
    requires c != '\\'
    ensures c in Escape(s) <==> c in s
  {
    EscapeIsOnePass(s);
    if s != "" {
      EscapeContains(s[1..], c);
      EscapeIsOnePass(s[1..]);
    }
  }

  lemma {:induction false} UnescapeContains(s: string, c: char)
    ensures c in Unescape(s) ==> c in s
    decreases |s|
  {
    if s != "" {
      var k := if s[0] == '\\' && |s| > 1 then 2 else 1;
      UnescapeContains(s[k..], c);
    }
  }
}
