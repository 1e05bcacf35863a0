/** Reading a ClassAd off the wire with SECRET_MARKER framing (internal/adwire/adwire.go). */
module AdWire {
  import opened Basics

  const SECRET_MARKER := "ZKM"
  const MAX_EXPRS := 1_000_000

  /** One value of a message. */
  datatype Field = Int(i: int) | Str(s: string)

  // ---------------------------------------------------------------- white space

  predicate IsSpace(ch: char) {
    || ch in "\t\n\U{000B}\U{000C}\r \U{0085}\U{00A0}\U{1680}\U{2028}\U{2029}\U{202F}\U{205F}\U{3000}"
    || '\U{2000}' <= ch <= '\U{200A}'
  }

  function TrimLeft(s: string): string { if s != "" && IsSpace(s[0]) then TrimLeft(s[1..]) else s }

  function TrimRight(s: string): string {
    if s != "" && IsSpace(s[|s| - 1]) then TrimRight(s[..|s| - 1]) else s
  }

  function Trim(s: string): string { TrimRight(TrimLeft(s)) }

  // -------------------------------------------------------------------- one line

  /** strings.IndexByte(line, '='), or the length of the line when there is none. */
  function IndexOfEquals(line: string): (k: nat)
    ensures k <= |line|
  {
    if line == "" || line[0] == '=' then 0 else 1 + IndexOfEquals(line[1..])
  }

  /** A "Name = Value" line: the name and the parsed value, or why there is none. */
  datatype Parsed<E> = Blank | Unusable(token: string) | Attribute(name: string, value: E)

  function FirstToken(line: string): string {
    if IndexOfEquals(line) < |line| then Trim(line[..IndexOfEquals(line)])
    else if |line| > 16 then line[..16] else line
  }

  /** insertLongForm, with exprs the texts that parse and what they parse to: only the first '=' splits the name from the value. */
  function ParseLine<E>(line: string, exprs: imap<string, E>): Parsed<E> {
    var eq := IndexOfEquals(line);
    if Trim(line) == "" then Blank
    else if eq == |line| then Unusable(FirstToken(line))
    else
      var name := Trim(line[..eq]);
      var value := Trim(line[eq + 1..]);
      if name == "" || value !in exprs then Unusable(FirstToken(line)) else Attribute(name, exprs[value])
  }

  // ------------------------------------------------------------ the whole message

  datatype Decoded<E> = Malformed(rest: seq<Field>) | Decoded(ad: Ad<E>, rest: seq<Field>)

  /** One counted expression read, or the message broken off; rest is what has not been consumed. */
  datatype LineRead = NoLine(rest: seq<Field>) | LineRead(line: string, rest: seq<Field>)

  /** The next line, the secret one if a marker announces it. */
  function NextLine(fields: seq<Field>): LineRead {
    if fields == [] || !fields[0].Str? then NoLine(fields)
    else if fields[0].s != SECRET_MARKER then LineRead(fields[0].s, fields[1..])
    else if |fields| < 2 || !fields[1].Str? then NoLine(fields[1..])
    else LineRead(fields[1].s, fields[2..])
  }

  datatype Taken = Broken(rest: seq<Field>) | Taken(lines: seq<string>, rest: seq<Field>)

  /** n lines, a marker and the secret line after it being one of them, and what follows them. */
  function TakeLines(fields: seq<Field>, n: nat): Taken {
    if n == 0 then Taken([], fields)
    else
      match NextLine(fields)
      case NoLine(rest) => Broken(rest)
      case LineRead(line, more) =>
        match TakeLines(more, n - 1)
        case Broken(rest) => Broken(rest)
        case Taken(lines, rest) => Taken([line] + lines, rest)
  }

  /** The attributes read so far and the names of the ones that did not parse. */
  datatype Ad<E> = Ad(attrs: map<string, E>, skipped: seq<string>) {
    function Insert(p: Parsed<E>): Ad<E> {
      match p
      case Blank => this
      case Unusable(token) => Ad(attrs, skipped + [token])
      case Attribute(name, value) => Ad(attrs[name := value], skipped)
    }
  }

  /** The lines of an ad inserted one after the other. */
  function AdOf<E>(lines: seq<string>, exprs: imap<string, E>): Ad<E> {
    if lines == [] then Ad(map[], [])
    else
      AdOf(lines[..|lines| - 1], exprs).Insert(ParseLine(lines[|lines| - 1], exprs))
  }

  /** The two legacy strings after the lines, as far as they are there. */
  function DropString(fields: seq<Field>): seq<Field> { if fields != [] && fields[0].Str? then fields[1..] else fields }

  /** The ad a message starts with. */
  function Decode<E>(fields: seq<Field>, exprs: imap<string, E>): Decoded<E> {
    if fields == [] || !fields[0].Int? then Malformed(fields)
    else if fields[0].i < 0 || fields[0].i > MAX_EXPRS then Malformed(fields[1..])
    else
      match TakeLines(fields[1..], fields[0].i)
      case Broken(rest) => Malformed(rest)
      case Taken(lines, rest) =>
        Decoded(AdOf(lines, exprs), DropString(DropString(rest)))
  }

  // ------------------------------------------------------------------- the reader

  /** An incoming message, consumed value by value. */
  class Message {
    var fields: seq<Field>

    constructor (all: seq<Field>)
      ensures fields == all
    {
      fields := all;
    }

    method GetInt() returns (r: Option<int>)
      modifies this
      ensures r == if old(fields) != [] && old(fields)[0].Int? then Some(old(fields)[0].i) else None
      ensures fields == if r.Some? then old(fields)[1..] else old(fields)
    {
      if fields == [] || !fields[0].Int? { return None; }
      r := Some(fields[0].i);
      fields := fields[1..];
    }

    method GetString() returns (r: Option<string>)
      modifies this
      ensures r == if old(fields) != [] && old(fields)[0].Str? then Some(old(fields)[0].s) else None
      ensures fields == DropString(old(fields))
    {
      if fields == [] || !fields[0].Str? { return None; }
      r := Some(fields[0].s);
      fields := fields[1..];
    }
  }

  /** What the reading loop has left to do: nothing more if the message broke off. */
  predicate Leads(total: Taken, lines: seq<string>, more: Taken) {
    match more
    case Broken(rest) => total == Broken(rest)
    case Taken(ls, rest) => total == Taken(lines + ls, rest)
  }

  lemma LeadsOn(total: Taken, lines: seq<string>, fields: seq<Field>, n: nat)
    requires n > 0 && Leads(total, lines, TakeLines(fields, n))
    ensures match NextLine(fields)
            case NoLine(rest) => total == Broken(rest)
            case LineRead(line, more) => Leads(total, lines + [line], TakeLines(more, n - 1))
  {
    if NextLine(fields).LineRead? {
      var line, more := NextLine(fields).line, NextLine(fields).rest;
      hide NextLine;
      if TakeLines(more, n - 1).Taken? {
        assert lines + ([line] + TakeLines(more, n - 1).lines) == lines + [line] + TakeLines(more, n - 1).lines;
      }
    }
  }

  lemma LeadsFirst(fields: seq<Field>, n: nat)
    ensures Leads(TakeLines(fields, n), [], TakeLines(fields, n))
  {
    if TakeLines(fields, n).Taken? {
      assert [] + TakeLines(fields, n).lines == TakeLines(fields, n).lines;
    }
  }

  lemma LeadsLast(total: Taken, lines: seq<string>, fields: seq<Field>)
    requires Leads(total, lines, TakeLines(fields, 0))
    ensures total == Taken(lines, fields)
  {
    assert lines + [] == lines;
  }

  lemma AdOfMore<E>(lines: seq<string>, line: string, exprs: imap<string, E>)
    ensures AdOf(lines + [line], exprs) == AdOf(lines, exprs).Insert(ParseLine(line, exprs))
  {
    assert (lines + [line])[..|lines|] == lines;
  }

  lemma AdOfNothing<E>(exprs: imap<string, E>)
    ensures AdOf([], exprs) == Ad(map[], [])
  {
  }

  /** One counted expression: a line, or a marker and a line. */
  method GetLine(msg: Message) returns (r: Option<string>)
    modifies msg
    ensures msg.fields == NextLine(old(msg.fields)).rest
    ensures r == match NextLine(old(msg.fields)) case NoLine(_) => None case LineRead(line, _) => Some(line)
  {
    r := msg.GetString();
    if r == Some(SECRET_MARKER) {
      r := msg.GetString();
    }
  }

  /** The counted loop: n expressions inserted one after the other. */
  method GetAttributes<E>(msg: Message, n: nat, exprs: imap<string, E>) returns (r: Option<Ad<E>>)
    modifies msg
    ensures msg.fields == TakeLines(old(msg.fields), n).rest
    ensures r == match TakeLines(old(msg.fields), n) case Broken(_) => None case Taken(lines, _) => Some(AdOf(lines, exprs))
  {
    hide ParseLine, TakeLines, AdOf, NextLine, Reading, Ad.Insert;
    ghost var total := TakeLines(msg.fields, n);
    ghost var lines: seq<string> := [];
    var ad: Ad<E> := Ad(map[], []);
    var i := 0;
    ReadingStarts(msg.fields, n, exprs);
    while i < n
      invariant 0 <= i <= n
      invariant Reading(total, lines, msg.fields, n - i, ad, exprs)
    {
      ReadingOn(total, lines, msg.fields, n - i, ad, exprs);
      var line := GetLine(msg);
      if line.None? { return None; }
      lines := lines + [line.value];
      ad := ad.Insert(ParseLine(line.value, exprs));
      i := i + 1;
    }
    ReadingEnds(total, lines, msg.fields, ad, exprs);
    r := Some(ad);
  }

  /** The lines read so far, what is left to read, and the ad they make. */
  ghost predicate Reading<E>(total: Taken, lines: seq<string>, fields: seq<Field>, n: nat, ad: Ad<E>, exprs: imap<string, E>) {
    Leads(total, lines, TakeLines(fields, n)) && AdOf(lines, exprs) == ad
  }

  lemma ReadingStarts<E>(fields: seq<Field>, n: nat, exprs: imap<string, E>)
    ensures Reading(TakeLines(fields, n), [], fields, n, Ad(map[], []), exprs)
  {
    LeadsFirst(fields, n);
    AdOfNothing(exprs);
  }

  lemma ReadingOn<E>(total: Taken, lines: seq<string>, fields: seq<Field>, n: nat, ad: Ad<E>, exprs: imap<string, E>)
    requires n > 0 && Reading(total, lines, fields, n, ad, exprs)
    ensures match NextLine(fields)
            case NoLine(rest) => total == Broken(rest)
            case LineRead(line, more) => Reading(total, lines + [line], more, n - 1, ad.Insert(ParseLine(line, exprs)), exprs)
  {
    hide ParseLine, TakeLines, AdOf, NextLine, Leads, Ad.Insert;
    LeadsOn(total, lines, fields, n);
    if NextLine(fields).LineRead? { AdOfMore(lines, NextLine(fields).line, exprs); }
  }

  lemma ReadingEnds<E>(total: Taken, lines: seq<string>, fields: seq<Field>, ad: Ad<E>, exprs: imap<string, E>)
    requires Reading(total, lines, fields, 0, ad, exprs)
    ensures total == Taken(lines, fields) && AdOf(lines, exprs) == ad
  {
    hide AdOf;
    LeadsLast(total, lines, fields);
  }

  /** GetClassAd: decodes what the message says, and consumes exactly that, or as far as the message is well formed. */
  method GetClassAd<E>(msg: Message, exprs: imap<string, E>) returns (r: Option<Ad<E>>)
    modifies msg
    ensures msg.fields == Decode(old(msg.fields), exprs).rest
    ensures r == match Decode(old(msg.fields), exprs) case Malformed(_) => None case Decoded(ad, _) => Some(ad)
  {
    hide TakeLines, AdOf;
    var count := msg.GetInt();
    if count.None? || count.value < 0 || count.value > MAX_EXPRS { return None; }
    r := GetAttributes(msg, count.value, exprs);
    if r.Some? {
      var myType := msg.GetString();
      var targetType := msg.GetString();
    }
  }

  // --------------------------------------------------------------------- round trip

  /** An attribute as a peer sends it. */
  datatype Attr = Attr(name: string, text: string, secret: bool) {
    function Line(): string { name + " = " + text }

    /** A name is a non-empty word: no '=' in it, no white space around it. */
    predicate Named() {
      name != "" && !IsSpace(name[0]) && !IsSpace(name[|name| - 1]) && forall i :: 0 <= i < |name| ==> name[i] != '='
    }
  }

  function Framed(a: Attr): seq<Field> {
    if a.secret then [Str(SECRET_MARKER), Str(a.Line())] else [Str(a.Line())]
  }

  function EncodeAttrs(attrs: seq<Attr>): seq<Field> {
    if attrs == [] then [] else Framed(attrs[0]) + EncodeAttrs(attrs[1..])
  }

  /** putClassAd: the count, with a marker pair counted once, the attributes, the legacy strings. */
  function Encode(attrs: seq<Attr>, myType: string, targetType: string): seq<Field> {
    [Int(|attrs|)] + EncodeAttrs(attrs) + [Str(myType), Str(targetType)]
  }

  function Lines(attrs: seq<Attr>): seq<string> { seq(|attrs|, i requires 0 <= i < |attrs| => attrs[i].Line()) }

  lemma LinesSplit(attrs: seq<Attr>, k: nat)
    requires k < |attrs|
    ensures k == |attrs| - 1 ==> Lines(attrs) == Lines(attrs[..k]) + [attrs[k].Line()]
    ensures k == 0 ==> Lines(attrs) == [attrs[0].Line()] + Lines(attrs[1..])
  {
    hide Attr.Line;
  }

  lemma LineIsNoMarker(a: Attr)
    requires a.Named()
    ensures a.Line() != SECRET_MARKER
  {
    assert a.Line()[|a.name| + 1] == '=';
  }

  lemma NextIsAttr(a: Attr, more: seq<Field>)
    requires a.Named()
    ensures NextLine(Framed(a) + more) == LineRead(a.Line(), more)
  {
    LineIsNoMarker(a);
  }

  lemma {:induction false} FramingRoundTrip(attrs: seq<Attr>, rest: seq<Field>)
    requires forall i :: 0 <= i < |attrs| ==> attrs[i].Named()
    ensures TakeLines(EncodeAttrs(attrs) + rest, |attrs|) == Taken(Lines(attrs), rest)
  {
    if attrs == [] {
      assert EncodeAttrs(attrs) + rest == rest;
      assert Lines(attrs) == [];
    } else {
      hide NextLine, Attr.Line, Attr.Named, Lines, Framed, EncodeAttrs, TakeLines;
      var a, more := attrs[0], EncodeAttrs(attrs[1..]) + rest;
      FramingRoundTrip(attrs[1..], rest);
      LinesSplit(attrs, 0);
      NextIsAttr(a, more);
      EncodeSplit(attrs, rest);
      TakeOne(Framed(a) + more, |attrs|, a.Line(), more);
    }
  }

  lemma EncodeSplit(attrs: seq<Attr>, rest: seq<Field>)
    requires attrs != []
    ensures EncodeAttrs(attrs) + rest == Framed(attrs[0]) + (EncodeAttrs(attrs[1..]) + rest)
  {
    hide Framed;
    assert EncodeAttrs(attrs) == Framed(attrs[0]) + EncodeAttrs(attrs[1..]);
  }

  lemma TakeOne(fields: seq<Field>, n: nat, line: string, more: seq<Field>)
    requires n > 0 && NextLine(fields) == LineRead(line, more) && TakeLines(more, n - 1).Taken?
    ensures TakeLines(fields, n) == Taken([line] + TakeLines(more, n - 1).lines, TakeLines(more, n - 1).rest)
  {
  }

  lemma {:induction false} EqualsAfterName(name: string, more: string)
    requires forall i :: 0 <= i < |name| ==> name[i] != '='
    ensures IndexOfEquals(name + ("=" + more)) == |name|
  {
    var s := name + ("=" + more);
    if name == "" {
      assert s[0] == '=';
    } else {
      assert s[1..] == name[1..] + ("=" + more) && s[0] == name[0];
      EqualsAfterName(name[1..], more);
    }
  }

  lemma TrimName(name: string)
    requires name != "" && !IsSpace(name[0]) && !IsSpace(name[|name| - 1])
    ensures Trim(name + " ") == name
  {
    var s := name + " ";
    assert s[0] == name[0] && s[|s| - 1] == ' ' && s[..|s| - 1] == name;
    assert IsSpace(' ');
    assert TrimLeft(s) == s && TrimRight(name) == name;
    assert TrimRight(s) == TrimRight(name);
  }

  lemma TrimValue(text: string)
    ensures Trim(" " + text) == Trim(text)
  {
    assert (" " + text)[1..] == text;
  }

  lemma NotBlank(name: string, more: string)
    requires name != "" && !IsSpace(name[0])
    ensures Trim(name + more) != ""
  {
    TrimRightKeepsHead(name + more);
  }

  lemma {:induction false} TrimRightKeepsHead(s: string)
    requires s != "" && !IsSpace(s[0])
    ensures TrimRight(s) != ""
  {
    if IsSpace(s[|s| - 1]) { TrimRightKeepsHead(s[..|s| - 1]); }
  }

  /** The characters Unicode counts as white space. */
  const WHITE_SPACE := {'\t', '\n', '\U{000B}', '\U{000C}', '\r', ' ', '\U{0085}', '\U{00A0}', '\U{1680}', '\U{2000}', '\U{2001}', '\U{2002}',
                        '\U{2003}', '\U{2004}', '\U{2005}', '\U{2006}', '\U{2007}', '\U{2008}', '\U{2009}', '\U{200A}', '\U{2028}', '\U{2029}',
                        '\U{202F}', '\U{205F}', '\U{3000}'}

  predicate Blanks(pad: string) { forall i :: 0 <= i < |pad| ==> pad[i] in WHITE_SPACE }

  /** Nothing, or a text with no white space at either end. */
  predicate Tight(text: string) { text == "" || (text[0] !in WHITE_SPACE && text[|text| - 1] !in WHITE_SPACE) }

  const LOW_SPACES := "\t\n\U{000B}\U{000C}\r \U{0085}\U{00A0}\U{1680}\U{2028}\U{2029}\U{202F}\U{205F}\U{3000}"

  lemma SpaceIsWhite(ch: char)
    ensures IsSpace(ch) <==> ch in WHITE_SPACE
  {
    var low := LOW_SPACES;
    assert low[0] == '\t' && low[1] == '\n' && low[2] == '\U{000B}' && low[3] == '\U{000C}' && low[4] == '\r' && low[5] == ' ';
    assert low[6] == '\U{0085}' && low[7] == '\U{00A0}' && low[8] == '\U{1680}' && low[9] == '\U{2028}' && low[10] == '\U{2029}';
    assert low[11] == '\U{202F}' && low[12] == '\U{205F}' && low[13] == '\U{3000}';
    var k := ch as int - 0x2000;
    assert '\U{2000}' <= ch <= '\U{200A}' <==> 0 <= k <= 10;
  }

  lemma {:induction false} TrimLeftPad(pad: string, text: string)
    requires Blanks(pad)
    ensures TrimLeft(pad + text) == TrimLeft(text)
  {
    if pad == "" {
      assert pad + text == text;
    } else {
      SpaceIsWhite(pad[0]);
      assert (pad + text)[1..] == pad[1..] + text;
      TrimLeftPad(pad[1..], text);
    }
  }

  lemma {:induction false} TrimRightPad(text: string, pad: string)
    requires Blanks(pad)
    ensures TrimRight(text + pad) == TrimRight(text)
  {
    if pad == "" {
      assert text + pad == text;
    } else {
      var k := |pad| - 1;
      SpaceIsWhite(pad[k]);
      assert (text + pad)[..|text + pad| - 1] == text + pad[..k];
      TrimRightPad(text, pad[..k]);
    }
  }

  /** Trimming takes away white space at both ends, all of it and nothing else. */
  lemma TrimIsExact(before: string, text: string, after: string)
    requires Blanks(before) && Blanks(after) && Tight(text)
    ensures Trim(before + text + after) == text
  {
    assert before + text + after == before + (text + after);
    TrimLeftPad(before, text + after);
    if text == "" {
      assert text + after == after;
      assert after + "" == after;
      TrimLeftPad(after, "");
    } else {
      SpaceIsWhite(text[0]);
      SpaceIsWhite(text[|text| - 1]);
      assert (text + after)[0] == text[0];
      TrimRightPad(text, after);
    }
  }

  /** A line splits at its first '=', whatever white space is around name and value. */
  lemma AnySpacing<E>(p1: string, name: string, p2: string, p3: string, text: string, p4: string, exprs: imap<string, E>)
    requires Blanks(p1) && Blanks(p2) && Blanks(p3) && Blanks(p4) && Tight(name) && Tight(text)
    requires forall i :: 0 <= i < |name| ==> name[i] != '='
    ensures ParseLine(p1 + name + p2 + ("=" + (p3 + text + p4)), exprs)
            == if name != "" && text in exprs then Attribute(name, exprs[text]) else Unusable(name)
  {
    hide Trim, IndexOfEquals, Blanks, Tight;
    TrimIsExact(p1, name, p2);
    TrimIsExact(p3, text, p4);
    PaddedHasNoEquals(p1, name, p2);
    SplitsAt(p1 + name + p2, p3 + text + p4, exprs);
  }

  lemma PaddedHasNoEquals(p1: string, name: string, p2: string)
    requires Blanks(p1) && Blanks(p2) && forall i :: 0 <= i < |name| ==> name[i] != '='
    ensures forall i :: 0 <= i < |p1 + name + p2| ==> (p1 + name + p2)[i] != '='
  {
  }

  lemma SplitsAt<E>(left: string, right: string, exprs: imap<string, E>)
    requires forall i :: 0 <= i < |left| ==> left[i] != '='
    ensures ParseLine(left + ("=" + right), exprs)
            == if Trim(left) != "" && Trim(right) in exprs then Attribute(Trim(left), exprs[Trim(right)]) else Unusable(Trim(left))
  {
    hide Trim, IndexOfEquals;
    var line := left + ("=" + right);
    EqualsAfterName(left, right);
    assert line[..|left|] == left && line[|left| + 1..] == right && line[|left|] == '=';
    HasEquals(line, |left|);
  }

  lemma HasEquals(line: string, k: nat)
    requires k < |line| && line[k] == '='
    ensures Trim(line) != ""
  {
    hide IsSpace, TrimLeft, TrimRight;
    KeepsLeft(line, k);
    var left := TrimLeft(line);
    var j :| 0 <= j < |left| && left[j] == '=';
    KeepsRight(left, j);
  }

  lemma EqualsIsNoSpace()
    ensures !IsSpace('=')
  {
    SpaceIsWhite('=');
  }

  lemma {:induction false} KeepsLeft(s: string, k: nat)
    requires k < |s| && s[k] == '='
    ensures exists j :: 0 <= j < |TrimLeft(s)| && TrimLeft(s)[j] == '='
  {
    hide IsSpace;
    EqualsIsNoSpace();
    if IsSpace(s[0]) {
      assert k > 0;
      KeepsLeft(s[1..], k - 1);
      assert TrimLeft(s) == TrimLeft(s[1..]);
    } else {
      assert TrimLeft(s)[k] == '=';
    }
  }

  lemma {:induction false} KeepsRight(s: string, k: nat)
    requires k < |s| && s[k] == '='
    ensures TrimRight(s) != ""
  {
    hide IsSpace;
    EqualsIsNoSpace();
    if IsSpace(s[|s| - 1]) { KeepsRight(s[..|s| - 1], k); }
  }

  lemma {:induction false} NoEquals(line: string)
    requires forall i :: 0 <= i < |line| ==> line[i] != '='
    ensures IndexOfEquals(line) == |line|
  {
    if line != "" { NoEquals(line[1..]); }
  }

  /** A line without '=' is skipped: silently if blank, else reported by its first sixteen characters. */
  lemma NoEqualsIsSkipped<E>(line: string, exprs: imap<string, E>)
    requires forall i :: 0 <= i < |line| ==> line[i] != '='
    ensures ParseLine(line, exprs)
            == if Trim(line) == "" then Blank else if |line| <= 16 then Unusable(line) else Unusable(line[..16])
  {
    NoEquals(line);
    hide Trim, IndexOfEquals;
  }

  /** The line splits at its first '=' into the name and the value. */
  lemma LineSplits(a: Attr)
    requires a.Named()
    ensures var line := a.Line();
            IndexOfEquals(line) == |a.name| + 1 < |line| && line[..|a.name| + 1] == a.name + " " && line[|a.name| + 2..] == " " + a.text
  {
    var line := a.Line();
    assert line == (a.name + " ") + ("=" + (" " + a.text));
    EqualsAfterName(a.name + " ", " " + a.text);
  }

  lemma LineTrims(a: Attr)
    requires a.Named()
    ensures Trim(a.Line()) != "" && a.name != "" && Trim(a.name + " ") == a.name && Trim(" " + a.text) == Trim(a.text)
  {
    hide Trim;
    assert a.Line() == a.name + (" = " + a.text);
    NotBlank(a.name, " = " + a.text);
    TrimName(a.name);
    TrimValue(a.text);
  }

  lemma LineReadsBack<E>(a: Attr, exprs: imap<string, E>)
    requires a.Named()
    ensures ParseLine(a.Line(), exprs)
            == if Trim(a.text) in exprs then Attribute(a.name, exprs[Trim(a.text)]) else Unusable(a.name)
  {
    hide Trim, IndexOfEquals, Attr.Line, Attr.Named, IsSpace;
    LineTrims(a);
    LineSplits(a);
  }

  /** What the attributes say: those that parse, the last one winning, and the names of the others. */
  function Meaning<E>(attrs: seq<Attr>, exprs: imap<string, E>): Ad<E> {
    if attrs == [] then Ad(map[], [])
    else
      var a := attrs[|attrs| - 1];
      var ad := Meaning(attrs[..|attrs| - 1], exprs);
      if Trim(a.text) in exprs then ad.(attrs := ad.attrs[a.name := exprs[Trim(a.text)]])
      else ad.(skipped := ad.skipped + [a.name])
  }

  lemma {:induction false} LinesMean<E>(attrs: seq<Attr>, exprs: imap<string, E>)
    requires forall i :: 0 <= i < |attrs| ==> attrs[i].Named()
    ensures AdOf(Lines(attrs), exprs) == Meaning(attrs, exprs)
  {
    if attrs == [] {
      assert Lines(attrs) == [];
    } else {
      var k := |attrs| - 1;
      hide ParseLine, Trim, Attr.Line, Attr.Named, AdOf, Lines;
      LinesMean(attrs[..k], exprs);
      LinesSplit(attrs, k);
      AdOfMore(Lines(attrs[..k]), attrs[k].Line(), exprs);
      LineReadsBack(attrs[k], exprs);
    }
  }

  /**
   * Decoding what a peer encoded, whatever follows it in the message: the ad the attributes mean, and
   * exactly the rest, for any mix of plain and private attributes.
   */
  lemma FramedAdReadsBack<E>(attrs: seq<Attr>, myType: string, targetType: string, rest: seq<Field>, exprs: imap<string, E>)
    requires |attrs| <= MAX_EXPRS && forall i :: 0 <= i < |attrs| ==> attrs[i].Named()
    ensures Decode(Encode(attrs, myType, targetType) + rest, exprs) == Decoded(Meaning(attrs, exprs), rest)
  {
    hide TakeLines, AdOf, Meaning, EncodeAttrs, Encode, Lines, Attr.Named, DropString;
    var tail := [Str(myType), Str(targetType)] + rest;
    EncodedFields(attrs, myType, targetType, rest);
    FramingRoundTrip(attrs, tail);
    LinesMean(attrs, exprs);
    TwoDropped(myType, targetType, rest);
  }

  lemma EncodedFields(attrs: seq<Attr>, myType: string, targetType: string, rest: seq<Field>)
    ensures var all := Encode(attrs, myType, targetType) + rest;
            all != [] && all[0] == Int(|attrs|) && all[1..] == EncodeAttrs(attrs) + ([Str(myType), Str(targetType)] + rest)
  {
    hide EncodeAttrs;
    HeadAndTail(Int(|attrs|), EncodeAttrs(attrs), [Str(myType), Str(targetType)], rest);
  }

  lemma HeadAndTail<T>(x: T, a: seq<T>, b: seq<T>, c: seq<T>)
    ensures var all := [x] + a + b + c; all != [] && all[0] == x && all[1..] == a + (b + c)
  {
    var all := [x] + a + b + c;
    assert |all[1..]| == |a + (b + c)|;
    assert forall i :: 0 <= i < |all[1..]| ==> all[1..][i] == (a + (b + c))[i];
  }

  lemma TwoDropped(myType: string, targetType: string, rest: seq<Field>)
    ensures DropString(DropString([Str(myType), Str(targetType)] + rest)) == rest
  {
    assert ([Str(myType), Str(targetType)] + rest)[1..] == [Str(targetType)] + rest;
    assert ([Str(targetType)] + rest)[1..] == rest;
  }

  /** A parsable attribute arrives with its value, any other is skipped. */
  predicate Arrives<E(==)>(a: Attr, ad: Ad<E>, exprs: imap<string, E>) {
    if Trim(a.text) in exprs then a.name in ad.attrs && ad.attrs[a.name] == exprs[Trim(a.text)] && a.name !in ad.skipped
    else a.name !in ad.attrs && a.name in ad.skipped
  }

  ghost predicate Sent(attrs: seq<Attr>, name: string) { exists i :: 0 <= i < |attrs| && attrs[i].name == name }

  /** With distinct names exactly the attributes that parse arrive, each with its value, and exactly the others are skipped. */
  lemma {:induction false} DistinctAttrsAllArrive<E>(attrs: seq<Attr>, exprs: imap<string, E>)
    requires forall i, j :: 0 <= i < j < |attrs| ==> attrs[i].name != attrs[j].name
    ensures forall i :: 0 <= i < |attrs| ==> Arrives(attrs[i], Meaning(attrs, exprs), exprs)
    ensures forall name :: name in Meaning(attrs, exprs).attrs || name in Meaning(attrs, exprs).skipped ==> Sent(attrs, name)
  {
    hide Trim;
    if attrs != [] {
      var k := |attrs| - 1;
      var before, after := Meaning(attrs[..k], exprs), Meaning(attrs, exprs);
      DistinctAttrsAllArrive(attrs[..k], exprs);
      assert !Sent(attrs[..k], attrs[k].name);
      forall i | 0 <= i < |attrs| ensures Arrives(attrs[i], after, exprs) {
        if i < k { assert attrs[..k][i] == attrs[i] && Arrives(attrs[i], before, exprs); }
      }
      forall name | name in after.attrs || name in after.skipped ensures Sent(attrs, name) {
        SentMore(attrs, k, name);
      }
    }
  }

  lemma SentMore(attrs: seq<Attr>, k: nat, name: string)
    requires k < |attrs|
    ensures Sent(attrs[..k], name) || name == attrs[k].name ==> Sent(attrs, name)
  {
    if Sent(attrs[..k], name) {
      var i :| 0 <= i < k && attrs[..k][i].name == name;
      assert attrs[i].name == name;
    }
  }
}
