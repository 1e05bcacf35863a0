/** The V2 raw tokenizer for Arguments and Environment (internal/starter/args.go). */
module ArgsV2 {

  const QUOTE := '\''

  predicate IsSpace(ch: char) { ch in " \t\n\r" }

  // --------------------------------------------------------------- reference syntax

  /** A parsed piece of the input: the text read, and what is left of the input. */
  datatype Read = Read(text: string, rest: string) {
    function Before(s: string): Read { Read(s + text, rest) }
  }

  /** The rest of a token outside quotes: up to white space or the end, entering quoted sections on the way. */
  function Bare(s: string): (r: Read)
    ensures |r.rest| <= |s|
    decreases |s|
  {
    if s == "" || IsSpace(s[0]) then Read("", s)
    else if s[0] == QUOTE then Quoted(s[1..])
    else Bare(s[1..]).Before([s[0]])
  }

  /** The rest of a token inside quotes: a doubled quote stands for one, a single one ends the section. */
  function Quoted(s: string): (r: Read)
    ensures |r.rest| <= |s|
    decreases |s|
  {
    if s == "" then Read("", "")
    else if s[0] != QUOTE then Quoted(s[1..]).Before([s[0]])
    else if |s| > 1 && s[1] == QUOTE then Quoted(s[2..]).Before([QUOTE])
    else Bare(s[1..])
  }

  /** Tokens separated by white space. */
  function Tokens(s: string): seq<string>
    decreases |s|
  {
    if s == "" then []
    else if IsSpace(s[0]) then Tokens(s[1..])
    else if s[0] == QUOTE then [Quoted(s[1..]).text] + Tokens(Quoted(s[1..]).rest)
    else [Bare(s[1..]).Before([s[0]]).text] + Tokens(Bare(s[1..]).rest)
  }

  // ---------------------------------------------------------------------- the loop

  /** What the loop still has to produce at the given point, cur being the token under way. */
  function Remaining(s: string, inQuote: bool, started: bool, cur: string): seq<string> {
    if !started then Tokens(s)
    else
      var r := if inQuote then Quoted(s) else Bare(s);
      [cur + r.text] + Tokens(r.rest)
  }

  /** Everything the loop will have produced in the end. */
  function Whole(out: seq<string>, s: string, inQuote: bool, started: bool, cur: string): seq<string> {
    out + Remaining(s, inQuote, started, cur)
  }

  lemma SkipsSpace(out: seq<string>, s: string, cur: string)
    requires s != "" && IsSpace(s[0])
    ensures Whole(out, s, false, true, cur) == Whole(out + [cur], s[1..], false, false, "")
    ensures Whole(out, s, false, false, "") == Whole(out, s[1..], false, false, "")
  {
    assert Bare(s) == Read("", s) && cur + "" == cur;
    assert out + ([cur] + Tokens(s)) == out + [cur] + Tokens(s);
  }

  lemma TurnsAtQuote(out: seq<string>, s: string, inQuote: bool, started: bool, cur: string)
    requires s != "" && s[0] == QUOTE && (inQuote ==> started && !(|s| > 1 && s[1] == QUOTE)) && (!started ==> cur == "")
    ensures Whole(out, s, inQuote, started, cur) == Whole(out, s[1..], !inQuote, true, cur)
  {
    assert !started ==> cur + Quoted(s[1..]).text == Quoted(s[1..]).text;
  }

  lemma KeepsDoubled(out: seq<string>, s: string, cur: string)
    requires |s| > 1 && s[0] == QUOTE && s[1] == QUOTE
    ensures Whole(out, s, true, true, cur) == Whole(out, s[2..], true, true, cur + [QUOTE])
  {
    assert cur + ([QUOTE] + Quoted(s[2..]).text) == cur + [QUOTE] + Quoted(s[2..]).text;
  }

  lemma KeepsChar(out: seq<string>, s: string, inQuote: bool, started: bool, cur: string)
    requires s != "" && s[0] != QUOTE && (inQuote || !IsSpace(s[0])) && (!started ==> cur == "" && !inQuote)
    ensures Whole(out, s, inQuote, started, cur) == Whole(out, s[1..], inQuote, true, cur + [s[0]])
  {
    var r := if inQuote then Quoted(s[1..]) else Bare(s[1..]);
    assert cur + ([s[0]] + r.text) == cur + [s[0]] + r.text;
    assert !started ==> cur + [s[0]] + r.text == [s[0]] + r.text;
  }

  lemma AtEnd(out: seq<string>, inQuote: bool, started: bool, cur: string)
    ensures Whole(out, "", inQuote, started, cur) == if started then out + [cur] else out
  {
    assert cur + "" == cur;
    assert out + [] == out;
  }

  /** splitV2Raw: the index loop computes exactly the tokens of the reference syntax. */
  method SplitV2Raw(s: string) returns (out: seq<string>)
    ensures out == Tokens(s)
  {
    out := [];
    var cur, inQuote, started, i := "", false, false, 0;
    assert Whole(out, s, false, false, "") == Tokens(s);
    assert s[0..] == s;
    hide Whole, Tokens, IsSpace;
    while i < |s|
      invariant 0 <= i <= |s|
      invariant !started ==> cur == "" && !inQuote
      invariant Whole(out, s[i..], inQuote, started, cur) == Tokens(s)
    {
      var ch := s[i];
      ghost var rest := s[i..];
      assert rest[0] == ch && rest[1..] == s[i + 1..];
      if inQuote && ch == QUOTE && i + 1 < |s| && s[i + 1] == QUOTE {
        assert rest[1] == QUOTE && rest[2..] == s[i + 2..];
        KeepsDoubled(out, rest, cur);
        cur := cur + [QUOTE];
        i := i + 2;
      } else if ch == QUOTE {
        assert |rest| > 1 ==> rest[1] == s[i + 1];
        TurnsAtQuote(out, rest, inQuote, started, cur);
        inQuote := !inQuote;
        started := true;
        i := i + 1;
      } else if !inQuote && IsSpace(ch) {
        SkipsSpace(out, rest, cur);
        if started || |cur| > 0 {
          out := out + [cur];
          cur := "";
          started := false;
        }
        i := i + 1;
      } else {
        KeepsChar(out, rest, inQuote, started, cur);
        cur := cur + [ch];
        started := true;
        i := i + 1;
      }
    }
    assert s[i..] == "";
    AtEnd(out, inQuote, started, cur);
    if started || |cur| > 0 {
      out := out + [cur];
    }
  }

  // -------------------------------------------------------------------- round trip

  function Doubled(arg: string): string {
    if arg == "" then ""
    else (if arg[0] == QUOTE then [QUOTE, QUOTE] else [arg[0]]) + Doubled(arg[1..])
  }

  /** The four characters that keep arguments apart. */
  const SPACES := {' ', '\t', '\n', '\r'}

  /** A part of an argument: wrapped in quotes, or bare when nothing in it needs protection. */
  datatype Piece = Piece(wrapped: bool, text: string) {
    function Written(): string { if wrapped then [QUOTE] + Doubled(text) + [QUOTE] else text }
    predicate Writable() { wrapped || (text != "" && forall i :: 0 <= i < |text| ==> text[i] != '\'' && text[i] !in SPACES) }
  }

  /** Writable pieces; two wrapped ones in a row would read as a doubled quote. */
  ghost predicate Adjoining(pieces: seq<Piece>) {
    && (forall i :: 0 <= i < |pieces| ==> pieces[i].Writable())
    && (forall i :: 0 < i < |pieces| ==> !(pieces[i - 1].wrapped && pieces[i].wrapped))
  }

  function Spelled(pieces: seq<Piece>): string { if pieces == [] then "" else pieces[0].Written() + Spelled(pieces[1..]) }

  function Meaning(pieces: seq<Piece>): string { if pieces == [] then "" else pieces[0].text + Meaning(pieces[1..]) }

  /** One argument, of one piece or more, after white space. */
  datatype Item = Item(gap: string, pieces: seq<Piece>)

  predicate Blank(s: string) { forall i :: 0 <= i < |s| ==> s[i] in SPACES }

  /** The items one after the other, each after its gap, with some tail at the end. */
  function Join(items: seq<Item>, tail: string): string {
    if items == [] then tail else items[0].gap + (Spelled(items[0].pieces) + Join(items[1..], tail))
  }

  function Args(items: seq<Item>): seq<string> { seq(|items|, i requires 0 <= i < |items| => Meaning(items[i].pieces)) }

  /** Arguments are apart: all gaps are white space, and only the first may be empty. */
  ghost predicate Spaced(items: seq<Item>) {
    && (forall i :: 0 <= i < |items| ==> items[i].pieces != [] && Adjoining(items[i].pieces) && Blank(items[i].gap))
    && (forall i :: 0 < i < |items| ==> items[i].gap != "")
  }

  lemma SpacesAreSpaces(ch: char)
    ensures IsSpace(ch) <==> ch in SPACES
  {
    assert " \t\n\r"[0] == ' ' && " \t\n\r"[1] == '\t' && " \t\n\r"[2] == '\n' && " \t\n\r"[3] == '\r';
  }

  lemma {:induction false} SkipBlank(gap: string, s: string)
    requires Blank(gap)
    ensures Tokens(gap + s) == Tokens(s)
  {
    if gap == "" {
      assert gap + s == s;
    } else {
      SpacesAreSpaces(gap[0]);
      assert (gap + s)[1..] == gap[1..] + s;
      SkipBlank(gap[1..], s);
    }
  }

  /** What may follow an argument. */
  predicate Ends(rest: string) { rest == "" || rest[0] in SPACES }

  lemma EndsBare(rest: string)
    requires Ends(rest)
    ensures Bare(rest) == Read("", rest)
  {
    if rest != "" { SpacesAreSpaces(rest[0]); }
  }

  lemma QuotedStep(ch: char, more: string)
    ensures ch != QUOTE ==> Quoted([ch] + more) == Quoted(more).Before([ch])
    ensures Quoted([QUOTE, QUOTE] + more) == Quoted(more).Before([QUOTE])
    ensures more == "" || more[0] != QUOTE ==> Quoted([QUOTE] + more) == Bare(more)
  {
    assert ([ch] + more)[1..] == more && ([QUOTE] + more)[1..] == more && ([QUOTE, QUOTE] + more)[2..] == more;
  }

  /** A wrapped piece gives its text, and reading goes on outside quotes; one that is never closed gives the rest of the input. */
  lemma {:induction false} QuotedReadsBack(arg: string, more: string)
    requires more == "" || more[0] != QUOTE
    ensures Quoted(Doubled(arg) + ([QUOTE] + more)) == Bare(more).Before(arg)
    ensures Quoted(Doubled(arg)) == Read(arg, "")
  {
    hide Quoted, Bare;
    var s := Doubled(arg) + ([QUOTE] + more);
    if arg == "" {
      assert s == [QUOTE] + more;
      QuotedStep(QUOTE, more);
      assert Bare(more).Before("") == Bare(more);
      NothingQuoted();
    } else {
      var ch := arg[0];
      QuotedReadsBack(arg[1..], more);
      QuotedStep(ch, Doubled(arg[1..]) + ([QUOTE] + more));
      QuotedStep(ch, Doubled(arg[1..]));
      assert s == (if ch == QUOTE then [QUOTE, QUOTE] else [ch]) + (Doubled(arg[1..]) + ([QUOTE] + more));
      assert arg == [ch] + arg[1..];
      assert [ch] + (arg[1..] + Bare(more).text) == arg + Bare(more).text;
    }
  }

  lemma NothingQuoted()
    ensures Quoted("") == Read("", "")
  {
  }

  lemma {:induction false} BareReadsBack(text: string, more: string)
    requires forall i :: 0 <= i < |text| ==> text[i] != '\'' && text[i] !in SPACES
    ensures Bare(text + more) == Bare(more).Before(text)
  {
    if text == "" {
      assert text + more == more;
      assert Bare(more).Before("") == Bare(more);
    } else {
      SpacesAreSpaces(text[0]);
      assert (text + more)[1..] == text[1..] + more;
      BareReadsBack(text[1..], more);
      assert [text[0]] + (text[1..] + Bare(more).text) == text + Bare(more).text;
    }
  }

  lemma TailAdjoining(pieces: seq<Piece>)
    requires Adjoining(pieces) && pieces != []
    ensures Adjoining(pieces[1..]) && pieces[0].Writable()
  {
  }

  lemma FirstPiece(p: Piece, more: string)
    requires p.Writable() && (p.wrapped ==> more == "" || more[0] != QUOTE)
    ensures Bare(p.Written() + more) == Bare(more).Before(p.text)
  {
    if p.wrapped {
      hide Bare, Quoted, Doubled;
      var s := p.Written() + more;
      assert s == [QUOTE] + (Doubled(p.text) + ([QUOTE] + more));
      assert s[0] == QUOTE && s[1..] == Doubled(p.text) + ([QUOTE] + more);
      QuotedReadsBack(p.text, more);
      EntersQuote(s);
    } else {
      BareReadsBack(p.text, more);
    }
  }

  lemma Assoc<T>(a: seq<T>, b: seq<T>, c: seq<T>)
    ensures a + b + c == a + (b + c)
  {
  }

  lemma BeforeTwice(r: Read, a: string, b: string)
    ensures r.Before(b).Before(a) == r.Before(a + b) && r.Before("") == r
  {
    Assoc(a, b, r.text);
  }

  lemma FirstSpelled(pieces: seq<Piece>, rest: string)
    requires pieces != []
    ensures Spelled(pieces) + rest == pieces[0].Written() + (Spelled(pieces[1..]) + rest)
    ensures Meaning(pieces) == pieces[0].text + Meaning(pieces[1..])
  {
    Assoc(pieces[0].Written(), Spelled(pieces[1..]), rest);
  }

  lemma NoPieces(rest: string)
    ensures Spelled([]) + rest == rest && Meaning([]) == ""
  {
  }

  /** An argument of any pieces reads as their texts together, whatever follows it. */
  lemma {:induction false} PiecesReadBack(pieces: seq<Piece>, rest: string)
    requires Adjoining(pieces) && (pieces != [] && pieces[|pieces| - 1].wrapped ==> rest == "" || rest[0] != QUOTE)
    ensures Bare(Spelled(pieces) + rest) == Bare(rest).Before(Meaning(pieces))
  {
    hide Bare, Spelled, Meaning, Adjoining;
    if pieces == [] {
      NoPieces(rest);
      BeforeTwice(Bare(rest), "", "");
    } else {
      var p, more := pieces[0], Spelled(pieces[1..]) + rest;
      TailAdjoining(pieces);
      PiecesReadBack(pieces[1..], rest);
      if p.wrapped { WrappedIsNext(pieces, rest); }
      FirstPiece(p, more);
      FirstSpelled(pieces, rest);
      BeforeTwice(Bare(rest), p.text, Meaning(pieces[1..]));
    }
  }

  lemma WrappedIsNext(pieces: seq<Piece>, rest: string)
    requires Adjoining(pieces) && pieces != [] && pieces[0].wrapped
    requires pieces[|pieces| - 1].wrapped ==> rest == "" || rest[0] != QUOTE
    ensures var more := Spelled(pieces[1..]) + rest; more == "" || more[0] != QUOTE
  {
    if |pieces| > 1 {
      assert pieces[1].Writable() && !(pieces[0].wrapped && pieces[1].wrapped);
      assert Spelled(pieces[1..])[0] == pieces[1].text[0];
    }
  }

  lemma EntersQuote(s: string)
    requires s != "" && s[0] == QUOTE
    ensures Bare(s) == Quoted(s[1..])
  {
    SpacesAreSpaces(QUOTE);
  }

  /** A token starting here is what the reference syntax reads here. */
  lemma TokenIs(s: string)
    requires s != "" && s[0] !in SPACES
    ensures Tokens(s) == [Bare(s).text] + Tokens(Bare(s).rest)
  {
    SpacesAreSpaces(s[0]);
  }

  lemma StartsToken(pieces: seq<Piece>, rest: string)
    requires Adjoining(pieces) && pieces != []
    ensures Spelled(pieces) + rest != "" && (Spelled(pieces) + rest)[0] !in SPACES
  {
    assert pieces[0].Writable();
  }

  lemma OneToken(pieces: seq<Piece>, rest: string)
    requires Adjoining(pieces) && pieces != [] && Ends(rest)
    ensures Tokens(Spelled(pieces) + rest) == [Meaning(pieces)] + Tokens(rest)
  {
    hide Tokens, Spelled, Meaning, Bare;
    StartsToken(pieces, rest);
    PiecesReadBack(pieces, rest);
    EndsBare(rest);
    TokenIs(Spelled(pieces) + rest);
    assert Meaning(pieces) + "" == Meaning(pieces);
  }

  lemma TailSpaced(items: seq<Item>)
    requires Spaced(items) && items != []
    ensures Spaced(items[1..]) && items[0].pieces != [] && Adjoining(items[0].pieces) && Blank(items[0].gap)
  {
    hide Adjoining, Blank;
  }

  lemma {:induction false} JoinReads(items: seq<Item>, tail: string)
    requires Spaced(items) && (items != [] ==> Ends(tail))
    ensures Tokens(Join(items, tail)) == Args(items) + Tokens(tail)
  {
    hide Tokens, Spelled, Meaning, Adjoining, Blank, Ends, Spaced, Args;
    if items == [] {
      NoArgs(Tokens(tail));
    } else {
      var more, pieces := items[1..], items[0].pieces;
      var rest := Join(more, tail);
      TailSpaced(items);
      JoinReads(more, tail);
      SkipBlank(items[0].gap, Spelled(pieces) + rest);
      JoinEnds(items, tail);
      OneToken(pieces, rest);
      FirstArg(items);
      Assoc([Meaning(pieces)], Args(more), Tokens(tail));
    }
  }

  lemma NoArgs(tokens: seq<string>)
    ensures Args([]) + tokens == tokens
  {
  }

  lemma FirstArg(items: seq<Item>)
    requires items != []
    ensures Args(items) == [Meaning(items[0].pieces)] + Args(items[1..])
  {
  }

  lemma JoinEnds(items: seq<Item>, tail: string)
    requires Spaced(items) && items != [] && Ends(tail)
    ensures Ends(Join(items[1..], tail))
  {
    if |items| > 1 { assert Join(items[1..], tail)[0] == items[1].gap[0]; }
  }

  /** Any argument list, of wrapped and bare pieces in any mixture, with any white space between, reads back as itself. */
  lemma ReadsBack(items: seq<Item>, tail: string)
    requires Spaced(items) && Blank(tail)
    ensures Tokens(Join(items, tail)) == Args(items)
  {
    hide Tokens, Spaced;
    JoinReads(items, tail);
    SkipBlank(tail, "");
    assert tail + "" == tail;
    NoTokens();
  }

  lemma NoTokens()
    ensures Tokens("") == []
  {
  }

  /** A quote that is never closed takes in the rest of the input. */
  lemma OpenQuoteReadsBack(items: seq<Item>, gap: string, pieces: seq<Piece>, text: string)
    requires Spaced(items) && Blank(gap) && (items != [] ==> gap != "") && Adjoining(pieces) && (pieces != [] ==> !pieces[|pieces| - 1].wrapped)
    ensures Tokens(Join(items, gap + (Spelled(pieces) + ([QUOTE] + Doubled(text))))) == Args(items) + [Meaning(pieces) + text]
  {
    hide Tokens, Spaced, Spelled, Meaning, Adjoining, Bare, Quoted, Doubled, Blank, Join, Args;
    var last := [QUOTE] + Doubled(text);
    var s := Spelled(pieces) + last;
    GapEnds(gap, s);
    JoinReads(items, gap + s);
    SkipBlank(gap, s);
    PiecesReadBack(pieces, last);
    assert last[0] == QUOTE && last[1..] == Doubled(text);
    EntersQuote(last);
    QuotedReadsBack(text, "");
    assert Bare(s) == Read(text, "").Before(Meaning(pieces));
    if pieces != [] { StartsToken(pieces, last); } else { NoPieces(last); }
    TokenIs(s);
    NoTokens();
    Assoc(Args(items), [Meaning(pieces) + text], []);
  }

  lemma GapEnds(gap: string, s: string)
    requires Blank(gap)
    ensures gap != "" ==> Ends(gap + s)
  {
  }

  function Wrapped(args: seq<string>): seq<Item> {
    seq(|args|, i requires 0 <= i < |args| => Item(if i == 0 then "" else " ", [Piece(true, args[i])]))
  }

  /** In particular the single-quoted, quote-doubled, space-joined form of any list of any strings. */
  lemma QuotedListReadsBack(args: seq<string>)
    ensures Tokens(Join(Wrapped(args), "")) == args
  {
    hide Tokens, Meaning;
    ReadsBack(Wrapped(args), "");
    forall i | 0 <= i < |args| ensures Args(Wrapped(args))[i] == args[i] {
      OneMeaning(args[i]);
    }
    assert Args(Wrapped(args)) == args;
  }

  lemma OneMeaning(text: string)
    ensures Meaning([Piece(true, text)]) == text
  {
    assert [Piece(true, text)][1..] == [];
    assert Meaning([Piece(true, text)]) == text + "";
  }
}
