/** The command line tokenizer: a scan for a closed quotation or else a run of
    non-blank characters, leftmost first, quotation preferred. */
module Tokenizer {

  /** Unicode white space. */
  predicate IsSpace(c: char) {
    || '\U{0009}' <= c <= '\U{000D}' || c == ' ' || c == '\U{0085}' || c == '\U{00A0}' || c == '\U{1680}'
    || '\U{2000}' <= c <= '\U{200A}' || c == '\U{2028}' || c == '\U{2029}' || c == '\U{202F}'
    || c == '\U{205F}' || c == '\U{3000}'
  }

  const QUOTE := '\"'

  /** Where the first quote of `s` stands, or its length. */
  function NextQuote(s: string): (k: nat)
    ensures k <= |s| && (k < |s| ==> s[k] == QUOTE) && forall i | 0 <= i < k :: s[i] != QUOTE
  {
    if s == [] || s[0] == QUOTE then 0 else 1 + NextQuote(s[1..])
  }

  /** How many leading characters of `s` are not blank. */
  function RunLength(s: string): (k: nat)
    ensures k <= |s| && (k < |s| ==> IsSpace(s[k])) && forall i | 0 <= i < k :: !IsSpace(s[i])
  {
    if s == [] || IsSpace(s[0]) then 0 else 1 + RunLength(s[1..])
  }

  /** The match at the start of `s`, which is not blank there. */
  function MatchLength(s: string): (k: nat)
    requires s != [] && !IsSpace(s[0])
    ensures 0 < k <= |s|
  {
    var q := NextQuote(s[1..]);
    if s[0] == QUOTE && q < |s| - 1 then q + 2 else RunLength(s)
  }

  function Split(s: string): seq<string>
    decreases |s|
  {
    if s == [] then []
    else if IsSpace(s[0]) then Split(s[1..])
    else
      var k := MatchLength(s);
      [s[..k]] + Split(s[k..])
  }

  // ---------- lines ----------

  predicate Blank(s: string) { forall i | 0 <= i < |s| :: IsSpace(s[i]) }

  predicate NoSpace(s: string) { forall i | 0 <= i < |s| :: !IsSpace(s[i]) }

  predicate NoQuote(s: string) { forall i | 0 <= i < |s| :: s[i] != QUOTE }

  predicate Quoted(t: string) {
    |t| >= 2 && t[0] == QUOTE && t[|t| - 1] == QUOTE && NoQuote(t[1..|t| - 1])
  }

  predicate Bare(t: string) { t != [] && NoSpace(t) && t[0] != QUOTE }

  /** A quotation that is never closed. */
  predicate Unclosed(t: string) { t != [] && NoSpace(t) && t[0] == QUOTE && NoQuote(t[1..]) }

  predicate QuoteFree(ts: seq<string>) { forall i | 0 <= i < |ts| :: NoQuote(ts[i]) }

  datatype Piece = Piece(gap: string, token: string)

  function Tokens(ps: seq<Piece>): seq<string> {
    if ps == [] then [] else [ps[0].token] + Tokens(ps[1..])
  }

  function Print(ps: seq<Piece>, tail: string): string {
    if ps == [] then tail else ps[0].gap + ps[0].token + Print(ps[1..], tail)
  }

  /** Token-shaped tokens between blank gaps; only a closed quotation may touch what
      follows it, and nothing after an unclosed one contains a quote. `touching`
      says that the token before needs a gap. */
  predicate Line(ps: seq<Piece>, tail: string, touching: bool) {
    if ps == [] then Blank(tail)
    else
      var Piece(gap, t) := ps[0];
      && Blank(gap) && (touching ==> gap != [])
      && (Quoted(t) || Bare(t) || (Unclosed(t) && QuoteFree(Tokens(ps[1..]))))
      && Line(ps[1..], tail, !Quoted(t))
  }

  lemma {:induction false} SkipBlank(gap: string, s: string)
    requires Blank(gap)
    ensures Split(gap + s) == Split(s)
  {
    if gap == [] {
      assert gap + s == s;
    } else {
      assert (gap + s)[1..] == gap[1..] + s;
      SkipBlank(gap[1..], s);
    }
  }

  lemma {:induction false} PrintQuoteFree(ps: seq<Piece>, tail: string, touching: bool)
    requires Line(ps, tail, touching) && QuoteFree(Tokens(ps))
    ensures NoQuote(Print(ps, tail))
  {
    if ps == [] {
      BlankQuoteFree(tail);
    } else {
      assert Tokens(ps)[0] == ps[0].token && Tokens(ps)[1..] == Tokens(ps[1..]);
      BlankQuoteFree(ps[0].gap);
      PrintQuoteFree(ps[1..], tail, !Quoted(ps[0].token));
    }
  }

  lemma BlankQuoteFree(s: string)
    requires Blank(s)
    ensures NoQuote(s)
  {
  }

  lemma NextQuoteIs(s: string, k: nat)
    requires k <= |s| && (k < |s| ==> s[k] == QUOTE) && forall i | 0 <= i < k :: s[i] != QUOTE
    ensures NextQuote(s) == k
  {
  }

  lemma RunLengthIs(s: string, k: nat)
    requires k <= |s| && (k < |s| ==> IsSpace(s[k])) && forall i | 0 <= i < k :: !IsSpace(s[i])
    ensures RunLength(s) == k
  {
  }

  /** What follows a token that needs a gap starts blank. */
  lemma StartsBlank(ps: seq<Piece>, tail: string)
    requires Line(ps, tail, true)
    ensures Print(ps, tail) == [] || IsSpace(Print(ps, tail)[0])
  {
  }

  /** The scanner cuts off exactly the first token. */
  lemma FirstToken(t: string, rest: seq<Piece>, tail: string)
    requires Line([Piece("", t)] + rest, tail, false)
    ensures !IsSpace(t[0]) && MatchLength(t + Print(rest, tail)) == |t|
  {
    var ps := [Piece("", t)] + rest;
    assert ps[0] == Piece("", t) && ps[1..] == rest;
    var s := t + Print(rest, tail);
    if Quoted(t) {
      assert t[1..|t| - 1] == s[1..][..|t| - 2];
      forall i | 0 <= i < |t| - 2 ensures s[1..][i] != QUOTE { assert t[1..|t| - 1][i] == s[1..][i]; }
      NextQuoteIs(s[1..], |t| - 2);
    } else {
      StartsBlank(rest, tail);
      RunLengthIs(s, |t|);
      if Unclosed(t) {
        PrintQuoteFree(rest, tail, true);
        forall i | 0 <= i < |s| - 1 ensures s[1..][i] != QUOTE {
          if i < |t| - 1 { assert s[1..][i] == t[1..][i]; } else { assert s[1..][i] == Print(rest, tail)[i + 1 - |t|]; }
        }
        NextQuoteIs(s[1..], |s| - 1);
      }
    }
  }

  /** Printing any line and splitting it gives its tokens back. */
  lemma {:induction false} SplitPrint(ps: seq<Piece>, tail: string, touching: bool)
    requires Line(ps, tail, touching)
    ensures Split(Print(ps, tail)) == Tokens(ps)
    decreases |ps|
  {
    if ps == [] {
      SkipBlank(tail, "");
      assert tail + "" == tail;
    } else {
      var t, rest := ps[0].token, ps[1..];
      var s := t + Print(rest, tail);
      assert ps[0].gap + t + Print(rest, tail) == ps[0].gap + s;
      SkipBlank(ps[0].gap, s);
      assert ([Piece("", t)] + rest)[1..] == rest;
      FirstToken(t, rest, tail);
      assert s[..|t|] == t && s[|t|..] == Print(rest, tail);
      SplitPrint(rest, tail, !Quoted(t));
    }
  }

  // ---------- every input is such a line ----------

  datatype Dissection = Dissection(pieces: seq<Piece>, tail: string)

  function Dissect(gap: string, s: string): Dissection
    decreases |s|
  {
    if s == [] then Dissection([], gap)
    else if IsSpace(s[0]) then Dissect(gap + [s[0]], s[1..])
    else
      var k := MatchLength(s);
      var rest := Dissect("", s[k..]);
      Dissection([Piece(gap, s[..k])] + rest.pieces, rest.tail)
  }

  lemma {:induction false} SplitQuoteFree(s: string)
    requires NoQuote(s)
    ensures QuoteFree(Split(s))
    decreases |s|
  {
    if s != [] {
      if IsSpace(s[0]) {
        SplitQuoteFree(s[1..]);
      } else {
        SplitQuoteFree(s[MatchLength(s)..]);
      }
    }
  }

  lemma MatchShape(s: string)
    requires s != [] && !IsSpace(s[0])
    ensures
      var k := MatchLength(s);
      var t := s[..k];
      && (Quoted(t) || Bare(t) || (Unclosed(t) && NoQuote(s[k..])))
      && (!Quoted(t) ==> s[k..] == [] || IsSpace(s[k]))
  {
    var k := MatchLength(s);
    var q := NextQuote(s[1..]);
    var t := s[..k];
    if s[0] == QUOTE && q < |s| - 1 {
      assert t[|t| - 1] == s[1..][q];
      var inner := t[1..|t| - 1];
      forall i | 0 <= i < |inner| ensures inner[i] != QUOTE { assert inner[i] == s[1..][i]; }
    } else if s[0] == QUOTE {
      forall i | 0 <= i < |t| - 1 ensures t[1..][i] != QUOTE { assert t[1..][i] == s[1..][i]; }
      forall i | k <= i < |s| ensures s[i] != QUOTE { assert s[i] == s[1..][i - 1]; }
    }
  }

  lemma {:induction false} DissectPrints(gap: string, s: string)
    ensures
      var d := Dissect(gap, s);
      Tokens(d.pieces) == Split(s) && Print(d.pieces, d.tail) == gap + s
    decreases |s|
  {
    hide MatchLength, IsSpace;
    if s == [] {
      assert gap + s == gap;
    } else if IsSpace(s[0]) {
      DissectPrints(gap + [s[0]], s[1..]);
      assert gap + [s[0]] + s[1..] == gap + s;
    } else {
      var k := MatchLength(s);
      var d, rest := Dissect(gap, s), Dissect("", s[k..]);
      DissectPrints("", s[k..]);
      assert d.pieces[1..] == rest.pieces && d.pieces[0] == Piece(gap, s[..k]);
      assert "" + s[k..] == s[k..];
      assert gap + s[..k] + s[k..] == gap + s;
    }
  }

  lemma {:induction false} DissectIsLine(gap: string, s: string, touching: bool)
    requires Blank(gap) && (touching ==> gap != [] || s == [] || IsSpace(s[0]))
    ensures Line(Dissect(gap, s).pieces, Dissect(gap, s).tail, touching)
    decreases |s|
  {
    hide Quoted, Bare, Unclosed, MatchLength, QuoteFree, IsSpace, Tokens, Split;
    if s == [] {
    } else if IsSpace(s[0]) {
      DissectIsLine(gap + [s[0]], s[1..], touching);
    } else {
      var k := MatchLength(s);
      var d, rest := Dissect(gap, s), Dissect("", s[k..]);
      MatchShape(s);
      DissectIsLine("", s[k..], !Quoted(s[..k]));
      DissectPrints("", s[k..]);
      if NoQuote(s[k..]) { SplitQuoteFree(s[k..]); }
      assert d.pieces[1..] == rest.pieces && d.pieces[0] == Piece(gap, s[..k]);
    }
  }

  /** `split_string` is exactly this: the tokens of `s` are `ts` if and only if `s`
      prints `ts` on a line with admissible gaps. */
  lemma SplitExactly(s: string, ts: seq<string>)
    ensures Split(s) == ts <==>
              exists ps, tail :: Line(ps, tail, false) && Tokens(ps) == ts && Print(ps, tail) == s
  {
    if Split(s) == ts {
      DissectIsLine("", s, false);
      DissectPrints("", s);
      var d := Dissect("", s);
      assert "" + s == s;
      assert Line(d.pieces, d.tail, false) && Tokens(d.pieces) == ts && Print(d.pieces, d.tail) == s;
    }
    if exists ps, tail :: Line(ps, tail, false) && Tokens(ps) == ts && Print(ps, tail) == s {
      var ps, tail :| Line(ps, tail, false) && Tokens(ps) == ts && Print(ps, tail) == s;
      SplitPrint(ps, tail, false);
    }
  }

  // ---------- normal form ----------

  function Join(ts: seq<string>): string {
    if ts == [] then ""
    else if |ts| == 1 then ts[0]
    else ts[0] + " " + Join(ts[1..])
  }

  /** The pieces of a line with its gaps normalised. */
  function Spaced(ps: seq<Piece>, gap: string): seq<Piece> {
    if ps == [] then [] else [Piece(gap, ps[0].token)] + Spaced(ps[1..], " ")
  }

  lemma {:induction false} SpacedIsLine(ps: seq<Piece>, tail: string, touching: bool, gap: string)
    requires Line(ps, tail, touching) && Blank(gap) && (touching ==> gap != [])
    ensures Line(Spaced(ps, gap), "", touching) && Tokens(Spaced(ps, gap)) == Tokens(ps)
    decreases |ps|
  {
    hide Quoted, Bare, Unclosed, QuoteFree;
    if ps != [] {
      var rest := ps[1..];
      SpacedIsLine(rest, tail, !Quoted(ps[0].token), " ");
      assert Spaced(ps, gap)[0] == Piece(gap, ps[0].token) && Spaced(ps, gap)[1..] == Spaced(rest, " ");
    }
  }

  /** Joining one token more. */
  lemma JoinFirst(gap: string, t: string, ts: seq<string>)
    ensures gap + Join([t] + ts) == gap + t + if ts == [] then "" else " " + Join(ts)
  {
    assert ([t] + ts)[1..] == ts;
    if ts == [] {
      assert gap + t + "" == gap + t;
    } else {
      var rest := Join(ts);
      assert gap + (t + " " + rest) == gap + t + (" " + rest);
    }
  }

  lemma {:induction false} SpacedPrints(ps: seq<Piece>, gap: string)
    ensures Print(Spaced(ps, gap), "") == if ps == [] then "" else gap + Join(Tokens(ps))
    decreases |ps|
  {
    hide Join;
    if ps != [] {
      var t, rest := ps[0].token, ps[1..];
      SpacedPrints(rest, " ");
      assert Spaced(ps, gap)[1..] == Spaced(rest, " ");
      JoinFirst(gap, t, Tokens(rest));
    }
  }

  /** Splitting the single-space join of the tokens gives the same tokens. */
  lemma NormalForm(s: string)
    ensures Split(Join(Split(s))) == Split(s)
  {
    DissectIsLine("", s, false);
    DissectPrints("", s);
    var d := Dissect("", s);
    SpacedIsLine(d.pieces, d.tail, false, "");
    SpacedPrints(d.pieces, "");
    SplitPrint(Spaced(d.pieces, ""), "", false);
    assert "" + Join(Split(s)) == Join(Split(s));
  }

  // ---------- plain examples of all shapes ----------

  /** Pieces with a single space between them. */
  function SpacedOut(ts: seq<string>, gap: string): seq<Piece> {
    if ts == [] then [] else [Piece(gap, ts[0])] + SpacedOut(ts[1..], " ")
  }

  lemma {:induction false} WordsLine(ts: seq<string>, gap: string, touching: bool)
    requires Blank(gap) && (touching ==> gap != []) && forall t | t in ts :: Quoted(t) || Bare(t)
    ensures Line(SpacedOut(ts, gap), "", touching) && Tokens(SpacedOut(ts, gap)) == ts
    decreases |ts|
  {
    hide Quoted, Bare, Unclosed, QuoteFree;
    if ts != [] {
      assert ts[0] in ts;
      WordsLine(ts[1..], " ", !Quoted(ts[0]));
      assert SpacedOut(ts, gap)[0] == Piece(gap, ts[0]) && SpacedOut(ts, gap)[1..] == SpacedOut(ts[1..], " ");
    }
  }

  lemma {:induction false} WordsPrint(ts: seq<string>, gap: string)
    ensures Print(SpacedOut(ts, gap), "") == if ts == [] then "" else gap + Join(ts)
    decreases |ts|
  {
    hide Join;
    if ts != [] {
      WordsPrint(ts[1..], " ");
      assert SpacedOut(ts, gap)[1..] == SpacedOut(ts[1..], " ") && [ts[0]] + ts[1..] == ts;
      JoinFirst(gap, ts[0], ts[1..]);
    }
  }

  /** Words and quotations that are joined by single spaces are split again. */
  lemma WordsSplit(ts: seq<string>)
    requires forall t | t in ts :: Quoted(t) || Bare(t)
    ensures Split(Join(ts)) == ts
  {
    WordsLine(ts, "", false);
    WordsPrint(ts, "");
    SplitPrint(SpacedOut(ts, ""), "", false);
    assert "" + Join(ts) == Join(ts);
  }

  /** Whatever stands between two double quotes is one token, quotes included. */
  lemma QuotationIsOneToken(w: string)
    requires '\"' !in w
    ensures Split("\"" + w + "\"") == ["\"" + w + "\""]
  {
    var t := "\"" + w + "\"";
    assert t[1..|t| - 1] == w;
    assert Join([t]) == t;
    WordsSplit([t]);
  }

  /** A space, a tab or a line end separates two words. */
  lemma BlanksSeparate(a: string, b: string, c: char)
    requires c in " \t\r\n" && Bare(a)
    ensures Split(a + [c] + b) == [a] + Split(b)
  {
    var s := a + [c] + b;
    RunLengthIs(s, |a|);
    assert s[0] == a[0] && s[..|a|] == a && s[|a|..] == [c] + b;
    assert MatchLength(s) == |a|;
    SkipBlank([c], b);
  }

  // ---------- conservation ----------

  /** `s` without its white space. */
  function Squeeze(s: string): string {
    if s == [] then "" else (if IsSpace(s[0]) then "" else [s[0]]) + Squeeze(s[1..])
  }

  function Concat(ts: seq<string>): string {
    if ts == [] then "" else ts[0] + Concat(ts[1..])
  }

  lemma {:induction false} SqueezeConcat(a: string, b: string)
    ensures Squeeze(a + b) == Squeeze(a) + Squeeze(b)
  {
    if a == [] {
      assert a + b == b;
    } else {
      assert (a + b)[1..] == a[1..] + b;
      SqueezeConcat(a[1..], b);
    }
  }

  /** No character but white space is lost, added or moved. */
  lemma {:induction false} Conservation(s: string)
    ensures Squeeze(Concat(Split(s))) == Squeeze(s)
    decreases |s|
  {
    if s == [] {
    } else if IsSpace(s[0]) {
      Conservation(s[1..]);
    } else {
      var k := MatchLength(s);
      Conservation(s[k..]);
      SqueezeConcat(s[..k], Concat(Split(s[k..])));
      SqueezeConcat(s[..k], s[k..]);
      assert s[..k] + s[k..] == s;
      assert Split(s)[1..] == Split(s[k..]);
    }
  }
}
