// The template randomiser of randomize.ts.
//
// A template is scanned left to right into literal characters and groups
// (the segmentation that the global regexes /\{(.*?)}/g and /\[(.*?)]/g make);
// each group is replaced by one of its |-separated options, with the *n
// run-repeat suffix; the {} pass runs first and the [] pass runs on its output;
// finally one of four casing styles is applied.
//
// Every Math.random() call takes the next draw of a stream `rand` (see
// Utilities.Rng); the functions here take the position of the next unused draw
// and return the position after the draws they used, in the source's call order.
module Randomize {
  import opened Utilities
  import opened Strings

  /** The four characters JavaScript's `.` does not match. */
  predicate IsLineTerminator(c: char) {
    c == '\n' || c == '\r' || c == '\U{2028}' || c == '\U{2029}'
  }

  /** A group's inner text: no closing bracket and no line terminator. */
  predicate OneLineWithout(s: string, close: char) {
    forall k :: 0 <= k < |s| ==> s[k] != close && !IsLineTerminator(s[k])
  }

  /** No closing bracket on the first line of s: every close is preceded by a line terminator. */
  predicate NoCloseOnLine(s: string, close: char) {
    forall j :: 0 <= j < |s| && s[j] == close ==> exists k :: 0 <= k < j && IsLineTerminator(s[k])
  }

  // ------------------------------------------------------------ tokenizer

  /** The position of the first close bracket in s, provided no line terminator comes before it:
      where the lazy `(.*?)` of a match opened just before s stops. */
  function FindClose(s: string, close: char): (r: Option<nat>)
    ensures r.Some? ==> r.value < |s| && s[r.value] == close && OneLineWithout(s[..r.value], close)
    ensures r.None? ==> NoCloseOnLine(s, close)
    decreases |s|
  {
    if s == [] then None
    else if s[0] == close then Some(0)
    else if IsLineTerminator(s[0]) then None
    else
      match FindClose(s[1..], close)
      case None =>
        assert forall j :: 1 <= j < |s| && s[j] == close ==> s[1..][j - 1] == close;
        None
      case Some(j) =>
        assert s[..j + 1] == [s[0]] + s[1..][..j];
        Some(j + 1)
  }

  datatype Token = Lit(c: char) | Group(inner: string)

  /** One left-to-right scan: a group opens at an open bracket that has a close bracket on
      its line and closes at the first such close; scanning resumes after the close. An open
      bracket without a close on its line is copied as text. */
  function Tokenize(s: string, open: char, close: char): (toks: seq<Token>)
    ensures |toks| <= |s|
    ensures forall k :: 0 <= k < |toks| && toks[k].Group? ==> OneLineWithout(toks[k].inner, close)
    decreases |s|
  {
    if s == [] then []
    else if s[0] == open && FindClose(s[1..], close).Some? then
      var j := FindClose(s[1..], close).value;
      var rest := Tokenize(s[j + 2..], open, close);
      assert s[1..j + 1] == s[1..][..j];
      var toks := [Group(s[1..j + 1])] + rest;
      assert forall k :: 1 <= k < |toks| ==> toks[k] == rest[k - 1];
      toks
    else
      var rest := Tokenize(s[1..], open, close);
      var toks := [Lit(s[0])] + rest;
      assert forall k :: 1 <= k < |toks| ==> toks[k] == rest[k - 1];
      toks
  }

  /** The text a token stands for; a group includes its brackets (the whole match). */
  function RenderToken(t: Token, open: char, close: char): string {
    match t
    case Lit(c) => [c]
    case Group(inner) => [open] + inner + [close]
  }

  function Render(toks: seq<Token>, open: char, close: char): string
    decreases |toks|
  {
    if toks == [] then "" else RenderToken(toks[0], open, close) + Render(toks[1..], open, close)
  }

  /** The segmentation the regex scan produces, described without reference to the scan:
      every group is a shortest match on one line, and an open bracket is left as text only
      when no close bracket follows it on its line. */
  ghost predicate Canonical(toks: seq<Token>, open: char, close: char)
    decreases |toks|
  {
    toks != [] ==>
      && (match toks[0]
          case Group(inner) => OneLineWithout(inner, close)
          case Lit(c) => c == open ==> NoCloseOnLine(Render(toks[1..], open, close), close))
      && Canonical(toks[1..], open, close)
  }

  /** A token spelling a prefix of s, followed by tokens spelling the rest, spells s. */
  lemma RenderStep(s: string, n: nat, t: Token, rest: seq<Token>, open: char, close: char)
    requires n <= |s| && RenderToken(t, open, close) == s[..n] && Render(rest, open, close) == s[n..]
    ensures Render([t] + rest, open, close) == s
  {
    assert ([t] + rest)[1..] == rest;
    assert s == s[..n] + s[n..];
  }

  /** The tokens spell out exactly the scanned text. */
  lemma {:induction false} RenderTokenize(s: string, open: char, close: char)
    ensures Render(Tokenize(s, open, close), open, close) == s
    decreases |s|
  {
    if s != [] {
      if s[0] == open && FindClose(s[1..], close).Some? {
        var j := FindClose(s[1..], close).value;
        RenderTokenize(s[j + 2..], open, close);
        assert s[1..][j] == close;
        assert s[..j + 2] == [open] + s[1..j + 1] + [close];
        RenderStep(s, j + 2, Group(s[1..j + 1]), Tokenize(s[j + 2..], open, close), open, close);
      } else {
        RenderTokenize(s[1..], open, close);
        RenderStep(s, 1, Lit(s[0]), Tokenize(s[1..], open, close), open, close);
      }
    }
  }

  /** The scan yields the canonical segmentation. */
  lemma {:induction false} TokenizeCanonical(s: string, open: char, close: char)
    ensures Canonical(Tokenize(s, open, close), open, close)
    decreases |s|
  {
    if s != [] {
      var toks := Tokenize(s, open, close);
      if s[0] == open && FindClose(s[1..], close).Some? {
        var j := FindClose(s[1..], close).value;
        TokenizeCanonical(s[j + 2..], open, close);
        assert toks[0] == Group(s[1..j + 1]) && toks[1..] == Tokenize(s[j + 2..], open, close);
        assert s[1..j + 1] == s[1..][..j];
      } else {
        TokenizeCanonical(s[1..], open, close);
        RenderTokenize(s[1..], open, close);
        assert toks[0] == Lit(s[0]) && toks[1..] == Tokenize(s[1..], open, close);
      }
    }
  }

  lemma {:induction false} FindCloseAfterGroup(inner: string, close: char, rest: string)
    requires OneLineWithout(inner, close)
    ensures FindClose(inner + [close] + rest, close) == Some(|inner|)
    decreases |inner|
  {
    var s := inner + [close] + rest;
    if inner != [] {
      assert s[0] == inner[0];
      assert s[1..] == inner[1..] + [close] + rest;
      FindCloseAfterGroup(inner[1..], close, rest);
    }
  }

  lemma TokenizeGroup(inner: string, open: char, close: char, rest: string)
    requires OneLineWithout(inner, close)
    ensures Tokenize([open] + inner + [close] + rest, open, close) == [Group(inner)] + Tokenize(rest, open, close)
  {
    var s := [open] + inner + [close] + rest;
    assert s[1..] == inner + [close] + rest;
    FindCloseAfterGroup(inner, close, rest);
    assert s[1..|inner| + 1] == inner;
    assert s[|inner| + 2..] == rest;
  }

  lemma TokenizeLit(c: char, open: char, close: char, rest: string)
    requires c == open ==> NoCloseOnLine(rest, close)
    ensures Tokenize([c] + rest, open, close) == [Lit(c)] + Tokenize(rest, open, close)
  {
    var s := [c] + rest;
    assert s[1..] == rest;
    if c == open {
      var f := FindClose(rest, close);
      if f.Some? {
        assert rest[f.value] == close;
        forall k | 0 <= k < f.value ensures !IsLineTerminator(rest[k]) {
          assert rest[..f.value][k] == rest[k];
        }
        assert false;
      }
    }
  }

  /** The canonical segmentation is unique: any canonical token list is what the scan of its
      text produces. With TokenizeCanonical this pins Tokenize down as the regex's segmentation. */
  lemma {:induction false} CanonicalIsTokenize(toks: seq<Token>, open: char, close: char)
    requires Canonical(toks, open, close)
    ensures Tokenize(Render(toks, open, close), open, close) == toks
    decreases |toks|
  {
    if toks != [] {
      var rest := Render(toks[1..], open, close);
      CanonicalIsTokenize(toks[1..], open, close);
      match toks[0]
      case Group(inner) =>
        TokenizeGroup(inner, open, close, rest);
      case Lit(c) =>
        TokenizeLit(c, open, close, rest);
    }
  }

  // --------------------------------------------------------- replaceOption

  /** The result of expanding some text, and the position of the next unused draw. */
  datatype Expansion = Expansion(text: string, next: nat)

  /** A group is left untouched when it has one option and no star. */
  predicate IsEscape(inner: string) {
    '|' !in inner && '*' !in inner
  }

  /** The text after the last star is one or more decimal digits. */
  predicate HasRunSuffix(option: string) {
    var star := LastIndexOf(option, '*');
    star.Some? && IsDigits(option[star.value + 1..])
  }

  /** beforeStar: the text before the last star. */
  function RunStem(option: string): string
    requires HasRunSuffix(option)
  {
    option[..LastIndexOf(option, '*').value]
  }

  /** n: the number the digits after the last star spell. */
  function RunBound(option: string): nat
    requires HasRunSuffix(option)
  {
    ParseDecimal(option[LastIndexOf(option, '*').value + 1..])
  }

  /** The star expansion of a chosen option (randomize.ts:17-27). */
  function ExpandRun(option: string, rand: Rng, pos: nat): (e: Expansion)
    requires ValidRng(rand)
    ensures !HasRunSuffix(option) ==> e == Expansion(option, pos)
    ensures HasRunSuffix(option) ==>
      var stem, n := RunStem(option), RunBound(option);
      var k := Draw(rand(pos), n);
      && e.next == pos + 1
      && (stem == "" ==> e.text == "")
      && |stem| <= |e.text| && e.text[..|stem|] == stem
      && (stem != "" ==> |e.text| == |stem| + k && (n > 0 ==> 0 <= k < n) && (n == 0 ==> k == 0))
      && (forall i :: |stem| <= i < |e.text| ==> e.text[i] == stem[|stem| - 1])
  {
    if !HasRunSuffix(option) then Expansion(option, pos)
    else
      var stem := RunStem(option);
      var repeatCount := Draw(rand(pos), RunBound(option));
      RunShape(stem, repeatCount);
      var lastChar := if stem == [] then "" else [stem[|stem| - 1]];
      Expansion(stem + Repeat(lastChar, repeatCount), pos + 1)
  }

  /** beforeStar + lastChar.repeat(k): the stem, then k copies of its last character. */
  lemma RunShape(stem: string, k: nat)
    ensures var text := stem + Repeat(if stem == [] then "" else [stem[|stem| - 1]], k);
      && |stem| <= |text| && text[..|stem|] == stem
      && (stem == "" ==> text == "")
      && (stem != "" ==> |text| == |stem| + k)
      && (forall i :: |stem| <= i < |text| ==> text[i] == stem[|stem| - 1])
  {
  }

  /** replaceOption (randomize.ts:10-30): `whole` is the match with its brackets, `inner` the text
      between them. An escape is returned verbatim and draws nothing; otherwise the option the
      next draw picks is star-expanded, and the brackets are gone. */
  function ReplaceOption(whole: string, inner: string, rand: Rng, pos: nat): (e: Expansion)
    requires ValidRng(rand)
    ensures IsEscape(inner) ==> e == Expansion(whole, pos)
    ensures !IsEscape(inner) ==>
      var options := Split(inner, '|');
      var k := Draw(rand(pos), |options|);
      0 <= k < |options| && e == ExpandRun(options[k], rand, pos + 1) && e.next > pos
  {
    var options := Split(inner, '|');
    if |options| == 1 && '*' !in inner then Expansion(whole, pos)
    else
      var selected := options[Draw(rand(pos), |options|)];
      ExpandRun(selected, rand, pos + 1)
  }

  /** An option that is not a run with digits survives as it is, and only it appears:
      a lone option with a star loses its brackets even without digits after the star. */
  lemma ChosenOptionVerbatim(whole: string, inner: string, rand: Rng, pos: nat)
    requires ValidRng(rand) && !IsEscape(inner)
    requires forall i :: 0 <= i < |Split(inner, '|')| ==> !HasRunSuffix(Split(inner, '|')[i])
    ensures ReplaceOption(whole, inner, rand, pos).text in Split(inner, '|')
    ensures ReplaceOption(whole, inner, rand, pos).next == pos + 1
  {
  }

  // ------------------------------------------------------------ the passes

  /** One token's replacement: a literal character is copied, a group is replaced. */
  function EvalToken(t: Token, open: char, close: char, rand: Rng, pos: nat): (e: Expansion)
    requires ValidRng(rand)
    ensures t.Lit? ==> e == Expansion([t.c], pos)
    ensures t.Group? && IsEscape(t.inner) ==> e == Expansion(RenderToken(t, open, close), pos)
    ensures t.Group? && !IsEscape(t.inner) ==> e.next > pos
  {
    match t
    case Lit(c) => Expansion([c], pos)
    case Group(inner) => ReplaceOption(RenderToken(t, open, close), inner, rand, pos)
  }

  /** The replace of one regex over a token list: tokens are replaced in order, each
      continuing from the draws of the one before. */
  function Eval(toks: seq<Token>, open: char, close: char, rand: Rng, pos: nat): (e: Expansion)
    requires ValidRng(rand)
    ensures e.next >= pos
    decreases |toks|
  {
    if toks == [] then Expansion("", pos)
    else
      var head := EvalToken(toks[0], open, close, rand, pos);
      var rest := Eval(toks[1..], open, close, rand, head.next);
      Expansion(head.text + rest.text, rest.next)
  }

  /** template.replace(regex, replaceOption) for open/close brackets. */
  function Pass(s: string, open: char, close: char, rand: Rng, pos: nat): (e: Expansion)
    requires ValidRng(rand)
    ensures e.next >= pos
  {
    Eval(Tokenize(s, open, close), open, close, rand, pos)
  }

  predicate AllEscapes(toks: seq<Token>) {
    forall t :: 0 <= t < |toks| ==> toks[t].Group? ==> IsEscape(toks[t].inner)
  }

  lemma {:induction false} EvalEscapes(toks: seq<Token>, open: char, close: char, rand: Rng, pos: nat)
    requires ValidRng(rand) && AllEscapes(toks)
    ensures Eval(toks, open, close, rand, pos) == Expansion(Render(toks, open, close), pos)
    decreases |toks|
  {
    if toks != [] {
      assert AllEscapes(toks[1..]) by {
        forall t | 0 <= t < |toks[1..]| ensures toks[1..][t].Group? ==> IsEscape(toks[1..][t].inner) {
          assert toks[1..][t] == toks[t + 1];
        }
      }
      EvalEscapes(toks[1..], open, close, rand, pos);
    }
  }

  /** Pass-through law: a text whose groups are all escapes (one option, no star) is returned as
      it is, brackets included, and uses no draw. */
  lemma PassKeepsEscapes(s: string, open: char, close: char, rand: Rng, pos: nat)
    requires ValidRng(rand) && AllEscapes(Tokenize(s, open, close))
    ensures Pass(s, open, close, rand, pos) == Expansion(s, pos)
  {
    EvalEscapes(Tokenize(s, open, close), open, close, rand, pos);
    RenderTokenize(s, open, close);
  }

  lemma {:induction false} NoGroupsWithoutOpen(s: string, open: char, close: char)
    requires open !in s
    ensures AllEscapes(Tokenize(s, open, close))
    ensures forall t :: 0 <= t < |Tokenize(s, open, close)| ==> Tokenize(s, open, close)[t].Lit?
    decreases |s|
  {
    if s != [] {
      NoGroupsWithoutOpen(s[1..], open, close);
      var toks := Tokenize(s, open, close);
      assert toks == [Lit(s[0])] + Tokenize(s[1..], open, close);
      forall t | 0 <= t < |toks| ensures toks[t].Lit? {
        if t > 0 { assert toks[t] == Tokenize(s[1..], open, close)[t - 1]; }
      }
    }
  }

  /** Text with no open bracket is copied unchanged and uses no draw. */
  lemma PassWithoutOpen(s: string, open: char, close: char, rand: Rng, pos: nat)
    requires ValidRng(rand) && open !in s
    ensures Pass(s, open, close, rand, pos) == Expansion(s, pos)
  {
    NoGroupsWithoutOpen(s, open, close);
    PassKeepsEscapes(s, open, close, rand, pos);
  }

  // --------------------------------------------------------- template choice

  /** The argument of randomize: one template or a list of them. */
  datatype Template = Text(s: string) | Choices(list: seq<string>)

  predicate WellFormedTemplate(t: Template) {
    t.Choices? ==> |t.list| > 0
  }

  /** randomize.ts:8: a list costs one draw and yields the entry it picks. */
  function SelectTemplate(t: Template, rand: Rng, pos: nat): (e: Expansion)
    requires ValidRng(rand) && WellFormedTemplate(t)
    ensures t.Text? ==> e == Expansion(t.s, pos)
    ensures t.Choices? ==> e.next == pos + 1 && e.text in t.list
    ensures t.Choices? ==> e.text == t.list[Draw(rand(pos), |t.list|)]
  {
    match t
    case Text(s) => Expansion(s, pos)
    case Choices(list) => Expansion(Pick(list, rand(pos)), pos + 1)
  }

  /** pass1 of randomize.ts:33: choose, then the {} pass, then the [] pass on its output. */
  function Expand(t: Template, rand: Rng, pos: nat): (e: Expansion)
    requires ValidRng(rand) && WellFormedTemplate(t)
    ensures t.Text? ==> e.next >= pos
    ensures t.Choices? ==> e.next > pos
  {
    var chosen := SelectTemplate(t, rand, pos);
    var braces := Pass(chosen.text, '{', '}', rand, chosen.next);
    Pass(braces.text, '[', ']', rand, braces.next)
  }

  /** A template with no group brackets comes out as it is. */
  lemma ExpandPlainText(s: string, rand: Rng, pos: nat)
    requires ValidRng(rand) && '{' !in s && '[' !in s
    ensures Expand(Text(s), rand, pos) == Expansion(s, pos)
  {
    PassWithoutOpen(s, '{', '}', rand, pos);
    PassWithoutOpen(s, '[', ']', rand, pos);
  }

  // ---------------------------------------------------------------- casing

  /** One character of randomlyCase: upper case when Math.floor(r * 2) == 1. */
  function CaseByDraw(c: char, r: real): (out: char)
    requires 0.0 <= r < 1.0
    ensures r < 0.5 ==> out == LowerChar(c)
    ensures 0.5 <= r ==> out == UpperChar(c)
  {
    DrawHitsInterval(r, 2, 1);
    if Draw(r, 2) == 1 then UpperChar(c) else LowerChar(c)
  }

  /** randomlyCase (randomize.ts:42-46) as a value: character i uses draw pos + i. */
  function RandomCase(s: string, rand: Rng, pos: nat): (r: string)
    requires ValidRng(rand)
    ensures |r| == |s|
    ensures forall i :: 0 <= i < |s| ==> r[i] == UpperChar(s[i]) || r[i] == LowerChar(s[i])
    ensures SameIgnoringCase(r, s)
  {
    var r := seq(|s|, i requires 0 <= i < |s| => CaseByDraw(s[i], rand(pos + i)));
    assert forall i :: 0 <= i < |s| ==> LowerChar(r[i]) == LowerChar(s[i]) by {
      forall i | 0 <= i < |s| ensures LowerChar(r[i]) == LowerChar(s[i]) {
        CaseFolds(s[i]);
      }
    }
    r
  }

  /** randomlyCase as the source runs it: the characters go into an array and a loop
      overwrites each one in place with its upper or lower form. */
  method RandomlyCase(toFix: string, rand: Rng, pos: nat) returns (r: string)
    requires ValidRng(rand)
    ensures r == RandomCase(toFix, rand, pos)
    ensures |r| == |toFix| && SameIgnoringCase(r, toFix)
  {
    var out := new char[|toFix|](i requires 0 <= i < |toFix| => toFix[i]);
    for i := 0 to out.Length
      invariant forall k :: 0 <= k < i ==> out[k] == CaseByDraw(toFix[k], rand(pos + k))
      invariant forall k :: i <= k < out.Length ==> out[k] == toFix[k]
    {
      out[i] := if Draw(rand(pos + i), 2) == 1 then UpperChar(out[i]) else LowerChar(out[i]);
    }
    r := out[..];
  }

  /** The final roll of randomize.ts:34-39: one of four casing styles, the random one drawing
      from position pos on. Every style keeps the length and the text up to ASCII case. */
  function Style(text: string, roll: int, rand: Rng, pos: nat): (out: string)
    requires ValidRng(rand)
    ensures roll == 0 ==> out == RandomCase(text, rand, pos)
    ensures roll == 1 ==> out == ToUpper(text)
    ensures roll == 2 ==> out == ToLower(text)
    ensures roll !in {0, 1, 2} ==> out == text
    ensures |out| == |text| && SameIgnoringCase(out, text)
  {
    CaseMappingsFold(text);
    if roll == 0 then RandomCase(text, rand, pos)
    else if roll == 1 then ToUpper(text)
    else if roll == 2 then ToLower(text)
    else text
  }

  /** randomize (randomize.ts:7-40): expand, then the style of a draw taken after every draw
      of the expansion, with randomlyCase drawing after that. Whatever the style, the result
      is the expansion up to ASCII case, with the same length. */
  function Randomize(t: Template, rand: Rng, pos: nat): (out: string)
    requires ValidRng(rand) && WellFormedTemplate(t)
    ensures var e := Expand(t, rand, pos);
      out == Style(e.text, Draw(rand(e.next), 4), rand, e.next + 1)
    ensures |out| == |Expand(t, rand, pos).text|
    ensures SameIgnoringCase(out, Expand(t, rand, pos).text)
  {
    var e := Expand(t, rand, pos);
    Style(e.text, Draw(rand(e.next), 4), rand, e.next + 1)
  }
}
