/** `NormalizeHTMLforTelegram`: a single pass over the HTML tokens of an item's
    description that keeps a fixed set of formatting tags, strips every other
    tag, keeps trimmed text, and cuts the output short once it is longer than
    2500 bytes.

    The HTML tokenizer is replaced by the token sequence it would produce; the
    end of the sequence stands for the tokenizer's error token at end of input.
    The normaliser is given twice: `Normalized` is the specification, a left
    fold of `Step` over the tokens, and `NormalizeHtmlForTelegram` is the loop
    of the source, proved to compute it. */
module Normalizer {
  import opened GoStrings

  datatype Attr = Attr(key: string, val: string)

  /** The kinds of token the HTML tokenizer produces; `Text` carries the
      already unescaped text of a text token. */
  datatype Token =
    | StartTag(name: string, attrs: seq<Attr>)
    | EndTag(name: string)
    | SelfClosing(name: string, attrs: seq<Attr>)
    | Text(text: string)
    | Comment(data: string)
    | Doctype(data: string)
    | Error

  /** The tags that survive normalisation, in the order the source lists them. */
  const Tags: seq<string> := ["br", "img", "b", "strong", "i", "em", "code", "s", "strike", "del", "u", "pre"]

  /** Once the output is longer than this many bytes, the next iteration stops. */
  const Limit := 2500

  /** The longest truncation suffix, `"</strong> ..."`, in bytes. */
  const MaxSuffixLen := 13

  /** `in_array` on a slice of strings: a linear search that stops at the
      first element equal to `val`. */
  method InArray(val: string, list: seq<string>) returns (found: bool)
    ensures found <==> val in list
  {
    var i := 0;
    while i < |list|
      invariant 0 <= i <= |list|
      invariant val !in list[..i]
    {
      if val == list[i] {
        return true;
      }
      i := i + 1;
    }
    assert list[..i] == list;
    return false;
  }

  /** The source dereferences the first attribute of every `img` start tag it
      handles; the tokens must not contain an `img` start tag without one. */
  predicate ImgTagsHaveAttrs(toks: seq<Token>)
  {
    forall k :: 0 <= k < |toks| && toks[k].StartTag? && toks[k].name == "img" ==> |toks[k].attrs| > 0
  }

  /** What one token adds to the output when the most recent start tag is
      named `prev` and the output is not yet too long. An `img` start tag
      without attributes, for which the source would panic, falls to the
      generic case here; `ImgTagsHaveAttrs` keeps it away from the method. */
  function Emit(prev: string, t: Token): string
  {
    match t
    case StartTag(name, attrs) =>
      if name !in Tags then ""
      else if name == "br" then "\n"
      else if name == "img" && |attrs| > 0 && attrs[0].key == "src" then attrs[0].val + " "
      else " <" + name + ">"
    case EndTag(name) =>
      if name in Tags then "</" + name + "> " else ""
    case SelfClosing(name, _) =>
      if name in Tags && name == "br" then "\n" else ""
    case Text(s) =>
      if prev == "script" then "" else TrimSpace(s)
    case Comment(_) => ""
    case Doctype(_) => ""
    case Error => ""
  }

  /** The most recent start tag after token `t`: every start tag, kept or
      stripped, replaces it; no other token touches it. */
  function Advance(prev: string, t: Token): string
  {
    if t.StartTag? then t.name else prev
  }

  /** Whether truncation closes the most recent start tag: it must be a kept
      tag other than `img` and `br`. */
  predicate Closable(prev: string)
  {
    prev in Tags && prev != "img" && prev != "br"
  }

  lemma TagsAreShortAscii(n: string)
    requires n in Tags
    ensures IsAscii(n) && |n| <= 6
  {
  }

  /** The text appended when the output is cut short. */
  function Suffix(prev: string): string
  {
    if Closable(prev) then "</" + prev + "> ..." else " ..."
  }

  /** The truncation suffix closes the most recent start tag when it is
      closable, always ends in `" ..."`, and is at most `MaxSuffixLen`
      bytes long. */
  lemma SuffixShape(prev: string)
    ensures var r := Suffix(prev);
            && Utf8Len(r) <= MaxSuffixLen
            && |r| >= 4 && r[|r| - 4..] == " ..."
            && (Closable(prev) ==> |r| == |prev| + 7 && r[..2] == "</" && r[2..|r| - 5] == prev && r[|r| - 5] == '>')
            && (!Closable(prev) ==> r == " ...")
  {
    AsciiUtf8Len(" ...");
    if Closable(prev) {
      ClosingSuffixLen(prev);
    }
  }

  lemma ClosingSuffixLen(prev: string)
    requires prev in Tags
    ensures Utf8Len("</" + prev + "> ...") <= MaxSuffixLen
  {
    TagsAreShortAscii(prev);
    AsciiUtf8Len(prev);
    AsciiUtf8Len("</");
    AsciiUtf8Len("> ...");
    Utf8LenAppend("</", prev);
    Utf8LenAppend("</" + prev, "> ...");
  }

  /** The loop's state between iterations: the output so far, the name of the
      most recent start tag, and whether the function has returned. */
  datatype Scan = Scan(out: string, prev: string, done: bool)

  /** Before the first token: empty output, and the tokenizer's initial
      token, an error token whose name is empty. */
  const Start := Scan("", "", false)

  /** One iteration of the loop. The length test comes first and does not
      look at the token; an error token ends the loop with the output as it is. */
  function Step(s: Scan, t: Token): Scan
  {
    if s.done then s
    else if Utf8Len(s.out) > Limit then Scan(s.out + Suffix(s.prev), s.prev, true)
    else if t.Error? then Scan(s.out, s.prev, true)
    else Scan(s.out + Emit(s.prev, t), Advance(s.prev, t), false)
  }

  function Run(s: Scan, toks: seq<Token>): Scan
    decreases |toks|
  {
    if toks == [] then s else Run(Step(s, toks[0]), toks[1..])
  }

  /** The normaliser's result on a token stream; the tokenizer reports an
      error token at the end of the input. */
  function Normalized(toks: seq<Token>): string
  {
    Run(Start, toks + [Error]).out
  }

  /** The length test's branch of the loop: the closing marker for the most
      recent start tag, when it is closable, and the ellipsis. */
  method TruncationSuffix(prev: string) returns (sfx: string)
    ensures sfx == Suffix(prev)
  {
    var e := InArray(prev, Tags);
    if e && prev != "img" && prev != "br" {
      sfx := "</" + prev + "> ...";
    } else {
      sfx := " ...";
    }
  }

  /** The `switch` of the loop for every token but the error token: what
      the token appends and the most recent start tag afterwards. */
  method HandleToken(prev: string, tt: Token) returns (piece: string, prev': string)
    requires !tt.Error?
    requires tt.StartTag? && tt.name == "img" ==> |tt.attrs| > 0
    ensures piece == Emit(prev, tt) && prev' == Advance(prev, tt)
  {
    piece, prev' := "", prev;
    match tt {
      case StartTag(name, attrs) =>
        prev' := name;
        var e := InArray(name, Tags);
        if e {
          if name == "br" {
            piece := "\n";
          } else if name == "img" && attrs[0].key == "src" {
            piece := attrs[0].val + " ";
          } else {
            piece := " <" + name + ">";
          }
        }
      case EndTag(name) =>
        var e := InArray(name, Tags);
        if e {
          piece := "</" + name + "> ";
        }
      case SelfClosing(name, _) =>
        var e := InArray(name, Tags);
        if e && name == "br" {
          piece := "\n";
        }
      case Text(s) =>
        if prev != "script" {
          var content := TrimSpace(s);
          if |content| > 0 {
            piece := content;
          }
        }
      case Comment(_) =>
      case Doctype(_) =>
    }
  }

  /** The source's loop: the length test, then the switch on the token. */
  method NormalizeHtmlForTelegram(toks: seq<Token>) returns (out: string)
    requires ImgTagsHaveAttrs(toks)
    ensures out == Normalized(toks)
  {
    out := "";
    var prev := "";
    var i := 0;
    while true
      invariant 0 <= i <= |toks|
      invariant Run(Scan(out, prev, false), toks[i..] + [Error]) == Run(Start, toks + [Error])
      decreases |toks| - i
    {
      var tt := if i < |toks| then toks[i] else Error;
      ghost var rest := if i < |toks| then toks[i + 1..] + [Error] else [];
      SplitAt(toks, i);
      RunCons(Scan(out, prev, false), tt, rest);
      if Utf8Len(out) > Limit {
        var sfx := TruncationSuffix(prev);
        assert Step(Scan(out, prev, false), tt) == Scan(out + sfx, prev, true);
        out := out + sfx;
        RunDone(Scan(out, prev, true), rest);
        return;
      }
      if tt.Error? {
        assert Step(Scan(out, prev, false), tt) == Scan(out, prev, true);
        RunDone(Scan(out, prev, true), rest);
        return;
      }
      var piece, prev' := HandleToken(prev, tt);
      assert Step(Scan(out, prev, false), tt) == Scan(out + piece, prev', false);
      out, prev := out + piece, prev';
      i := i + 1;
    }
  }

  // ---------------------------------------------------------------------
  // Properties of the specification

  /** The tokens the loop still reads at `i`: the next one, or the error
      token once the input is used up, and then the rest. */
  lemma SplitAt(toks: seq<Token>, i: nat)
    requires i <= |toks|
    ensures toks[i..] + [Error]
         == [if i < |toks| then toks[i] else Error] + (if i < |toks| then toks[i + 1..] + [Error] else [])
  {
    if i < |toks| {
      assert toks[i..] == [toks[i]] + toks[i + 1..];
    }
  }

  lemma RunCons(s: Scan, t: Token, rest: seq<Token>)
    ensures Run(s, [t] + rest) == Run(Step(s, t), rest)
  {
    assert ([t] + rest)[0] == t && ([t] + rest)[1..] == rest;
  }

  /** Once the loop has returned, later tokens change nothing. */
  lemma {:induction false} RunDone(s: Scan, toks: seq<Token>)
    requires s.done
    ensures Run(s, toks) == s
    decreases |toks|
  {
    if toks != [] {
      RunDone(Step(s, toks[0]), toks[1..]);
    }
  }

  lemma {:induction false} RunAppend(s: Scan, a: seq<Token>, b: seq<Token>)
    ensures Run(s, a + b) == Run(Run(s, a), b)
    decreases |a|
  {
    if a == [] {
      assert a + b == b;
    } else {
      assert (a + b)[0] == a[0] && (a + b)[1..] == a[1..] + b;
      RunAppend(Step(s, a[0]), a[1..], b);
    }
  }

  /** The loop only ever appends to the output. */
  lemma {:induction false} RunExtends(s: Scan, toks: seq<Token>)
    ensures s.out <= Run(s, toks).out
    decreases |toks|
  {
    if toks != [] {
      RunExtends(Step(s, toks[0]), toks[1..]);
    }
  }

  /** The whole run is the run over the first `k` tokens, resumed on the
      rest. */
  lemma ResumeAt(toks: seq<Token>, k: nat)
    requires k <= |toks|
    ensures Run(Start, toks + [Error]) == Run(Run(Start, toks[..k]), toks[k..] + [Error])
  {
    SplitEnd(toks, k, Error);
    RunAppend(Start, toks[..k], toks[k..] + [Error]);
  }

  lemma SplitEnd(toks: seq<Token>, k: nat, t: Token)
    requires k <= |toks|
    ensures toks + [t] == toks[..k] + (toks[k..] + [t])
  {
    assert toks == toks[..k] + toks[k..];
  }

  /** The output after the first `k` tokens is a prefix of the final result. */
  lemma OutputOnlyGrows(toks: seq<Token>, k: nat)
    requires k <= |toks|
    ensures Run(Start, toks[..k]).out <= Normalized(toks)
  {
    ResumeAt(toks, k);
    RunExtends(Run(Start, toks[..k]), toks[k..] + [Error]);
  }

  /** An error token ends the input: whatever follows it is never read. */
  lemma ErrorEndsInput(toks: seq<Token>, k: nat)
    requires k < |toks| && toks[k].Error?
    ensures Normalized(toks) == Normalized(toks[..k])
  {
    var s := Run(Start, toks[..k]);
    var rest := toks[k + 1..] + [Error];
    ResumeAt(toks, k);
    SplitAt(toks, k);
    RunCons(s, Error, rest);
    RunDone(Step(s, Error), rest);
    RunAppend(Start, toks[..k], [Error]);
    RunCons(s, Error, []);
  }

  /** Truncation: if the output is over the limit after `k` tokens and the
      loop is still running, the result is that output plus one suffix. */
  lemma TruncatesOnce(toks: seq<Token>, k: nat)
    requires k <= |toks|
    requires !Run(Start, toks[..k]).done && Utf8Len(Run(Start, toks[..k]).out) > Limit
    ensures Normalized(toks) == Run(Start, toks[..k]).out + Suffix(Run(Start, toks[..k]).prev)
  {
    var s := Run(Start, toks[..k]);
    var rest := toks[k..] + [Error];
    ResumeAt(toks, k);
    assert rest == [rest[0]] + rest[1..];
    RunCons(s, rest[0], rest[1..]);
    RunDone(Step(s, rest[0]), rest[1..]);
  }

  /** The largest number of bytes one token of `toks` can add. */
  function MaxPiece(toks: seq<Token>): (m: nat)
    ensures forall t :: t in toks ==> Utf8Len(Emit("", t)) <= m
    ensures toks == [] ==> m == 0
    ensures toks != [] ==> exists k :: 0 <= k < |toks| && m == Utf8Len(Emit("", toks[k]))
  {
    if toks == [] then 0
    else
      var here := Utf8Len(Emit("", toks[0]));
      var later := MaxPiece(toks[1..]);
      assert forall t :: t in toks ==> t == toks[0] || t in toks[1..];
      if later <= here then here
      else
        var k :| 0 <= k < |toks[1..]| && later == Utf8Len(Emit("", toks[1..][k]));
        assert toks[1..][k] == toks[k + 1];
        later
  }

  /** A token adds no more after any start tag than after the initial one. */
  lemma EmitBound(prev: string, t: Token)
    ensures Utf8Len(Emit(prev, t)) <= Utf8Len(Emit("", t))
  {
  }

  lemma {:induction false} RunBound(s: Scan, toks: seq<Token>, m: nat)
    requires forall t :: t in toks ==> Utf8Len(Emit("", t)) <= m
    requires Utf8Len(s.out) <= Limit + m + (if s.done then MaxSuffixLen else 0)
    ensures Utf8Len(Run(s, toks).out) <= Limit + m + MaxSuffixLen
    decreases |toks|
  {
    if toks != [] {
      var t := toks[0];
      if !s.done {
        if Utf8Len(s.out) > Limit {
          SuffixShape(s.prev);
          Utf8LenAppend(s.out, Suffix(s.prev));
        } else if !t.Error? {
          EmitBound(s.prev, t);
          Utf8LenAppend(s.out, Emit(s.prev, t));
        }
      }
      assert forall u :: u in toks[1..] ==> u in toks;
      RunBound(Step(s, t), toks[1..], m);
    }
  }

  /** The output is never longer than the limit, plus what one token adds,
      plus one truncation suffix. */
  lemma NormalizedBound(toks: seq<Token>)
    ensures Utf8Len(Normalized(toks)) <= Limit + MaxPiece(toks) + MaxSuffixLen
  {
    var m := MaxPiece(toks);
    assert forall t :: t in toks + [Error] ==> t in toks || t == Error;
    RunBound(Start, toks + [Error], m);
  }

  /** A token that state `s` does not act on: the loop has returned, or will
      return at the next length test whatever the token is, or the token adds
      nothing and leaves the most recent start tag alone. */
  predicate Ignored(s: Scan, t: Token)
  {
    s.done || Utf8Len(s.out) > Limit
    || (!t.Error? && Emit(s.prev, t) == "" && Advance(s.prev, t) == s.prev)
  }

  /** Removing a token the loop does not act on leaves the result as it is. */
  lemma DropIgnored(a: seq<Token>, t: Token, b: seq<Token>)
    requires Ignored(Run(Start, a), t)
    ensures Normalized(a + [t] + b) == Normalized(a + b)
  {
    var s := Run(Start, a);
    var rest := b + [Error];
    assert a + [t] + b + [Error] == a + ([t] + rest);
    assert a + b + [Error] == a + rest;
    RunAppend(Start, a, [t] + rest);
    RunAppend(Start, a, rest);
    assert ([t] + rest)[0] == t && ([t] + rest)[1..] == rest;
    if s.done {
      RunDone(s, rest);
    } else if Utf8Len(s.out) > Limit {
      RunDone(Step(s, t), rest);
      RunDone(Step(s, rest[0]), rest[1..]);
    } else {
      assert Step(s, t) == s;
    }
  }

  /** Tags outside the list leave no closing marker: dropping such an end
      tag, or any self-closing tag but `br`, does not change the result. */
  lemma StrippedTagsLeaveNoMarker(a: seq<Token>, t: Token, b: seq<Token>)
    requires (t.EndTag? && t.name !in Tags) || (t.SelfClosing? && t.name != "br")
    ensures Normalized(a + [t] + b) == Normalized(a + b)
  {
    DropIgnored(a, t, b);
  }

  /** Text that is only white space adds nothing. */
  lemma BlankTextDropped(a: seq<Token>, s: string, b: seq<Token>)
    requires forall k :: 0 <= k < |s| ==> IsSpace(s[k])
    ensures Normalized(a + [Text(s)] + b) == Normalized(a + b)
  {
    TrimSpaceEmpty(s);
    DropIgnored(a, Text(s), b);
  }

  /** After a start tag, unless the loop has returned, that tag is the most
      recent one. */
  lemma AfterStartTag(a: seq<Token>, name: string, attrs: seq<Attr>)
    ensures var s := Run(Start, a + [StartTag(name, attrs)]);
            !s.done ==> s.prev == name
  {
    RunAppend(Start, a, [StartTag(name, attrs)]);
  }

  /** Any other token leaves the most recent start tag as it was. */
  lemma AfterOtherToken(a: seq<Token>, t: Token)
    requires !t.StartTag?
    ensures var s := Run(Start, a + [t]);
            !s.done ==> s.prev == Run(Start, a).prev
  {
    RunAppend(Start, a, [t]);
  }

  /** Text is ignored whenever the most recent start tag is `script`. */
  lemma ScriptIgnoresText(s: Scan, text: string)
    requires !s.done ==> s.prev == "script"
    ensures Ignored(s, Text(text))
  {
  }

  /** Text right after a `script` start tag is skipped. */
  lemma ScriptTextDropped(a: seq<Token>, attrs: seq<Attr>, s: string, b: seq<Token>)
    ensures Normalized(a + [StartTag("script", attrs), Text(s)] + b)
         == Normalized(a + [StartTag("script", attrs)] + b)
  {
    var a' := a + [StartTag("script", attrs)];
    AfterStartTag(a, "script", attrs);
    ScriptIgnoresText(Run(Start, a'), s);
    assert a + [StartTag("script", attrs), Text(s)] + b == a' + [Text(s)] + b;
    DropIgnored(a', Text(s), b);
  }

  /** Text is still skipped after the `script` element has been closed: the
      end tag does not change the most recent start tag. */
  lemma ClosedScriptTextDropped(a: seq<Token>, attrs: seq<Attr>, s: string, b: seq<Token>)
    ensures Normalized(a + [StartTag("script", attrs), EndTag("script"), Text(s)] + b)
         == Normalized(a + [StartTag("script", attrs), EndTag("script")] + b)
  {
    var a2 := a + [StartTag("script", attrs), EndTag("script")];
    ClosedScriptIgnoresText(a, attrs, s);
    assert a + [StartTag("script", attrs), EndTag("script"), Text(s)] + b == a2 + [Text(s)] + b;
    DropIgnored(a2, Text(s), b);
  }

  lemma ClosedScriptIgnoresText(a: seq<Token>, attrs: seq<Attr>, s: string)
    ensures Ignored(Run(Start, a + [StartTag("script", attrs), EndTag("script")]), Text(s))
  {
    var a1 := a + [StartTag("script", attrs)];
    assert a1 + [EndTag("script")] == a + [StartTag("script", attrs), EndTag("script")];
    AfterStartTag(a, "script", attrs);
    AfterOtherToken(a1, EndTag("script"));
    RunStaysDone(a1, EndTag("script"));
    ScriptIgnoresText(Run(Start, a1 + [EndTag("script")]), s);
  }

  /** A returned loop stays returned. */
  lemma RunStaysDone(a: seq<Token>, t: Token)
    ensures Run(Start, a).done ==> Run(Start, a + [t]).done
  {
    RunAppend(Start, a, [t]);
  }
}
