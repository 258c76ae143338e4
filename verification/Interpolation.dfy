/** `interpolate_vars`: `${name}` substitution with `$$` as the escape. */
module Interpolation {
  import opened Prelude

  /** The lexical units of a raw manifest. */
  datatype Token =
    | Text(c: char)        // any character but '$'
    | Escape               // "$$"
    | Bare                 // a '$' that starts neither an escape nor a reference
    | Reference(name: string)

  /** The tokens up to the end of the text, or up to a "${" that is never closed. */
  datatype Lexed = Lexed(tokens: seq<Token>, terminated: bool)

  datatype Outcome = Done(text: string) | Unterminated | Unknown(name: string)

  type Resolver = string -> Option<string>

  function IndexOf(s: string, c: char): (r: Option<nat>)
    ensures r.Some? ==> r.value < |s| && s[r.value] == c && c !in s[..r.value]
    ensures r.None? ==> c !in s
  {
    FindFirst(s, x => x == c)
  }

  function Lex(raw: string): Lexed
    decreases |raw|
  {
    if raw == "" then Lexed([], true)
    else if raw[0] != '$' then Push(Text(raw[0]), Lex(raw[1..]))
    else if |raw| > 1 && raw[1] == '$' then Push(Escape, Lex(raw[2..]))
    else if |raw| > 1 && raw[1] == '{' then
      match IndexOf(raw[2..], '}')
      case None => Lexed([], false)
      case Some(end) => Push(Reference(raw[2..][..end]), Lex(raw[2..][end + 1..]))
    else Push(Bare, Lex(raw[1..]))
  }

  function Push(t: Token, l: Lexed): Lexed {
    l.(tokens := [t] + l.tokens)
  }

  /** How a token is written in the manifest. */
  function Spelling(t: Token): string {
    match t
    case Text(c) => [c]
    case Escape => "$$"
    case Bare => "$"
    case Reference(n) => "${" + n + "}"
  }

  function Spell(ts: seq<Token>): string {
    if ts == [] then "" else Spelling(ts[0]) + Spell(ts[1..])
  }

  /** What the token stands for. A substituted value is taken as it is. */
  function Denotes(t: Token, resolve: Resolver): Option<string> {
    match t
    case Text(c) => Some([c])
    case Escape => Some("$")
    case Bare => Some("$")
    case Reference(n) => resolve(n)
  }

  /** The meaning of a manifest text: the first token that denotes nothing decides a failure. */
  function Meaning(l: Lexed, resolve: Resolver): Outcome
    decreases |l.tokens|
  {
    if l.tokens == [] then (if l.terminated then Done("") else Unterminated)
    else
      match Denotes(l.tokens[0], resolve)
      case None => Unknown(l.tokens[0].name)
      case Some(v) => Prepend(v, Meaning(l.(tokens := l.tokens[1..]), resolve))
  }

  function Interpret(raw: string, resolve: Resolver): Outcome {
    Meaning(Lex(raw), resolve)
  }

  function Prepend(s: string, o: Outcome): Outcome {
    if o.Done? then Done(s + o.text) else o
  }

  lemma PrependTwice(s: string, t: string, o: Outcome)
    ensures Prepend(s, Prepend(t, o)) == Prepend(s + t, o)
  {
    if o.Done? {
      assert s + (t + o.text) == (s + t) + o.text;
    }
  }

  lemma PrependNothing(o: Outcome)
    ensures Prepend("", o) == o
  {
    if o.Done? {
      assert "" + o.text == o.text;
    }
  }

  lemma MeaningOfPush(t: Token, l: Lexed, resolve: Resolver)
    requires Denotes(t, resolve).Some?
    ensures Meaning(Push(t, l), resolve) == Prepend(Denotes(t, resolve).value, Meaning(l, resolve))
  {
    assert Push(t, l).tokens[1..] == l.tokens;
  }

  /** Token `t`, written just before `rest`, is read as that token. */
  predicate Fits(t: Token, rest: string) {
    match t
    case Text(c) => c != '$'
    case Escape => true
    case Bare => rest == "" || (rest[0] != '$' && rest[0] != '{')
    case Reference(n) => '}' !in n
  }

  lemma FirstIndex(s: string, c: char, k: nat)
    requires k < |s| && s[k] == c && c !in s[..k]
    ensures IndexOf(s, c) == Some(k)
  {
    assert c in s;
  }

  lemma LexFits(t: Token, rest: string)
    requires Fits(t, rest)
    ensures Lex(Spelling(t) + rest) == Push(t, Lex(rest))
  {
    var raw := Spelling(t) + rest;
    assert raw[|Spelling(t)|..] == rest;
    match t
    case Text(c) =>
    case Escape =>
    case Bare =>
    case Reference(n) =>
      var inner := n + "}" + rest;
      assert raw[2..] == inner;
      assert inner[..|n|] == n && inner[|n| + 1..] == rest;
      FirstIndex(inner, '}', |n|);
  }

  lemma MeaningStep(out: string, t: Token, rest: string, resolve: Resolver)
    requires Fits(t, rest)
    ensures Denotes(t, resolve).Some? ==>
              (Prepend(out, Interpret(Spelling(t) + rest, resolve))
               == Prepend(out + Denotes(t, resolve).value, Interpret(rest, resolve)))
    ensures Denotes(t, resolve).None? ==> Interpret(Spelling(t) + rest, resolve) == Unknown(t.name)
  {
    LexFits(t, rest);
    if Denotes(t, resolve).Some? {
      MeaningOfPush(t, Lex(rest), resolve);
      PrependTwice(out, Denotes(t, resolve).value, Interpret(rest, resolve));
    }
  }

  lemma {:induction false} PlainText(out: string, pre: string, rest: string, resolve: Resolver)
    requires '$' !in pre
    ensures Prepend(out, Interpret(pre + rest, resolve)) == Prepend(out + pre, Interpret(rest, resolve))
    decreases |pre|
  {
    if pre == "" {
      assert pre + rest == rest && out + pre == out;
    } else {
      var tail := pre[1..] + rest;
      assert pre + rest == Spelling(Text(pre[0])) + tail;
      MeaningStep(out, Text(pre[0]), tail, resolve);
      PlainText(out + [pre[0]], pre[1..], rest, resolve);
      assert out + [pre[0]] + pre[1..] == out + pre;
    }
  }

  /** One turn of the scanner: plain text up to a token, then that token. */
  lemma ScanStep(out: string, rest: string, pre: string, t: Token, next: string, resolve: Resolver)
    requires '$' !in pre && Fits(t, next) && rest == pre + (Spelling(t) + next)
    ensures Denotes(t, resolve).Some? ==>
              (Prepend(out, Interpret(rest, resolve))
               == Prepend(out + pre + Denotes(t, resolve).value, Interpret(next, resolve)))
    ensures Denotes(t, resolve).None? ==> Prepend(out, Interpret(rest, resolve)) == Unknown(t.name)
  {
    PlainText(out, pre, Spelling(t) + next, resolve);
    MeaningStep(out + pre, t, next, resolve);
  }

  lemma ScanUnterminated(out: string, rest: string, pre: string, inner: string, resolve: Resolver)
    requires '$' !in pre && '}' !in inner && rest == pre + ("${" + inner)
    ensures Prepend(out, Interpret(rest, resolve)) == Unterminated
  {
    PlainText(out, pre, "${" + inner, resolve);
    assert ("${" + inner)[2..] == inner;
  }

  lemma ScanEnd(out: string, rest: string, resolve: Resolver)
    requires '$' !in rest
    ensures Prepend(out, Interpret(rest, resolve)) == Done(out + rest)
  {
    PlainText(out, rest, "", resolve);
    assert rest + "" == rest;
  }

  lemma ConcatAssociates(a: string, b: string, c: string)
    ensures (a + b) + c == a + (b + c)
  {
  }

  lemma CutOpening(rest: string, k: nat)
    requires k + 1 < |rest| && rest[k] == '$' && rest[k + 1] == '{'
    ensures rest == rest[..k] + ("${" + rest[k + 2..])
  {
  }

  lemma CutClosing(inner: string, end: nat)
    requires end < |inner| && inner[end] == '}'
    ensures inner == inner[..end] + ("}" + inner[end + 1..])
  {
  }

  lemma SpelledReference(name: string, next: string)
    ensures "${" + (name + ("}" + next)) == Spelling(Reference(name)) + next
  {
    ConcatAssociates("${" + name, "}", next);
    ConcatAssociates("${", name, "}" + next);
  }

  lemma CutReference(rest: string, k: nat, inner: string, end: nat)
    requires k + 1 < |rest| && rest[k] == '$' && rest[k + 1] == '{' && inner == rest[k + 2..]
    requires end < |inner| && inner[end] == '}'
    ensures rest == rest[..k] + (Spelling(Reference(inner[..end])) + inner[end + 1..])
  {
    CutOpening(rest, k);
    CutClosing(inner, end);
    SpelledReference(inner[..end], inner[end + 1..]);
  }

  /** The scanner over `out` and `rest` computes the token-level meaning. */
  method InterpolateVars(raw: string, resolve: Resolver) returns (r: Outcome)
    ensures r == Interpret(raw, resolve)
  {
    ghost var meaning := Interpret(raw, resolve);
    var out, rest := "", raw;
    var start := IndexOf(rest, '$');
    while start.Some?
      invariant start == IndexOf(rest, '$')
      invariant meaning == Prepend(out, Interpret(rest, resolve))
      decreases |rest|
    {
      var pre, after := rest[..start.value], rest[start.value + 1..];
      if after != "" && after[0] == '$' {
        ScanStep(out, rest, pre, Escape, after[1..], resolve);
        out, rest := out + pre + "$", after[1..];
      } else if after == "" || after[0] != '{' {
        ScanStep(out, rest, pre, Bare, after, resolve);
        out, rest := out + pre + "$", after;
      } else {
        var inner := after[1..];
        var end := IndexOf(inner, '}');
        if end.None? {
          ScanUnterminated(out, rest, pre, inner, resolve);
          return Unterminated;
        }
        var name, next := inner[..end.value], inner[end.value + 1..];
        CutReference(rest, start.value, inner, end.value);
        ScanStep(out, rest, pre, Reference(name), next, resolve);
        match resolve(name) {
          case Some(value) => out, rest := out + pre + value, next;
          case None => return Unknown(name);
        }
      }
      start := IndexOf(rest, '$');
    }
    ScanEnd(out, rest, resolve);
    return Done(out + rest);
  }

  // ----- the tokens are the right ones -----

  /** Each token is read as itself where it stands. */
  predicate Canonical(ts: seq<Token>) {
    ts == [] || (Fits(ts[0], Spell(ts[1..])) && Canonical(ts[1..]))
  }

  /** Reading back a canonical token list gives that list: the lexing is unambiguous. */
  lemma {:induction false} LexSpell(ts: seq<Token>)
    requires Canonical(ts)
    ensures Lex(Spell(ts)) == Lexed(ts, true)
    decreases |ts|
  {
    if ts != [] {
      LexSpell(ts[1..]);
      LexFits(ts[0], Spell(ts[1..]));
      assert ts == [ts[0]] + ts[1..];
    }
  }

  /** Lexing loses nothing: the text is the spelling, up to an unclosed reference. */
  lemma {:induction false} SpellLex(raw: string)
    ensures Lex(raw).terminated ==> Canonical(Lex(raw).tokens) && Spell(Lex(raw).tokens) == raw
    ensures !Lex(raw).terminated ==> exists tail :: '}' !in tail && EndsOpen(raw, Spell(Lex(raw).tokens), tail)
    decreases |raw|
  {
    if raw != "" {
      var t, rest := NextToken(raw);
      if t.Some? {
        SpellLex(rest);
        SpellOfPush(t.value, Lex(rest));
        if !Lex(rest).terminated {
          var tail :| '}' !in tail && EndsOpen(rest, Spell(Lex(rest).tokens), tail);
          OpenLonger(rest, Spell(Lex(rest).tokens), tail, Spelling(t.value));
        }
      } else {
        assert EndsOpen(raw, "", raw[2..]);
      }
    }
  }

  ghost predicate EndsOpen(raw: string, closed: string, tail: string) {
    raw == closed + ("${" + tail)
  }

  lemma OpenLonger(raw: string, closed: string, tail: string, pre: string)
    requires EndsOpen(raw, closed, tail)
    ensures EndsOpen(pre + raw, pre + closed, tail)
  {
  }

  lemma SpellOfPush(t: Token, l: Lexed)
    ensures Spell(Push(t, l).tokens) == Spelling(t) + Spell(l.tokens)
    ensures Fits(t, Spell(l.tokens)) && Canonical(l.tokens) ==> Canonical(Push(t, l).tokens)
  {
    assert Push(t, l).tokens[1..] == l.tokens;
  }

  /** One step of the lexer: the first token and the text after it. */
  lemma NextToken(raw: string) returns (t: Option<Token>, rest: string)
    requires raw != ""
    ensures t.Some? ==> |rest| < |raw| && raw == Spelling(t.value) + rest && Fits(t.value, rest)
    ensures t.Some? ==> Lex(raw) == Push(t.value, Lex(rest))
    ensures t.None? ==> |raw| > 1 && raw[..2] == "${" && '}' !in raw[2..] && Lex(raw) == Lexed([], false)
  {
    if raw[0] != '$' {
      t, rest := Some(Text(raw[0])), raw[1..];
    } else if |raw| > 1 && raw[1] == '$' {
      t, rest := Some(Escape), raw[2..];
    } else if |raw| > 1 && raw[1] == '{' {
      var end := IndexOf(raw[2..], '}');
      if end.None? {
        return None, "";
      }
      t, rest := Some(Reference(raw[2..][..end.value])), raw[2..][end.value + 1..];
    } else {
      t, rest := Some(Bare), raw[1..];
    }
  }

  /** The first `k` tokens stand for something. */
  ghost predicate FineUpTo(ts: seq<Token>, resolve: Resolver, k: nat) {
    k <= |ts| && forall j :: 0 <= j < k ==> Denotes(ts[j], resolve).Some?
  }

  /** Token `k` is the first that stands for nothing: a reference to the unknown name `n`. */
  ghost predicate FailsAt(ts: seq<Token>, resolve: Resolver, n: string, k: nat) {
    k < |ts| && FineUpTo(ts, resolve, k) && ts[k] == Reference(n) && resolve(n).None?
  }

  lemma FineLater(ts: seq<Token>, resolve: Resolver, k: nat)
    requires ts != [] && Denotes(ts[0], resolve).Some? && k < |ts|
    ensures FineUpTo(ts, resolve, k + 1) <==> FineUpTo(ts[1..], resolve, k)
  {
    if FineUpTo(ts, resolve, k + 1) {
      forall j | 0 <= j < k ensures Denotes(ts[1..][j], resolve).Some? {
        assert ts[1..][j] == ts[j + 1];
      }
    }
  }

  /** Succeeds exactly on a terminated text whose every token stands for something. */
  lemma {:induction false} SucceedsIff(l: Lexed, resolve: Resolver)
    ensures Meaning(l, resolve).Done? <==> l.terminated && FineUpTo(l.tokens, resolve, |l.tokens|)
    ensures Meaning(l, resolve).Unterminated? <==> !l.terminated && FineUpTo(l.tokens, resolve, |l.tokens|)
    decreases |l.tokens|
  {
    if l.tokens != [] {
      SucceedsIff(l.(tokens := l.tokens[1..]), resolve);
      if Denotes(l.tokens[0], resolve).Some? {
        FineLater(l.tokens, resolve, |l.tokens| - 1);
      }
    }
  }

  /** Fails exactly on the first reference to an unknown name, tokens before it being fine. */
  lemma {:induction false} FailsOnFirst(l: Lexed, resolve: Resolver, n: string)
    ensures Meaning(l, resolve) == Unknown(n) <==> exists k: nat :: FailsAt(l.tokens, resolve, n, k)
    decreases |l.tokens|
  {
    if l.tokens != [] {
      var rest := l.(tokens := l.tokens[1..]);
      FailsOnFirst(rest, resolve, n);
      if Denotes(l.tokens[0], resolve).Some? {
        if k: nat :| FailsAt(rest.tokens, resolve, n, k) {
          FineLater(l.tokens, resolve, k);
          assert FailsAt(l.tokens, resolve, n, k + 1);
        }
        if k: nat :| FailsAt(l.tokens, resolve, n, k) {
          FineLater(l.tokens, resolve, k - 1);
          assert FailsAt(rest.tokens, resolve, n, k - 1);
        }
      } else {
        assert l.tokens[0].Reference? && FineUpTo(l.tokens, resolve, 0);
        assert FailsAt(l.tokens, resolve, l.tokens[0].name, 0);
      }
    }
  }

  // ----- escaping round trip -----

  /** Writing every '$' twice. */
  function Double(s: string): string {
    if s == "" then "" else (if s[0] == '$' then "$$" else [s[0]]) + Double(s[1..])
  }

  function DoubledToken(c: char): Token {
    if c == '$' then Escape else Text(c)
  }

  lemma DoubledSpelling(s: string, rest: string)
    requires s != ""
    ensures Double(s) + rest == Spelling(DoubledToken(s[0])) + (Double(s[1..]) + rest)
  {
    var first, others := Spelling(DoubledToken(s[0])), Double(s[1..]);
    assert Double(s) == first + others;
    ConcatAssociates(first, others, rest);
  }

  lemma DoubledHead(out: string, s: string, rest: string, resolve: Resolver)
    requires s != ""
    ensures Prepend(out, Interpret(Double(s) + rest, resolve))
         == Prepend(out + [s[0]], Interpret(Double(s[1..]) + rest, resolve))
  {
    DoubledSpelling(s, rest);
    MeaningStep(out, DoubledToken(s[0]), Double(s[1..]) + rest, resolve);
  }

  lemma {:induction false} DoubledPrefix(out: string, s: string, rest: string, resolve: Resolver)
    ensures Prepend(out, Interpret(Double(s) + rest, resolve)) == Prepend(out + s, Interpret(rest, resolve))
    decreases |s|
  {
    if s == "" {
      assert Double(s) + rest == rest && out + s == out;
    } else {
      DoubledHead(out, s, rest, resolve);
      DoubledPrefix(out + [s[0]], s[1..], rest, resolve);
      assert out + [s[0]] + s[1..] == out + s;
    }
  }

  /** Interpolation undoes dollar-doubling, whatever the variables are. */
  lemma DoublingRoundTrip(s: string, resolve: Resolver)
    ensures Interpret(Double(s), resolve) == Done(s)
  {
    DoubledPrefix("", s, "", resolve);
    assert Double(s) + "" == Double(s);
    PrependNothing(Interpret(Double(s), resolve));
  }

  /** A substituted value lands unchanged between its neighbours, even if it holds "${...}" itself. */
  lemma ValuesAreNotRescanned(before: string, name: string, value: string, after: string, resolve: Resolver)
    requires '}' !in name && resolve(name) == Some(value)
    ensures Interpret(Double(before) + (Spelling(Reference(name)) + Double(after)), resolve) == Done(before + value + after)
  {
    var tail := Spelling(Reference(name)) + Double(after);
    DoublingRoundTrip(after, resolve);
    MeaningStep(before, Reference(name), Double(after), resolve);
    DoubledPrefix("", before, tail, resolve);
    PrependNothing(Interpret(Double(before) + tail, resolve));
    assert "" + before == before;
  }

  // ----- bare dollars -----

  /** Character `i` is a dollar with a dollar or an opening brace behind it. */
  predicate StartsToken(raw: string, i: nat) {
    i + 1 < |raw| && raw[i] == '$' && (raw[i + 1] == '$' || raw[i + 1] == '{')
  }

  /** Neither "$$" nor "${" is in the text. */
  ghost predicate Plain(raw: string) {
    forall i: nat :: !StartsToken(raw, i)
  }

  lemma PlainHead(raw: string) returns (t: Token)
    requires Plain(raw) && raw != ""
    ensures Fits(t, raw[1..]) && raw == Spelling(t) + raw[1..] && Plain(raw[1..]) && (t == Text(raw[0]) || t == Bare)
  {
    t := if raw[0] == '$' then Bare else Text(raw[0]);
    assert !StartsToken(raw, 0);
    forall i: nat ensures !StartsToken(raw[1..], i) {
      assert !StartsToken(raw, i + 1);
    }
  }

  lemma PlainStep(out: string, raw: string, resolve: Resolver)
    requires Plain(raw) && raw != ""
    ensures Plain(raw[1..]) && Prepend(out, Interpret(raw, resolve)) == Prepend(out + [raw[0]], Interpret(raw[1..], resolve))
  {
    var t := PlainHead(raw);
    MeaningStep(out, t, raw[1..], resolve);
  }

  lemma {:induction false} PlainPrefix(out: string, raw: string, resolve: Resolver)
    requires Plain(raw)
    ensures Prepend(out, Interpret(raw, resolve)) == Done(out + raw)
    decreases |raw|
  {
    if raw == "" {
      assert out + raw == out;
    } else {
      PlainStep(out, raw, resolve);
      PlainPrefix(out + [raw[0]], raw[1..], resolve);
      assert out + [raw[0]] + raw[1..] == out + raw;
    }
  }

  /** A text without "$$" and "${" stands for itself, single dollars included. */
  lemma PlainIsKept(raw: string, resolve: Resolver)
    requires Plain(raw)
    ensures Interpret(raw, resolve) == Done(raw)
  {
    PlainPrefix("", raw, resolve);
    PrependNothing(Interpret(raw, resolve));
    assert "" + raw == raw;
  }

  /** A bare dollar between two texts stays where it is, and nothing of the second is read with it. */
  lemma BareDollarIsKept(before: string, after: string, resolve: Resolver)
    requires after == "" || (after[0] != '$' && after[0] != '{')
    ensures Interpret(Double(before) + ("$" + after), resolve) == Prepend(before + "$", Interpret(after, resolve))
  {
    MeaningStep(before, Bare, after, resolve);
    DoubledPrefix("", before, "$" + after, resolve);
    PrependNothing(Interpret(Double(before) + ("$" + after), resolve));
    assert "" + before == before;
  }
}
