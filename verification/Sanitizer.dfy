/** The allow-list HTML sanitizer: parser events in, safe markup out. */
module Sanitizer {
  import opened Prelude

  predicate AllowedTag(tag: string)
  {
    tag in {"p", "br", "b", "strong", "i", "em", "u", "s", "h1", "h2", "h3", "h4",
            "ul", "ol", "li", "a", "div", "span", "blockquote"}
  }

  predicate VoidTag(tag: string) { tag == "br" }

  const SAFE_HREF: set<string> := {"http://", "https://", "mailto:", "tel:"}

  /** Lower case of the letters A to Z. */
  function Lower(s: string): (r: string)
    ensures |r| == |s|
    ensures forall i :: 0 <= i < |s| ==> r[i] == if 'A' <= s[i] <= 'Z' then s[i] - 'A' + 'a' else s[i]
  {
    if s == [] then []
    else [if 'A' <= s[0] <= 'Z' then s[0] - 'A' + 'a' else s[0]] + Lower(s[1..])
  }

  // ---- Escaping text and attribute values ----

  function EscapeChar(c: char): string
  {
    if c == '&' then "&amp;"
    else if c == '<' then "&lt;"
    else if c == '>' then "&gt;"
    else if c == '"' then "&quot;"
    else if c == '\'' then "&#x27;"
    else [c]
  }

  function Escape(s: string): string
  {
    if s == [] then [] else EscapeChar(s[0]) + Escape(s[1..])
  }

  /** How many characters the reference at the start of a text takes, and what it
      stands for. */
  function Reference(s: string): (nat, char)
    requires s != []
  {
    if "&amp;" <= s then (5, '&')
    else if "&lt;" <= s then (4, '<')
    else if "&gt;" <= s then (4, '>')
    else if "&quot;" <= s then (6, '"')
    else if "&#x27;" <= s then (6, '\'')
    else (1, s[0])
  }

  /** Read back the references that escaping writes. */
  function Unescape(s: string): string
    decreases |s|
  {
    if s == [] then [] else
    var (n, c) := Reference(s);
    [c] + Unescape(s[n..])
  }

  lemma ReferenceOfEscape(c: char, rest: string)
    ensures var s := EscapeChar(c) + rest;
            Reference(s) == (|EscapeChar(c)|, c) && s[|EscapeChar(c)|..] == rest
  {
    var s := EscapeChar(c) + rest;
    assert s[..|EscapeChar(c)|] == EscapeChar(c);
    assert s[0] == EscapeChar(c)[0];
    if |EscapeChar(c)| > 1 {
      assert s[0] == '&' && s[1] == EscapeChar(c)[1] && s[2] == EscapeChar(c)[2];
    }
  }

  predicate Harmless(s: string)
  {
    forall c :: c in s ==> c != '<' && c != '>' && c != '"' && c != '\''
  }

  lemma EscapeCharHarmless(c: char)
    ensures Harmless(EscapeChar(c))
  {
  }

  /** Escaping loses nothing, and what it writes holds no character that could
      open a tag or end an attribute value. */
  lemma {:induction false} EscapeRoundTrip(s: string)
    ensures Unescape(Escape(s)) == s
    ensures Harmless(Escape(s))
  {
    if s != [] {
      hide EscapeChar, Reference;
      EscapeRoundTrip(s[1..]);
      ReferenceOfEscape(s[0], Escape(s[1..]));
      EscapeCharHarmless(s[0]);
      EscapeCharWritten(s[0]);
      assert [s[0]] + s[1..] == s;
    }
  }

  lemma EscapeCharWritten(c: char)
    ensures EscapeChar(c) != []
  {
  }

  // ---- Events and tokens ----

  datatype Event =
    | StartTag(tag: string, attrs: seq<(string, Option<string>)>)
    | EndTag(tag: string)
    | Data(text: string)

  /** Markup as written: `Link` carries the only attribute value that is kept. */
  datatype Token = Open(tag: string) | Link(href: string) | Close(tag: string) | Text(text: string)

  predicate SafeHref(href: string)
  {
    exists p :: p in SAFE_HREF && p <= Lower(href)
  }

  /** The first href attribute, if it has a value. */
  function FirstHref(attrs: seq<(string, Option<string>)>): string
  {
    if attrs == [] then ""
    else if attrs[0].0 == "href" then (if attrs[0].1.Some? then attrs[0].1.value else "")
    else FirstHref(attrs[1..])
  }

  function Opening(tag: string, attrs: seq<(string, Option<string>)>): Token
  {
    if tag == "a" then (var href := FirstHref(attrs); Link(if SafeHref(href) then href else "#"))
    else Open(tag)
  }

  /** What the sanitizer has written and which tags it has open, innermost last. */
  datatype State = State(out: seq<Token>, stack: seq<string>)

  /** Close tags from the innermost out, down to and including `tag`. */
  function CloseDownTo(s: State, tag: string): State
    decreases |s.stack|
  {
    if s.stack == [] then s else
    var top := s.stack[|s.stack| - 1];
    var t := State(s.out + [Close(top)], s.stack[..|s.stack| - 1]);
    if top == tag then t else CloseDownTo(t, tag)
  }

  function CloseAll(s: State): State
    decreases |s.stack|
  {
    if s.stack == [] then s else
    CloseAll(State(s.out + [Close(s.stack[|s.stack| - 1])], s.stack[..|s.stack| - 1]))
  }

  function Handle(s: State, e: Event): State
  {
    match e
    case StartTag(raw, attrs) =>
      var tag := Lower(raw);
      if !AllowedTag(tag) then s
      else State(s.out + [Opening(tag, attrs)], if VoidTag(tag) then s.stack else s.stack + [tag])
    case EndTag(raw) =>
      var tag := Lower(raw);
      if !AllowedTag(tag) || VoidTag(tag) || tag !in s.stack then s else CloseDownTo(s, tag)
    case Data(text) => s.(out := s.out + [Text(text)])
  }

  function HandleAll(s: State, events: seq<Event>): State
    decreases |events|
  {
    if events == [] then s else HandleAll(Handle(s, events[0]), events[1..])
  }

  function Sanitize(events: seq<Event>): seq<Token> { CloseAll(HandleAll(State([], []), events)).out }

  // ---- The parser's handlers, writing in place ----

  class Writer {
    var out: seq<Token>
    var stack: seq<string>

    function View(): State
      reads this
    {
      State(out, stack)
    }

    constructor ()
      ensures View() == State([], [])
    {
      out, stack := [], [];
    }

    method HandleStart(raw: string, attrs: seq<(string, Option<string>)>)
      modifies this
      ensures View() == Handle(old(View()), StartTag(raw, attrs))
    {
      var tag := Lower(raw);
      if !AllowedTag(tag) {
        return;
      }
      if tag == "a" {
        var href := FirstHref(attrs);
        if !SafeHref(href) {
          href := "#";
        }
        out := out + [Link(href)];
      } else {
        out := out + [Open(tag)];
      }
      if !VoidTag(tag) {
        stack := stack + [tag];
      }
    }

    method HandleEnd(raw: string)
      modifies this
      ensures View() == Handle(old(View()), EndTag(raw))
    {
      var tag := Lower(raw);
      if !AllowedTag(tag) || VoidTag(tag) || tag !in stack {
        return;
      }
      ghost var all := CloseDownTo(View(), tag);
      while stack != []
        invariant CloseDownTo(View(), tag) == all
        decreases |stack|
      {
        var top := stack[|stack| - 1];
        stack := stack[..|stack| - 1];
        out := out + [Close(top)];
        if top == tag {
          return;
        }
      }
    }

    method HandleData(text: string)
      modifies this
      ensures View() == Handle(old(View()), Data(text))
    {
      out := out + [Text(text)];
    }

    method Finish()
      modifies this
      ensures View() == CloseAll(old(View()))
    {
      while stack != []
        invariant CloseAll(View()) == CloseAll(old(View()))
        decreases |stack|
      {
        out := out + [Close(stack[|stack| - 1])];
        stack := stack[..|stack| - 1];
      }
    }
  }

  method SanitizeHtml(events: seq<Event>) returns (out: seq<Token>)
    ensures out == Sanitize(events)
  {
    var w := new Writer();
    var i := 0;
    while i < |events|
      invariant 0 <= i <= |events|
      invariant HandleAll(w.View(), events[i..]) == HandleAll(State([], []), events)
      invariant fresh(w)
    {
      assert events[i..][1..] == events[i + 1..];
      match events[i] {
        case StartTag(tag, attrs) => w.HandleStart(tag, attrs);
        case EndTag(tag) => w.HandleEnd(tag);
        case Data(text) => w.HandleData(text);
      }
      i := i + 1;
    }
    w.Finish();
    out := w.out;
  }

  // ---- What comes out ----

  /** Read tokens against a stack of open tags: None if a tag is closed that is
      not the innermost open one. */
  function Nest(tokens: seq<Token>, stack: seq<string>): Option<seq<string>>
  {
    if tokens == [] then Some(stack) else
    match tokens[0]
    case Open(tag) => Nest(tokens[1..], if VoidTag(tag) then stack else stack + [tag])
    case Link(_) => Nest(tokens[1..], stack + ["a"])
    case Close(tag) =>
      if stack == [] || stack[|stack| - 1] != tag then None else Nest(tokens[1..], stack[..|stack| - 1])
    case Text(_) => Nest(tokens[1..], stack)
  }

  /** An allow-listed tag, in lower case. */
  predicate SafeTag(tag: string) { AllowedTag(tag) && Lower(tag) == tag }

  lemma LowerTwice(s: string)
    ensures Lower(Lower(s)) == Lower(s)
  {
  }

  /** An allow-listed tag without attributes, or a link to a safe address. */
  predicate SafeToken(t: Token)
  {
    match t
    case Open(tag) => SafeTag(tag) && tag != "a"
    case Link(href) => href == "#" || SafeHref(href)
    case Close(tag) => SafeTag(tag) && !VoidTag(tag)
    case Text(_) => true
  }

  predicate SafeState(s: State)
  {
    && (forall i :: 0 <= i < |s.out| ==> SafeToken(s.out[i]))
    && (forall i :: 0 <= i < |s.stack| ==> SafeTag(s.stack[i]) && !VoidTag(s.stack[i]))
    && Nest(s.out, []) == Some(s.stack)
  }

  lemma {:induction false} NestAppend(tokens: seq<Token>, t: Token, stack: seq<string>)
    requires Nest(tokens, stack).Some?
    ensures Nest(tokens + [t], stack) == Nest([t], Nest(tokens, stack).value)
  {
    if tokens == [] {
      assert tokens + [t] == [t];
    } else {
      assert (tokens + [t])[1..] == tokens[1..] + [t];
      match tokens[0]
      case Open(tag) => NestAppend(tokens[1..], t, if VoidTag(tag) then stack else stack + [tag]);
      case Link(_) => NestAppend(tokens[1..], t, stack + ["a"]);
      case Close(tag) => NestAppend(tokens[1..], t, stack[..|stack| - 1]);
      case Text(_) => NestAppend(tokens[1..], t, stack);
    }
  }

  lemma CloseTopIsSafe(s: State)
    requires SafeState(s) && s.stack != []
    ensures SafeState(State(s.out + [Close(s.stack[|s.stack| - 1])], s.stack[..|s.stack| - 1]))
  {
    hide Lower, AllowedTag, SafeHref;
    NestAppend(s.out, Close(s.stack[|s.stack| - 1]), []);
  }

  lemma {:induction false} CloseDownToIsSafe(s: State, tag: string)
    requires SafeState(s)
    ensures SafeState(CloseDownTo(s, tag))
    decreases |s.stack|
  {
    if s.stack != [] {
      CloseTopIsSafe(s);
      var top := s.stack[|s.stack| - 1];
      if top != tag {
        CloseDownToIsSafe(State(s.out + [Close(top)], s.stack[..|s.stack| - 1]), tag);
      }
    }
  }

  lemma {:induction false} CloseAllIsSafe(s: State)
    requires SafeState(s)
    ensures SafeState(CloseAll(s)) && CloseAll(s).stack == []
    decreases |s.stack|
  {
    if s.stack != [] {
      CloseTopIsSafe(s);
      CloseAllIsSafe(State(s.out + [Close(s.stack[|s.stack| - 1])], s.stack[..|s.stack| - 1]));
    }
  }

  lemma OpeningIsSafe(s: State, raw: string, attrs: seq<(string, Option<string>)>)
    requires SafeState(s) && AllowedTag(Lower(raw))
    ensures SafeState(Handle(s, StartTag(raw, attrs)))
  {
    hide Lower, FirstHref;
    var tag := Lower(raw);
    LowerTwice(raw);
    assert SafeTag(tag);
    var t := Opening(tag, attrs);
    assert SafeToken(t);
    NestAppend(s.out, t, []);
    assert Nest([t], s.stack) == Some(if VoidTag(tag) then s.stack else s.stack + [tag]) by {
      assert [t][1..] == [];
    }
  }

  lemma HandleIsSafe(s: State, e: Event)
    requires SafeState(s)
    ensures SafeState(Handle(s, e))
  {
    hide Lower, SafeHref, FirstHref, SafeTag;
    match e
    case StartTag(raw, attrs) => if AllowedTag(Lower(raw)) { OpeningIsSafe(s, raw, attrs); }
    case EndTag(raw) => CloseDownToIsSafe(s, Lower(raw));
    case Data(text) => NestAppend(s.out, Text(text), []);
  }

  lemma {:induction false} HandleAllIsSafe(s: State, events: seq<Event>)
    requires SafeState(s)
    ensures SafeState(HandleAll(s, events))
    decreases |events|
  {
    if events != [] {
      HandleIsSafe(s, events[0]);
      HandleAllIsSafe(Handle(s, events[0]), events[1..]);
    }
  }

  /** Whatever the parser reports, the output is a properly nested word over
      allow-listed tags, without attributes but for links to safe addresses. */
  lemma OutputIsSafe(events: seq<Event>)
    ensures Nest(Sanitize(events), []) == Some([])
    ensures forall i :: 0 <= i < |Sanitize(events)| ==> SafeToken(Sanitize(events)[i])
  {
    HandleAllIsSafe(State([], []), events);
    CloseAllIsSafe(HandleAll(State([], []), events));
  }

  /** The addresses a link may have, whatever the case of their letters. */
  lemma SafeHrefExactly(href: string)
    ensures SafeHref(href) <==>
              var h := Lower(href); "http://" <= h || "https://" <= h || "mailto:" <= h || "tel:" <= h
  {
    var h := Lower(href);
    if "http://" <= h || "https://" <= h || "mailto:" <= h || "tel:" <= h {
      var p := if "http://" <= h then "http://" else if "https://" <= h then "https://"
               else if "mailto:" <= h then "mailto:" else "tel:";
      assert p in SAFE_HREF && p <= h;
    }
  }

  /** A start tag that is allowed is written bare, whatever attributes it came with; a
      link keeps the address of its first href if that is safe, and gets # otherwise; an
      element that is not void is opened. Any other tag is dropped whole. */
  lemma StartTagExactly(s: State, raw: string, attrs: seq<(string, Option<string>)>)
    ensures var t, tag := Handle(s, StartTag(raw, attrs)), Lower(raw);
            if !AllowedTag(tag) then t == s
            else
              && t.stack == (if tag == "br" then s.stack else s.stack + [tag])
              && |t.out| == |s.out| + 1 && t.out[..|s.out|] == s.out
              && (tag != "a" ==> t.out[|s.out|] == Open(tag))
              && (tag == "a" ==>
                    && ((forall k :: 0 <= k < |attrs| ==> attrs[k].0 != "href") ==> t.out[|s.out|] == Link("#"))
                    && forall k :: 0 <= k < |attrs| && attrs[k].0 == "href"
                                   && (forall j :: 0 <= j < k ==> attrs[j].0 != "href") ==>
                         t.out[|s.out|] ==
                           Link(if attrs[k].1.Some? && SafeHref(attrs[k].1.value) then attrs[k].1.value else "#"))
  {
    hide Lower, SafeHref, FirstHref;
    if Lower(raw) == "a" {
      UnsafeHash();
      forall k | 0 <= k < |attrs| && attrs[k].0 == "href" && forall j :: 0 <= j < k ==> attrs[j].0 != "href"
        ensures FirstHref(attrs) == if attrs[k].1.Some? then attrs[k].1.value else ""
      {
        FirstHrefAt(attrs, k);
      }
      if forall k :: 0 <= k < |attrs| ==> attrs[k].0 != "href" { NoHref(attrs); }
    }
  }

  lemma {:induction false} FirstHrefAt(attrs: seq<(string, Option<string>)>, k: nat)
    requires k < |attrs| && attrs[k].0 == "href" && forall j :: 0 <= j < k ==> attrs[j].0 != "href"
    ensures FirstHref(attrs) == if attrs[k].1.Some? then attrs[k].1.value else ""
  {
    if k > 0 {
      FirstHrefAt(attrs[1..], k - 1);
    }
  }

  lemma {:induction false} NoHref(attrs: seq<(string, Option<string>)>)
    requires forall k :: 0 <= k < |attrs| ==> attrs[k].0 != "href"
    ensures FirstHref(attrs) == ""
  {
    if attrs != [] {
      NoHref(attrs[1..]);
    }
  }

  /** An end tag closes the innermost element of its name and whatever was left
      open inside it; one that matches nothing open is dropped whole. */
  lemma {:induction false} ClosesInnermost(s: State, tag: string) returns (k: nat)
    requires tag in s.stack
    ensures k < |s.stack| && s.stack[k] == tag && tag !in s.stack[k + 1..]
    ensures CloseDownTo(s, tag).stack == s.stack[..k]
    decreases |s.stack|
  {
    var n := |s.stack| - 1;
    if s.stack[n] == tag {
      k := n;
    } else {
      k := ClosesInnermost(State(s.out + [Close(s.stack[n])], s.stack[..n]), tag);
      assert s.stack[k + 1..] == s.stack[..n][k + 1..] + [s.stack[n]];
    }
  }

  lemma EndTagExactly(s: State, raw: string)
    requires SafeState(s)
    ensures var t := Handle(s, EndTag(raw));
            if Lower(raw) in s.stack
            then exists k :: 0 <= k < |s.stack| && t.stack == s.stack[..k] && s.stack[k] == Lower(raw)
                             && Lower(raw) !in s.stack[k + 1..]
            else t == s
  {
    if Lower(raw) in s.stack {
      var k := ClosesInnermost(s, Lower(raw));
    }
  }

  // ---- What is written ----

  const LINK_REST := "\" target=\"_blank\" rel=\"noopener noreferrer\""

  function LinkInside(value: string): string
  {
    "a href=\"" + value + LINK_REST
  }

  /** The markup of a token. Tags outside the allow list never get here. */
  function Written(t: Token): string
  {
    match t
    case Open(tag) => "<" + tag + ">"
    case Link(href) => "<" + LinkInside(Escape(href)) + ">"
    case Close(tag) => "</" + tag + ">"
    case Text(text) => Escape(text)
  }

  function WrittenAll(tokens: seq<Token>): string
  {
    if tokens == [] then "" else Written(tokens[0]) + WrittenAll(tokens[1..])
  }

  function Count(s: string, c: char): nat
  {
    if s == [] then 0 else (if s[0] == c then 1 else 0) + Count(s[1..], c)
  }

  function Tags(tokens: seq<Token>): nat
  {
    if tokens == [] then 0 else (if tokens[0].Text? then 0 else 1) + Tags(tokens[1..])
  }

  lemma {:induction false} CountConcat(a: string, b: string, c: char)
    ensures Count(a + b, c) == Count(a, c) + Count(b, c)
  {
    if a == [] {
      assert a + b == b;
    } else {
      assert (a + b)[1..] == a[1..] + b;
      CountConcat(a[1..], b, c);
    }
  }

  lemma {:induction false} CountNone(s: string, c: char)
    requires c !in s
    ensures Count(s, c) == 0
  {
    if s != [] {
      CountNone(s[1..], c);
    }
  }

  lemma SafeTagHarmless(tag: string)
    requires AllowedTag(tag)
    ensures Harmless(tag)
  {
  }

  lemma {:induction false} CountOne(s: string, k: nat, c: char)
    requires k < |s| && s[k] == c
    requires forall i :: 0 <= i < |s| && i != k ==> s[i] != c
    ensures Count(s, c) == 1
  {
    if k == 0 {
      CountNone(s[1..], c);
    } else {
      CountOne(s[1..], k - 1, c);
    }
  }

  /** Written, a tag opens with its own bracket and ends with its own, and a text
      has none. */
  lemma WrittenBrackets(t: Token)
    requires SafeToken(t)
    ensures Count(Written(t), '<') == Count(Written(t), '>') == if t.Text? then 0 else 1
    ensures !t.Text? ==> Written(t)[0] == '<' && Written(t)[|Written(t)| - 1] == '>'
  {
    hide Count, Escape, AllowedTag, Lower, SafeHref;
    match t
    case Open(tag) =>
      SafeTagHarmless(tag);
      BracketsAround(tag);
    case Close(tag) =>
      SafeTagHarmless(tag);
      BracketsAround("/" + tag);
      assert "</" + tag + ">" == "<" + ("/" + tag) + ">";
    case Link(href) => LinkBrackets(href);
    case Text(text) =>
      EscapeRoundTrip(text);
      CountNone(Escape(text), '<');
      CountNone(Escape(text), '>');
  }

  lemma LinkBrackets(href: string)
    ensures Count(Written(Link(href)), '<') == Count(Written(Link(href)), '>') == 1
    ensures Written(Link(href))[0] == '<' && Written(Link(href))[|Written(Link(href))| - 1] == '>'
  {
    hide Count, Escape, LinkInside;
    EscapeRoundTrip(href);
    LinkInsideHasNoBracket(Escape(href));
    BracketsAround(LinkInside(Escape(href)));
  }

  lemma LinkInsideHasNoBracket(value: string)
    requires '<' !in value && '>' !in value
    ensures '<' !in LinkInside(value) && '>' !in LinkInside(value)
  {
    var before := "a href=\"";
    var s := before + value + LINK_REST;
    forall i | 0 <= i < |s| ensures s[i] != '<' && s[i] != '>' {
      if i < |before| {
        assert s[i] == before[i];
      } else if i < |before| + |value| {
        assert s[i] == value[i - |before|];
      } else {
        assert s[i] == LINK_REST[i - |before| - |value|];
      }
    }
  }

  lemma BracketsAround(inner: string)
    requires '<' !in inner && '>' !in inner
    ensures Count("<" + inner + ">", '<') == Count("<" + inner + ">", '>') == 1
  {
    hide Count;
    var s := "<" + inner + ">";
    assert forall i :: 0 < i < |s| - 1 ==> s[i] == inner[i - 1];
    CountOne(s, 0, '<');
    CountOne(s, |s| - 1, '>');
  }

  lemma {:induction false} BracketsOfAll(tokens: seq<Token>)
    requires forall i :: 0 <= i < |tokens| ==> SafeToken(tokens[i])
    ensures Count(WrittenAll(tokens), '<') == Count(WrittenAll(tokens), '>') == Tags(tokens)
  {
    if tokens != [] {
      hide Written, SafeToken;
      WrittenBrackets(tokens[0]);
      BracketsOfAll(tokens[1..]);
      CountConcat(Written(tokens[0]), WrittenAll(tokens[1..]), '<');
      CountConcat(Written(tokens[0]), WrittenAll(tokens[1..]), '>');
    }
  }

  /** Malformed input smuggles nothing through: every angle bracket in what is
      written belongs to a tag the sanitizer opened or closed itself. */
  lemma NoBracketButItsOwn(events: seq<Event>)
    ensures var html := WrittenAll(Sanitize(events));
            Count(html, '<') == Count(html, '>') == Tags(Sanitize(events))
  {
    OutputIsSafe(events);
    BracketsOfAll(Sanitize(events));
  }

  // ---- Sanitizing twice ----

  /** What a parser reports of a written token. */
  function Reported(t: Token): Event
  {
    match t
    case Open(tag) => StartTag(tag, [])
    case Link(href) =>
      StartTag("a", [("href", Some(href)), ("target", Some("_blank")), ("rel", Some("noopener noreferrer"))])
    case Close(tag) => EndTag(tag)
    case Text(text) => Data(text)
  }

  function ReportedAll(tokens: seq<Token>): (events: seq<Event>)
    ensures |events| == |tokens|
  {
    seq(|tokens|, i requires 0 <= i < |tokens| => Reported(tokens[i]))
  }

  /** Reading a nested word of safe tokens writes it again, token by token. */
  lemma {:induction false} RewritesTokens(s: State, tokens: seq<Token>)
    requires forall i :: 0 <= i < |tokens| ==> SafeToken(tokens[i])
    requires Nest(tokens, s.stack).Some?
    ensures HandleAll(s, ReportedAll(tokens)) == State(s.out + tokens, Nest(tokens, s.stack).value)
    decreases |tokens|
  {
    hide Handle, Reported, SafeToken;
    if tokens == [] {
      assert s.out + tokens == s.out;
    } else {
      hide Nest;
      var first, rest := tokens[0], tokens[1..];
      assert tokens == [first] + rest;
      RewritesToken(s, first, rest);
      var t := Handle(s, Reported(first));
      RewritesTokens(t, rest);
      assert t.out + rest == s.out + tokens;
      assert ReportedAll(tokens) == [Reported(first)] + ReportedAll(rest);
      HandleFirst(s, Reported(first), ReportedAll(rest));
    }
  }

  lemma HandleFirst(s: State, e: Event, rest: seq<Event>)
    ensures HandleAll(s, [e] + rest) == HandleAll(Handle(s, e), rest)
  {
    hide Handle;
    assert ([e] + rest)[1..] == rest;
  }

  lemma RewritesToken(s: State, t: Token, rest: seq<Token>)
    requires SafeToken(t) && Nest([t] + rest, s.stack).Some?
    ensures Handle(s, Reported(t)).out == s.out + [t]
    ensures Nest(rest, Handle(s, Reported(t)).stack) == Nest([t] + rest, s.stack)
  {
    hide Lower, SafeHref, AllowedTag, FirstHref;
    assert ([t] + rest)[1..] == rest;
    match t
    case Open(tag) =>
    case Link(href) => RewritesLink(s, href);
    case Close(tag) => RewritesClose(s, tag);
    case Text(_) =>
  }

  lemma RewritesLink(s: State, href: string)
    requires SafeToken(Link(href))
    ensures Handle(s, Reported(Link(href))) == State(s.out + [Link(href)], s.stack + ["a"])
  {
    hide SafeHref;
    assert Lower("a") == "a";
    assert FirstHref(Reported(Link(href)).attrs) == href;
    UnsafeHash();
  }

  lemma RewritesClose(s: State, tag: string)
    requires SafeToken(Close(tag)) && s.stack != [] && s.stack[|s.stack| - 1] == tag
    ensures Handle(s, Reported(Close(tag))) == State(s.out + [Close(tag)], s.stack[..|s.stack| - 1])
  {
    hide Lower, AllowedTag;
    assert tag in s.stack;
  }

  lemma UnsafeHash()
    ensures !SafeHref("#") && !SafeHref("")
  {
  }

  /** Sanitizing leaves a written word alone exactly when it is properly nested and
      made of safe tokens: nothing safe is lost and nothing unsafe kept. */
  lemma UnchangedIffSafe(tokens: seq<Token>)
    ensures Sanitize(ReportedAll(tokens)) == tokens
       <==> Nest(tokens, []) == Some([]) && forall i :: 0 <= i < |tokens| ==> SafeToken(tokens[i])
  {
    hide SafeToken, Nest, Handle, Reported;
    if Sanitize(ReportedAll(tokens)) == tokens {
      OutputIsSafe(ReportedAll(tokens));
    }
    if Nest(tokens, []) == Some([]) && forall i :: 0 <= i < |tokens| ==> SafeToken(tokens[i]) {
      RewritesTokens(State([], []), tokens);
      assert [] + tokens == tokens;
    }
  }

  function TextsOf(tokens: seq<Token>): seq<string>
  {
    if tokens == [] then [] else
    var rest := TextsOf(tokens[..|tokens| - 1]);
    if tokens[|tokens| - 1].Text? then rest + [tokens[|tokens| - 1].text] else rest
  }

  function DataOf(events: seq<Event>): seq<string>
  {
    if events == [] then [] else
    if events[0].Data? then [events[0].text] + DataOf(events[1..]) else DataOf(events[1..])
  }

  lemma TextsAppend(tokens: seq<Token>, t: Token)
    ensures TextsOf(tokens + [t]) == if t.Text? then TextsOf(tokens) + [t.text] else TextsOf(tokens)
  {
    assert (tokens + [t])[..|tokens|] == tokens;
  }

  lemma {:induction false} ClosingWritesNoText(s: State, tag: string)
    ensures TextsOf(CloseDownTo(s, tag).out) == TextsOf(s.out)
    ensures TextsOf(CloseAll(s).out) == TextsOf(s.out)
    decreases |s.stack|
  {
    if s.stack != [] {
      var top := s.stack[|s.stack| - 1];
      TextsAppend(s.out, Close(top));
      ClosingWritesNoText(State(s.out + [Close(top)], s.stack[..|s.stack| - 1]), tag);
    }
  }

  lemma HandleText(s: State, e: Event)
    ensures TextsOf(Handle(s, e).out) == TextsOf(s.out) + if e.Data? then [e.text] else []
  {
    hide AllowedTag, Lower, SafeHref, FirstHref;
    match e
    case StartTag(raw, attrs) =>
      TextsAppend(s.out, Opening(Lower(raw), attrs));
      assert !Opening(Lower(raw), attrs).Text?;
    case EndTag(raw) => ClosingWritesNoText(s, Lower(raw));
    case Data(text) => TextsAppend(s.out, Text(text));
  }

  lemma {:induction false} HandleAllText(s: State, events: seq<Event>)
    ensures TextsOf(HandleAll(s, events).out) == TextsOf(s.out) + DataOf(events)
    decreases |events|
  {
    if events != [] {
      hide Handle;
      HandleText(s, events[0]);
      HandleAllText(Handle(s, events[0]), events[1..]);
    }
  }

  /** All the text comes through, in order, whatever becomes of the tags. */
  lemma TextIsKept(events: seq<Event>)
    ensures TextsOf(Sanitize(events)) == DataOf(events)
  {
    HandleAllText(State([], []), events);
    ClosingWritesNoText(HandleAll(State([], []), events), "");
  }

  /** Sanitizing sanitized markup changes nothing. */
  lemma SanitizingTwice(events: seq<Event>)
    ensures Sanitize(ReportedAll(Sanitize(events))) == Sanitize(events)
  {
    OutputIsSafe(events);
    RewritesTokens(State([], []), Sanitize(events));
    assert [] + Sanitize(events) == Sanitize(events);
  }
}
