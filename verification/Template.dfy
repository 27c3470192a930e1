/** Placeholder rendering and variable extraction (pages/notifications/SendNotificationPage.tsx). */
module Template {
  import opened Common

  datatype Kind = Opening | Closing | Space | Name | Other

  /** The character classes of the expression: braces, \s, [a-zA-Z0-9_.-]. */
  function KindOf(c: char): Kind {
    if c == '{' then Opening
    else if c == '}' then Closing
    else if c in " \t\n\r\U{0B}\U{0C}\U{A0}\U{FEFF}\U{1680}\U{2028}\U{2029}\U{202F}\U{205F}\U{3000}" then Space
    else if '\U{2000}' <= c <= '\U{200A}' then Space
    else if 'a' <= c <= 'z' || 'A' <= c <= 'Z' || '0' <= c <= '9' || c in "_.-" then Name
    else Other
  }

  lemma BraceKinds()
    ensures forall c :: KindOf(c) == Opening <==> c == '{'
    ensures forall c :: KindOf(c) == Closing <==> c == '}'
    ensures KindOf('\n') == Space
  {
  }

  predicate AllOf(s: string, kind: Kind) { forall c <- s :: KindOf(c) == kind }

  /** Where a match of {{ key }} stands: braces still to open, spaces before the key, in the key, spaces
      after it, one brace to close. The character classes are disjoint, so matching never backtracks. */
  datatype Place = Open2 | Open1 | Before | InKey | AfterKey | Close1 | Done

  function Advance(p: Place, kind: Kind): Option<Place> {
    match (p, kind)
    case (Open2, Opening) => Some(Open1)
    case (Open1, Opening) => Some(Before)
    case (Before, Space) => Some(Before)
    case (Before, Name) => Some(InKey)
    case (InKey, Name) => Some(InKey)
    case (InKey, Space) => Some(AfterKey)
    case (InKey, Closing) => Some(Close1)
    case (AfterKey, Space) => Some(AfterKey)
    case (AfterKey, Closing) => Some(Close1)
    case (Close1, Closing) => Some(Done)
    case _ => None
  }

  datatype Match = Match(key: string, length: nat)

  /** A match longer by one character that leads to that place. */
  function Longer(c: char, next: Place, rest: Option<Match>): Option<Match> {
    if rest == None then None
    else Some(Match(if next == InKey then [c] + rest.value.key else rest.value.key, rest.value.length + 1))
  }

  /** The rest of a match from a place on: the rest of its key, and its length. */
  function MatchFrom(p: Place, s: string): (m: Option<Match>)
    ensures m.Some? ==> m.value.length <= |s| && (p == Done <==> m.value.length == 0)
    decreases |s|
  {
    if p == Done then Some(Match("", 0))
    else if s == "" then None
    else
      var next := Advance(p, KindOf(s[0]));
      if next == None then None else Longer(s[0], next.value, MatchFrom(next.value, s[1..]))
  }

  lemma MatchEdges(p: Place, s: string)
    ensures MatchFrom(Done, s) == Some(Match("", 0))
    ensures p != Done ==> MatchFrom(p, "") == None
  {
  }

  lemma MatchStep(p: Place, c: char, rest: string)
    ensures var next := Advance(p, KindOf(c));
            p != Done ==>
              MatchFrom(p, [c] + rest) == if next == None then None else Longer(c, next.value, MatchFrom(next.value, rest))
  {
    assert ([c] + rest)[1..] == rest;
  }

  function MatchAt(s: string): Option<Match> { MatchFrom(Open2, s) }

  datatype Token = Lit(c: char) | Var(key: string)

  /** The leftmost matches of the global expression, and the characters between them. */
  function Scan(s: string): seq<Token>
    decreases |s|
  {
    if s == "" then []
    else
      match MatchAt(s)
      case None => [Lit(s[0])] + Scan(s[1..])
      case Some(m) => [Var(m.key)] + Scan(s[m.length..])
  }

  type Values = map<string, string>

  function Braced(key: string): string { "{{" + key + "}}" }

  function Filled(key: string, values: Values): string { if key in values then values[key] else "" }

  /** A missing or empty value leaves the placeholder, without its spaces. */
  function Shown(key: string, values: Values): string {
    if Filled(key, values) != "" then Filled(key, values) else Braced(key)
  }

  function PrintOne(t: Token, values: Values): string { if t.Var? then Shown(t.key, values) else [t.c] }

  function Print(tokens: seq<Token>, values: Values): string {
    if tokens == [] then "" else PrintOne(tokens[0], values) + Print(tokens[1..], values)
  }

  /** `renderTemplate`. */
  function Render(template: string, values: Values): string { Print(Scan(template), values) }

  function Keys(tokens: seq<Token>): seq<string> {
    if tokens == [] then []
    else (if tokens[0].Var? then [tokens[0].key] else []) + Keys(tokens[1..])
  }

  /** The keys of all matches, in order. */
  function Variables(template: string): seq<string> { Keys(Scan(template)) }

  ghost predicate IsPlaceholder(s: string, key: string) {
    exists before: string, after: string :: Spelled(s, before, key, after)
  }

  predicate Spelled(s: string, before: string, key: string, after: string) {
    s == "{{" + before + key + after + "}}" && IsKey(key) && IsBlank(before) && IsBlank(after)
  }

  predicate IsKey(s: string) { s != "" && forall c <- s :: IsKeyChar(c) }

  predicate IsBlank(s: string) { forall c <- s :: IsBlankChar(c) }

  /** ASCII letters, digits, underscore, dot and hyphen, by code point. */
  predicate IsKeyChar(c: char) {
    97 <= c as int <= 122 || 65 <= c as int <= 90 || 48 <= c as int <= 57 || c == '_' || c == '.' || c == '-'
  }

  /** The white space of ECMAScript, by code point. */
  predicate IsBlankChar(c: char) {
    9 <= c as int <= 13 || 0x2000 <= c as int <= 0x200A ||
    c as int in {32, 160, 0x1680, 0x2028, 0x2029, 0x202F, 0x205F, 0x3000, 0xFEFF}
  }

  lemma KindOfKeyChar(c: char)
    ensures IsKeyChar(c) <==> KindOf(c) == Name
  {
  }

  lemma KindOfBlankChar(c: char)
    ensures IsBlankChar(c) <==> KindOf(c) == Space
  {
  }

  lemma ClassesAreKinds(s: string)
    ensures IsKey(s) <==> s != "" && AllOf(s, Name)
    ensures IsBlank(s) <==> AllOf(s, Space)
  {
    hide KindOf, IsKeyChar, IsBlankChar;
    forall c: char
      ensures IsKeyChar(c) <==> KindOf(c) == Name
      ensures IsBlankChar(c) <==> KindOf(c) == Space
    {
      KindOfKeyChar(c);
      KindOfBlankChar(c);
    }
  }

  lemma {:induction false} MatchSpaces(p: Place, spaces: string, rest: string)
    requires p == Before || p == AfterKey
    requires AllOf(spaces, Space)
    ensures var m, r := MatchFrom(p, spaces + rest), MatchFrom(p, rest);
            m == if r == None then None else Some(Match(r.value.key, r.value.length + |spaces|))
  {
    hide KindOf, MatchFrom;
    if spaces == "" {
      assert spaces + rest == rest;
    } else {
      assert spaces[0] in spaces && spaces + rest == [spaces[0]] + (spaces[1..] + rest);
      MatchStep(p, spaces[0], spaces[1..] + rest);
      MatchSpaces(p, spaces[1..], rest);
    }
  }

  lemma {:induction false} MatchKey(p: Place, key: string, rest: string)
    requires p == Before || p == InKey
    requires AllOf(key, Name) && (key != "" || p == InKey)
    ensures var m, r := MatchFrom(p, key + rest), MatchFrom(InKey, rest);
            m == if r == None then None else Some(Match(key + r.value.key, r.value.length + |key|))
    decreases |key|
  {
    hide KindOf, MatchFrom;
    if key == "" {
      assert key + rest == rest;
      assert MatchFrom(InKey, rest).Some? ==> "" + MatchFrom(InKey, rest).value.key == MatchFrom(InKey, rest).value.key;
    } else {
      assert key[0] in key && key + rest == [key[0]] + (key[1..] + rest);
      MatchStep(p, key[0], key[1..] + rest);
      MatchKey(InKey, key[1..], rest);
      var r := MatchFrom(InKey, rest);
      assert r.Some? ==> [key[0]] + (key[1..] + r.value.key) == key + r.value.key;
    }
  }

  lemma MatchBraces(p: Place, rest: string)
    requires p == InKey || p == AfterKey
    ensures MatchFrom(p, "}}" + rest) == Some(Match("", 2))
  {
    hide KindOf, MatchFrom;
    BraceKinds();
    assert "}}" + rest == ['}'] + ("}" + rest) && "}" + rest == ['}'] + rest;
    MatchStep(p, '}', "}" + rest);
    MatchStep(Close1, '}', rest);
    MatchEdges(Done, rest);
  }

  lemma MatchEnd(after: string, rest: string)
    requires AllOf(after, Space)
    ensures MatchFrom(InKey, after + ("}}" + rest)) == Some(Match("", |after| + 2))
  {
    hide KindOf, MatchFrom;
    var end := "}}" + rest;
    MatchBraces(InKey, rest);
    MatchBraces(AfterKey, rest);
    if after == "" {
      assert after + end == end;
    } else {
      SpacesAfterKey(after, end);
    }
  }

  lemma AllOfParts(s: string, kind: Kind)
    requires AllOf(s, kind) && s != ""
    ensures KindOf(s[0]) == kind && AllOf(s[1..], kind)
  {
    hide KindOf;
    assert s[0] in s && forall c <- s[1..] :: c in s;
  }

  lemma SpacesAfterKey(after: string, end: string)
    requires AllOf(after, Space) && after != "" && MatchFrom(AfterKey, end).Some?
    ensures MatchFrom(InKey, after + end) ==
            Some(Match(MatchFrom(AfterKey, end).value.key, |after| + MatchFrom(AfterKey, end).value.length))
  {
    hide KindOf, MatchFrom, AllOf;
    AllOfParts(after, Space);
    assert after + end == [after[0]] + (after[1..] + end);
    MatchStep(InKey, after[0], after[1..] + end);
    MatchSpaces(AfterKey, after[1..], end);
  }

  /** A placeholder matches whatever follows it. */
  lemma PlaceholderMatches(s: string, before: string, key: string, after: string, rest: string)
    requires Spelled(s, before, key, after)
    ensures MatchAt(s + rest) == Some(Match(key, |s|))
  {
    hide KindOf, MatchFrom;
    BraceKinds();
    ClassesAreKinds(before);
    ClassesAreKinds(key);
    ClassesAreKinds(after);
    var inside := before + (key + (after + ("}}" + rest)));
    assert s + rest == ['{'] + (['{'] + inside);
    MatchStep(Open2, '{', ['{'] + inside);
    MatchStep(Open1, '{', inside);
    MatchSpaces(Before, before, key + (after + ("}}" + rest)));
    MatchKey(Before, key, after + ("}}" + rest));
    MatchEnd(after, rest);
    assert key + "" == key && |s| == |before| + |key| + |after| + 4;
  }

  function Length(p: Place, s: string): nat
    requires MatchFrom(p, s).Some?
  {
    MatchFrom(p, s).value.length
  }

  /** What is left of a match after its first character. */
  lemma MatchRest(p: Place, s: string) returns (next: Place)
    requires p != Done && MatchFrom(p, s).Some?
    ensures s != "" && Advance(p, KindOf(s[0])) == Some(next) && MatchFrom(next, s[1..]).Some?
    ensures MatchFrom(p, s) == Longer(s[0], next, MatchFrom(next, s[1..]))
    ensures s[..Length(p, s)] == [s[0]] + s[1..][..Length(next, s[1..])]
  {
    hide KindOf;
    next := Advance(p, KindOf(s[0])).value;
    var n := Length(p, s);
    hide MatchFrom, Advance;
    assert s == [s[0]] + s[1..];
  }

  /** After the key there are spaces and the closing braces. */
  lemma {:induction false} MatchedEnd(p: Place, s: string) returns (after: string)
    requires (p == AfterKey || p == Close1 || p == Done) && MatchFrom(p, s).Some?
    ensures AllOf(after, Space) && (p != AfterKey ==> after == "")
    ensures s[..Length(p, s)] == after + (if p == Done then "" else if p == Close1 then "}" else "}}")
    ensures MatchFrom(p, s).value.key == ""
    decreases |s|
  {
    hide KindOf;
    BraceKinds();
    if p == Done {
      after := "";
    } else {
      var next := MatchRest(p, s);
      hide MatchFrom;
      after := MatchedEnd(next, s[1..]);
      if next == AfterKey {
        after := [s[0]] + after;
      }
    }
  }

  lemma {:induction false} MatchedKey(s: string) returns (key: string, after: string)
    requires MatchFrom(InKey, s).Some?
    ensures AllOf(key, Name) && AllOf(after, Space)
    ensures s[..Length(InKey, s)] == key + after + "}}" && key == MatchFrom(InKey, s).value.key
    decreases |s|
  {
    hide KindOf;
    BraceKinds();
    var next := MatchRest(InKey, s);
    hide MatchFrom;
    if next == InKey {
      key, after := MatchedKey(s[1..]);
      assert [s[0]] + (key + after + "}}") == ([s[0]] + key) + after + "}}";
      key := [s[0]] + key;
    } else {
      key := "";
      after := MatchedEnd(next, s[1..]);
      if next == AfterKey {
        after := [s[0]] + after;
      }
    }
  }

  lemma {:induction false} MatchedInside(s: string) returns (before: string, key: string, after: string)
    requires MatchFrom(Before, s).Some?
    ensures AllOf(before, Space) && AllOf(key, Name) && AllOf(after, Space)
    ensures s[..Length(Before, s)] == before + (key + after + "}}")
    ensures key == MatchFrom(Before, s).value.key != ""
    decreases |s|
  {
    hide KindOf;
    var next := MatchRest(Before, s);
    hide MatchFrom;
    if next == Before {
      before, key, after := MatchedInside(s[1..]);
      before := [s[0]] + before;
    } else {
      before := "";
      key, after := MatchedKey(s[1..]);
      key := [s[0]] + key;
      assert s[..Length(Before, s)] == key + after + "}}";
    }
  }

  lemma SpelledByParts(text: string, inner: string, before: string, key: string, after: string)
    requires text == ['{'] + (['{'] + inner) && inner == before + (key + after + "}}")
    requires key != "" && AllOf(key, Name) && AllOf(before, Space) && AllOf(after, Space)
    ensures Spelled(text, before, key, after)
  {
    hide KindOf, IsKey, IsBlank;
    ClassesAreKinds(before);
    ClassesAreKinds(key);
    ClassesAreKinds(after);
    assert text == "{{" + before + key + after + "}}";
  }

  /** A match is a placeholder, and its key is the placeholder's. */
  lemma MatchIsPlaceholder(s: string)
    requires MatchAt(s).Some?
    ensures var m := MatchAt(s).value; IsPlaceholder(s[..m.length], m.key)
  {
    hide KindOf, MatchFrom, Spelled;
    var first := MatchRest(Open2, s);
    var second := MatchRest(Open1, s[1..]);
    assert s[0] == '{' && s[1..][0] == '{' by { BraceKinds(); }
    var inside := s[1..][1..];
    var before, key, after := MatchedInside(inside);
    hide Advance;
    SpelledByParts(s[..Length(Open2, s)], inside[..Length(Before, inside)], before, key, after);
  }

  /** Reading more text never undoes a match. */
  lemma {:induction false} MatchExtends(p: Place, a: string, t: string)
    requires MatchFrom(p, a).Some?
    ensures MatchFrom(p, a + t) == MatchFrom(p, a)
    decreases |a|
  {
    hide KindOf;
    if p != Done {
      assert a + t == [a[0]] + (a[1..] + t);
      MatchStep(p, a[0], a[1..] + t);
      MatchExtends(Advance(p, KindOf(a[0])).value, a[1..], t);
    }
  }

  /** An opening pair of braces never completes a match that began before it. */
  lemma {:induction false} BracesEndMatches(p: Place, a: string, t: string)
    requires p == Open2 ==> a != ""
    ensures MatchFrom(p, a + ("{{" + t)) == MatchFrom(p, a)
    decreases |a|
  {
    hide KindOf, MatchFrom;
    BraceKinds();
    if p == Done {
      MatchEdges(p, a);
      MatchEdges(p, a + ("{{" + t));
    } else if a == "" {
      MatchStep(p, '{', "{" + t);
      MatchStep(Before, '{', t);
      MatchEdges(p, t);
      assert "{{" + t == ['{'] + ("{" + t);
      assert a + ("{{" + t) == "{{" + t;
      assert "{" + t == ['{'] + t;
    } else {
      MatchStep(p, a[0], a[1..]);
      MatchStep(p, a[0], a[1..] + ("{{" + t));
      assert a == [a[0]] + a[1..] && a + ("{{" + t) == [a[0]] + (a[1..] + ("{{" + t));
      var next := Advance(p, KindOf(a[0]));
      if next.Some? {
        BracesEndMatches(next.value, a[1..], t);
      }
    }
  }

  lemma ScanStep(s: string)
    ensures Scan("") == []
    ensures s != "" && MatchAt(s) == None ==> Scan(s) == [Lit(s[0])] + Scan(s[1..])
    ensures s != "" && MatchAt(s).Some? ==>
              var m := MatchAt(s).value; Scan(s) == [Var(m.key)] + Scan(s[m.length..])
  {
  }

  /** Before an opening pair of braces the text is scanned as if it ended there. */
  lemma {:induction false} ScanBeforeBraces(a: string, t: string)
    ensures Scan(a + ("{{" + t)) == Scan(a) + Scan("{{" + t)
    decreases |a|
  {
    hide MatchFrom, Scan;
    var text := a + ("{{" + t);
    ScanStep(text);
    ScanStep(a);
    if a == "" {
      assert text == "{{" + t;
    } else {
      BracesEndMatches(Open2, a, t);
      var n := if MatchAt(a).Some? then MatchAt(a).value.length else 1;
      assert text[n..] == a[n..] + ("{{" + t);
      ScanBeforeBraces(a[n..], t);
    }
  }

  /** A placeholder is found wherever it stands, and the text on both sides is scanned as if alone: runs of
      braces before it, or after it, do not matter. */
  lemma ScanAround(a: string, s: string, key: string, b: string)
    requires IsPlaceholder(s, key)
    ensures Scan(a + s + b) == Scan(a) + [Var(key)] + Scan(b)
  {
    hide MatchFrom, Scan;
    var before, after :| Spelled(s, before, key, after);
    var inside := before + key + after + "}}" + b;
    assert a + s + b == a + ("{{" + inside) && s + b == "{{" + inside;
    ScanBeforeBraces(a, inside);
    PlaceholderMatches(s, before, key, after, b);
    ScanStep(s + b);
    assert (s + b)[|s|..] == b;
  }

  lemma {:induction false} PrintConcat(x: seq<Token>, y: seq<Token>, values: Values)
    ensures Print(x + y, values) == Print(x, values) + Print(y, values)
    decreases |x|
  {
    hide PrintOne;
    if x == [] {
      assert x + y == y;
    } else {
      assert (x + y)[1..] == x[1..] + y;
      PrintConcat(x[1..], y, values);
    }
  }

  lemma {:induction false} KeysConcat(x: seq<Token>, y: seq<Token>)
    ensures Keys(x + y) == Keys(x) + Keys(y)
    decreases |x|
  {
    if x == [] {
      assert x + y == y;
    } else {
      assert (x + y)[1..] == x[1..] + y;
      KeysConcat(x[1..], y);
    }
  }

  /** Every placeholder is replaced by its key's value, or loses its spaces if that is missing or empty. With
      `PlainTextIsKept` this determines `renderTemplate` and the extraction. */
  lemma RenderAround(a: string, s: string, key: string, b: string, values: Values)
    requires IsPlaceholder(s, key)
    ensures var shown := if key in values && values[key] != "" then values[key] else "{{" + key + "}}";
            Render(a + s + b, values) == Render(a, values) + shown + Render(b, values)
    ensures Variables(a + s + b) == Variables(a) + [key] + Variables(b)
  {
    hide IsPlaceholder, Scan;
    ScanAround(a, s, key, b);
    PrintConcat(Scan(a), [Var(key)], values);
    PrintConcat(Scan(a) + [Var(key)], Scan(b), values);
    KeysConcat(Scan(a), [Var(key)]);
    KeysConcat(Scan(a) + [Var(key)], Scan(b));
    assert Print([Var(key)], values) == Shown(key, values) && Keys([Var(key)]) == [key];
  }

  /** Text without a placeholder is kept as it is. */
  lemma {:induction false} PlainTextIsKept(s: string, values: Values)
    requires Variables(s) == []
    ensures Render(s, values) == s
    decreases |s|
  {
    hide MatchFrom;
    if s != "" {
      assert Scan(s) == [Lit(s[0])] + Scan(s[1..]);
      PlainTextIsKept(s[1..], values);
    }
  }

  /** The first placeholder of a text, and what stands before and after it. */
  lemma {:induction false} FirstPlaceholder(s: string) returns (a: string, p: string, key: string, b: string)
    requires Variables(s) != []
    ensures s == a + p + b && |b| < |s| && IsPlaceholder(p, key) && Variables(a) == []
    decreases |s|
  {
    hide MatchFrom, Scan;
    ScanStep(s);
    if MatchAt(s).Some? {
      var n := MatchAt(s).value.length;
      MatchIsPlaceholder(s);
      a, p, key, b := "", s[..n], MatchAt(s).value.key, s[n..];
      ScanStep("");
    } else {
      a, p, key, b := FirstPlaceholder(s[1..]);
      a := [s[0]] + a;
      assert s == a + p + b && a[1..] == s[1..][..|a| - 1];
      var before, after :| Spelled(p, before, key, after);
      var inside := before + key + after + "}}" + b;
      assert s == a + ("{{" + inside);
      BracesEndMatches(Open2, a, inside);
      ScanStep(a);
    }
  }

  lemma BracedIsPlaceholder(p: string, key: string)
    requires IsPlaceholder(p, key)
    ensures IsPlaceholder(Braced(key), key)
  {
    var before, after :| Spelled(p, before, key, after);
    assert Braced(key) == "{{" + "" + key + "" + "}}";
    assert Spelled(Braced(key), "", key, "");
  }

  /** Rendering without values only removes the spaces inside placeholders: the result scans alike. */
  lemma {:induction false} NormalisedScansAlike(s: string)
    ensures Scan(Render(s, map[])) == Scan(s)
    decreases |s|
  {
    if Variables(s) == [] {
      PlainTextIsKept(s, map[]);
    } else {
      var a, p, key, b := FirstPlaceholder(s);
      hide IsPlaceholder, Scan, Render, Variables;
      RenderAround(a, p, key, b, map[]);
      PlainTextIsKept(a, map[]);
      NormalisedScansAlike(b);
      BracedIsPlaceholder(p, key);
      ScanAround(a, Braced(key), key, Render(b, map[]));
      ScanAround(a, p, key, b);
    }
  }

  /** So on every template it keeps the variables in order, changes no later rendering, and is idempotent. */
  lemma NormalisingIsHarmless(s: string, values: Values)
    ensures Variables(Render(s, map[])) == Variables(s)
    ensures Render(Render(s, map[]), values) == Render(s, values)
    ensures Render(Render(s, map[]), map[]) == Render(s, map[])
  {
    NormalisedScansAlike(s);
  }

  /** The result depends on the values of the extracted variables only. */
  lemma RenderDependsOnVariables(s: string, v: Values, w: Values)
    requires forall key <- Variables(s) :: Filled(key, v) == Filled(key, w)
    ensures Render(s, v) == Render(s, w)
  {
    PrintDependsOnKeys(Scan(s), v, w);
  }

  lemma {:induction false} PrintDependsOnKeys(tokens: seq<Token>, v: Values, w: Values)
    requires forall key <- Keys(tokens) :: Filled(key, v) == Filled(key, w)
    ensures Print(tokens, v) == Print(tokens, w)
  {
    if tokens != [] {
      var rest := Keys(tokens[1..]);
      assert Keys(tokens) == (if tokens[0].Var? then [tokens[0].key] else []) + rest;
      assert tokens[0].Var? ==> tokens[0].key in Keys(tokens);
      assert forall key <- rest :: key in Keys(tokens);
      assert PrintOne(tokens[0], v) == PrintOne(tokens[0], w);
      hide PrintOne, Keys;
      PrintDependsOnKeys(tokens[1..], v, w);
    }
  }

  lemma {:induction false} NoOpeningNoVariables(s: string, t: string)
    requires '{' !in s
    ensures Variables(s + t) == Variables(t)
    decreases |s|
  {
    hide KindOf, MatchFrom, Scan;
    if s == "" {
      assert s + t == t;
    } else {
      assert s[0] in s && (s + t) == [s[0]] + (s[1..] + t);
      BraceKinds();
      MatchStep(Open2, s[0], s[1..] + t);
      ScanStep(s + t);
      assert (s + t)[1..] == s[1..] + t;
      NoOpeningNoVariables(s[1..], t);
    }
  }

  // The page extracts the variables of the subject and the body together, joined by a newline.

  /** A placeholder opened at `i` in the subject is closed by the body only. */
  predicate OpenAt(subject: string, body: string, i: nat)
    requires i <= |subject|
  {
    MatchAt(subject[i..]) == None && MatchAt(subject[i..] + ("\n" + body)).Some?
  }

  predicate Straddles(subject: string, body: string) { exists i | 0 <= i < |subject| :: OpenAt(subject, body, i) }

  lemma {:induction false} ScanJoined(subject: string, body: string)
    requires !Straddles(subject, body)
    ensures Scan(subject + ("\n" + body)) == Scan(subject) + [Lit('\n')] + Scan(body)
    decreases |subject|
  {
    hide KindOf, MatchFrom, Scan;
    var text := subject + ("\n" + body);
    ScanStep(text);
    ScanStep(subject);
    if subject == "" {
      BraceKinds();
      assert text == ['\n'] + body && text[1..] == body;
      MatchStep(Open2, '\n', body);
    } else {
      assert subject[0..] == subject;
      assert !OpenAt(subject, body, 0);
      if MatchAt(subject).Some? {
        MatchExtends(Open2, subject, "\n" + body);
      }
      var n := if MatchAt(subject).Some? then MatchAt(subject).value.length else 1;
      assert text[n..] == subject[n..] + ("\n" + body);
      forall i | 0 <= i < |subject| - n ensures !OpenAt(subject[n..], body, i) {
        assert subject[n..][i..] == subject[n + i..];
        assert !OpenAt(subject, body, n + i);
      }
      ScanJoined(subject[n..], body);
    }
  }

  lemma {:induction false} MatchWithin(p: Place, a: string, t: string)
    requires MatchFrom(p, a + t).Some? && Length(p, a + t) <= |a|
    ensures MatchFrom(p, a) == MatchFrom(p, a + t)
    decreases |a|
  {
    hide KindOf;
    if p != Done {
      assert (a + t)[1..] == a[1..] + t;
      MatchWithin(Advance(p, KindOf(a[0])).value, a[1..], t);
    }
  }

  /** A straddling placeholder: its opening part in the subject, its closing part in the body, and neither
      part contributes a variable there. */
  lemma StraddlingPlaceholder(subject: string, body: string, i: nat) returns (p: string, key: string, cut: nat)
    requires i < |subject| && OpenAt(subject, body, i)
    ensures cut <= |body| && IsPlaceholder(p, key)
    ensures subject + ("\n" + body) == subject[..i] + p + body[cut..]
    ensures |subject| - i >= 2 && subject[i..][..2] == "{{" && '{' !in subject[i + 2..] && '{' !in body[..cut]
  {
    hide KindOf, MatchFrom;
    var open := subject[i..];
    var text := open + ("\n" + body);
    var n := MatchAt(text).value.length;
    MatchIsPlaceholder(text);
    p, key := text[..n], MatchAt(text).value.key;
    if n <= |open| {
      MatchWithin(Open2, open, "\n" + body);
    }
    var before, after :| Spelled(p, before, key, after);
    NoBraceInside(p, before, key, after);
    hide Spelled, MatchAt;
    cut := CutAtNewline(open, body, p);
    assert subject == subject[..i] + open && open[2..] == subject[i + 2..];
  }

  /** A text that begins in `open` and ends beyond it, with braces at both ends only, has both on their
      sides of the newline. */
  lemma CutAtNewline(open: string, body: string, p: string) returns (cut: nat)
    requires open != "" && |open| < |p| && p <= open + ("\n" + body)
    requires |p| >= 5 && p[..2] == "{{" && '{' !in p[2..] && p[|p| - 1] == '}'
    ensures cut <= |body| && open + ("\n" + body) == p + body[cut..]
    ensures |open| >= 2 && open[..2] == "{{" && '{' !in open[2..] && '{' !in body[..cut]
  {
    var text := open + ("\n" + body);
    assert p == text[..|p|];
    assert p[|open|] == '\n' by { assert text[|open|] == '\n'; }
    cut := |p| - |open| - 1;
    assert p[0] == '{' && p[1] == '{' by { assert p[..2][0] == '{' && p[..2][1] == '{'; }
    assert open == p[..|open|] && body[..cut] == p[|open| + 1..];
    assert open[2..] == p[2..][..|open| - 2] && body[..cut] == p[2..][|open| - 1..];
    assert text == p + text[|p|..] && text[|p|..] == body[cut..];
  }

  lemma NoBraceInside(p: string, before: string, key: string, after: string)
    requires Spelled(p, before, key, after)
    ensures |p| >= 5 && p[..2] == "{{" && '{' !in p[2..] && p[|p| - 1] == '}'
  {
    BraceKinds();
    assert p[2..] == before + key + after + "}}";
  }

  lemma OpenPartHasNoVariables(subject: string, body: string, i: nat)
    requires i + 2 <= |subject| && OpenAt(subject, body, i)
    requires subject[i..][..2] == "{{" && '{' !in subject[i + 2..]
    ensures Variables(subject) == Variables(subject[..i])
  {
    hide KindOf, MatchFrom, Scan;
    var open, inside := subject[i..], subject[i + 2..];
    assert open == "{{" + inside && subject == subject[..i] + ("{{" + inside);
    ScanBeforeBraces(subject[..i], inside);
    KeysConcat(Scan(subject[..i]), Scan(open));
    ScanStep(open);
    assert open[1..] == "{" + inside;
    OneBraceHasNoVariables(inside);
  }

  lemma OneBraceHasNoVariables(inside: string)
    requires '{' !in inside
    ensures Variables("{" + inside) == []
  {
    hide KindOf, MatchFrom, Scan;
    BraceKinds();
    var one := ['{'] + inside;
    MatchStep(Open2, '{', inside);
    if inside == "" {
      MatchEdges(Open1, inside);
    } else {
      assert inside[0] in inside && inside == [inside[0]] + inside[1..];
      MatchStep(Open1, inside[0], inside[1..]);
    }
    ScanStep(one);
    assert one[1..] == inside + "";
    NoOpeningNoVariables(inside, "");
    ScanStep("");
  }

  lemma StraddlingAddsOne(subject: string, body: string, i: nat) returns (key: string)
    requires i < |subject| && OpenAt(subject, body, i)
    ensures Variables(subject + ("\n" + body)) == Variables(subject) + [key] + Variables(body)
  {
    var p, k, cut := StraddlingPlaceholder(subject, body, i);
    hide *;
    key := k;
    RenderAround(subject[..i], p, key, body[cut..], map[]);
    NoOpeningNoVariables(body[..cut], body[cut..]);
    assert Variables(body[cut..]) == Variables(body) by { assert body[..cut] + body[cut..] == body; }
    OpenPartHasNoVariables(subject, body, i);
  }

  lemma JoinedVariables(subject: string, body: string)
    requires !Straddles(subject, body)
    ensures Variables(subject + ("\n" + body)) == Variables(subject) + Variables(body)
  {
    hide Straddles, Scan;
    ScanJoined(subject, body);
    KeysConcat(Scan(subject), [Lit('\n')]);
    KeysConcat(Scan(subject) + [Lit('\n')], Scan(body));
  }

  /** The page asks for exactly the subject's and the body's variables, in order, if and only if no
      placeholder opens in the subject and closes in the body; otherwise for one more, which neither
      rendering uses. */
  lemma ExtractionIff(subject: string, body: string)
    ensures Variables(subject + ("\n" + body)) == Variables(subject) + Variables(body) <==> !Straddles(subject, body)
    ensures Straddles(subject, body) ==>
              exists key :: Variables(subject + ("\n" + body)) == Variables(subject) + [key] + Variables(body)
  {
    if Straddles(subject, body) {
      var i: nat :| i < |subject| && OpenAt(subject, body, i);
      hide Variables, OpenAt;
      var key := StraddlingAddsOne(subject, body, i);
    } else {
      JoinedVariables(subject, body);
    }
  }

  lemma NoMatchYet()
    ensures MatchAt("{{") == None
  {
    hide MatchFrom;
    MatchEdges(Before, "");
    MatchStep(Open2, '{', "{");
    MatchStep(Open1, '{', "");
    assert "{{" == ['{'] + "{" && "{" == ['{'] + "";
  }

  lemma MatchAcrossLines()
    ensures MatchAt("{{\na}}").Some?
  {
    hide MatchFrom;
    assert "{{\na}}" == "{{" + "\n" + "a" + "" + "}}";
    assert Spelled("{{\na}}", "\n", "a", "");
    PlaceholderMatches("{{\na}}", "\n", "a", "", "");
    assert "{{\na}}" + "" == "{{\na}}";
  }

  /** It does happen: neither of these texts has a placeholder, but the page asks for one variable. */
  lemma StraddlingExample()
    ensures Straddles("{{", "a}}")
    ensures Variables("{{") == [] && Variables("a}}") == []
  {
    hide KindOf, MatchFrom, Scan, Variables;
    NoMatchYet();
    MatchAcrossLines();
    assert "{{"[0..] + ("\n" + "a}}") == "{{\na}}" && "{{"[0..] == "{{";
    assert OpenAt("{{", "a}}", 0);
    BareBraces();
    NoOpeningNoVariables("a}}", "");
    assert "a}}" + "" == "a}}";
    NothingHasNoVariables();
  }

  lemma NothingHasNoVariables()
    ensures Variables("") == []
  {
  }

  lemma BareBraces()
    ensures Variables("{{") == []
  {
    hide KindOf, MatchFrom, Scan;
    NoMatchYet();
    ScanStep("{{");
    assert "{{"[1..] == "{" + "";
    OneBraceHasNoVariables("");
  }

  /** `[...new Set(xs)]`: the first occurrence of each. */
  function Distinct(xs: seq<string>): seq<string> {
    if xs == [] then []
    else
      var init, last := Distinct(xs[..|xs| - 1]), xs[|xs| - 1];
      if last in init then init else init + [last]
  }

  lemma {:induction false} DistinctSpec(xs: seq<string>)
    ensures forall x :: x in Distinct(xs) <==> x in xs
    ensures forall i, j :: 0 <= i < j < |Distinct(xs)| ==> Distinct(xs)[i] != Distinct(xs)[j]
    ensures forall n :: 0 <= n <= |xs| ==> Distinct(xs[..n]) <= Distinct(xs)
    decreases |xs|
  {
    if xs == [] {
      assert xs[..0] == xs;
    } else {
      var init := xs[..|xs| - 1];
      assert xs == init + [xs[|xs| - 1]];
      DistinctSpec(init);
      forall n | 0 <= n <= |xs| ensures Distinct(xs[..n]) <= Distinct(xs) {
        if n < |xs| {
          assert init[..n] == xs[..n];
        } else {
          assert xs[..n] == xs;
        }
      }
    }
  }

  function TemplateVariables(subject: string, body: string): seq<string> {
    Distinct(Variables(subject + ("\n" + body)))
  }

  /** The effect that refits the form to a template: one field per variable, keeping what was typed. */
  function Refit(current: Values, variables: seq<string>): Values { map key <- variables :: Filled(key, current) }

  /** The form covers every variable that rendering uses, so refitting it changes neither text. */
  lemma RefitKeepsRendering(subject: string, body: string, current: Values)
    ensures var form := Refit(current, TemplateVariables(subject, body));
            Render(subject, form) == Render(subject, current) && Render(body, form) == Render(body, current)
    ensures var fields := TemplateVariables(subject, body);
            && (forall i, j :: 0 <= i < j < |fields| ==> fields[i] != fields[j])
            && (forall key :: key in fields <==> key in Variables(subject + ("\n" + body)))
  {
    hide Variables, Straddles, Render, Distinct;
    var both := Variables(subject + ("\n" + body));
    ExtractionIff(subject, body);
    DistinctSpec(both);
    var form := Refit(current, TemplateVariables(subject, body));
    RenderDependsOnVariables(subject, form, current);
    RenderDependsOnVariables(body, form, current);
  }
}
