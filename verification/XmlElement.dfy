/** The printer of the command dialect, and the decoding of attribute values. */
module XmlElement {
  import opened Common

  function EscapeChar(c: char): string {
    match c
    case '<' => "&lt;"
    case '>' => "&gt;"
    case '&' => "&amp;"
    case '"' => "&quot;"
    case '\'' => "&apos;"
    case _ => [c]
  }

  function Escape(v: string): string {
    if v == [] then [] else EscapeChar(v[0]) + Escape(v[1..])
  }

  predicate MustEscape(c: char) {
    c == '<' || c == '>' || c == '&' || c == '"' || c == '\''
  }

  /** What the text that starts with '&' stands for, and how much of it: entities by their
      name, and any other '&' by itself. */
  function Entity(s: string): (r: (char, nat))
    requires |s| > 0 && s[0] == '&'
    ensures 1 <= r.1 <= |s|
  {
    if "&gt;" <= s then ('>', 4)
    else if "&lt;" <= s then ('<', 4)
    else if "&amp;" <= s then ('&', 5)
    else if "&quot;" <= s then ('"', 6)
    else if "&apos;" <= s then ('\'', 6)
    else ('&', 1)
  }

  function Unescape(s: string): string {
    if s == [] then []
    else if s[0] != '&' then [s[0]] + Unescape(s[1..])
    else [Entity(s).0] + Unescape(s[Entity(s).1..])
  }

  lemma EntityOf(c: char, rest: string)
    requires MustEscape(c)
    ensures Entity(EscapeChar(c) + rest) == (c, |EscapeChar(c)|)
  {
    var s := EscapeChar(c) + rest;
    assert EscapeChar(c) <= s;
    assert s[1] == EscapeChar(c)[1] && s[2] == EscapeChar(c)[2];
  }

  lemma UnescapeChar(c: char, rest: string)
    ensures Unescape(EscapeChar(c) + rest) == [c] + Unescape(rest)
  {
    var s := EscapeChar(c) + rest;
    assert s[|EscapeChar(c)|..] == rest;
    if MustEscape(c) {
      EntityOf(c, rest);
    } else {
      assert s == [c] + rest;
    }
  }

  /** Decoding gives back what was encoded. */
  lemma {:induction false} UnescapeEscape(v: string)
    ensures Unescape(Escape(v)) == v
  {
    if v != [] {
      UnescapeChar(v[0], Escape(v[1..]));
      UnescapeEscape(v[1..]);
    }
  }

  // ---- Text that was not written by the printer ----

  /** One of the five entities stands at the start. */
  predicate StartsEntity(s: string) {
    "&gt;" <= s || "&lt;" <= s || "&amp;" <= s || "&quot;" <= s || "&apos;" <= s
  }

  /** Entities are replaced one by one, and what follows is decoded by itself. */
  lemma EntityDecoded(rest: string)
    ensures Unescape("&gt;" + rest) == ">" + Unescape(rest)
    ensures Unescape("&lt;" + rest) == "<" + Unescape(rest)
    ensures Unescape("&amp;" + rest) == "&" + Unescape(rest)
    ensures Unescape("&quot;" + rest) == "\"" + Unescape(rest)
    ensures Unescape("&apos;" + rest) == "'" + Unescape(rest)
  {
    UnescapeChar('>', rest);
    UnescapeChar('<', rest);
    UnescapeChar('&', rest);
    UnescapeChar('"', rest);
    UnescapeChar('\'', rest);
  }

  /** Text in which no entity starts stands for itself, also where it has an '&', whatever
      follows. */
  lemma {:induction false} PlainDecoded(p: string, rest: string)
    requires forall i :: 0 <= i < |p| ==> !StartsEntity(p[i..] + rest)
    ensures Unescape(p + rest) == p + Unescape(rest)
  {
    if p == [] {
      assert p + rest == rest;
    } else {
      var s := p + rest;
      assert p[0..] == p && !StartsEntity(s);
      assert s[1..] == p[1..] + rest;
      forall i | 0 <= i < |p[1..]|
        ensures !StartsEntity(p[1..][i..] + rest)
      {
        assert p[1..][i..] == p[i + 1..];
      }
      PlainDecoded(p[1..], rest);
      assert [p[0]] + p[1..] == p;
    }
  }

  /** Text without entities decodes to itself. */
  lemma NoEntities(s: string)
    requires forall i :: 0 <= i < |s| ==> !StartsEntity(s[i..])
    ensures Unescape(s) == s
  {
    forall i | 0 <= i < |s|
      ensures !StartsEntity(s[i..] + [])
    {
      assert s[i..] + [] == s[i..];
    }
    PlainDecoded(s, []);
    assert s + [] == s;
  }

  lemma {:induction false} EscapeConcat(a: string, b: string)
    ensures Escape(a + b) == Escape(a) + Escape(b)
  {
    if a == [] {
      assert a + b == b;
    } else {
      assert (a + b)[1..] == a[1..] + b;
      EscapeConcat(a[1..], b);
    }
  }

  /** Text without special characters stands for itself. */
  lemma {:induction false} PlainEscape(v: string)
    requires forall i :: 0 <= i < |v| ==> !MustEscape(v[i])
    ensures Escape(v) == v
  {
    if v != [] {
      PlainEscape(v[1..]);
    }
  }

  /** An escaped value has none of the characters that could end it, nor a NUL unless the
      value has one. */
  lemma {:induction false} EscapedChars(v: string, i: nat)
    requires i < |Escape(v)|
    ensures Escape(v)[i] != '"' && Escape(v)[i] != '\'' && Escape(v)[i] != '<' && Escape(v)[i] != '>'
    ensures Escape(v)[i] == '\0' ==> '\0' in v
  {
    var n := |EscapeChar(v[0])|;
    if i >= n {
      EscapedChars(v[1..], i - n);
    }
  }

  // ---- Elements without children ----

  datatype Element = Element(level: nat, tag: string, attributes: seq<(string, string)>)

  function PrintAttribute(name: string, value: string): string {
    " " + (name + ("=\"" + (Escape(value) + "\"")))
  }

  function PrintAttributes(attributes: seq<(string, string)>): string {
    if attributes == [] then []
    else PrintAttribute(attributes[0].0, attributes[0].1) + PrintAttributes(attributes[1..])
  }

  function Spaces(n: nat): string {
    seq(n, _ => ' ')
  }

  function PrintElement(e: Element): string {
    Spaces(e.level) + (("<" + e.tag) + ((PrintAttributes(e.attributes) + "/>") + "\r\n"))
  }

  function Print(es: seq<Element>): string {
    if es == [] then [] else PrintElement(es[0]) + Print(es[1..])
  }

  // ---- The loops ----

  /** The first place from start on with a special character, or the end. */
  method FindFirstOf(str: string, start: nat) returns (pos: nat)
    requires start <= |str|
    ensures start <= pos <= |str| && (pos < |str| ==> MustEscape(str[pos]))
    ensures forall i :: start <= i < pos ==> !MustEscape(str[i])
  {
    pos := start;
    while pos < |str| && !MustEscape(str[pos])
      invariant start <= pos <= |str|
      invariant forall i :: start <= i < pos ==> !MustEscape(str[i])
    {
      pos := pos + 1;
    }
  }

  /** Appends the escaped value piece by piece. */
  method SetEscaped(os: string, str: string) returns (os': string)
    ensures os' == os + Escape(str)
  {
    os' := os;
    var start := 0;
    while start < |str|
      invariant start <= |str|
      invariant os' == os + Escape(str[..start])
    {
      var pos := FindFirstOf(str, start);
      EscapePiece(str, start, pos);
      Reassociate(os, Escape(str[..start]), str[start..pos]);
      os' := os' + str[start..pos];
      if pos < |str| {
        EscapeOne(str, pos);
        Reassociate(os, Escape(str[..pos]), EscapeChar(str[pos]));
        os' := os' + EscapeChar(str[pos]);
        pos := pos + 1;
      }
      start := pos;
    }
    assert str[..start] == str;
  }

  lemma EscapePiece(str: string, start: nat, pos: nat)
    requires start <= pos <= |str| && forall i :: start <= i < pos ==> !MustEscape(str[i])
    ensures Escape(str[..pos]) == Escape(str[..start]) + str[start..pos]
  {
    assert str[..pos] == str[..start] + str[start..pos];
    EscapeConcat(str[..start], str[start..pos]);
    PlainEscape(str[start..pos]);
  }

  lemma EscapeOne(str: string, pos: nat)
    requires pos < |str|
    ensures Escape(str[..pos + 1]) == Escape(str[..pos]) + EscapeChar(str[pos])
  {
    assert str[..pos + 1] == str[..pos] + [str[pos]];
    EscapeConcat(str[..pos], [str[pos]]);
  }

  /** Replaces entities from left to right. */
  method Decode(value: string) returns (s: string)
    ensures s == Unescape(value)
    ensures (forall i :: 0 <= i < |value| ==> !StartsEntity(value[i..])) ==> s == value
  {
    s := [];
    if forall i :: 0 <= i < |value| ==> !StartsEntity(value[i..]) {
      NoEntities(value);
    }
    var rest := value;
    while rest != []
      invariant s + Unescape(rest) == Unescape(value)
      decreases |rest|
    {
      if rest[0] != '&' {
        Reassociate(s, [rest[0]], Unescape(rest[1..]));
        s, rest := s + [rest[0]], rest[1..];
      } else {
        var (c, len) := Entity(rest);
        Reassociate(s, [c], Unescape(rest[len..]));
        s, rest := s + [c], rest[len..];
      }
    }
  }

  method PrintOneAttribute(os: string, name: string, value: string) returns (os': string)
    ensures os' == os + PrintAttribute(name, value)
  {
    os' := SetEscaped(os + " " + name + "=\"", value);
    os' := os' + "\"";
  }

  /** Prints an element without children: the tag, its attributes in order and the end. */
  method PrintOne(os: string, e: Element) returns (os': string)
    ensures os' == os + PrintElement(e)
  {
    var head := os + Spaces(e.level) + "<" + e.tag;
    os' := head;
    for i := 0 to |e.attributes|
      invariant os' == head + PrintAttributes(e.attributes[..i])
    {
      PrintAttributesSnoc(e.attributes, i);
      Reassociate(head, PrintAttributes(e.attributes[..i]), PrintAttribute(e.attributes[i].0, e.attributes[i].1));
      os' := PrintOneAttribute(os', e.attributes[i].0, e.attributes[i].1);
    }
    assert e.attributes[..|e.attributes|] == e.attributes;
    Assembled(os, Spaces(e.level), e.tag, PrintAttributes(e.attributes));
    os' := os' + "/>" + "\r\n";
  }

  lemma Assembled(os: string, indent: string, tag: string, attributes: string)
    ensures os + indent + "<" + tag + attributes + "/>" + "\r\n"
         == os + (indent + (("<" + tag) + ((attributes + "/>") + "\r\n")))
  {
  }

  lemma {:induction false} PrintAttributesSnoc(attributes: seq<(string, string)>, i: nat)
    requires i < |attributes|
    ensures PrintAttributes(attributes[..i + 1])
         == PrintAttributes(attributes[..i]) + PrintAttribute(attributes[i].0, attributes[i].1)
    decreases i
  {
    if i > 0 {
      PrintAttributesSnoc(attributes[1..], i - 1);
      assert attributes[..i + 1][1..] == attributes[1..][..i];
      assert attributes[..i][1..] == attributes[1..][..i - 1];
    }
  }
}
