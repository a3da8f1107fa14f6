/** What the parser makes of text that a client writes by hand: attributes without a value, without
    quotes, or in quotes of either kind, in elements that end with '/>' or with '>'. */
module XmlReading {
  import opened Common
  import opened XmlElement
  import opened XmlParser
  import opened XmlRoundTrip

  // ---- Case ----

  /** Equal, or the capital and the small form of one letter. */
  predicate SameLetter(a: char, b: char) {
    || a == b
    || ('A' <= a <= 'Z' && 'a' <= b <= 'z' && a as int + 32 == b as int)
    || ('a' <= a <= 'z' && 'A' <= b <= 'Z' && b as int + 32 == a as int)
  }

  /** Names are compared letter by letter. */
  lemma SameIff(v: string, w: string)
    ensures SameIgnoringCase(v, w) <==> |v| == |w| && forall i :: 0 <= i < |v| ==> SameLetter(v[i], w[i])
  {
    forall i | 0 <= i < |v| && i < |w|
      ensures Lower(v[i]) == Lower(w[i]) <==> SameLetter(v[i], w[i])
    {
      LowerIff(v[i], w[i]);
    }
  }

  lemma LowerIff(a: char, b: char)
    ensures Lower(a) == Lower(b) <==> SameLetter(a, b)
  {
  }

  // ---- Attributes as they may be given ----

  datatype Given =
    | Flag(name: string)
    | Bare(name: string, value: string)
    | Quoted(name: string, value: string, quote: char)

  function Text(g: Given): string {
    match g
    case Flag(name) => name
    case Bare(name, value) => name + ("=" + value)
    case Quoted(name, value, quote) => name + ("=" + ([quote] + (value + [quote])))
  }

  function ValueOf(g: Given): Option<string> {
    match g
    case Flag(_) => None
    case Bare(_, value) => Some(value)
    case Quoted(_, value, _) => Some(value)
  }

  /** A letter, and then anything but what ends a name. */
  predicate PlainName(name: string) {
    && name != [] && ('A' <= name[0] <= 'Z' || 'a' <= name[0] <= 'z')
    && '=' !in name && ' ' !in name && '/' !in name && '>' !in name && '\0' !in name
  }

  predicate Legal(g: Given) {
    && PlainName(g.name)
    && match g
       case Flag(_) => true
       case Bare(_, value) =>
         && value != [] && value[0] != '"' && value[0] != '\''
         && ' ' !in value && '>' !in value && '\0' !in value
       case Quoted(_, value, quote) => (quote == '"' || quote == '\'') && quote !in value && '\0' !in value
  }

  lemma PlainIsLegal(name: string)
    requires PlainName(name)
    ensures LegalName(name) && NulFree(name)
  {
    assert forall i :: 0 <= i < |name| ==> name[i] in name;
  }

  /** Where the scanner may be before the blank in front of an attribute, or before the end. */
  predicate Between(phase: Phase) {
    phase == ElementEnd || phase == Tail || phase == ArgumentValue
  }

  /** The scanner behind an attribute, in front of which it was at a blank. */
  function AfterGiven(s: Scanner, g: Given): Scanner {
    var p := s.pos + 1 + |g.name|;
    var s1 := s.(pos := s.pos + 1 + |Text(g)|, argument := s.pos + 1);
    match g
    case Flag(_) =>
      s1.(attributes := s.attributes + [Attribute(s.pos + 1, None)], zeros := s.zeros + {s.pos}, phase := ElementEnd)
    case Bare(_, _) =>
      s1.(attributes := s.attributes + [Attribute(s.pos + 1, Some(p + 1))],
          zeros := s.zeros + {s.pos} + {p}, phase := ArgumentValue)
    case Quoted(_, value, quote) =>
      s1.(attributes := s.attributes + [Attribute(s.pos + 1, Some(p + 2))], quote := quote,
          zeros := s.zeros + {s.pos} + {p} + {p + 2 + |value|}, phase := Tail)
  }

  lemma BlankLeads(t: string, s: Scanner)
    requires Between(s.phase) && s.pos < |t| && t[s.pos] == ' '
    ensures Leads(t, s, s.(phase := ElementEnd))
  {
    if s.phase != ElementEnd {
      StepLeads(t, s);
    }
  }

  function Named(s: Scanner, name: string): Scanner {
    s.(pos := s.pos + 1 + |name|, argument := s.pos + 1, phase := ArgumentName, zeros := s.zeros + {s.pos})
  }

  /** From the blank to the end of the name. */
  lemma NamedLeads(t: string, s: Scanner, name: string)
    requires Between(s.phase) && At(t, s.pos, " ") && At(t, s.pos + 1, name) && LegalName(name)
    ensures Leads(t, s, Named(s, name))
  {
    var s0 := s.(phase := ElementEnd);
    AtChar(t, s.pos, " ", 0);
    BlankLeads(t, s);
    StepLeads(t, s0);
    var s1 := s0.(pos := s.pos + 1, zeros := s.zeros + {s.pos});
    NameLeads(t, s1, name);
    var s2 := s1.(pos := s1.pos + |name|, argument := s1.pos, phase := ArgumentName);
    LeadsTransitive(t, s, s0, s1);
    LeadsTransitive(t, s, s1, s2);
  }

  lemma {:induction false} SkipBare(t: string, s: Scanner, n: nat)
    requires s.phase == ArgumentValue && s.pos + n <= |t|
    requires forall i :: s.pos <= i < s.pos + n ==> t[i] != ' ' && t[i] != '>'
    ensures Leads(t, s, s.(pos := s.pos + n))
    decreases n
  {
    if n > 0 {
      StepLeads(t, s);
      SkipBare(t, s.(pos := s.pos + 1), n - 1);
    }
  }

  lemma FlagLeads(t: string, s: Scanner, name: string)
    requires Between(s.phase) && s.name <= s.pos && PlainName(name)
    requires At(t, s.pos, " ") && At(t, s.pos + 1, name) && s.pos + 1 + |name| < |t|
    requires t[s.pos + 1 + |name|] == ' ' || t[s.pos + 1 + |name|] == '/' || t[s.pos + 1 + |name|] == '>'
    ensures Leads(t, s, AfterGiven(s, Flag(name)))
  {
    PlainIsLegal(name);
    NamedLeads(t, s, name);
    var s1 := Named(s, name);
    assert Step(t, s1) == Move(AfterGiven(s, Flag(name)), false);
    StepLeads(t, s1);
    LeadsTransitive(t, s, s1, AfterGiven(s, Flag(name)));
  }

  function BareOpened(s: Scanner): Scanner {
    s.(pos := s.pos + 2, zeros := s.zeros + {s.pos}, phase := ArgumentValue,
       attributes := s.attributes + [Attribute(s.argument, Some(s.pos + 1))])
  }

  function QuoteOpened(s: Scanner, quote: char): Scanner {
    s.(pos := s.pos + 2, zeros := s.zeros + {s.pos}, phase := QuotedValue, quote := quote,
       attributes := s.attributes + [Attribute(s.argument, Some(s.pos + 2))])
  }

  lemma BareOpens(t: string, s: Scanner)
    requires s.phase == ArgumentName && s.pos + 1 < |t| && t[s.pos] == '='
    requires t[s.pos + 1] != '"' && t[s.pos + 1] != '\''
    ensures Leads(t, s, BareOpened(s))
  {
    assert Step(t, s) == Move(BareOpened(s), false);
    StepLeads(t, s);
  }

  lemma QuoteOpens(t: string, s: Scanner, quote: char)
    requires s.phase == ArgumentName && s.pos + 2 < |t| && t[s.pos] == '=' && t[s.pos + 1] == quote
    requires quote == '"' || quote == '\''
    ensures Leads(t, s, QuoteOpened(s, quote))
  {
    assert Step(t, s) == Move(QuoteOpened(s, quote), false);
    StepLeads(t, s);
  }

  lemma BareLeads(t: string, s: Scanner, name: string, value: string)
    requires Between(s.phase) && Legal(Bare(name, value)) && At(t, s.pos, " ") && At(t, s.pos + 1, name)
    requires At(t, s.pos + 1 + |name|, "=") && At(t, s.pos + 2 + |name|, value)
    ensures Leads(t, s, AfterGiven(s, Bare(name, value)))
  {
    PlainIsLegal(name);
    NamedLeads(t, s, name);
    var s1 := Named(s, name);
    AtChar(t, s1.pos, "=", 0);
    AtChar(t, s1.pos + 1, value, 0);
    assert t[s1.pos + 1] == value[0];
    BareOpens(t, s1);
    LeadsTransitive(t, s, s1, BareOpened(s1));
    BareEnds(t, s, name, value);
  }

  lemma BareEnds(t: string, s: Scanner, name: string, value: string)
    requires Leads(t, s, BareOpened(Named(s, name))) && At(t, s.pos + 2 + |name|, value)
    requires value != [] && ' ' !in value && '>' !in value
    ensures Leads(t, s, AfterGiven(s, Bare(name, value)))
  {
    var s2 := BareOpened(Named(s, name));
    BareSkipped(t, s2, value);
    AfterBare(s, name, value);
    LeadsTransitive(t, s, s2, AfterGiven(s, Bare(name, value)));
  }

  lemma AfterBare(s: Scanner, name: string, value: string)
    requires value != []
    ensures var s2 := BareOpened(Named(s, name)); s2.(pos := s2.pos + |value| - 1) == AfterGiven(s, Bare(name, value))
  {
  }

  /** The value but for its first character, which the scanner is behind. */
  lemma BareSkipped(t: string, s: Scanner, value: string)
    requires s.phase == ArgumentValue && value != [] && s.pos >= 1 && At(t, s.pos - 1, value)
    requires ' ' !in value && '>' !in value
    ensures Leads(t, s, s.(pos := s.pos + |value| - 1))
  {
    forall i | s.pos <= i < s.pos + |value| - 1
      ensures t[i] != ' ' && t[i] != '>'
    {
      AtChar(t, s.pos - 1, value, i - s.pos + 1);
      assert value[i - s.pos + 1] in value;
    }
    SkipBare(t, s, |value| - 1);
  }

  lemma QuotedLeads(t: string, s: Scanner, name: string, value: string, quote: char)
    requires Between(s.phase) && Legal(Quoted(name, value, quote)) && At(t, s.pos, " ") && At(t, s.pos + 1, name)
    requires At(t, s.pos + 1 + |name|, "=") && At(t, s.pos + 2 + |name|, [quote])
    requires At(t, s.pos + 3 + |name|, value) && At(t, s.pos + 3 + |name| + |value|, [quote])
    requires s.pos + 4 + |name| + |value| < |t|
    ensures Leads(t, s, AfterGiven(s, Quoted(name, value, quote)))
  {
    PlainIsLegal(name);
    NamedLeads(t, s, name);
    var s1 := Named(s, name);
    var s2 := QuoteOpened(s1, quote);
    AtChar(t, s1.pos, "=", 0);
    AtChar(t, s1.pos + 1, [quote], 0);
    QuoteOpens(t, s1, quote);
    ClosedLeads(t, s2, value);
    AfterQuoted(s, name, value, quote);
    LeadsTransitive(t, s, s1, s2);
    LeadsTransitive(t, s, s2, AfterGiven(s, Quoted(name, value, quote)));
  }

  lemma AfterQuoted(s: Scanner, name: string, value: string, quote: char)
    ensures AfterValue(QuoteOpened(Named(s, name), quote), |value|) == AfterGiven(s, Quoted(name, value, quote))
  {
  }

  lemma ClosedLeads(t: string, s: Scanner, value: string)
    requires s.phase == QuotedValue && At(t, s.pos, value) && s.quote !in value
    requires At(t, s.pos + |value|, [s.quote]) && s.pos + |value| + 1 < |t|
    ensures Leads(t, s, AfterValue(s, |value|))
  {
    forall i | s.pos <= i < s.pos + |value|
      ensures t[i] != s.quote
    {
      AtChar(t, s.pos, value, i - s.pos);
      assert value[i - s.pos] in value;
    }
    SkipQuoted(t, s, |value|);
    var s1 := s.(pos := s.pos + |value|);
    AtChar(t, s1.pos, [s.quote], 0);
    assert Step(t, s1) == Move(AfterValue(s, |value|), false);
    StepLeads(t, s1);
    LeadsTransitive(t, s, s1, AfterValue(s, |value|));
  }

  /** The scanner gets over an attribute, however it is given. */
  lemma GivenLeads(t: string, s: Scanner, g: Given)
    requires Between(s.phase) && s.name <= s.pos && Legal(g) && At(t, s.pos, " " + Text(g))
    requires var p := s.pos + 1 + |Text(g)|;
             p < |t| && (g.Flag? ==> t[p] == ' ' || t[p] == '/' || t[p] == '>')
    ensures Leads(t, s, AfterGiven(s, g))
  {
    AtConcat(t, s.pos, " ", Text(g));
    match g
    case Flag(name) => FlagLeads(t, s, name);
    case Bare(name, value) =>
      AtConcat(t, s.pos + 1, name, "=" + value);
      AtConcat(t, s.pos + 1 + |name|, "=", value);
      BareLeads(t, s, name, value);
    case Quoted(name, value, quote) =>
      AtConcat(t, s.pos + 1, name, "=" + ([quote] + (value + [quote])));
      AtConcat(t, s.pos + 1 + |name|, "=", [quote] + (value + [quote]));
      AtConcat(t, s.pos + 2 + |name|, [quote], value + [quote]);
      AtConcat(t, s.pos + 3 + |name|, value, [quote]);
      QuotedLeads(t, s, name, value, quote);
  }

  // ---- The end of an element ----

  function Ending(blanks: nat, slash: bool): string {
    Spaces(blanks) + if slash then "/>" else ">"
  }

  /** The scanner reports the element at its end. */
  ghost predicate Ends(t: string, s: Scanner, length: nat, s': Scanner) {
    && Reports(t, s, s')
    && s' == s.(pos := s.pos + length, phase := ElementStart, zeros := s'.zeros)
    && Grows(s.zeros, s'.zeros, s.pos) && (Behind(s.zeros, s.pos) ==> Behind(s'.zeros, s'.pos))
    && (s.phase != Tail ==> s.pos in s'.zeros)
  }

  lemma BracketEnds(t: string, s: Scanner) returns (s': Scanner)
    requires Between(s.phase) && !s.starttls && At(t, s.pos, ">")
    ensures Ends(t, s, 1, s')
  {
    AtChar(t, s.pos, ">", 0);
    var s1 := s.(phase := ElementEnd);
    s' := s.(pos := s.pos + 1, phase := ElementStart, zeros := s.zeros + {s.pos});
    if s.phase != ElementEnd {
      StepLeads(t, s);
    }
    StepLeads(t, s1);
    LeadsReports(t, s, s1, s');
  }

  lemma SlashEnds(t: string, s: Scanner) returns (s': Scanner)
    requires (s.phase == ElementEnd || s.phase == Tail) && !s.starttls && At(t, s.pos, "/>")
    ensures Ends(t, s, 2, s')
  {
    s' := ClosingReports(t, s);
  }

  lemma BlanksEnd(t: string, s: Scanner, blanks: nat, slash: bool) returns (s': Scanner)
    requires Between(s.phase) && !s.starttls && blanks > 0 && At(t, s.pos, Ending(blanks, slash))
    ensures Ends(t, s, |Ending(blanks, slash)|, s')
  {
    var close := if slash then "/>" else ">";
    AtConcat(t, s.pos, Spaces(blanks), close);
    forall i | s.pos <= i < s.pos + blanks
      ensures t[i] == ' '
    {
      AtChar(t, s.pos, Spaces(blanks), i - s.pos);
    }
    BlankLeads(t, s);
    var s1 := s.(phase := ElementEnd);
    SkipBlanks(t, s1, blanks);
    var s2 := s1.(pos := s.pos + blanks, zeros := s.zeros + Range(s.pos, blanks));
    LeadsTransitive(t, s, s1, s2);
    if slash {
      s' := SlashEnds(t, s2);
    } else {
      s' := BracketEnds(t, s2);
    }
    LeadsReports(t, s, s2, s');
  }

  lemma ElementEnds(t: string, s: Scanner, blanks: nat, slash: bool) returns (s': Scanner)
    requires Between(s.phase) && !s.starttls && At(t, s.pos, Ending(blanks, slash))
    requires s.phase == ArgumentValue && slash ==> blanks > 0
    ensures Ends(t, s, |Ending(blanks, slash)|, s')
  {
    if blanks > 0 {
      s' := BlanksEnd(t, s, blanks, slash);
    } else {
      assert Spaces(0) + "/>" == "/>" && Spaces(0) + ">" == ">";
      if slash {
        s' := SlashEnds(t, s);
      } else {
        s' := BracketEnds(t, s);
      }
    }
  }

  // ---- All attributes ----

  function Texts(gs: seq<Given>): string {
    if gs == [] then [] else (" " + Text(gs[0])) + Texts(gs[1..])
  }

  /** An attribute of the scanner is the given one. */
  ghost predicate Has(t: string, zeros: set<nat>, a: Attribute, g: Given, end: nat) {
    && Spelled(t, zeros, a.name, g.name) && a.name + |g.name| < end
    && match ValueOf(g)
       case None => a.value.None?
       case Some(value) =>
         a.value.Some? && Spelled(t, zeros, a.value.value, value) && a.value.value + |value| < end
  }

  ghost predicate HasAll(t: string, s: Scanner, from: nat, gs: seq<Given>) {
    && |s.attributes| == from + |gs|
    && forall i :: 0 <= i < |gs| ==> Has(t, s.zeros, s.attributes[from + i], gs[i], s.pos)
  }

  /** What is left of an element is read through to its end. */
  ghost predicate Through(t: string, s: Scanner, gs: seq<Given>, length: nat, s': Scanner) {
    && Reports(t, s, s')
    && s'.phase == ElementStart && s'.pos == s.pos + length && s'.name == s.name
    && s.attributes <= s'.attributes && HasAll(t, s', |s.attributes|, gs)
    && Behind(s'.zeros, s'.pos) && Grows(s.zeros, s'.zeros, s.pos) && (s.phase != Tail ==> s.pos in s'.zeros)
  }

  /** The text from the first of gs on. A value without quotes takes a '/' for its own, so that
      '/>' cannot follow it at once. */
  ghost predicate AtGiven(t: string, s: Scanner, gs: seq<Given>, blanks: nat, slash: bool) {
    && Between(s.phase) && !s.starttls && s.name <= s.pos && Behind(s.zeros, s.pos)
    && At(t, s.pos, Texts(gs) + Ending(blanks, slash))
    && (forall i :: 0 <= i < |gs| ==> Legal(gs[i]))
    && ((if gs == [] then s.phase == ArgumentValue else gs[|gs| - 1].Bare?) && slash ==> blanks > 0)
  }

  lemma NextChar(t: string, p: nat, gs: seq<Given>, blanks: nat, slash: bool)
    requires At(t, p, Texts(gs) + Ending(blanks, slash))
    ensures p < |t| && (t[p] == ' ' || t[p] == '/' || t[p] == '>')
  {
    var w := Texts(gs) + Ending(blanks, slash);
    assert w != [] && (w[0] == ' ' || w[0] == '/' || w[0] == '>');
    AtChar(t, p, w, 0);
  }

  lemma FirstText(t: string, p: nat, gs: seq<Given>, blanks: nat, slash: bool)
    requires gs != [] && At(t, p, Texts(gs) + Ending(blanks, slash))
    ensures At(t, p, " " + Text(gs[0])) && At(t, p + 1 + |Text(gs[0])|, Texts(gs[1..]) + Ending(blanks, slash))
  {
    TextsFirst(gs, Ending(blanks, slash));
    Divided(t, p, Texts(gs) + Ending(blanks, slash), Text(gs[0]), Texts(gs[1..]) + Ending(blanks, slash));
  }

  lemma Divided(t: string, p: nat, all: string, w: string, rest: string)
    requires At(t, p, all) && all == (" " + w) + rest
    ensures At(t, p, " " + w) && At(t, p + 1 + |w|, rest)
  {
    AtConcat(t, p, " " + w, rest);
    assert p + |" " + w| == p + 1 + |w|;
  }

  lemma TextsFirst(gs: seq<Given>, end: string)
    requires gs != []
    ensures Texts(gs) + end == (" " + Text(gs[0])) + (Texts(gs[1..]) + end)
  {
    Reassociate(" " + Text(gs[0]), Texts(gs[1..]), end);
  }

  /** The scanner gets over the first attribute. */
  lemma FirstGiven(t: string, s: Scanner, gs: seq<Given>, blanks: nat, slash: bool) returns (s1: Scanner)
    requires AtGiven(t, s, gs, blanks, slash) && gs != []
    ensures s1 == AfterGiven(s, gs[0]) && Leads(t, s, s1) && AtGiven(t, s1, gs[1..], blanks, slash)
    ensures s1.pos == s.pos + |" " + Text(gs[0])|
  {
    FirstText(t, s.pos, gs, blanks, slash);
    NextChar(t, s.pos + 1 + |Text(gs[0])|, gs[1..], blanks, slash);
    GivenLeads(t, s, gs[0]);
    s1 := AfterGiven(s, gs[0]);
    BehindFirst(t, s, gs, blanks, slash);
  }

  lemma BehindFirst(t: string, s: Scanner, gs: seq<Given>, blanks: nat, slash: bool)
    requires AtGiven(t, s, gs, blanks, slash) && gs != []
    requires At(t, s.pos + 1 + |Text(gs[0])|, Texts(gs[1..]) + Ending(blanks, slash))
    ensures var s1 := AfterGiven(s, gs[0]);
            AtGiven(t, s1, gs[1..], blanks, slash) && s1.pos == s.pos + |" " + Text(gs[0])|
  {
    AfterGivenIs(s, gs[0]);
    RestGiven(t, AfterGiven(s, gs[0]), gs, blanks, slash);
  }

  lemma RestGiven(t: string, s: Scanner, gs: seq<Given>, blanks: nat, slash: bool)
    requires gs != [] && Between(s.phase) && (s.phase == ArgumentValue <==> gs[0].Bare?)
    requires !s.starttls && s.name <= s.pos && Behind(s.zeros, s.pos)
    requires At(t, s.pos, Texts(gs[1..]) + Ending(blanks, slash))
    requires forall i :: 0 <= i < |gs| ==> Legal(gs[i])
    requires gs[|gs| - 1].Bare? && slash ==> blanks > 0
    ensures AtGiven(t, s, gs[1..], blanks, slash)
  {
  }

  lemma AfterGivenIs(s: Scanner, g: Given)
    requires Behind(s.zeros, s.pos)
    ensures var s1 := AfterGiven(s, g);
            && Between(s1.phase) && (s1.phase == ArgumentValue <==> g.Bare?) && Behind(s1.zeros, s1.pos)
            && s1.pos == s.pos + 1 + |Text(g)| && s1.name == s.name && s1.starttls == s.starttls
            && Grows(s.zeros, s1.zeros, s.pos) && s.pos in s1.zeros
            && s.attributes <= s1.attributes && |s1.attributes| == |s.attributes| + 1
  {
  }

  /** The pieces of an attribute, with what has been overwritten behind them. */
  lemma GivenSpelled(t: string, s: Scanner, g: Given, zeros: set<nat>, end: nat)
    requires Legal(g) && At(t, s.pos, " " + Text(g)) && Behind(s.zeros, s.pos)
    requires var s1 := AfterGiven(s, g);
             && Grows(s1.zeros, zeros, s1.pos) && s1.pos < end && (s1.phase != Tail ==> s1.pos in zeros)
    ensures var a := AfterGiven(s, g).attributes[|s.attributes|]; Has(t, zeros, a, g, end)
  {
    PlainIsLegal(g.name);
    AtConcat(t, s.pos, " ", Text(g));
    match g
    case Flag(name) =>
    case Bare(name, value) =>
      AtConcat(t, s.pos + 1, name, "=" + value);
      AtConcat(t, s.pos + 1 + |name|, "=", value);
      BareSpelled(t, s, name, value, zeros, end);
    case Quoted(name, value, quote) =>
      AtConcat(t, s.pos + 1, name, "=" + ([quote] + (value + [quote])));
      AtConcat(t, s.pos + 1 + |name|, "=", [quote] + (value + [quote]));
      AtConcat(t, s.pos + 2 + |name|, [quote], value + [quote]);
      AtConcat(t, s.pos + 3 + |name|, value, [quote]);
      QuotedSpelled(t, s, g, zeros, end);
  }

  lemma BareSpelled(t: string, s: Scanner, name: string, value: string, zeros: set<nat>, end: nat)
    requires '\0' !in value && NulFree(name) && Behind(s.zeros, s.pos)
    requires At(t, s.pos + 1, name) && At(t, s.pos + 2 + |name|, value)
    requires var s1 := AfterGiven(s, Bare(name, value));
             Grows(s1.zeros, zeros, s1.pos) && s1.pos < end && s1.pos in zeros
    ensures var g := Bare(name, value); Has(t, zeros, AfterGiven(s, g).attributes[|s.attributes|], g, end)
  {
    assert forall i :: 0 <= i < |value| ==> value[i] in value;
  }

  lemma QuotedSpelled(t: string, s: Scanner, g: Given, zeros: set<nat>, end: nat)
    requires g.Quoted? && '\0' !in g.value && NulFree(g.name) && Behind(s.zeros, s.pos)
    requires At(t, s.pos + 1, g.name) && At(t, s.pos + 3 + |g.name|, g.value)
    requires var s1 := AfterGiven(s, g); Grows(s1.zeros, zeros, s1.pos) && s1.pos < end
    ensures Has(t, zeros, AfterGiven(s, g).attributes[|s.attributes|], g, end)
  {
    var p := s.pos + 1 + |g.name|;
    QuotedZeros(s, g, zeros);
    NoNul(g.value);
    SpelledAt(t, zeros, s.pos + 1, g.name);
    SpelledAt(t, zeros, p + 2, g.value);
    HasPieces(t, zeros, s.pos + 1, p + 2, g, end);
  }

  lemma HasPieces(t: string, zeros: set<nat>, p: nat, q: nat, g: Given, end: nat)
    requires g.Quoted? && Spelled(t, zeros, p, g.name) && Spelled(t, zeros, q, g.value)
    requires p + |g.name| < end && q + |g.value| < end
    ensures Has(t, zeros, Attribute(p, Some(q)), g, end)
  {
  }

  lemma NoNul(w: string)
    requires '\0' !in w
    ensures NulFree(w)
  {
    assert forall i :: 0 <= i < |w| ==> w[i] in w;
  }

  lemma SpelledAt(t: string, zeros: set<nat>, p: nat, w: string)
    requires At(t, p, w) && NulFree(w) && p + |w| in zeros
    requires forall z :: z in zeros ==> z < p || z >= p + |w|
    ensures Spelled(t, zeros, p, w)
  {
  }

  lemma QuotedZeros(s: Scanner, g: Given, zeros: set<nat>)
    requires g.Quoted? && Behind(s.zeros, s.pos)
    requires var s1 := AfterGiven(s, g); Grows(s1.zeros, zeros, s1.pos)
    ensures var p := s.pos + 1 + |g.name|;
            && p in zeros && p + 2 + |g.value| in zeros
            && forall z :: z in zeros ==> z <= s.pos || z == p || z >= p + 2 + |g.value|
  {
  }

  lemma HasKeeps(t: string, zeros: set<nat>, zeros': set<nat>, a: Attribute, g: Given, end: nat, end': nat)
    requires Has(t, zeros, a, g, end) && Grows(zeros, zeros', end) && end <= end'
    ensures Has(t, zeros', a, g, end')
  {
    SpelledKeeps(t, zeros, zeros', a.name, g.name, end);
    if ValueOf(g).Some? {
      SpelledKeeps(t, zeros, zeros', a.value.value, ValueOf(g).value, end);
    }
  }

  lemma {:induction false} GivenRead(t: string, s: Scanner, gs: seq<Given>, blanks: nat, slash: bool)
    returns (s': Scanner)
    requires AtGiven(t, s, gs, blanks, slash)
    ensures Through(t, s, gs, |Texts(gs)| + |Ending(blanks, slash)|, s')
    decreases |gs|
  {
    if gs == [] {
      assert Texts([]) + Ending(blanks, slash) == Ending(blanks, slash);
      s' := ElementEnds(t, s, blanks, slash);
    } else {
      var s1 := FirstGiven(t, s, gs, blanks, slash);
      s' := GivenRead(t, s1, gs[1..], blanks, slash);
      FirstText(t, s.pos, gs, blanks, slash);
      ThroughFirst(t, s, gs, |Texts(gs[1..])| + |Ending(blanks, slash)|, s');
    }
  }

  lemma ThroughFirst(t: string, s: Scanner, gs: seq<Given>, length: nat, s': Scanner)
    requires gs != [] && Legal(gs[0]) && At(t, s.pos, " " + Text(gs[0])) && Behind(s.zeros, s.pos)
    requires Leads(t, s, AfterGiven(s, gs[0])) && length > 0
    requires Through(t, AfterGiven(s, gs[0]), gs[1..], length, s')
    ensures Through(t, s, gs, 1 + |Text(gs[0])| + length, s')
  {
    var s1 := AfterGiven(s, gs[0]);
    AfterGivenIs(s, gs[0]);
    LeadsReports(t, s, s1, s');
    GivenSpelled(t, s, gs[0], s'.zeros, s'.pos);
    assert s'.attributes[|s.attributes|] == s1.attributes[|s.attributes|];
    HasAllCons(t, s', |s.attributes|, gs);
  }

  lemma HasAllCons(t: string, s: Scanner, n: nat, gs: seq<Given>)
    requires gs != [] && HasAll(t, s, n + 1, gs[1..]) && Has(t, s.zeros, s.attributes[n], gs[0], s.pos)
    ensures HasAll(t, s, n, gs)
  {
    forall i | 0 < i < |gs|
      ensures Has(t, s.zeros, s.attributes[n + i], gs[i], s.pos)
    {
      assert Has(t, s.zeros, s.attributes[n + 1 + (i - 1)], gs[1..][i - 1], s.pos);
    }
  }

  // ---- Elements ----

  /** A tag is a name that does not ask for encryption. */
  predicate PlainTag(tag: string) {
    PlainName(tag) && !("starttls" <= tag)
  }

  function ElementText(tag: string, gs: seq<Given>, blanks: nat, slash: bool): string {
    ("<" + tag) + (Texts(gs) + Ending(blanks, slash))
  }

  predicate Wellformed(tag: string, gs: seq<Given>, blanks: nat, slash: bool) {
    && PlainTag(tag) && (forall i :: 0 <= i < |gs| ==> Legal(gs[i]))
    && (gs != [] && gs[|gs| - 1].Bare? && slash ==> blanks > 0)
  }

  /** The scanner, as it reports the element: its tag, which is also its first attribute, and its
      attributes, in order, and no more. */
  ghost predicate Reported(t: string, s: Scanner, tag: string, gs: seq<Given>) {
    && Spelled(t, s.zeros, s.name, tag) && s.name + |tag| < s.pos <= |t|
    && |s.attributes| > 0 && s.attributes[0] == Attribute(s.name, None) && HasAll(t, s, 1, gs)
  }

  lemma TagGiven(t: string, s: Scanner, tag: string)
    requires s.phase == ElementStart && At(t, s.pos, "<" + tag) && PlainTag(tag) && s.pos + 1 + |tag| < |t|
    requires var c := t[s.pos + 1 + |tag|]; c == ' ' || c == '/' || c == '>'
    ensures Leads(t, s, AfterTag(s, tag))
  {
    PlainIsLegal(tag);
    AtConcat(t, s.pos, "<", tag);
    AtChar(t, s.pos, "<", 0);
    AtChar(t, s.pos + 1, tag, 0);
    StepLeads(t, s);
    var s1 := s.(pos := s.pos + 1, name := s.pos + 1, attributes := [], starttls := false, phase := ElementEnd);
    NameLeads(t, s1, tag);
    var s2 := s1.(pos := s1.pos + |tag|, argument := s1.pos, phase := ArgumentName);
    assert Step(t, s2) == Move(AfterTag(s, tag), false) by {
      assert t[s2.name..s2.pos] == tag;
    }
    StepLeads(t, s2);
    LeadsTransitive(t, s, s1, s2);
    LeadsTransitive(t, s, s2, AfterTag(s, tag));
  }

  /** From the '<' of a well-formed element to its end, where it is reported as given. */
  lemma ElementGiven(t: string, s: Scanner, tag: string, gs: seq<Given>, blanks: nat, slash: bool)
    returns (s': Scanner)
    requires s.phase == ElementStart && Behind(s.zeros, s.pos) && Wellformed(tag, gs, blanks, slash)
    requires At(t, s.pos, ElementText(tag, gs, blanks, slash))
    ensures Reports(t, s, s') && Reported(t, s', tag, gs)
    ensures s'.phase == ElementStart && Behind(s'.zeros, s'.pos)
    ensures s'.pos == s.pos + |ElementText(tag, gs, blanks, slash)|
  {
    TagRead(t, s, tag, gs, blanks, slash);
    s' := GivenRead(t, AfterTag(s, tag), gs, blanks, slash);
    GivenReported(t, s, tag, gs, |Texts(gs)| + |Ending(blanks, slash)|, s');
  }

  lemma TagRead(t: string, s: Scanner, tag: string, gs: seq<Given>, blanks: nat, slash: bool)
    requires s.phase == ElementStart && Behind(s.zeros, s.pos) && Wellformed(tag, gs, blanks, slash)
    requires At(t, s.pos, ElementText(tag, gs, blanks, slash))
    ensures At(t, s.pos, "<" + tag) && Leads(t, s, AfterTag(s, tag))
    ensures AtGiven(t, AfterTag(s, tag), gs, blanks, slash)
  {
    AtConcat(t, s.pos, "<" + tag, Texts(gs) + Ending(blanks, slash));
    NextChar(t, s.pos + 1 + |tag|, gs, blanks, slash);
    TagGiven(t, s, tag);
    TagBefore(t, s, tag, gs, blanks, slash);
  }

  lemma TagBefore(t: string, s: Scanner, tag: string, gs: seq<Given>, blanks: nat, slash: bool)
    requires Behind(s.zeros, s.pos) && Wellformed(tag, gs, blanks, slash)
    requires At(t, s.pos + 1 + |tag|, Texts(gs) + Ending(blanks, slash))
    ensures AtGiven(t, AfterTag(s, tag), gs, blanks, slash)
  {
  }

  lemma GivenReported(t: string, s: Scanner, tag: string, gs: seq<Given>, length: nat, s': Scanner)
    requires Behind(s.zeros, s.pos) && At(t, s.pos, "<" + tag) && PlainTag(tag) && length > 0
    requires Leads(t, s, AfterTag(s, tag)) && Through(t, AfterTag(s, tag), gs, length, s')
    ensures Reports(t, s, s') && Reported(t, s', tag, gs)
    ensures s'.phase == ElementStart && Behind(s'.zeros, s'.pos) && s'.pos == s.pos + 1 + |tag| + length
  {
    LeadsReports(t, s, AfterTag(s, tag), s');
    PlainIsLegal(tag);
    TagSpelled(t, s, tag, s'.zeros);
  }

  // ---- What the session is told ----

  lemma ReportedNames(t: string, s: Scanner, tag: string, gs: seq<Given>, j: nat)
    requires Reported(t, s, tag, gs) && j < |s.attributes|
    ensures CString(t, s.zeros, s.attributes[j].name) == if j == 0 then tag else gs[j - 1].name
  {
    if j == 0 {
      SpelledIsCString(t, s.zeros, s.name, tag);
    } else {
      assert Has(t, s.zeros, s.attributes[1 + (j - 1)], gs[j - 1], s.pos);
      SpelledIsCString(t, s.zeros, s.attributes[j].name, gs[j - 1].name);
    }
  }

  /** The place of the first of the names that is the key in small or capital letters. */
  predicate FirstNamed(key: string, tag: string, gs: seq<Given>, i: nat)
    requires i < |gs|
  {
    && IsKey(key, gs[i].name) && !IsKey(key, tag) && forall j :: 0 <= j < i ==> !IsKey(key, gs[j].name)
  }

  predicate IsKey(key: string, name: string) {
    |key| == |name| && forall i :: 0 <= i < |key| ==> SameLetter(key[i], name[i])
  }

  /** Asked for a key in any mix of small and capital letters, the element gives the value of the
      first attribute of that name, decoded, and none for a flag. */
  lemma GivenIsTold(t: string, s: Scanner, tag: string, gs: seq<Given>, key: string, i: nat)
    requires Reported(t, s, tag, gs) && i < |gs| && FirstNamed(key, tag, gs, i)
    ensures Tag(t, s) == tag
    ensures Find(t, s.zeros, s.attributes, key) == Some(s.attributes[1 + i])
    ensures GetString(t, s, key)
         == match ValueOf(gs[i])
            case None => None
            case Some(value) => Some(Unescape(value))
  {
    SpelledIsCString(t, s.zeros, s.name, tag);
    GivenIsFound(t, s, tag, gs, key, i);
    assert Has(t, s.zeros, s.attributes[1 + i], gs[i], s.pos);
    if ValueOf(gs[i]).Some? {
      SpelledIsCString(t, s.zeros, s.attributes[1 + i].value.value, ValueOf(gs[i]).value);
    }
  }

  lemma NamedIff(t: string, s: Scanner, tag: string, gs: seq<Given>, key: string, j: nat)
    requires Reported(t, s, tag, gs) && j < |s.attributes|
    ensures SameIgnoringCase(key, CString(t, s.zeros, s.attributes[j].name))
            <==> IsKey(key, if j == 0 then tag else gs[j - 1].name)
  {
    ReportedNames(t, s, tag, gs, j);
    SameIff(key, if j == 0 then tag else gs[j - 1].name);
  }

  lemma GivenIsFound(t: string, s: Scanner, tag: string, gs: seq<Given>, key: string, i: nat)
    requires Reported(t, s, tag, gs) && i < |gs| && FirstNamed(key, tag, gs, i)
    ensures |s.attributes| == 1 + |gs| && Find(t, s.zeros, s.attributes, key) == Some(s.attributes[1 + i])
  {
    forall j | 0 <= j < 1 + i
      ensures !SameIgnoringCase(key, CString(t, s.zeros, s.attributes[j].name))
    {
      NamedIff(t, s, tag, gs, key, j);
    }
    NamedIff(t, s, tag, gs, key, 1 + i);
    FindAt(t, s.zeros, s.attributes, key, 1 + i);
  }

  // ---- Texts of elements and rubbish ----

  /** A well-formed element, or text that is none: text without '<', a '<' that is not followed by
      a letter, and an element that is given up where an attribute should start, or behind a '/'
      that ends nothing. */
  datatype Piece =
    | Written(tag: string, gs: seq<Given>, blanks: nat, slash: bool)
    | Rubbish(text: string)
    | Lone(c: char)
    | Broken(tag: string, c: char)
    | Slashed(tag: string, c: char)

  function PieceText(x: Piece): string {
    match x
    case Written(tag, gs, blanks, slash) => ElementText(tag, gs, blanks, slash)
    case Rubbish(text) => text
    case Lone(c) => ['<', c]
    case Broken(tag, c) => ("<" + tag) + [' ', c]
    case Slashed(tag, c) => ("<" + tag) + ['/', c]
  }

  predicate Letter(c: char) {
    'A' <= c <= 'Z' || 'a' <= c <= 'z'
  }

  predicate GoodPiece(x: Piece) {
    match x
    case Written(tag, gs, blanks, slash) => Wellformed(tag, gs, blanks, slash)
    case Rubbish(text) => '<' !in text
    case Lone(c) => !Letter(c) && c != '<'
    case Broken(tag, c) => PlainTag(tag) && !Letter(c) && c != ' ' && c != '/' && c != '>' && c != '<'
    case Slashed(tag, c) => PlainTag(tag) && c != '>'
  }

  function PieceTexts(xs: seq<Piece>): string {
    if xs == [] then [] else PieceText(xs[0]) + PieceTexts(xs[1..])
  }

  function WrittenOf(xs: seq<Piece>): seq<Piece> {
    if xs == [] then [] else (if xs[0].Written? then [xs[0]] else []) + WrittenOf(xs[1..])
  }

  ghost predicate AllReported(t: string, found: seq<Scanner>, xs: seq<Piece>) {
    && |found| == |xs|
    && forall k :: 0 <= k < |xs| ==> xs[k].Written? && Reported(t, found[k], xs[k].tag, xs[k].gs)
  }

  lemma RubbishLeads(t: string, s: Scanner, text: string)
    requires s.phase == ElementStart && At(t, s.pos, text) && '<' !in text
    ensures Leads(t, s, s.(pos := s.pos + |text|))
  {
    forall i | s.pos <= i < s.pos + |text|
      ensures t[i] != '<'
    {
      AtChar(t, s.pos, text, i - s.pos);
      assert text[i - s.pos] in text;
    }
    SkipJunk(t, s, |text|);
  }

  lemma LoneLeads(t: string, s: Scanner, c: char)
    requires s.phase == ElementStart && At(t, s.pos, ['<', c]) && s.pos + 2 < |t| && !Letter(c) && c != '<'
    ensures Leads(t, s, s.(pos := s.pos + 2, name := s.pos + 1))
  {
    AtChar(t, s.pos, ['<', c], 0);
    AtChar(t, s.pos, ['<', c], 1);
    var s1 := s.(pos := s.pos + 1, name := s.pos + 1);
    assert Step(t, s) == Move(s1, false);
    StepLeads(t, s);
    StepLeads(t, s1);
  }

  /** The scanner gives up an element without reporting it. */
  lemma GivenUp(t: string, s: Scanner, tag: string, sep: char, c: char) returns (s': Scanner)
    requires s.phase == ElementStart && At(t, s.pos, ("<" + tag) + [sep, c]) && PlainTag(tag)
    requires if sep == '/' then c != '>'
             else sep == ' ' && !Letter(c) && c != ' ' && c != '/' && c != '>' && c != '<'
    ensures Leads(t, s, s') && s'.phase == ElementStart && s'.pos == s.pos + 3 + |tag|
    ensures Behind(s.zeros, s.pos) ==> Behind(s'.zeros, s'.pos)
  {
    AtConcat(t, s.pos, "<" + tag, [sep, c]);
    AtChar(t, s.pos + 1 + |tag|, [sep, c], 0);
    AtChar(t, s.pos + 1 + |tag|, [sep, c], 1);
    TagGiven(t, s, tag);
    var s1 := AfterTag(s, tag);
    s' := GivesUp(t, s1, sep, c);
    LeadsTransitive(t, s, s1, s');
  }

  lemma GivesUp(t: string, s: Scanner, sep: char, c: char) returns (s': Scanner)
    requires s.phase == ElementEnd && s.pos + 1 < |t| && t[s.pos] == sep && t[s.pos + 1] == c
    requires if sep == '/' then c != '>'
             else sep == ' ' && !Letter(c) && c != ' ' && c != '/' && c != '>' && c != '<'
    ensures Leads(t, s, s') && s' == s.(phase := ElementStart, pos := s.pos + 2, zeros := s.zeros + {s.pos})
  {
    s' := s.(phase := ElementStart, pos := s.pos + 2, zeros := s.zeros + {s.pos});
    StepLeads(t, s);
    if sep == ' ' {
      var s1 := s.(pos := s.pos + 1, zeros := s.zeros + {s.pos});
      var s2 := s1.(phase := ElementStart);
      assert Step(t, s1) == Move(s2, false);
      StepLeads(t, s1);
      StepLeads(t, s2);
      LeadsTransitive(t, s, s1, s2);
      LeadsTransitive(t, s, s2, s');
    }
  }

  ghost predicate AtPieces(t: string, s: Scanner, xs: seq<Piece>) {
    && s.phase == ElementStart && Behind(s.zeros, s.pos)
    && At(t, s.pos, PieceTexts(xs)) && s.pos + |PieceTexts(xs)| + 1 == |t| && t[|t| - 1] != '<'
    && forall k :: 0 <= k < |xs| ==> GoodPiece(xs[k])
  }

  lemma FirstPiece(t: string, s: Scanner, xs: seq<Piece>) returns (s': Scanner)
    requires AtPieces(t, s, xs) && xs != []
    ensures s'.phase == ElementStart && Behind(s'.zeros, s'.pos) && s'.pos == s.pos + |PieceText(xs[0])|
    ensures if xs[0].Written? then Reports(t, s, s') && Reported(t, s', xs[0].tag, xs[0].gs) else Leads(t, s, s')
  {
    AtConcat(t, s.pos, PieceText(xs[0]), PieceTexts(xs[1..]));
    assert GoodPiece(xs[0]);
    match xs[0]
    case Written(tag, gs, blanks, slash) => s' := ElementGiven(t, s, tag, gs, blanks, slash);
    case Rubbish(text) =>
      RubbishLeads(t, s, text);
      s' := s.(pos := s.pos + |text|);
    case Lone(c) =>
      LoneLeads(t, s, c);
      s' := s.(pos := s.pos + 2, name := s.pos + 1);
    case Broken(tag, c) => s' := GivenUp(t, s, tag, ' ', c);
    case Slashed(tag, c) => s' := GivenUp(t, s, tag, '/', c);
  }

  /** In a text of such pieces, and one more character, the scanner finds the elements, all of them,
      in order and as they are written, and nothing else. */
  lemma {:induction false} PiecesRead(t: string, s: Scanner, xs: seq<Piece>)
    requires AtPieces(t, s, xs)
    ensures Tidy(t, s) && AllReported(t, Drain(t, s).found, WrittenOf(xs))
    decreases |xs|
  {
    if xs == [] {
      StepLeads(t, s);
      assert Drain(t, s.(pos := s.pos + 1)).found == [];
    } else {
      var s' := FirstPiece(t, s, xs);
      AtConcat(t, s.pos, PieceText(xs[0]), PieceTexts(xs[1..]));
      PiecesRead(t, s', xs[1..]);
      if xs[0].Written? {
        AllReportedCons(t, Drain(t, s).found, xs[0], WrittenOf(xs[1..]));
      }
    }
  }

  lemma AllReportedCons(t: string, found: seq<Scanner>, x: Piece, xs: seq<Piece>)
    requires found != [] && x.Written? && Reported(t, found[0], x.tag, x.gs) && AllReported(t, found[1..], xs)
    ensures AllReported(t, found, [x] + xs)
  {
    forall k | 0 < k < |[x] + xs|
      ensures ([x] + xs)[k].Written? && Reported(t, found[k], ([x] + xs)[k].tag, ([x] + xs)[k].gs)
    {
      assert xs[k - 1].Written? && Reported(t, found[1..][k - 1], xs[k - 1].tag, xs[k - 1].gs);
    }
  }

  // ---- A request for encryption ----

  /** A tag that begins with starttls is reported when its line has ended, and not at all if
      something else follows. */
  lemma StartTls(t: string, s: Scanner, tag: string, cr: bool, c: char) returns (s': Scanner)
    requires s.phase == ElementStart && PlainName(tag) && "starttls" <= tag
    requires At(t, s.pos, ("<" + tag) + ((if cr then ">\r" else ">") + [c])) && (!cr ==> c != '\r')
    ensures if c == '\n' then Reports(t, s, s') && s'.pos == s.pos + 2 + |tag| + (if cr then 1 else 0) + 1
            else Leads(t, s, s') && s'.pos == s.pos + 2 + |tag| + if cr then 1 else 0
    ensures s'.phase == ElementStart && s'.name == s.pos + 1 && s'.attributes == [Attribute(s.pos + 1, None)]
  {
    var w, p := (if cr then ">\r" else ">") + [c], s.pos + 1 + |tag|;
    AtConcat(t, s.pos, "<" + tag, w);
    AtChar(t, p, w, 0);
    AtChar(t, p, w, 1);
    AtChar(t, p, w, |w| - 1);
    var s3 := s.(pos := p, name := s.pos + 1, argument := s.pos + 1, starttls := true,
                 attributes := [Attribute(s.pos + 1, None)], phase := ElementEnd);
    TlsTag(t, s, tag);
    s' := LineEnds(t, s3, cr, c);
    if c == '\n' {
      LeadsReports(t, s, s3, s');
    } else {
      LeadsTransitive(t, s, s3, s');
    }
  }

  lemma TlsTag(t: string, s: Scanner, tag: string)
    requires s.phase == ElementStart && PlainName(tag) && "starttls" <= tag
    requires At(t, s.pos, "<" + tag) && s.pos + 1 + |tag| < |t| && t[s.pos + 1 + |tag|] == '>'
    ensures Leads(t, s, s.(pos := s.pos + 1 + |tag|, name := s.pos + 1, argument := s.pos + 1, starttls := true,
                           attributes := [Attribute(s.pos + 1, None)], phase := ElementEnd))
  {
    PlainIsLegal(tag);
    AtConcat(t, s.pos, "<", tag);
    AtChar(t, s.pos, "<", 0);
    AtChar(t, s.pos + 1, tag, 0);
    StepLeads(t, s);
    var s1 := s.(pos := s.pos + 1, name := s.pos + 1, attributes := [], starttls := false, phase := ElementEnd);
    NameLeads(t, s1, tag);
    var s2 := s1.(pos := s.pos + 1 + |tag|, argument := s.pos + 1, phase := ArgumentName);
    var s3 := s2.(attributes := [Attribute(s.pos + 1, None)], starttls := true, phase := ElementEnd);
    assert t[s2.name..s2.pos] == tag;
    assert [] + [Attribute(s.pos + 1, None)] == [Attribute(s.pos + 1, None)];
    assert Step(t, s2) == Move(s3, false);
    StepLeads(t, s2);
    LeadsTransitive(t, s, s1, s2);
    LeadsTransitive(t, s, s2, s3);
  }

  lemma LineEnds(t: string, s: Scanner, cr: bool, c: char) returns (s': Scanner)
    requires s.phase == ElementEnd && s.starttls && s.pos + 1 < |t| && t[s.pos] == '>'
    requires if cr then s.pos + 2 < |t| && t[s.pos + 1] == '\r' && t[s.pos + 2] == c else t[s.pos + 1] == c != '\r'
    ensures var p := s.pos + 1 + if cr then 1 else 0;
            s' == s.(phase := ElementStart, pos := if c == '\n' then p + 1 else p, zeros := s.zeros + {s.pos})
    ensures if c == '\n' then Reports(t, s, s') else Leads(t, s, s')
  {
    var p := s.pos + 1 + if cr then 1 else 0;
    var s1 := s.(phase := TlsEnd, pos := s.pos + 1, zeros := s.zeros + {s.pos});
    s' := s.(phase := ElementStart, pos := if c == '\n' then p + 1 else p, zeros := s.zeros + {s.pos});
    assert Step(t, s) == Move(s1, false) && Step(t, s1) == Move(s', c == '\n');
    StepLeads(t, s);
    StepLeads(t, s1);
    if c == '\n' {
      LeadsReports(t, s, s1, s');
    } else {
      LeadsTransitive(t, s, s1, s');
    }
  }

  /** The same when the text comes in any pieces. */
  lemma PiecesArrive(xs: seq<Piece>, c: char, chunks: seq<string>)
    requires (forall k :: 0 <= k < |xs| ==> GoodPiece(xs[k])) && c != '<'
    requires chunks != [] && Concat(chunks) == PieceTexts(xs) + [c]
    ensures AllReported(PieceTexts(xs) + [c], Feed(NEW_SCANNER, [], chunks).found, WrittenOf(xs))
  {
    var t := PieceTexts(xs) + [c];
    assert At(t, 0, PieceTexts(xs));
    assert [] + t == t;
    PiecesRead(t, NEW_SCANNER, xs);
    ChunksDoNotMatter([], chunks, NEW_SCANNER);
  }
}
