/** What is printed is read back, however the text is cut on its way. */
module XmlRoundTrip {
  import opened Common
  import opened XmlElement
  import opened XmlParser

  // ---- Text in place ----

  ghost predicate At(t: string, p: nat, w: string) {
    p + |w| <= |t| && forall i {:trigger w[i]} :: 0 <= i < |w| ==> t[p + i] == w[i]
  }

  lemma AtConcat(t: string, p: nat, v: string, w: string)
    requires At(t, p, v + w)
    ensures At(t, p, v) && At(t, p + |v|, w)
  {
    assert forall i :: 0 <= i < |v| ==> (v + w)[i] == v[i];
    assert forall i :: 0 <= i < |w| ==> (v + w)[|v| + i] == w[i];
  }

  lemma AtChar(t: string, p: nat, w: string, i: nat)
    requires At(t, p, w) && i < |w|
    ensures p + i < |t| && t[p + i] == w[i]
  {
  }

  predicate NulFree(w: string) {
    forall i :: 0 <= i < |w| ==> w[i] != NUL
  }

  /** The string that starts at p is w, whatever is overwritten from here on. */
  ghost predicate Spelled(t: string, zeros: set<nat>, p: nat, w: string) {
    && At(t, p, w) && NulFree(w) && p + |w| in zeros
    && forall z :: p <= z < p + |w| ==> z !in zeros
  }

  lemma {:induction false} SpelledIsCString(t: string, zeros: set<nat>, p: nat, w: string)
    requires Spelled(t, zeros, p, w)
    ensures CString(t, zeros, p) == w
    decreases |w|
  {
    if w != [] {
      AtChar(t, p, w, 0);
      assert w == [w[0]] + w[1..];
      AtConcat(t, p, [w[0]], w[1..]);
      SpelledIsCString(t, zeros, p + 1, w[1..]);
    }
  }

  lemma SpelledKeeps(t: string, zeros: set<nat>, zeros': set<nat>, p: nat, w: string, from: nat)
    requires Spelled(t, zeros, p, w) && p + |w| <= from
    requires zeros <= zeros' && forall z :: z in zeros' && z !in zeros ==> z >= from
    ensures Spelled(t, zeros', p, w)
  {
  }

  lemma SpelledPrefix(t: string, n: nat, zeros: set<nat>, p: nat, w: string)
    requires Spelled(t, zeros, p, w) && p + |w| <= n <= |t|
    ensures Spelled(t[..n], zeros, p, w)
  {
  }

  // ---- Following the scanner ----

  /** The scanner gets from s to s' without reporting anything. */
  ghost predicate Leads(t: string, s: Scanner, s': Scanner) {
    && s.pos <= |t| && s'.pos <= |t|
    && Drain(t, s) == Drain(t, s')
    && (Tidy(t, s') ==> Tidy(t, s))
  }

  /** The scanner gets from s to s', where it reports an element. */
  ghost predicate Reports(t: string, s: Scanner, s': Scanner) {
    && s.pos <= |t| && s'.pos <= |t|
    && Drain(t, s) == Drained(Drain(t, s').last, [s'] + Drain(t, s').found)
    && (Tidy(t, s') ==> Tidy(t, s))
  }

  lemma StepLeads(t: string, s: Scanner)
    requires s.pos < |t| && Step(t, s).Move? && TidyTail(t, s)
    ensures if Step(t, s).found then Reports(t, s, Step(t, s).next) else Leads(t, s, Step(t, s).next)
  {
    StepAdvances(t, s);
  }

  lemma {:induction false} SkipJunk(t: string, s: Scanner, n: nat)
    requires s.phase == ElementStart && s.pos + n <= |t|
    requires forall i :: s.pos <= i < s.pos + n ==> t[i] != '<'
    ensures Leads(t, s, s.(pos := s.pos + n))
    decreases n
  {
    if n > 0 {
      StepLeads(t, s);
      SkipJunk(t, s.(pos := s.pos + 1), n - 1);
    }
  }

  function Range(p: nat, n: nat): (r: set<nat>)
    ensures forall z :: z in r <==> p <= z < p + n
    decreases n
  {
    if n == 0 then {} else {p} + Range(p + 1, n - 1)
  }

  /** The scanner skips blanks between attributes and overwrites them. */
  lemma {:induction false} SkipBlanks(t: string, s: Scanner, n: nat)
    requires s.phase == ElementEnd && s.pos + n <= |t|
    requires forall i :: s.pos <= i < s.pos + n ==> t[i] == ' '
    ensures Leads(t, s, s.(pos := s.pos + n, zeros := s.zeros + Range(s.pos, n)))
    decreases n
  {
    if n == 0 {
      assert s.zeros + Range(s.pos, n) == s.zeros;
    } else {
      StepLeads(t, s);
      var s1 := s.(pos := s.pos + 1, zeros := s.zeros + {s.pos});
      SkipBlanks(t, s1, n - 1);
      assert s.zeros + {s.pos} + Range(s.pos + 1, n - 1) == s.zeros + Range(s.pos, n);
    }
  }

  lemma {:induction false} SkipName(t: string, s: Scanner, n: nat)
    requires s.phase == ArgumentName && s.pos + n <= |t|
    requires forall i :: s.pos <= i < s.pos + n ==> !EndsName(t[i])
    ensures Leads(t, s, s.(pos := s.pos + n))
    decreases n
  {
    if n > 0 {
      StepLeads(t, s);
      SkipName(t, s.(pos := s.pos + 1), n - 1);
    }
  }

  lemma {:induction false} SkipQuoted(t: string, s: Scanner, n: nat)
    requires s.phase == QuotedValue && s.pos + n <= |t|
    requires forall i :: s.pos <= i < s.pos + n ==> t[i] != s.quote
    ensures Leads(t, s, s.(pos := s.pos + n))
    decreases n
  {
    if n > 0 {
      StepLeads(t, s);
      SkipQuoted(t, s.(pos := s.pos + 1), n - 1);
    }
  }

  /** A name the parser can tell from what surrounds it. */
  predicate LegalName(name: string) {
    |name| > 0 && IsAlpha(name[0]) && forall i :: 0 <= i < |name| ==> !EndsName(name[i])
  }

  /** At a name, in either place where one can stand. */
  lemma NameLeads(t: string, s: Scanner, name: string)
    requires s.phase == ElementEnd && At(t, s.pos, name) && LegalName(name)
    ensures Leads(t, s, s.(pos := s.pos + |name|, argument := s.pos, phase := ArgumentName))
  {
    forall i | s.pos <= i < s.pos + |name|
      ensures t[i] == name[i - s.pos]
    {
      AtChar(t, s.pos, name, i - s.pos);
    }
    StepLeads(t, s);
    SkipName(t, s.(pos := s.pos + 1, argument := s.pos, phase := ArgumentName), |name| - 1);
  }

  /** The scanner after a tag. */
  function AfterTag(s: Scanner, tag: string): Scanner {
    s.(pos := s.pos + 1 + |tag|, name := s.pos + 1, argument := s.pos + 1, starttls := false,
       attributes := [Attribute(s.pos + 1, None)], phase := ElementEnd)
  }

  lemma TagLeads(t: string, s: Scanner, tag: string)
    requires s.phase == ElementStart && At(t, s.pos, "<" + tag) && LegalName(tag) && !IsStartTls(tag)
    requires s.pos + 1 + |tag| < |t| && (t[s.pos + 1 + |tag|] == ' ' || t[s.pos + 1 + |tag|] == '/')
    ensures Leads(t, s, AfterTag(s, tag))
  {
    AtConcat(t, s.pos, "<", tag);
    AtChar(t, s.pos, "<", 0);
    AtChar(t, s.pos + 1, tag, 0);
    StepLeads(t, s);
    var s1 := s.(pos := s.pos + 1, name := s.pos + 1, attributes := [], starttls := false, phase := ElementEnd);
    NameLeads(t, s1, tag);
    var s2 := s1.(pos := s1.pos + |tag|, argument := s1.pos, phase := ArgumentName);
    assert Step(t, s2) == Move(AfterTag(s, tag), false) by {
      assert t[s2.name..s2.pos] == tag;
    }
    StepLeads(t, s2);
  }

  /** Where an attribute ends that is printed at p. */
  function AttributeEnd(p: nat, name: string, quoted: string): nat {
    p + |name| + |quoted| + 4
  }

  /** The scanner at the value of the attribute whose leading space it is at. */
  function AfterOpening(s: Scanner, name: string): Scanner {
    s.(pos := s.pos + |name| + 3, argument := s.pos + 1, quote := '"', phase := QuotedValue,
       attributes := s.attributes + [Attribute(s.pos + 1, Some(s.pos + |name| + 3))],
       zeros := s.zeros + {s.pos} + {s.pos + 1 + |name|})
  }

  /** The scanner after a value of n characters and the closing quote. */
  function AfterValue(s: Scanner, n: nat): Scanner {
    s.(pos := s.pos + n + 1, zeros := s.zeros + {s.pos + n}, phase := Tail)
  }

  function AfterAttribute(s: Scanner, name: string, quoted: string): Scanner {
    AfterValue(AfterOpening(s, name), |quoted|)
  }

  /** The pieces of a printed attribute. */
  lemma AttributeParts(t: string, p: nat, name: string, value: string)
    requires At(t, p, PrintAttribute(name, value))
    ensures AttributeAt(t, p, name, Escape(value))
  {
    var q := Escape(value);
    AtConcat(t, p, " ", name + ("=\"" + (q + "\"")));
    AtConcat(t, p + 1, name, "=\"" + (q + "\""));
    AtConcat(t, p + 1 + |name|, "=\"", q + "\"");
    AtConcat(t, p + |name| + 3, q, "\"");
  }

  lemma ValueLeads(t: string, s: Scanner, quoted: string)
    requires s.phase == QuotedValue && s.quote == '"' && At(t, s.pos, quoted)
    requires forall i :: 0 <= i < |quoted| ==> quoted[i] != '"'
    requires At(t, s.pos + |quoted|, "\"") && s.pos + |quoted| + 1 < |t|
    ensures Leads(t, s, AfterValue(s, |quoted|))
  {
    forall i | s.pos <= i < s.pos + |quoted|
      ensures t[i] != '"'
    {
      AtChar(t, s.pos, quoted, i - s.pos);
    }
    SkipQuoted(t, s, |quoted|);
    var s1 := s.(pos := s.pos + |quoted|);
    AtChar(t, s1.pos, "\"", 0);
    assert Step(t, s1) == Move(AfterValue(s, |quoted|), false);
    StepLeads(t, s1);
    LeadsTransitive(t, s, s1, AfterValue(s, |quoted|));
  }

  lemma EscapedHasNoQuote(value: string)
    ensures forall i :: 0 <= i < |Escape(value)| ==> Escape(value)[i] != '"'
  {
    forall i | 0 <= i < |Escape(value)|
      ensures Escape(value)[i] != '"'
    {
      EscapedChars(value, i);
    }
  }

  /** From the space before an attribute to its value. */
  lemma OpeningLeads(t: string, s: Scanner, name: string)
    requires s.phase == ElementEnd && At(t, s.pos, " ") && At(t, s.pos + 1, name) && LegalName(name)
    requires At(t, s.pos + 1 + |name|, "=\"") && s.pos + |name| + 3 < |t|
    ensures Leads(t, s, AfterOpening(s, name))
  {
    AtChar(t, s.pos, " ", 0);
    StepLeads(t, s);
    var s1 := s.(pos := s.pos + 1, zeros := s.zeros + {s.pos});
    NameLeads(t, s1, name);
    var s2 := s1.(pos := s1.pos + |name|, argument := s1.pos, phase := ArgumentName);
    AtChar(t, s2.pos, "=\"", 0);
    AtChar(t, s2.pos, "=\"", 1);
    StepLeads(t, s2);
  }

  /** The pieces of a printed attribute, in place. */
  ghost predicate AttributeAt(t: string, p: nat, name: string, quoted: string) {
    && At(t, p, " ") && At(t, p + 1, name) && At(t, p + 1 + |name|, "=\"")
    && At(t, p + |name| + 3, quoted) && At(t, p + |name| + 3 + |quoted|, "\"")
  }

  lemma AttributeLeads(t: string, s: Scanner, name: string, quoted: string)
    requires s.phase == ElementEnd && AttributeAt(t, s.pos, name, quoted) && LegalName(name)
    requires forall i :: 0 <= i < |quoted| ==> quoted[i] != '"'
    requires AttributeEnd(s.pos, name, quoted) < |t|
    ensures Leads(t, s, AfterAttribute(s, name, quoted))
  {
    OpeningLeads(t, s, name);
    ValueLeads(t, AfterOpening(s, name), quoted);
    LeadsTransitive(t, s, AfterOpening(s, name), AfterAttribute(s, name, quoted));
  }

  lemma LeadsTransitive(t: string, s: Scanner, s': Scanner, s'': Scanner)
    requires Leads(t, s, s') && Leads(t, s', s'')
    ensures Leads(t, s, s'')
  {
  }

  lemma LeadsReports(t: string, s: Scanner, s': Scanner, s'': Scanner)
    requires Leads(t, s, s') && Reports(t, s', s'')
    ensures Reports(t, s, s'')
  {
  }

  // ---- Attributes ----

  /** Everything overwritten is behind. */
  ghost predicate Behind(zeros: set<nat>, p: nat) {
    forall z :: z in zeros ==> z < p
  }

  /** zeros' adds to zeros only from p on. */
  ghost predicate Grows(zeros: set<nat>, zeros': set<nat>, p: nat) {
    zeros <= zeros' && forall z :: z in zeros' && z !in zeros ==> z >= p
  }

  /** One attribute of the scanner is the given one. */
  ghost predicate Holds(t: string, zeros: set<nat>, a: Attribute, name: string, value: string, end: nat) {
    && Spelled(t, zeros, a.name, name) && a.value.Some? && Spelled(t, zeros, a.value.value, Escape(value))
    && a.name + |name| < end && a.value.value + |Escape(value)| < end
  }

  ghost predicate AllHold(t: string, s: Scanner, from: nat, attributes: seq<(string, string)>) {
    && |s.attributes| == from + |attributes|
    && forall i :: 0 <= i < |attributes| ==>
         Holds(t, s.zeros, s.attributes[from + i], attributes[i].0, attributes[i].1, s.pos)
  }

  predicate LegalAttribute(a: (string, string)) {
    LegalName(a.0) && NulFree(a.1)
  }

  lemma {:induction false} EscapeNulFree(v: string)
    requires NulFree(v)
    ensures NulFree(Escape(v))
  {
    forall i | 0 <= i < |Escape(v)|
      ensures Escape(v)[i] != NUL
    {
      EscapedChars(v, i);
    }
  }

  lemma AttributeSpelled(t: string, s: Scanner, name: string, quoted: string)
    requires AttributeAt(t, s.pos, name, quoted) && NulFree(name) && NulFree(quoted) && Behind(s.zeros, s.pos)
    ensures var zeros := AfterAttribute(s, name, quoted).zeros;
            Spelled(t, zeros, s.pos + 1, name) && Spelled(t, zeros, s.pos + |name| + 3, quoted)
  {
  }

  lemma AttributeZeros(s: Scanner, name: string, quoted: string)
    requires Behind(s.zeros, s.pos)
    ensures var s' := AfterAttribute(s, name, quoted);
            Behind(s'.zeros, s'.pos) && Grows(s.zeros, s'.zeros, s.pos) && s.pos in s'.zeros
  {
  }

  lemma LastAttribute(s: Scanner, name: string, quoted: string)
    ensures var s' := AfterAttribute(s, name, quoted);
            && |s'.attributes| == |s.attributes| + 1
            && s'.attributes[|s.attributes|] == Attribute(s.pos + 1, Some(s.pos + |name| + 3))
            && s'.pos == AttributeEnd(s.pos, name, quoted)
  {
  }

  lemma LegalNulFree(name: string)
    requires LegalName(name)
    ensures NulFree(name)
  {
  }

  /** An attribute printed at p can be read back. */
  ghost predicate ReadBack(t: string, zeros: set<nat>, p: nat, name: string, quoted: string) {
    Spelled(t, zeros, p + 1, name) && Spelled(t, zeros, p + |name| + 3, quoted)
  }

  lemma AttributeReadBack(t: string, s: Scanner, name: string, value: string)
    requires AttributeAt(t, s.pos, name, Escape(value)) && LegalName(name) && NulFree(value) && Behind(s.zeros, s.pos)
    ensures ReadBack(t, AfterAttribute(s, name, Escape(value)).zeros, s.pos, name, Escape(value))
  {
    LegalNulFree(name);
    EscapeNulFree(value);
    AttributeSpelled(t, s, name, Escape(value));
  }

  lemma AttributeHolds(t: string, zeros: set<nat>, p: nat, name: string, value: string)
    requires ReadBack(t, zeros, p, name, Escape(value))
    ensures Holds(t, zeros, Attribute(p + 1, Some(p + |name| + 3)), name, value, AttributeEnd(p, name, Escape(value)))
  {
  }

  /** The end of an element, with or without attributes. */
  lemma ClosingReports(t: string, s: Scanner) returns (s': Scanner)
    requires (s.phase == ElementEnd || s.phase == Tail) && !s.starttls && At(t, s.pos, "/>")
    ensures Reports(t, s, s')
    ensures s' == s.(pos := s.pos + 2, phase := ElementStart, zeros := s'.zeros)
    ensures s'.zeros == s.zeros + if s.phase == ElementEnd then {s.pos} else {s.pos + 1}
  {
    AtChar(t, s.pos, "/>", 0);
    AtChar(t, s.pos, "/>", 1);
    if s.phase == ElementEnd {
      s' := s.(pos := s.pos + 2, phase := ElementStart, zeros := s.zeros + {s.pos});
      StepLeads(t, s);
    } else {
      s' := s.(pos := s.pos + 2, phase := ElementStart, zeros := s.zeros + {s.pos + 1});
      var s1 := Step(t, s).next;
      StepLeads(t, s);
      if s1.phase == Tail {
        StepLeads(t, s1);
      }
      StepLeads(t, s.(pos := s.pos + 1, phase := ElementEnd));
    }
  }

  lemma HoldsKeeps(t: string, zeros: set<nat>, zeros': set<nat>, a: Attribute, name: string, value: string,
                   end: nat, end': nat)
    requires Holds(t, zeros, a, name, value, end) && Grows(zeros, zeros', end) && end <= end'
    ensures Holds(t, zeros', a, name, value, end')
  {
    SpelledKeeps(t, zeros, zeros', a.name, name, end);
    SpelledKeeps(t, zeros, zeros', a.value.value, Escape(value), end);
  }

  /** What is left of an element after its tag is read through to its end. */
  ghost predicate ReadThrough(t: string, s: Scanner, attributes: seq<(string, string)>, s': Scanner) {
    && Reports(t, s, s')
    && s'.phase == ElementStart && s'.pos == s.pos + |PrintAttributes(attributes)| + 2 && s'.name == s.name
    && s.attributes <= s'.attributes && AllHold(t, s', |s.attributes|, attributes)
    && Behind(s'.zeros, s'.pos) && Grows(s.zeros, s'.zeros, s.pos)
    && (s.phase == ElementEnd ==> s.pos in s'.zeros)
  }

  ghost predicate AtAttributes(t: string, s: Scanner, attributes: seq<(string, string)>) {
    && (s.phase == ElementEnd || s.phase == Tail) && !s.starttls && Behind(s.zeros, s.pos)
    && At(t, s.pos, PrintAttributes(attributes) + "/>")
    && forall i :: 0 <= i < |attributes| ==> LegalAttribute(attributes[i])
  }

  lemma NoAttributes(t: string, s: Scanner) returns (s': Scanner)
    requires AtAttributes(t, s, [])
    ensures ReadThrough(t, s, [], s')
  {
    assert PrintAttributes([]) + "/>" == "/>";
    s' := ClosingReports(t, s);
  }

  lemma FirstAttributeAt(t: string, p: nat, attributes: seq<(string, string)>)
    requires attributes != [] && At(t, p, PrintAttributes(attributes) + "/>")
    ensures var (name, value) := attributes[0];
            && AttributeAt(t, p, name, Escape(value))
            && |PrintAttribute(name, value)| == |name| + |Escape(value)| + 4
            && At(t, p + |PrintAttribute(name, value)|, PrintAttributes(attributes[1..]) + "/>")
  {
    var (name, value) := attributes[0];
    var w, rest := PrintAttribute(name, value), PrintAttributes(attributes[1..]) + "/>";
    assert PrintAttributes(attributes) + "/>" == w + rest;
    AtConcat(t, p, w, rest);
    AttributeParts(t, p, name, value);
  }

  lemma SpaceLeads(t: string, s: Scanner)
    requires (s.phase == ElementEnd || s.phase == Tail) && At(t, s.pos, " ")
    ensures Leads(t, s, s.(phase := ElementEnd))
  {
    if s.phase == Tail {
      AtChar(t, s.pos, " ", 0);
      StepLeads(t, s);
    }
  }

  lemma AfterEither(s: Scanner, name: string, quoted: string)
    ensures AfterAttribute(s.(phase := ElementEnd), name, quoted) == AfterAttribute(s, name, quoted)
  {
  }

  lemma EitherLeads(t: string, s: Scanner, name: string, quoted: string)
    requires (s.phase == ElementEnd || s.phase == Tail) && AttributeAt(t, s.pos, name, quoted) && LegalName(name)
    requires forall i :: 0 <= i < |quoted| ==> quoted[i] != '"'
    requires AttributeEnd(s.pos, name, quoted) < |t|
    ensures Leads(t, s, AfterAttribute(s, name, quoted))
  {
    SpaceLeads(t, s);
    AttributeLeads(t, s.(phase := ElementEnd), name, quoted);
    AfterEither(s, name, quoted);
    LeadsTransitive(t, s, s.(phase := ElementEnd), AfterAttribute(s, name, quoted));
  }

  /** The scanner gets over the first attribute. */
  lemma FirstAttribute(t: string, s: Scanner, attributes: seq<(string, string)>) returns (s': Scanner)
    requires AtAttributes(t, s, attributes) && attributes != []
    ensures Leads(t, s, s') && s' == AfterAttribute(s, attributes[0].0, Escape(attributes[0].1))
    ensures AtAttributes(t, s', attributes[1..])
    ensures s'.pos == s.pos + |PrintAttribute(attributes[0].0, attributes[0].1)|
    ensures ReadBack(t, s'.zeros, s.pos, attributes[0].0, Escape(attributes[0].1))
  {
    var (name, value) := attributes[0];
    FirstAttributeAt(t, s.pos, attributes);
    AttributeReadBack(t, s, name, value);
    EscapedHasNoQuote(value);
    AttributeZeros(s, name, Escape(value));
    EitherLeads(t, s, name, Escape(value));
    s' := AfterAttribute(s, name, Escape(value));
  }

  lemma {:induction false} AttributesRead(t: string, s: Scanner, attributes: seq<(string, string)>)
    returns (s': Scanner)
    requires AtAttributes(t, s, attributes)
    ensures ReadThrough(t, s, attributes, s')
    decreases |attributes|
  {
    if attributes == [] {
      s' := NoAttributes(t, s);
    } else {
      var s1 := FirstAttribute(t, s, attributes);
      s' := AttributesRead(t, s1, attributes[1..]);
      FirstHolds(t, s, attributes, s');
      ReadFirst(t, s, attributes, s1, s');
    }
  }

  lemma FirstHolds(t: string, s: Scanner, attributes: seq<(string, string)>, s': Scanner)
    requires attributes != []
    requires var s1 := AfterAttribute(s, attributes[0].0, Escape(attributes[0].1));
             && ReadBack(t, s1.zeros, s.pos, attributes[0].0, Escape(attributes[0].1))
             && s1.attributes <= s'.attributes && Grows(s1.zeros, s'.zeros, s1.pos) && s1.pos <= s'.pos
             && AllHold(t, s', |s1.attributes|, attributes[1..])
    ensures AllHold(t, s', |s.attributes|, attributes)
  {
    var (name, value) := attributes[0];
    var s1 := AfterAttribute(s, name, Escape(value));
    var a := Attribute(s.pos + 1, Some(s.pos + |name| + 3));
    AttributeHolds(t, s1.zeros, s.pos, name, value);
    LastAttribute(s, name, Escape(value));
    HoldsKeeps(t, s1.zeros, s'.zeros, a, name, value, s1.pos, s'.pos);
    assert s'.attributes[|s.attributes|] == s1.attributes[|s.attributes|] == a;
    AllHoldCons(t, s', |s.attributes|, attributes);
  }

  lemma ReadFirst(t: string, s: Scanner, attributes: seq<(string, string)>, s1: Scanner, s': Scanner)
    requires attributes != [] && Behind(s.zeros, s.pos)
    requires s1 == AfterAttribute(s, attributes[0].0, Escape(attributes[0].1)) && Leads(t, s, s1)
    requires s1.pos == s.pos + |PrintAttribute(attributes[0].0, attributes[0].1)|
    requires ReadThrough(t, s1, attributes[1..], s') && AllHold(t, s', |s.attributes|, attributes)
    ensures ReadThrough(t, s, attributes, s')
  {
    LeadsReports(t, s, s1, s');
    AttributeZeros(s, attributes[0].0, Escape(attributes[0].1));
  }

  lemma AllHoldCons(t: string, s: Scanner, n: nat, attributes: seq<(string, string)>)
    requires attributes != [] && AllHold(t, s, n + 1, attributes[1..])
    requires Holds(t, s.zeros, s.attributes[n], attributes[0].0, attributes[0].1, s.pos)
    ensures AllHold(t, s, n, attributes)
  {
    forall i | 0 < i < |attributes|
      ensures Holds(t, s.zeros, s.attributes[n + i], attributes[i].0, attributes[i].1, s.pos)
    {
      var rest, j := attributes[1..], i - 1;
      assert Holds(t, s.zeros, s.attributes[n + 1 + j], rest[j].0, rest[j].1, s.pos);
    }
  }

  // ---- Elements ----

  predicate LegalElement(e: Element) {
    && LegalName(e.tag) && !IsStartTls(e.tag)
    && forall i :: 0 <= i < |e.attributes| ==> LegalAttribute(e.attributes[i])
  }

  /** The scanner, as it reports an element, has e: its tag, which is also its first attribute,
      and its attributes, in order, and no more. */
  ghost predicate Carries(t: string, s: Scanner, e: Element) {
    && Spelled(t, s.zeros, s.name, e.tag) && s.name + |e.tag| < s.pos <= |t|
    && |s.attributes| > 0 && s.attributes[0] == Attribute(s.name, None)
    && AllHold(t, s, 1, e.attributes)
  }

  function EndOf(p: nat, e: Element): nat {
    p + e.level + 1 + |e.tag| + |PrintAttributes(e.attributes)| + 2
  }

  ghost predicate PartsAt(t: string, p: nat, e: Element) {
    && At(t, p, Spaces(e.level)) && At(t, p + e.level, "<" + e.tag)
    && At(t, p + e.level + 1 + |e.tag|, PrintAttributes(e.attributes) + "/>") && At(t, EndOf(p, e), "\r\n")
  }

  lemma ElementParts(t: string, p: nat, e: Element)
    requires At(t, p, PrintElement(e))
    ensures PartsAt(t, p, e) && EndOf(p, e) + 2 == p + |PrintElement(e)|
  {
    var q, w := p + e.level, PrintAttributes(e.attributes) + "/>";
    AtConcat(t, p, Spaces(e.level), ("<" + e.tag) + (w + "\r\n"));
    AtConcat(t, q, "<" + e.tag, w + "\r\n");
    AtConcat(t, q + 1 + |e.tag|, w, "\r\n");
  }

  lemma AfterTagChar(t: string, p: nat, attributes: seq<(string, string)>)
    requires At(t, p, PrintAttributes(attributes) + "/>")
    ensures p < |t| && (t[p] == ' ' || t[p] == '/')
  {
    var w := PrintAttributes(attributes) + "/>";
    assert w[0] == ' ' || w[0] == '/';
    AtChar(t, p, w, 0);
  }

  lemma SpacesLead(t: string, s: Scanner, n: nat)
    requires s.phase == ElementStart && At(t, s.pos, Spaces(n))
    ensures Leads(t, s, s.(pos := s.pos + n))
  {
    forall i | s.pos <= i < s.pos + n
      ensures t[i] != '<'
    {
      AtChar(t, s.pos, Spaces(n), i - s.pos);
    }
    SkipJunk(t, s, n);
  }

  lemma LineEndLeads(t: string, s: Scanner)
    requires s.phase == ElementStart && At(t, s.pos, "\r\n")
    ensures Leads(t, s, s.(pos := s.pos + 2))
  {
    AtChar(t, s.pos, "\r\n", 0);
    AtChar(t, s.pos, "\r\n", 1);
    SkipJunk(t, s, 2);
  }

  lemma TagSpelled(t: string, s: Scanner, tag: string, zeros: set<nat>)
    requires At(t, s.pos, "<" + tag) && LegalName(tag) && Behind(s.zeros, s.pos)
    requires Grows(s.zeros, zeros, s.pos + 1 + |tag|) && s.pos + 1 + |tag| in zeros
    ensures Spelled(t, zeros, s.pos + 1, tag)
  {
    AtConcat(t, s.pos, "<", tag);
  }

  lemma TagReady(t: string, s: Scanner, e: Element)
    requires LegalElement(e) && Behind(s.zeros, s.pos)
    requires At(t, s.pos + 1 + |e.tag|, PrintAttributes(e.attributes) + "/>")
    ensures AtAttributes(t, AfterTag(s, e.tag), e.attributes)
  {
  }

  lemma TagCarried(t: string, s: Scanner, e: Element, s': Scanner)
    requires At(t, s.pos, "<" + e.tag) && LegalElement(e) && Behind(s.zeros, s.pos)
    requires ReadThrough(t, AfterTag(s, e.tag), e.attributes, s')
    ensures Carries(t, s', e)
  {
    TagSpelled(t, s, e.tag, s'.zeros);
  }

  /** From the '<' of an element to its end. */
  lemma BodyRead(t: string, s: Scanner, e: Element) returns (s': Scanner)
    requires s.phase == ElementStart && At(t, s.pos, "<" + e.tag) && LegalElement(e) && Behind(s.zeros, s.pos)
    requires At(t, s.pos + 1 + |e.tag|, PrintAttributes(e.attributes) + "/>")
    ensures Reports(t, s, s') && Carries(t, s', e)
    ensures s'.phase == ElementStart && Behind(s'.zeros, s'.pos)
    ensures s'.pos == s.pos + 1 + |e.tag| + |PrintAttributes(e.attributes)| + 2 && s'.name == s.pos + 1
  {
    AfterTagChar(t, s.pos + 1 + |e.tag|, e.attributes);
    TagLeads(t, s, e.tag);
    TagReady(t, s, e);
    s' := AttributesRead(t, AfterTag(s, e.tag), e.attributes);
    LeadsReports(t, s, AfterTag(s, e.tag), s');
    TagCarried(t, s, e, s');
  }

  /** The scanner at the '<' of e reports e at s'. */
  ghost predicate Reads(t: string, s: Scanner, e: Element, s': Scanner) {
    && Reports(t, s, s') && Carries(t, s', e)
    && s'.phase == ElementStart && Behind(s'.zeros, s'.pos)
  }

  lemma LeadsReads(t: string, s: Scanner, s1: Scanner, e: Element, s': Scanner)
    requires Leads(t, s, s1) && Reads(t, s1, e, s')
    ensures Reads(t, s, e, s')
  {
    LeadsReports(t, s, s1, s');
  }

  lemma PartsRead(t: string, s: Scanner, e: Element) returns (s': Scanner)
    requires s.phase == ElementStart && PartsAt(t, s.pos, e) && LegalElement(e) && Behind(s.zeros, s.pos)
    ensures Reads(t, s.(pos := s.pos + e.level), e, s')
    ensures s'.pos == EndOf(s.pos, e) && s'.name == s.pos + e.level + 1
  {
    var s1 := s.(pos := s.pos + e.level);
    assert s1.phase == ElementStart && Behind(s1.zeros, s1.pos);
    s' := BodyRead(t, s1, e);
  }

  lemma ElementRead(t: string, s: Scanner, e: Element) returns (s': Scanner)
    requires s.phase == ElementStart && PartsAt(t, s.pos, e) && LegalElement(e) && Behind(s.zeros, s.pos)
    ensures Reads(t, s, e, s') && s'.pos == EndOf(s.pos, e) && s'.name == s.pos + e.level + 1
  {
    s' := PartsRead(t, s, e);
    assert Leads(t, s, s.(pos := s.pos + e.level)) by {
      SpacesLead(t, s, e.level);
    }
    LeadsReads(t, s, s.(pos := s.pos + e.level), e, s');
  }

  ghost predicate AllCarry(t: string, found: seq<Scanner>, es: seq<Element>) {
    |found| == |es| && forall k :: 0 <= k < |es| ==> Carries(t, found[k], es[k])
  }

  ghost predicate AtPrinted(t: string, s: Scanner, es: seq<Element>) {
    && s.phase == ElementStart && Behind(s.zeros, s.pos)
    && At(t, s.pos, Print(es)) && s.pos + |Print(es)| == |t|
    && forall k :: 0 <= k < |es| ==> LegalElement(es[k])
  }

  lemma FirstPrinted(t: string, s: Scanner, es: seq<Element>)
    requires AtPrinted(t, s, es) && es != []
    ensures PartsAt(t, s.pos, es[0]) && At(t, EndOf(s.pos, es[0]) + 2, Print(es[1..]))
    ensures EndOf(s.pos, es[0]) + 2 + |Print(es[1..])| == |t|
  {
    AtConcat(t, s.pos, PrintElement(es[0]), Print(es[1..]));
    ElementParts(t, s.pos, es[0]);
  }

  lemma FirstRead(t: string, s: Scanner, es: seq<Element>) returns (s': Scanner)
    requires AtPrinted(t, s, es) && es != []
    ensures Reads(t, s, es[0], s')
    ensures Leads(t, s', s'.(pos := s'.pos + 2)) && AtPrinted(t, s'.(pos := s'.pos + 2), es[1..])
  {
    FirstPrinted(t, s, es);
    s' := ElementRead(t, s, es[0]);
    LineEndLeads(t, s');
  }

  /** The scanner finds the printed elements one after the other, and nothing else. */
  lemma {:induction false} PrintedRead(t: string, s: Scanner, es: seq<Element>)
    requires AtPrinted(t, s, es)
    ensures Tidy(t, s) && AllCarry(t, Drain(t, s).found, es)
    decreases |es|
  {
    if es != [] {
      var s' := FirstRead(t, s, es);
      PrintedRead(t, s'.(pos := s'.pos + 2), es[1..]);
      AllCarryCons(t, Drain(t, s).found, es);
    }
  }

  lemma AllCarryCons(t: string, found: seq<Scanner>, es: seq<Element>)
    requires es != [] && found != [] && Carries(t, found[0], es[0]) && AllCarry(t, found[1..], es[1..])
    ensures AllCarry(t, found, es)
  {
    forall k | 0 < k < |es|
      ensures Carries(t, found[k], es[k])
    {
      assert Carries(t, found[1..][k - 1], es[1..][k - 1]);
    }
  }

  // ---- The theorem ----

  /** The names of an element are told apart, ignoring case. */
  ghost predicate Distinct(e: Element) {
    && (forall i :: 0 <= i < |e.attributes| ==> !SameIgnoringCase(e.attributes[i].0, e.tag))
    && (forall i, j :: 0 <= i < j < |e.attributes| ==> !SameIgnoringCase(e.attributes[j].0, e.attributes[i].0))
  }

  /** On any text that the scanner may have had when it reported the element, it gives back
      the tag and every value. */
  ghost predicate Delivers(t: string, s: Scanner, e: Element) {
    s.pos <= |t| && forall n :: s.pos <= n <= |t| ==> DeliversOn(t[..n], s, e)
  }

  ghost predicate DeliversOn(t: string, s: Scanner, e: Element) {
    && Tag(t, s) == e.tag
    && forall i :: 0 <= i < |e.attributes| ==> GetString(t, s, e.attributes[i].0) == Some(e.attributes[i].1)
  }

  lemma CarriesPrefix(t: string, n: nat, s: Scanner, e: Element)
    requires Carries(t, s, e) && s.pos <= n <= |t|
    ensures Carries(t[..n], s, e)
  {
    SpelledPrefix(t, n, s.zeros, s.name, e.tag);
    forall i | 0 <= i < |e.attributes|
      ensures Holds(t[..n], s.zeros, s.attributes[1 + i], e.attributes[i].0, e.attributes[i].1, s.pos)
    {
      var a := s.attributes[1 + i];
      var (name, value) := e.attributes[i];
      assert Holds(t, s.zeros, a, name, value, s.pos);
      SpelledPrefix(t, n, s.zeros, a.name, name);
      SpelledPrefix(t, n, s.zeros, a.value.value, Escape(value));
    }
  }

  lemma {:induction false} FindAt(t: string, zeros: set<nat>, attributes: seq<Attribute>, name: string, k: nat)
    requires k < |attributes| && SameIgnoringCase(name, CString(t, zeros, attributes[k].name))
    requires forall i :: 0 <= i < k ==> !SameIgnoringCase(name, CString(t, zeros, attributes[i].name))
    ensures Find(t, zeros, attributes, name) == Some(attributes[k])
    decreases k
  {
    if k > 0 {
      forall i | 0 <= i < k - 1
        ensures !SameIgnoringCase(name, CString(t, zeros, attributes[1..][i].name))
      {
        assert attributes[1..][i] == attributes[i + 1];
      }
      FindAt(t, zeros, attributes[1..], name, k - 1);
    }
  }

  /** The names as the lookup sees them: the tag, and those of the attributes. */
  lemma CarriesNames(t: string, s: Scanner, e: Element, j: nat)
    requires Carries(t, s, e) && j < |s.attributes|
    ensures CString(t, s.zeros, s.attributes[j].name) == if j == 0 then e.tag else e.attributes[j - 1].0
  {
    if j == 0 {
      SpelledIsCString(t, s.zeros, s.name, e.tag);
    } else {
      var i := j - 1;
      assert Holds(t, s.zeros, s.attributes[1 + i], e.attributes[i].0, e.attributes[i].1, s.pos);
      SpelledIsCString(t, s.zeros, s.attributes[1 + i].name, e.attributes[i].0);
    }
  }

  lemma CarriesValue(t: string, s: Scanner, e: Element, i: nat)
    requires Carries(t, s, e) && i < |e.attributes|
    ensures s.attributes[1 + i].value.Some?
    ensures CString(t, s.zeros, s.attributes[1 + i].value.value) == Escape(e.attributes[i].1)
  {
    assert Holds(t, s.zeros, s.attributes[1 + i], e.attributes[i].0, e.attributes[i].1, s.pos);
    SpelledIsCString(t, s.zeros, s.attributes[1 + i].value.value, Escape(e.attributes[i].1));
  }

  lemma DeliversOne(t: string, s: Scanner, e: Element, i: nat)
    requires Carries(t, s, e) && Distinct(e) && i < |e.attributes|
    ensures GetString(t, s, e.attributes[i].0) == Some(e.attributes[i].1)
  {
    FoundByName(t, s, e, i);
    CarriesValue(t, s, e, i);
    UnescapeEscape(e.attributes[i].1);
  }

  lemma FoundByName(t: string, s: Scanner, e: Element, i: nat)
    requires Carries(t, s, e) && Distinct(e) && i < |e.attributes|
    ensures Find(t, s.zeros, s.attributes, e.attributes[i].0) == Some(s.attributes[1 + i])
  {
    var name := e.attributes[i].0;
    forall j | 0 <= j < 1 + i
      ensures !SameIgnoringCase(name, CString(t, s.zeros, s.attributes[j].name))
    {
      CarriesNames(t, s, e, j);
    }
    CarriesNames(t, s, e, 1 + i);
    FindAt(t, s.zeros, s.attributes, name, 1 + i);
  }

  lemma CarriesDelivers(t: string, s: Scanner, e: Element)
    requires Carries(t, s, e) && Distinct(e)
    ensures DeliversOn(t, s, e)
  {
    CarriesNames(t, s, e, 0);
    forall i | 0 <= i < |e.attributes|
      ensures GetString(t, s, e.attributes[i].0) == Some(e.attributes[i].1)
    {
      DeliversOne(t, s, e, i);
    }
  }

  /** Elements printed and sent in any pieces are found again, all of them, in order and no
      others, and each gives back its tag and the value of each of its attributes. */
  lemma RoundTrip(es: seq<Element>, chunks: seq<string>)
    requires forall k :: 0 <= k < |es| ==> LegalElement(es[k]) && Distinct(es[k])
    requires chunks != [] && Concat(chunks) == Print(es)
    ensures var found := Feed(NEW_SCANNER, [], chunks).found;
            |found| == |es| && forall k :: 0 <= k < |es| ==> Delivers(Print(es), found[k], es[k])
  {
    var t := Print(es);
    assert [] + t == t;
    PrintedRead(t, NEW_SCANNER, es);
    ChunksDoNotMatter([], chunks, NEW_SCANNER);
    var found := Feed(NEW_SCANNER, [], chunks).found;
    forall k | 0 <= k < |es|
      ensures Delivers(t, found[k], es[k])
    {
      forall n | found[k].pos <= n <= |t|
        ensures DeliversOn(t[..n], found[k], es[k])
      {
        CarriesPrefix(t, n, found[k], es[k]);
        CarriesDelivers(t[..n], found[k], es[k]);
      }
    }
  }

  // ---- Where cutting the text does matter ----

  /** The scanner just behind the closing quote of b in such a text. */
  lemma UntidyOpening(t: string) returns (s: Scanner)
    requires |t| >= 8 && t[..8] == "<a b=\"\"x"
    ensures Leads(t, NEW_SCANNER, s)
    ensures s.pos == 7 && s.phase == Tail && |s.attributes| == 2 && !s.starttls && s.name == 1
  {
    assert t[0] == t[..8][0] && t[1] == t[..8][1] && t[2] == t[..8][2] && t[3] == t[..8][3];
    assert t[4] == t[..8][4] && t[5] == t[..8][5] && t[6] == t[..8][6] && t[7] == t[..8][7];
    var s1 := AfterTag(NEW_SCANNER, "a");
    TagLeads(t, NEW_SCANNER, "a");
    AttributeLeads(t, s1, "b", "");
    s := AfterAttribute(s1, "b", "");
    LeadsTransitive(t, NEW_SCANNER, s1, s);
  }

  lemma UntidyWhole()
    ensures var found := Feed(NEW_SCANNER, [], ["<a b=\"\"xy>"]).found;
            |found| == 1 && |found[0].attributes| == 2
  {
    var t := "<a b=\"\"xy>";
    assert [] + t == t;
    assert t[..8] == "<a b=\"\"x";
    var s := UntidyOpening(t);
    var s1, s2, s3 := s.(pos := 8), s.(pos := 9), s.(pos := 9, phase := ElementEnd);
    assert Step(t, s) == Move(s1, false) && Step(t, s1) == Move(s2, false);
    assert Step(t, s2) == Move(s3, false);
    var s4 := s3.(pos := 10, zeros := s3.zeros + {9}, phase := ElementStart);
    assert Step(t, s3) == Move(s4, true);
    assert Drain(t, s4) == Drained(s4, []);
    assert Drain(t, s3) == Drained(s4, [s4]);
    assert Drain(t, s1) == Drain(t, s2) == Drain(t, s3);
    assert Drain(t, NEW_SCANNER) == Drain(t, s) == Drained(s4, [s4]);
    assert Feed(s4, t, []) == Drained(s4, []);
  }

  lemma UntidyHead(t: string) returns (s: Scanner)
    requires t == "<a b=\"\"x"
    ensures Drain(t, NEW_SCANNER) == Drained(s, [])
    ensures s.pos == 8 && s.phase == ElementEnd && |s.attributes| == 2 && !s.starttls && s.name == 1
  {
    assert t[..8] == t;
    var s0 := UntidyOpening(t);
    s := s0.(pos := 8, phase := ElementEnd);
    assert Step(t, s0) == Move(s, false);
    assert Drain(t, s) == Drained(s, []);
  }

  lemma UntidyRest(t: string, s: Scanner) returns (s': Scanner)
    requires t == "<a b=\"\"xy>"
    requires s.pos == 8 && s.phase == ElementEnd && |s.attributes| == 2 && !s.starttls && s.name == 1
    ensures Drain(t, s) == Drained(s', [s']) && |s'.attributes| == 3
  {
    var s2 := s.(argument := 8, pos := 9, phase := ArgumentName);
    var s3 := s2.(attributes := s2.attributes + [Attribute(8, None)], phase := ElementEnd);
    s' := s3.(pos := 10, zeros := s3.zeros + {9}, phase := ElementStart);
    assert Step(t, s) == Move(s2, false) && Step(t, s2) == Move(s3, false);
    assert Step(t, s3) == Move(s', true);
    assert Drain(t, s') == Drained(s', []);
    assert Drain(t, s3) == Drained(s', [s']);
    assert Drain(t, s) == Drain(t, s2) == Drain(t, s3);
  }

  lemma UntidyCut()
    ensures var found := Feed(NEW_SCANNER, [], ["<a b=\"\"x", "y>"]).found;
            |found| == 1 && |found[0].attributes| == 3
  {
    var t1, t := "<a b=\"\"x", "<a b=\"\"xy>";
    var s := UntidyHead(t1);
    var s' := UntidyRest(t, s);
    FeedTwo(t1, "y>");
    assert t1 + "y>" == t;
  }

  lemma FeedTwo(c1: string, c2: string)
    ensures var d := Drain(c1, NEW_SCANNER);
            Feed(NEW_SCANNER, [], [c1, c2]).found == d.found + Drain(c1 + c2, d.last).found
  {
    assert [] + c1 == c1 && [c1, c2][1..] == [c2] && [c2][1..] == [];
    var d := Drain(c1, NEW_SCANNER);
    var e := Drain(c1 + c2, d.last);
    assert Feed(e.last, c1 + c2, []) == Drained(e.last, []);
    assert Feed(d.last, c1, [c2]) == Drained(e.last, e.found + []);
  }

  /** A second character between a closing quote and the next space or '>' is skipped or read
      as an attribute, depending on where the text was cut. */
  lemma CutsMayMatter()
    ensures Feed(NEW_SCANNER, [], ["<a b=\"\"xy>"]).found != Feed(NEW_SCANNER, [], ["<a b=\"\"x", "y>"]).found
  {
    UntidyWhole();
    UntidyCut();
  }
}
