/** A session at work: what is printed and sent in any pieces goes through the parser's buffer,
    which is read into, moved and grown, and comes out as it was. */
module XmlSession {
  import opened Common
  import opened XmlElement
  import opened XmlParser
  import opened XmlRoundTrip
  import opened XmlBuffer

  // ---- Texts that the buffer has room for ----

  /** The place of the last name in the first n characters. */
  ghost function NameIn(t: string, n: nat): nat
    requires n <= |t|
  {
    Drain(t[..n], NEW_SCANNER).last.name
  }

  /** Wherever the text is cut, the part from the last '<' of an element on is below max. */
  ghost predicate Roomy(t: string, max: nat) {
    forall n :: 0 <= n < |t| ==> Pending(t[..n], Drain(t[..n], NEW_SCANNER).last) < max
  }

  /** What the scanner comes to on a tidy text depends on how much of it there is, and not on
      how it came. */
  lemma FedIsDrained(t: string, chunks: seq<string>)
    requires Tidy(t, NEW_SCANNER) && Concat(chunks) <= t
    ensures Feed(NEW_SCANNER, [], chunks) == Drain(Concat(chunks), NEW_SCANNER)
  {
    var u := Concat(chunks);
    assert [] + u == u && t[..|u|] == u;
    TidyPrefix(t, |u|, NEW_SCANNER);
    if chunks != [] {
      ChunksDoNotMatter([], chunks, NEW_SCANNER);
    }
  }

  /** The parser does not give up on a roomy text. */
  lemma RoomySuffices(t: string, chunks: seq<string>, max: nat)
    requires Tidy(t, NEW_SCANNER) && Roomy(t, max) && Concat(chunks) < t
    ensures Pending(Concat(chunks), Feed(NEW_SCANNER, [], chunks).last) < max
  {
    FedIsDrained(t, chunks);
    var n := |Concat(chunks)|;
    assert t[..n] == Concat(chunks);
    assert Pending(t[..n], Drain(t[..n], NEW_SCANNER).last) < max;
  }

  // ---- Printed elements ----

  /** From the '<' of the first element to what must be there before the next is noticed. */
  function Extent(es: seq<Element>): nat
    requires es != []
  {
    1 + |es[0].tag| + |PrintAttributes(es[0].attributes)| + 4 + if |es| > 1 then es[1].level + 2 else 0
  }

  predicate ElementsFit(es: seq<Element>, max: nat) {
    es == [] || (Extent(es) < max && ElementsFit(es[1..], max))
  }

  /** Every element by itself, with the space before the next, is shorter than max. */
  predicate Fits(es: seq<Element>, max: nat) {
    (es != [] ==> es[0].level + 2 < max) && ElementsFit(es, max)
  }

  lemma PrintLength(e: Element)
    ensures |PrintElement(e)| == e.level + 1 + |e.tag| + |PrintAttributes(e.attributes)| + 4
  {
  }

  /** It is enough that all of the text together is shorter than max. */
  lemma {:induction false} ShortFits(es: seq<Element>, max: nat)
    requires |Print(es)| < max
    ensures Fits(es, max)
  {
    if es != [] {
      PrintLength(es[0]);
      ShortFits(es[1..], max);
      if |es| > 1 {
        PrintLength(es[1]);
      }
    }
  }

  /** The start of the text from which the last '<' counts. */
  function Mark(name: nat): nat {
    if name == 0 then 0 else name - 1
  }

  lemma AtPrefix(t: string, n: nat, p: nat, w: string)
    requires At(t, p, w) && p + |w| <= n <= |t|
    ensures At(t[..n], p, w)
  {
  }

  lemma PartsPrefix(t: string, n: nat, p: nat, e: Element)
    requires PartsAt(t, p, e) && EndOf(p, e) + 2 <= n <= |t|
    ensures PartsAt(t[..n], p, e)
  {
    AtPrefix(t, n, p, Spaces(e.level));
    AtPrefix(t, n, p + e.level, "<" + e.tag);
    AtPrefix(t, n, p + e.level + 1 + |e.tag|, PrintAttributes(e.attributes) + "/>");
    AtPrefix(t, n, EndOf(p, e), "\r\n");
  }

  /** Once two characters of an element have come, it is the one whose name is known. */
  lemma NameNoticed(t: string, n: nat, s: Scanner, e: Element)
    requires s.phase == ElementStart && s.name <= s.pos && PartsAt(t, s.pos, e) && LegalElement(e)
    requires s.pos + e.level + 3 <= n <= |t|
    ensures Drain(t[..n], s).last.name >= s.pos + e.level + 1
  {
    var a := s.pos + e.level;
    AtPrefix(t, n, s.pos, Spaces(e.level));
    AtChar(t, a, "<" + e.tag, 0);
    AtChar(t, a, "<" + e.tag, 1);
    IndentedStartNamed(t[..n], s, e.level);
  }

  lemma IndentedStartNamed(t: string, s: Scanner, level: nat)
    requires s.phase == ElementStart && At(t, s.pos, Spaces(level)) && s.pos + level + 2 < |t|
    requires t[s.pos + level] == '<' && IsAlpha(t[s.pos + level + 1])
    ensures Drain(t, s).last.name >= s.pos + level + 1
  {
    SpacesLead(t, s, level);
    StartNamed(t, s.(pos := s.pos + level));
  }

  /** At a '<' and a letter, with more to come, the name is known. */
  lemma StartNamed(t: string, s: Scanner)
    requires s.phase == ElementStart && s.pos + 2 < |t| && t[s.pos] == '<' && IsAlpha(t[s.pos + 1])
    ensures Drain(t, s).last.name >= s.pos + 1
  {
    StepLeads(t, s);
    NamesGrow(t, Step(t, s).next);
  }

  /** The scanner gets past an element that is all there. */
  lemma ElementPassed(t: string, n: nat, s: Scanner, es: seq<Element>) returns (s': Scanner)
    requires AtPrinted(t, s, es) && es != [] && EndOf(s.pos, es[0]) + 2 <= n <= |t|
    ensures AtPrinted(t, s', es[1..]) && s'.pos == EndOf(s.pos, es[0]) + 2 && s'.name == s.pos + es[0].level + 1
    ensures Drain(t[..n], s).last == Drain(t[..n], s').last
  {
    var u := t[..n];
    FirstPrinted(t, s, es);
    PartsPrefix(t, n, s.pos, es[0]);
    var s1 := ElementRead(u, s, es[0]);
    LineEndLeads(u, s1);
    s' := s1.(pos := s1.pos + 2);
  }

  lemma {:induction false} PrintedRoomy(t: string, s: Scanner, es: seq<Element>, n: nat, max: nat)
    requires AtPrinted(t, s, es) && ElementsFit(es, max) && s.name <= s.pos <= n < |t|
    requires es != [] ==> s.pos + es[0].level + 2 - Mark(s.name) < max
    ensures Pending(t[..n], Drain(t[..n], s).last) < max
    decreases |es|
  {
    FirstPrinted(t, s, es);
    var a, end := s.pos + es[0].level, EndOf(s.pos, es[0]) + 2;
    if n <= a + 2 {
      NamesGrow(t[..n], s);
    } else if n < end {
      NameNoticed(t, n, s, es[0]);
    } else {
      var s' := ElementPassed(t, n, s, es);
      PrintedRoomy(t, s', es[1..], n, max);
    }
  }

  lemma FittingIsRoomy(es: seq<Element>, max: nat)
    requires Fits(es, max) && forall k :: 0 <= k < |es| ==> LegalElement(es[k])
    ensures Tidy(Print(es), NEW_SCANNER) && Roomy(Print(es), max)
  {
    var t := Print(es);
    PrintedRead(t, NEW_SCANNER, es);
    forall n | 0 <= n < |t|
      ensures Pending(t[..n], Drain(t[..n], NEW_SCANNER).last) < max
    {
      PrintedRoomy(t, NEW_SCANNER, es, n, max);
    }
  }

  // ---- The round trip through the buffer ----

  /** h tells of e: its tag, and the value of every attribute among the keys. */
  ghost predicate TellsOf(h: Handled, e: Element, keys: seq<string>) {
    && h.tag == e.tag && |h.values| == |keys|
    && forall i, j :: 0 <= i < |e.attributes| && 0 <= j < |keys| && keys[j] == e.attributes[i].0 ==>
         h.values[j] == Text(e.attributes[i].1)
  }

  lemma DeliveredIsTold(t: string, s: Scanner, e: Element, h: Handled, keys: seq<string>)
    requires Delivers(t, s, e) && ToldInTime(h, t, s, keys)
    ensures TellsOf(h, e, keys)
  {
    var n :| s.pos <= n <= |t| && Told(h, t[..n], s, keys);
    assert DeliversOn(t[..n], s, e);
    forall i, j | 0 <= i < |e.attributes| && 0 <= j < |keys| && keys[j] == e.attributes[i].0
      ensures h.values[j] == Text(e.attributes[i].1)
    {
      assert Answers(h.values[j], t[..n], s, keys[j]);
    }
  }

  /** Elements that are delivered and told of are told of as they are. */
  lemma AllDelivered(t: string, es: seq<Element>, hs: seq<Handled>, found: seq<Scanner>, keys: seq<string>)
    requires |found| == |es| && forall k :: 0 <= k < |es| ==> Delivers(t, found[k], es[k])
    requires AllToldInTime(hs, t, found, keys)
    ensures |hs| == |es| && forall k :: 0 <= k < |es| ==> TellsOf(hs[k], es[k], keys)
  {
    forall k | 0 <= k < |es|
      ensures TellsOf(hs[k], es[k], keys)
    {
      DeliveredIsTold(t, found[k], es[k], hs[k], keys);
    }
  }

  lemma FoundDeliver(es: seq<Element>)
    requires forall k :: 0 <= k < |es| ==> LegalElement(es[k]) && Distinct(es[k])
    ensures var found := Drain(Print(es), NEW_SCANNER).found;
            |found| == |es| && forall k :: 0 <= k < |es| ==> Delivers(Print(es), found[k], es[k])
  {
    var t := Print(es);
    assert Concat([t]) == t;
    PrintedRead(t, NEW_SCANNER, es);
    FedIsDrained(t, [t]);
    RoundTrip(es, [t]);
  }

  /** What a session keeps up with: all that was sent so far has been taken in. */
  ghost predicate UpTo(p: Parser, sent: string, chunks: seq<string>, found: seq<Scanner>)
    reads p
  {
    && p.Valid() && p.Exhausted() && p.stream == sent == Concat(chunks)
    && Feed(NEW_SCANNER, [], chunks) == Drained(p.scan, found)
  }

  /** One piece of a roomy text is taken in. */
  method TakeIn(p: Parser, piece: string, keys: seq<string>, ghost t: string, ghost chunks: seq<string>,
                ghost found: seq<Scanner>)
    returns (hs: seq<Handled>, ghost chunks': seq<string>, ghost found': seq<Scanner>)
    requires UpTo(p, p.stream, chunks, found) && p.stream + piece <= t
    requires Tidy(t, NEW_SCANNER) && Roomy(t, p.bufLenMax)
    modifies p
    ensures UpTo(p, old(p.stream) + piece, chunks', found + found') && AllToldInTime(hs, p.stream, found', keys)
  {
    ghost var t0 := p.stream;
    ghost var more;
    hs, more, found' := p.Serve(piece, keys);
    chunks' := chunks + more;
    assert [] + Concat(chunks) == t0;
    FeedConcat(NEW_SCANNER, [], chunks, more);
    ConcatConcat(chunks, more);
    if p.invalid {
      StaysShort(t0, Concat(more), piece, t);
      RoomySuffices(t, chunks', p.bufLenMax);
      assert false;
    }
  }

  lemma StaysShort(a: string, b: string, c: string, t: string)
    requires b < c && a + c <= t
    ensures a + b < t
  {
    assert (a + c)[..|a + b|] == a + b;
  }

  /** Elements printed and sent in any pieces are taken in without the parser ever giving up,
      as long as each is shorter than the limit; they are told of in order, and no others, each
      with its tag and the values asked for. */
  method Converse(max: nat, pieces: seq<string>, keys: seq<string>, ghost es: seq<Element>)
    returns (p: Parser, hs: seq<Handled>)
    requires forall k :: 0 <= k < |es| ==> LegalElement(es[k]) && Distinct(es[k])
    requires Concat(pieces) == Print(es) && Fits(es, max)
    ensures p.bufLenMax == max && !p.invalid
    ensures |hs| == |es| && forall k :: 0 <= k < |es| ==> TellsOf(hs[k], es[k], keys)
  {
    ghost var t := Print(es);
    FittingIsRoomy(es, max);
    p := new Parser(max);
    ghost var chunks: seq<string>, found: seq<Scanner> := [], [];
    hs := [];
    var i := 0;
    while i < |pieces|
      invariant i <= |pieces| && fresh(p) && p.bufLenMax == max
      invariant UpTo(p, Concat(pieces[..i]), chunks, found) && AllToldInTime(hs, p.stream, found, keys)
    {
      PieceIsNext(pieces, i);
      ConcatPrefix(pieces, i + 1);
      ghost var sent, more := p.stream, [];
      var now;
      now, chunks, more := TakeIn(p, pieces[i], keys, t, chunks, found);
      AllToldSoFar(hs, found, sent, pieces[i], now, more, keys);
      hs, found, i := hs + now, found + more, i + 1;
    }
    assert pieces[..i] == pieces;
    FedIsDrained(t, chunks);
    FoundDeliver(es);
    AllDelivered(t, es, hs, found, keys);
  }

  lemma PieceIsNext(pieces: seq<string>, i: nat)
    requires i < |pieces|
    ensures Concat(pieces[..i]) + pieces[i] == Concat(pieces[..i + 1])
  {
    assert pieces[..i + 1] == pieces[..i] + [pieces[i]];
    ConcatSnoc(pieces[..i], pieces[i]);
  }

  lemma ConcatPrefix(pieces: seq<string>, i: nat)
    requires i <= |pieces|
    ensures Concat(pieces[..i]) <= Concat(pieces)
  {
    assert pieces == pieces[..i] + pieces[i..];
    ConcatConcat(pieces[..i], pieces[i..]);
  }

  // ---- Texts that it has no room for ----

  /** The last name known in a prefix is known in all that is longer. */
  lemma NamesInPrefixes(t: string, r: nat, n: nat)
    requires Tidy(t, NEW_SCANNER) && r <= n <= |t|
    ensures NameIn(t, r) <= NameIn(t, n)
  {
    var u, v := t[..r], t[..n];
    assert u + t[r..n] == v;
    TidyPrefix(t, n, NEW_SCANNER);
    Resumption(u, t[r..n], NEW_SCANNER);
    NamesGrow(u, NEW_SCANNER);
    NamesGrow(v, Drain(u, NEW_SCANNER).last);
  }

  /** The last name in as much of the text as there is, for any part of it. */
  ghost function Names(t: string): (names: seq<nat>)
    ensures |names| == |t| + 1 && forall n :: 0 <= n <= |t| ==> names[n] == NameIn(t, n)
  {
    seq(|t| + 1, n requires 0 <= n <= |t| => NameIn(t, n))
  }

  /** In terms of the text: full from base to r, the buffer either starts with the last name, and
      has to grow, or is filled again from there on. */
  predicate Exceeds(names: seq<nat>, base: nat, r: nat, max: nat)
    requires base <= r < |names|
    decreases |names| - r
  {
    && r + 1 < |names|
    && (|| (names[r] <= base + 1 && r - base >= max)
        || var next := names[r] + Size(names[r], base, r - base);
           r < next && next + 1 < |names| && Exceeds(names, names[r], next, max))
  }

  /** Sent in one go, t is too long for the parser. */
  ghost predicate TooLong(t: string, max: nat) {
    Exceeds(Names(t), 0, 0, max)
  }

  lemma ReadOn(t: string, r: nat, next: nat)
    requires Tidy(t, NEW_SCANNER) && r <= next <= |t|
    ensures Drain(t[..next], Drain(t[..r], NEW_SCANNER).last).last == Drain(t[..next], NEW_SCANNER).last
  {
    TidyPrefix(t, next, NEW_SCANNER);
    assert t[..r] + t[r..next] == t[..next];
    Resumption(t[..r], t[r..next], NEW_SCANNER);
  }

  lemma {:induction false} OverflowsIff(t: string, s: Scanner, base: nat, r: nat, max: nat)
    requires Tidy(t, NEW_SCANNER) && base <= s.name <= s.pos <= r <= |t| && s == Drain(t[..r], NEW_SCANNER).last
    ensures Overflows(t, s, base, r, max) == Exceeds(Names(t), base, r, max)
    decreases |t| - r
  {
    var next := s.name + Size(s.name, base, r - base);
    if next < |t| {
      ReadOn(t, r, next);
      NamesGrow(t[..next], s);
      OverflowsIff(t, Drain(t[..next], s).last, s.name, next, max);
    }
  }

  /** When as much as the limit stands between a name and the next, the text is too long. */
  lemma {:induction false} OverlongExceeds(names: seq<nat>, base: nat, r: nat, max: nat, n: nat)
    requires Grow(names) && base <= r < |names| && base <= names[r]
    requires Whole(r - base) && r - base <= Limit(max)
    requires n + 1 < |names| && n - names[n] >= Limit(max) && base <= names[n]
    ensures Exceeds(names, base, r, max)
    decreases |names| - r
  {
    assert names[r] <= names[n];
    if names[r] > base + 1 || r - base < max {
      var size := NextSize(names[r], base, r - base, max);
      assert names[r] <= names[names[r] + size];
      OverlongExceeds(names, names[r], names[r] + size, max, n);
    }
  }

  ghost predicate Grow(names: seq<nat>) {
    forall i, j :: 0 <= i <= j < |names| ==> names[i] <= names[j]
  }

  lemma NextSize(name: nat, base: nat, capacity: nat, max: nat) returns (size: nat)
    requires Whole(capacity) && capacity <= Limit(max) && (name > base + 1 || capacity < max)
    ensures size == Size(name, base, capacity) && Whole(size) && size <= Limit(max)
  {
    size := Size(name, base, capacity);
    if name <= base + 1 {
      WholeGrows(capacity);
      BelowLimit(max, size);
    }
  }

  /** A text that is too long has no less than the limit from some '<' to the next that is
      noticed. */
  lemma {:induction false} ExceedsOverlong(names: seq<nat>, base: nat, r: nat, max: nat) returns (n: nat)
    requires base <= r < |names| && Whole(r - base) && r - base <= Limit(max) && Exceeds(names, base, r, max)
    ensures n + 1 < |names| && n - names[n] >= Limit(max) - 1
    decreases |names| - r
  {
    if names[r] <= base + 1 && r - base >= max {
      n := r;
      AtLimit(max, r - base);
    } else {
      var size := NextSize(names[r], base, r - base, max);
      n := ExceedsOverlong(names, names[r], names[r] + size, max);
    }
  }

  lemma NamesAllGrow(t: string)
    requires Tidy(t, NEW_SCANNER)
    ensures Grow(Names(t))
  {
    forall i, j | 0 <= i <= j < |Names(t)|
      ensures Names(t)[i] <= Names(t)[j]
    {
      NamesInPrefixes(t, i, j);
    }
  }

  lemma AtLimit(max: nat, capacity: nat)
    requires Whole(capacity) && max <= capacity <= Limit(max)
    ensures capacity == Limit(max)
  {
  }

  lemma ExceedsBounds(names: seq<nat>, max: nat)
    requires Grow(names) && |names| > 0
    ensures (exists n :: 0 <= n < |names| - 1 && n - names[n] >= Limit(max)) ==> Exceeds(names, 0, 0, max)
    ensures Exceeds(names, 0, 0, max) ==> exists n :: 0 <= n < |names| - 1 && n - names[n] >= Limit(max) - 1
  {
    if n :| 0 <= n < |names| - 1 && n - names[n] >= Limit(max) {
      OverlongExceeds(names, 0, 0, max, n);
    }
    if Exceeds(names, 0, 0, max) {
      var n := ExceedsOverlong(names, 0, 0, max);
    }
  }

  /** The two sides of the limit: a text is too long if somewhere the limit stands between a name
      and the end of what is known of its element, and only if it is no more than one short. */
  lemma TooLongBounds(t: string, max: nat)
    requires Tidy(t, NEW_SCANNER)
    ensures var names := Names(t);
            && ((exists n :: 0 <= n < |names| - 1 && n - names[n] >= Limit(max)) ==> TooLong(t, max))
            && (TooLong(t, max) ==> exists n :: 0 <= n < |names| - 1 && n - names[n] >= Limit(max) - 1)
  {
    NamesAllGrow(t);
    ExceedsBounds(Names(t), max);
  }

  /** Sent in one go, exactly a text that is too long is one that the parser gives up on. */
  method GiveUp(max: nat, t: string, keys: seq<string>) returns (p: Parser)
    requires Tidy(t, NEW_SCANNER)
    ensures p.bufLenMax == max && (p.invalid <==> TooLong(t, max))
  {
    p := new Parser(max);
    assert t[..0] == [] && t[0..] == t;
    assert [] + t == t;
    OverflowsIff(t, NEW_SCANNER, 0, 0, max);
    ghost var chunks, found;
    var hs;
    hs, chunks, found := p.Serve(t, keys);
  }

  // ---- Blanks that are too much ----

  const FINISHED := "<a>" + Spaces(1021)

  lemma FinishedTag(t: string)
    requires t == FINISHED
    ensures var s := NEW_SCANNER.(pos := 2, name := 1, argument := 1, attributes := [Attribute(1, None)],
                                  phase := ElementEnd);
            Leads(t, NEW_SCANNER, s)
  {
    assert t[0] == '<' && t[1] == 'a' && t[2] == '>' && |t| == 1024;
    var s1 := NEW_SCANNER.(pos := 1, name := 1, attributes := [], starttls := false, phase := ElementEnd);
    var s2 := s1.(pos := 2, argument := 1, phase := ArgumentName);
    var s3 := s2.(attributes := [Attribute(1, None)], phase := ElementEnd);
    StepLeads(t, NEW_SCANNER);
    StepLeads(t, s1);
    assert !IsStartTls(t[1..2]);
    assert [] + [Attribute(1, None)] == [Attribute(1, None)];
    StepLeads(t, s2);
    LeadsTransitive(t, NEW_SCANNER, s1, s2);
    LeadsTransitive(t, NEW_SCANNER, s2, s3);
  }

  /** One whole element, and nothing under way behind it. */
  lemma FinishedScanned(t: string)
    requires t == FINISHED
    ensures var d := Drain(t, NEW_SCANNER);
            |d.found| == 1 && d.last.phase == ElementStart && d.last.pos == |t| == 1024 && d.last.name == 1
  {
    FinishedTag(t);
    var s := NEW_SCANNER.(pos := 2, name := 1, argument := 1, attributes := [Attribute(1, None)], phase := ElementEnd);
    var s1 := s.(pos := 3, zeros := s.zeros + {2}, phase := ElementStart);
    assert t[2] == '>' && Step(t, s) == Move(s1, true);
    StepLeads(t, s);
    SkipJunk(t, s1, 1021);
  }

  lemma FinishedTooLong(more: string)
    requires more != []
    ensures TooLong(FINISHED + more, 1024)
  {
    var t := FINISHED + more;
    FinishedScanned(FINISHED);
    assert t[..1024] == FINISHED && t[..0] == [];
    assert Names(t)[0] == 0 && Names(t)[1024] == 1;
    assert Exceeds(Names(t), 0, 1024, 1024);
  }

  /** With room for 1024 bytes, a short element and 1021 blanks make the parser give up on
      whatever follows, although the element has been told of and none is under way. */
  method FinishedYetTooLong(more: string) returns (p: Parser, hs: seq<Handled>)
    requires more != []
    ensures p.bufLenMax == 1024 && p.invalid && |hs| == 1 && p.scan.phase == ElementStart
  {
    p := new Parser(1024);
    var text := FINISHED;
    FinishedScanned(text);
    assert [] + text == text;
    var n := p.Read(text);
    assert n == 1024;
    assert text[..n] == text;
    ghost var found;
    hs, found := p.HandleAll([]);
    n := p.Read(more);
  }

  // ---- A flag that is lost ----

  const FLAGGED := "<a b" + Spaces(1020)

  function AtFlag(): Scanner {
    NEW_SCANNER.(pos := 4, name := 1, argument := 3, attributes := [Attribute(1, None), Attribute(3, None)],
                 phase := ElementEnd, zeros := {2})
  }

  lemma FlagReached(t: string)
    requires t == FLAGGED
    ensures Leads(t, NEW_SCANNER, AtFlag())
  {
    assert t[0] == '<' && t[1] == 'a' && t[2] == ' ' && t[3] == 'b' && t[4] == ' ' && |t| == 1024;
    TagLeads(t, NEW_SCANNER, "a");
    var s1 := AfterTag(NEW_SCANNER, "a");
    StepLeads(t, s1);
    var s2 := s1.(pos := 3, zeros := s1.zeros + {2});
    NameLeads(t, s2, "b");
    var s3 := s2.(pos := 4, argument := 3, phase := ArgumentName);
    assert [Attribute(1, None)] + [Attribute(3, None)] == [Attribute(1, None), Attribute(3, None)];
    assert s1.zeros + {2} == {2};
    assert Step(t, s3) == Move(AtFlag(), false);
    StepLeads(t, s3);
    LeadsTransitive(t, NEW_SCANNER, s1, s2);
    LeadsTransitive(t, NEW_SCANNER, s2, s3);
    LeadsTransitive(t, NEW_SCANNER, s3, AtFlag());
  }

  function BehindFlag(): Scanner {
    AtFlag().(pos := 1024, zeros := {2} + Range(4, 1020))
  }

  lemma FlagScanned(t: string)
    requires t == FLAGGED
    ensures |t| == 1024 && Drain(t, NEW_SCANNER) == Drained(BehindFlag(), [])
  {
    FlagReached(t);
    forall i | 4 <= i < 1024
      ensures t[i] == ' '
    {
      assert t[i] == Spaces(1020)[i - 4];
    }
    SkipBlanks(t, AtFlag(), 1020);
    assert Drain(t, BehindFlag()) == Drained(BehindFlag(), []);
  }

  /** The element is complete with one more character, and has the flag b. */
  lemma FlagKnown(t: string)
    requires t == FLAGGED + ">"
    ensures var (s, found) := RunOnce(t, BehindFlag());
            && found && s.name == 1 && s.attributes == AtFlag().attributes
            && IndexOf(t, s.zeros, s.attributes, "b") == 1
  {
    var s := BehindFlag().(pos := 1025, zeros := BehindFlag().zeros + {1024}, phase := ElementStart);
    assert t[1024] == '>' && t[1] == 'a' && t[3] == 'b';
    assert Step(t, BehindFlag()) == Move(s, true);
    assert CString(t, s.zeros, 2) == [] && CString(t, s.zeros, 1) == "a";
    assert CString(t, s.zeros, 4) == [] && CString(t, s.zeros, 3) == "b";
    assert s.attributes[1..][0] == Attribute(3, None);
    assert IndexOf(t, s.zeros, s.attributes[1..], "b") == 0;
    assert !SameIgnoringCase("b", "a") by {
      assert Lower("b"[0]) != Lower("a"[0]);
    }
  }

  /** A parser that has read the flag and waits for the end of its element. */
  method ReadFlag() returns (p: Parser)
    ensures fresh(p) && p.Valid() && p.Exhausted() && p.bufLenMax == 2048 && p.capacity == |p.data| == 1024
    ensures p.stream == FLAGGED && p.scan == BehindFlag()
    ensures p.name == 1 && p.base == 0 && |p.homes| == 2 && p.homes[1] == p.NameAddress()
  {
    p := new Parser(2048);
    var head := FLAGGED;
    FlagScanned(head);
    assert [] + head == head;
    var n := p.Read(head);
    assert n == 1024;
    assert head[..n] == head;
    ghost var found;
    var hs;
    hs, found := p.HandleAll([]);
    assert p.scan == BehindFlag();
    assert PointsTo(p.attribute[1], p.scan.attributes[1], p.buf, p.base, p.name, p.homes[1]);
  }

  /** A flag that is read before the buffer grows has lost its null pointer once its element is
      complete: asking for its value follows a pointer that does not lead into the buffer. */
  method FlagGoesAstray() returns (r: Reading)
    ensures r == Stray
  {
    var p := ReadFlag();
    var n := p.Read(">");
    assert ">"[..n] == ">";
    FlagKnown(p.stream);
    var complete := p.Next();
    r := p.GetValue("b");
  }
}
