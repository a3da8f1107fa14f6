/** The incremental parser of the command dialect: a scanner over the bytes received so far,
    which may stop anywhere and go on when there are more.

    Positions count from the start of the stream. The scanner ends strings in place by writing
    NUL over what follows them; zeros holds the positions so overwritten. */
module XmlParser {
  import opened Common
  import opened XmlElement

  datatype Phase = ElementStart | ElementEnd | ArgumentName | QuotedValue | Tail | ArgumentValue | TlsEnd

  /** Where the name of an attribute starts, and its value unless it is a mere flag. */
  datatype Attribute = Attribute(name: nat, value: Option<nat>)

  datatype Scanner = Scanner(
    pos: nat,
    phase: Phase,
    name: nat,
    argument: nat,
    quote: char,
    attributes: seq<Attribute>,
    starttls: bool,
    zeros: set<nat>)

  const NEW_SCANNER := Scanner(0, ElementStart, 0, 0, '"', [], false, {})

  const NUL: char := '\0'

  predicate IsAlpha(c: char) {
    'A' <= c <= 'Z' || 'a' <= c <= 'z'
  }

  predicate EndsName(c: char) {
    c == '=' || c == ' ' || c == '/' || c == '>' || c == NUL
  }

  predicate IsQuote(c: char) {
    c == '"' || c == '\''
  }

  const STARTTLS := "starttls"

  predicate IsStartTls(name: string) {
    STARTTLS <= name
  }

  /** What one look at the text comes to: more text is needed, or the scanner moves on, having
      found a whole element or not. */
  datatype Outcome = Wait | Move(next: Scanner, found: bool)

  function Step(t: string, s: Scanner): (o: Outcome)
    requires s.pos < |t|
  {
    var c := t[s.pos];
    match s.phase
    case ElementStart => StartStep(t, s)
    case ElementEnd => EndStep(t, s)
    case ArgumentName => NameStep(t, s)
    case QuotedValue =>
      if c != s.quote then Move(s.(pos := s.pos + 1), false)
      else if s.pos + 1 >= |t| then Wait
      else Move(s.(pos := s.pos + 1, zeros := s.zeros + {s.pos}, phase := Tail), false)
    case Tail =>
      // The value has ended and the phase been set already: if the text runs out here, what
      // follows is looked at as the next attribute.
      if c == ' ' || c == '>' then Move(s.(phase := ElementEnd), false)
      else Move(s.(pos := s.pos + 1, phase := if s.pos + 1 == |t| then ElementEnd else Tail), false)
    case ArgumentValue =>
      if c == ' ' || c == '>' then Move(s.(phase := ElementEnd), false)
      else Move(s.(pos := s.pos + 1), false)
    case TlsEnd =>
      if c == '\r' && s.pos + 1 == |t| then Wait
      else
        var p := if c == '\r' then s.pos + 1 else s.pos;
        if t[p] == '\n' then Move(s.(pos := p + 1, phase := ElementStart), true)
        else Move(s.(pos := p, phase := ElementStart), false)
  }

  function StartStep(t: string, s: Scanner): Outcome
    requires s.pos < |t|
  {
    if t[s.pos] != '<' then Move(s.(pos := s.pos + 1), false)
    else if s.pos + 2 >= |t| then Wait
    else
      var p := s.pos + 1;
      if !IsAlpha(t[p]) then Move(s.(pos := p, name := p), false)
      else Move(s.(pos := p, name := p, attributes := [], starttls := false, phase := ElementEnd), false)
  }

  /** The scanner at the end of an element. A request for encryption is only complete with its
      line. */
  function Finish(s: Scanner): Outcome {
    if s.starttls then Move(s.(phase := TlsEnd), false) else Move(s.(phase := ElementStart), true)
  }

  function EndStep(t: string, s: Scanner): Outcome
    requires s.pos < |t|
  {
    var c, zeros := t[s.pos], s.zeros + {s.pos};
    if c == ' ' then Move(s.(pos := s.pos + 1, zeros := zeros), false)
    else if c == '/' then
      if s.pos + 1 >= |t| then Wait
      else if t[s.pos + 1] == '>' then Finish(s.(pos := s.pos + 2, zeros := zeros))
      else Move(s.(pos := s.pos + 2, zeros := zeros, phase := ElementStart), false)
    else if c == '>' then Finish(s.(pos := s.pos + 1, zeros := zeros))
    else if !IsAlpha(c) then Move(s.(phase := ElementStart), false)
    else Move(s.(argument := s.pos, pos := s.pos + 1, phase := ArgumentName), false)
  }

  function NameStep(t: string, s: Scanner): Outcome
    requires s.pos < |t|
  {
    var c := t[s.pos];
    if !EndsName(c) then Move(s.(pos := s.pos + 1), false)
    else if c != '=' then
      Move(s.(attributes := s.attributes + [Attribute(s.argument, None)],
              starttls := if s.argument == s.name then s.name <= s.pos && IsStartTls(t[s.name..s.pos]) else s.starttls,
              phase := ElementEnd), false)
    else if s.pos + 1 >= |t| then Wait
    else if !IsQuote(t[s.pos + 1]) then
      Move(s.(pos := s.pos + 2, zeros := s.zeros + {s.pos}, phase := ArgumentValue,
              attributes := s.attributes + [Attribute(s.argument, Some(s.pos + 1))]), false)
    else if s.pos + 2 >= |t| then Wait
    else
      Move(s.(pos := s.pos + 2, zeros := s.zeros + {s.pos}, phase := QuotedValue, quote := t[s.pos + 1],
              attributes := s.attributes + [Attribute(s.argument, Some(s.pos + 2))]), false)
  }

  // ---- Reading attributes ----

  /** The string that starts at p: it ends at the first NUL, original or written over the
      text. */
  function CString(t: string, zeros: set<nat>, p: nat): string
    decreases if p < |t| then |t| - p else 0
  {
    if p >= |t| || p in zeros || t[p] == NUL then [] else [t[p]] + CString(t, zeros, p + 1)
  }

  function Lower(c: char): char {
    if 'A' <= c <= 'Z' then c - 'A' + 'a' else c
  }

  predicate SameIgnoringCase(a: string, b: string) {
    |a| == |b| && forall i :: 0 <= i < |a| ==> Lower(a[i]) == Lower(b[i])
  }

  function Find(t: string, zeros: set<nat>, attributes: seq<Attribute>, name: string): Option<Attribute> {
    if attributes == [] then None
    else if SameIgnoringCase(name, CString(t, zeros, attributes[0].name)) then Some(attributes[0])
    else Find(t, zeros, attributes[1..], name)
  }

  /** The place of the attribute that Find finds, or the number of attributes. */
  function IndexOf(t: string, zeros: set<nat>, attributes: seq<Attribute>, name: string): (i: nat)
    ensures i <= |attributes|
    ensures Find(t, zeros, attributes, name) == if i < |attributes| then Some(attributes[i]) else None
  {
    if attributes == [] || SameIgnoringCase(name, CString(t, zeros, attributes[0].name)) then 0
    else 1 + IndexOf(t, zeros, attributes[1..], name)
  }

  function GetString(t: string, s: Scanner, name: string): Option<string> {
    match Find(t, s.zeros, s.attributes, name)
    case Some(Attribute(_, Some(v))) => Some(Unescape(CString(t, s.zeros, v)))
    case _ => None
  }

  function Tag(t: string, s: Scanner): string {
    CString(t, s.zeros, s.name)
  }

  // ---- Scanning all there is ----

  function Rank(phase: Phase): nat {
    match phase
    case ElementStart => 0
    case ElementEnd => 1
    case _ => 2
  }

  /** Every move advances, or hands over to a phase that will. */
  lemma StepAdvances(t: string, s: Scanner)
    requires s.pos < |t| && Step(t, s).Move?
    ensures var s' := Step(t, s).next;
            s.pos <= s'.pos <= |t| && (s'.pos > s.pos || Rank(s'.phase) < Rank(s.phase))
  {
  }

  /** Where the scanner stops for want of text, and the elements it found on the way: found[i]
      is the scanner as it stood when it reported element i. */
  datatype Drained = Drained(last: Scanner, found: seq<Scanner>)

  function Drain(t: string, s: Scanner): (d: Drained)
    requires s.pos <= |t|
    ensures d.last.pos <= |t|
    decreases |t| - s.pos, Rank(s.phase)
  {
    if s.pos == |t| then Drained(s, [])
    else
      match Step(t, s)
      case Wait => Drained(s, [])
      case Move(next, found) =>
        StepAdvances(t, s);
        var d := Drain(t, next);
        if found then Drained(d.last, [next] + d.found) else d
  }

  /** One call: up to the next element, or as far as the text goes. */
  function RunOnce(t: string, s: Scanner): (r: (Scanner, bool))
    requires s.pos <= |t|
    ensures r.0.pos <= |t|
    decreases |t| - s.pos, Rank(s.phase)
  {
    if s.pos == |t| then (s, false)
    else
      match Step(t, s)
      case Wait => (s, false)
      case Move(next, found) =>
        StepAdvances(t, s);
        if found then (next, true) else RunOnce(t, next)
  }

  /** Calling until nothing more is found drains the text. */
  lemma {:induction false} DrainIsRuns(t: string, s: Scanner)
    requires s.pos <= |t|
    ensures var (s', found) := RunOnce(t, s);
            Drain(t, s) == if found then Drained(Drain(t, s').last, [s'] + Drain(t, s').found) else Drained(s', [])
    decreases |t| - s.pos, Rank(s.phase)
  {
    if s.pos < |t| && Step(t, s).Move? && !Step(t, s).found {
      StepAdvances(t, s);
      DrainIsRuns(t, Step(t, s).next);
    }
  }

  lemma {:induction false} RunOnceAdvances(t: string, s: Scanner)
    requires s.pos <= |t|
    ensures s.pos <= RunOnce(t, s).0.pos && (RunOnce(t, s).1 ==> s.pos < RunOnce(t, s).0.pos)
    decreases |t| - s.pos, Rank(s.phase)
  {
    if s.pos < |t| && Step(t, s).Move? {
      StepAdvances(t, s);
      if !Step(t, s).found {
        RunOnceAdvances(t, Step(t, s).next);
      }
    }
  }

  /** Elements are found within the text. */
  lemma {:induction false} DrainFound(t: string, s: Scanner)
    requires s.pos <= |t|
    ensures forall k :: 0 <= k < |Drain(t, s).found| ==> Drain(t, s).found[k].pos <= |t|
    decreases |t| - s.pos, Rank(s.phase)
  {
    if s.pos < |t| && Step(t, s).Move? {
      StepAdvances(t, s);
      DrainFound(t, Step(t, s).next);
    }
  }

  /** The place of the last name never goes back. */
  lemma {:induction false} NamesGrow(t: string, s: Scanner)
    requires s.name <= s.pos <= |t|
    ensures s.name <= Drain(t, s).last.name <= Drain(t, s).last.pos
    decreases |t| - s.pos, Rank(s.phase)
  {
    if s.pos < |t| && Step(t, s).Move? {
      StepAdvances(t, s);
      NamesGrow(t, Step(t, s).next);
    }
  }

  // ---- Chunks ----

  /** The text arrives in pieces, and the scanner looks at it after each. */
  function Feed(s: Scanner, t: string, chunks: seq<string>): Drained
    requires s.pos <= |t|
    decreases |chunks|
  {
    if chunks == [] then Drained(s, [])
    else
      var d := Drain(t + chunks[0], s);
      var rest := Feed(d.last, t + chunks[0], chunks[1..]);
      Drained(rest.last, d.found + rest.found)
  }

  predicate Terminates(c: char) {
    c == ' ' || c == '>'
  }

  /** No more than one character stands between the end of a quoted value and what ends it. */
  ghost predicate TidyTail(t: string, s: Scanner)
    requires s.pos < |t|
  {
    s.phase == Tail ==> Terminates(t[s.pos]) || s.pos + 1 == |t| || Terminates(t[s.pos + 1])
  }

  /** All quoted values that the scanner will meet in t end tidily. */
  ghost predicate Tidy(t: string, s: Scanner)
    requires s.pos <= |t|
    decreases |t| - s.pos, Rank(s.phase)
  {
    if s.pos == |t| then true
    else
      && TidyTail(t, s)
      && match Step(t, s)
         case Wait => true
         case Move(next, _) =>
           StepAdvances(t, s);
           Tidy(t, next)
  }

  /** Text yet to come does not change what the scanner does, except where a quoted value has
      ended and the text runs out. */
  lemma StepKeeps(t: string, more: string, s: Scanner)
    requires s.pos < |t| && Step(t, s).Move? && !(s.phase == Tail && s.pos + 1 == |t| && !Terminates(t[s.pos]))
    ensures Step(t + more, s) == Step(t, s)
  {
    if s.phase == ArgumentName && s.name <= s.pos {
      assert (t + more)[s.name..s.pos] == t[s.name..s.pos];
    }
  }

  /** If the text runs out within the tail of a value, the scanner looks for the next
      attribute; with more text it goes on skipping, but finds the end of the tail at once. */
  lemma TailRunsOut(t: string, more: string, s: Scanner)
    requires s.pos + 1 == |t| && s.phase == Tail && !Terminates(t[s.pos]) && Tidy(t + more, s)
    ensures var next := s.(pos := |t|, phase := ElementEnd);
            && Drain(t, s) == Drained(next, [])
            && Drain(t + more, s) == Drain(t + more, next) && Tidy(t + more, next)
  {
    var next := s.(pos := |t|, phase := ElementEnd);
    assert Step(t, s) == Move(next, false);
    if more == [] {
      assert t + more == t;
    } else {
      var mid := s.(pos := |t|);
      assert Step(t + more, s) == Move(mid, false);
      assert Step(t + more, mid) == Move(next, false);
    }
  }

  /** Stopping and going on is as good as having all the text at once. */
  lemma {:induction false} Resumption(t: string, more: string, s: Scanner)
    requires s.pos <= |t| && Tidy(t + more, s)
    ensures var d := Drain(t, s);
            var rest := Drain(t + more, d.last);
            Drain(t + more, s) == Drained(rest.last, d.found + rest.found) && Tidy(t + more, d.last)
    decreases |t| - s.pos, Rank(s.phase)
  {
    if s.pos < |t| && Step(t, s).Move? {
      if s.phase == Tail && s.pos + 1 == |t| && !Terminates(t[s.pos]) {
        TailRunsOut(t, more, s);
      } else {
        StepAdvances(t, s);
        StepKeeps(t, more, s);
        Resumption(t, more, Step(t, s).next);
      }
    }
  }

  function Concat(chunks: seq<string>): string {
    if chunks == [] then [] else chunks[0] + Concat(chunks[1..])
  }

  /** However the text is cut, the elements found and the scanner left behind are the same. */
  lemma {:induction false} ChunksDoNotMatter(t: string, chunks: seq<string>, s: Scanner)
    requires s.pos <= |t| && chunks != [] && Tidy(t + Concat(chunks), s)
    ensures Feed(s, t, chunks) == Drain(t + Concat(chunks), s)
    decreases |chunks|
  {
    var t1, rest := t + chunks[0], chunks[1..];
    assert t + Concat(chunks) == t1 + Concat(rest);
    Resumption(t1, Concat(rest), s);
    var d := Drain(t1, s);
    if rest == [] {
      assert t1 + Concat(rest) == t1;
      assert Feed(d.last, t1, rest) == Drained(d.last, []);
    } else {
      ChunksDoNotMatter(t1, rest, d.last);
    }
  }

  lemma {:induction false} TidyPrefix(t: string, n: nat, s: Scanner)
    requires s.pos <= n <= |t| && Tidy(t, s)
    ensures Tidy(t[..n], s)
    decreases n - s.pos, Rank(s.phase)
  {
    var u := t[..n];
    if s.pos < n && Step(u, s).Move? && !(s.phase == Tail && s.pos + 1 == n && !Terminates(u[s.pos])) {
      StepAdvances(u, s);
      StepKeeps(u, t[n..], s);
      assert u + t[n..] == t;
      TidyPrefix(t, n, Step(u, s).next);
    }
  }

  // ---- When cuts matter ----

  /** What comes of looking at the first k characters, and again with one more. */
  function CutOnce(t: string, k: nat, s: Scanner): Drained
    requires s.pos <= k < |t|
  {
    var d := Drain(t[..k], s);
    Then(d, Drain(t[..k + 1], d.last))
  }

  function Then(d: Drained, e: Drained): Drained {
    Drained(e.last, d.found + e.found)
  }

  /** A step that stays before k can be made when the first k characters are there. */
  lemma StepBefore(t: string, k: nat, s: Scanner)
    requires s.pos < k <= |t| && Step(t, s).Move? && Step(t, s).next.pos < k
    requires s.phase == ElementStart ==> s.pos + 2 < k
    ensures Step(t[..k], s) == Step(t, s)
  {
    if s.phase == ArgumentName && s.name <= s.pos {
      assert t[..k][s.name..s.pos] == t[s.name..s.pos];
    }
  }

  /** In an untidy tail, the scanner takes what follows the cut for something else than the
      tail. */
  lemma UntidyTailBreaks(t: string, s: Scanner)
    requires s.pos < |t| && !TidyTail(t, s)
    ensures CutOnce(t, s.pos + 1, s) != Drain(t[..s.pos + 2], s)
  {
    var k := s.pos + 1;
    var u, v, cut := t[..k], t[..k + 1], s.(pos := k, phase := ElementEnd);
    assert Step(u, s) == Move(cut, false) && Drain(u, s) == Drained(cut, []);
    var mid, end := s.(pos := k), s.(pos := k + 1, phase := ElementEnd);
    assert Step(v, s) == Move(mid, false) && Step(v, mid) == Move(end, false);
    assert Drain(v, end) == Drained(end, []) && Drain(v, mid) == Drain(v, end);
    TakenOtherwise(v, cut);
  }

  /** What is neither blank nor '>' is not passed over at the end of an attribute. */
  lemma TakenOtherwise(t: string, s: Scanner)
    requires s.pos + 1 == |t| && s.phase == ElementEnd && !Terminates(t[s.pos])
    ensures Drain(t, s).last != s.(pos := |t|)
  {
    if t[s.pos] != '/' {
      var next := Step(t, s).next;
      if next.pos == s.pos && Step(t, next).Move? {
        assert Drain(t, next) == Drain(t, Step(t, next).next);
      }
    }
  }

  lemma DrainStep(t: string, s: Scanner)
    requires s.pos < |t| && Step(t, s).Move? && Step(t, s).next.pos <= |t|
    ensures var next := Step(t, s).next;
            Drain(t, s) == Reported(next, Step(t, s).found, Drain(t, next))
  {
  }

  /** With the element that has just been found, if any, in front. */
  function Reported(s: Scanner, found: bool, d: Drained): Drained {
    if found then Drained(d.last, [s] + d.found) else d
  }

  lemma ReportedThen(s: Scanner, found: bool, d: Drained, e: Drained)
    ensures Then(Reported(s, found, d), e) == Reported(s, found, Then(d, e))
  {
    assert [s] + d.found + e.found == [s] + (d.found + e.found);
  }

  lemma ReportedDiffer(s: Scanner, found: bool, c: Drained, d: Drained)
    requires Reported(s, found, c) == Reported(s, found, d)
    ensures c == d
  {
    assert found ==> c.found == ([s] + c.found)[1..] && d.found == ([s] + d.found)[1..];
  }

  ghost predicate Prepends(t: string, k: nat, s: Scanner, next: Scanner, found: bool)
    requires s.pos <= k <= |t| && next.pos <= k
  {
    Drain(t[..k], s) == Reported(next, found, Drain(t[..k], next))
  }

  lemma PrefixStep(t: string, k: nat, s: Scanner, next: Scanner, found: bool)
    requires s.pos < k <= |t| && Step(t, s) == Move(next, found) && next.pos < k
    requires s.phase == ElementStart ==> s.pos + 2 < k
    ensures Prepends(t, k, s, next, found)
  {
    StepBefore(t, k, s);
    DrainStep(t[..k], s);
  }

  /** A difference further on is a difference already now. */
  lemma BreaksBefore(t: string, k: nat, s: Scanner, next: Scanner, found: bool)
    requires s.pos < k < |t| && Step(t, s) == Move(next, found) && next.pos < k
    requires s.phase == ElementStart ==> s.pos + 2 < k
    requires CutOnce(t, k, next) != Drain(t[..k + 1], next)
    ensures CutOnce(t, k, s) != Drain(t[..k + 1], s)
  {
    assert Prepends(t, k, s, next, found) by {
      PrefixStep(t, k, s, next, found);
    }
    assert Prepends(t, k + 1, s, next, found) by {
      PrefixStep(t, k + 1, s, next, found);
    }
    DifferenceStays(t, k, s, next, found);
  }

  lemma DifferenceStays(t: string, k: nat, s: Scanner, next: Scanner, found: bool)
    requires s.pos <= k < |t| && next.pos <= k
    requires Prepends(t, k, s, next, found) && Prepends(t, k + 1, s, next, found)
    requires CutOnce(t, k, next) != Drain(t[..k + 1], next)
    ensures CutOnce(t, k, s) != Drain(t[..k + 1], s)
  {
    var d := Drain(t[..k], next);
    var e := Drain(t[..k + 1], d.last);
    ReportedThen(next, found, d, e);
    if CutOnce(t, k, s) == Drain(t[..k + 1], s) {
      ReportedDiffer(next, found, Then(d, e), Drain(t[..k + 1], next));
    }
  }

  /** The first untidy tail gives a place to cut. */
  lemma {:induction false} UntidyBreaks(t: string, s: Scanner) returns (k: nat)
    requires s.pos <= |t| && !Tidy(t, s)
    ensures s.pos < k < |t| && CutOnce(t, k, s) != Drain(t[..k + 1], s)
    ensures s.phase != Tail ==> s.pos + 1 < k
    decreases |t| - s.pos, Rank(s.phase)
  {
    if !TidyTail(t, s) {
      k := s.pos + 1;
      UntidyTailBreaks(t, s);
    } else {
      StepAdvances(t, s);
      k := UntidyBreaks(t, Step(t, s).next);
      BreaksBefore(t, k, s, Step(t, s).next, Step(t, s).found);
    }
  }

  /** Whatever has been received of t, and in whatever pieces, the scanner is where it would be
      had that come at once, and has found the same elements. */
  ghost predicate CutsNeverMatter(t: string) {
    forall n: nat, chunks: seq<string> :: n <= |t| && chunks != [] && Concat(chunks) == t[..n] ==>
      Feed(NEW_SCANNER, [], chunks) == Drain(t[..n], NEW_SCANNER)
  }

  lemma CutInTwo(t: string, k: nat)
    requires k < |t|
    ensures Concat([t[..k], [t[k]]]) == t[..k + 1]
    ensures Feed(NEW_SCANNER, [], [t[..k], [t[k]]]) == CutOnce(t, k, NEW_SCANNER)
  {
    var u, v := t[..k], [t[k]];
    assert [u, v][1..] == [v] && [v][1..] == [] && [] + u == u && u + v == t[..k + 1] && v + [] == v;
    var d := Drain(u, NEW_SCANNER);
    var e := Drain(t[..k + 1], d.last);
    assert Concat([v]) == v;
    assert Feed(e.last, u + v, []) == Drained(e.last, []);
    assert Feed(d.last, u, [v]) == Drained(e.last, e.found + []);
    assert e.found + [] == e.found;
  }

  /** Cuts never matter exactly for tidy texts. */
  lemma CutsIff(t: string)
    ensures CutsNeverMatter(t) <==> Tidy(t, NEW_SCANNER)
  {
    if Tidy(t, NEW_SCANNER) {
      forall n: nat, chunks: seq<string> | n <= |t| && chunks != [] && Concat(chunks) == t[..n]
        ensures Feed(NEW_SCANNER, [], chunks) == Drain(t[..n], NEW_SCANNER)
      {
        TidyPrefix(t, n, NEW_SCANNER);
        assert [] + Concat(chunks) == t[..n];
        ChunksDoNotMatter([], chunks, NEW_SCANNER);
      }
    } else {
      var k := UntidyBreaks(t, NEW_SCANNER);
      CutInTwo(t, k);
    }
  }

  lemma {:induction false} FeedConcat(s: Scanner, t: string, chunks: seq<string>, more: seq<string>)
    requires s.pos <= |t|
    ensures var d := Feed(s, t, chunks);
            && d.last.pos <= |t + Concat(chunks)|
            && var e := Feed(d.last, t + Concat(chunks), more);
               Feed(s, t, chunks + more) == Drained(e.last, d.found + e.found)
    decreases |chunks|
  {
    if chunks == [] {
      assert t + Concat(chunks) == t && chunks + more == more;
    } else {
      var d := Drain(t + chunks[0], s);
      assert (chunks + more)[1..] == chunks[1..] + more;
      assert t + Concat(chunks) == t + chunks[0] + Concat(chunks[1..]);
      FeedConcat(d.last, t + chunks[0], chunks[1..], more);
    }
  }

  lemma {:induction false} ConcatConcat(chunks: seq<string>, more: seq<string>)
    ensures Concat(chunks + more) == Concat(chunks) + Concat(more)
    decreases |chunks|
  {
    if chunks == [] {
      assert chunks + more == more;
    } else {
      assert (chunks + more)[1..] == chunks[1..] + more;
      ConcatConcat(chunks[1..], more);
    }
  }

  lemma {:induction false} FeedSnoc(s: Scanner, t: string, chunks: seq<string>, chunk: string)
    requires s.pos <= |t|
    ensures var d := Feed(s, t, chunks);
            var t' := t + Concat(chunks);
            && d.last.pos <= |t'|
            && var last := Drain(t' + chunk, d.last);
               Feed(s, t, chunks + [chunk]) == Drained(last.last, d.found + last.found)
    decreases |chunks|
  {
    if chunks == [] {
      assert t + Concat(chunks) == t;
      assert (chunks + [chunk])[1..] == [];
    } else {
      var d := Drain(t + chunks[0], s);
      assert (chunks + [chunk])[1..] == chunks[1..] + [chunk];
      assert t + Concat(chunks) == t + chunks[0] + Concat(chunks[1..]);
      FeedSnoc(d.last, t + chunks[0], chunks[1..], chunk);
    }
  }

  lemma {:induction false} ConcatSnoc(chunks: seq<string>, chunk: string)
    ensures Concat(chunks + [chunk]) == Concat(chunks) + chunk
  {
    if chunks != [] {
      assert (chunks + [chunk])[1..] == chunks[1..] + [chunk];
      ConcatSnoc(chunks[1..], chunk);
    }
  }
}
