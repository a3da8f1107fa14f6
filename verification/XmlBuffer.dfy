/** The parser as an object: a buffer that is shifted, grown and written into, and offsets
    into it. scan is the scanner over the whole stream that the object stands for. */
module XmlBuffer {
  import opened Common
  import opened XmlElement
  import opened XmlParser

  const BUF_INCREMENT: nat := 1024

  /** A character of the stream as it now stands in memory. */
  function Overwritten(t: string, zeros: set<nat>, p: nat): char
    requires p < |t|
  {
    if p in zeros then NUL else t[p]
  }

  /** The stream from a position on, as it now stands in memory. */
  function Overlay(t: string, zeros: set<nat>, from: nat): (w: string)
    requires from <= |t|
    ensures |w| == |t| - from
    ensures forall i :: 0 <= i < |w| ==> w[i] == Overwritten(t, zeros, from + i)
  {
    seq(|t| - from, i requires 0 <= i < |t| - from => Overwritten(t, zeros, from + i))
  }

  ghost predicate Before(zeros: set<nat>, p: nat) {
    forall z :: z in zeros ==> z < p
  }

  /** The pointers kept for an attribute: to its name, and to its value or null. Addresses are
      integers, and null is 0. */
  datatype Entry = Entry(first: int, second: int)

  /** Entry a points to attribute b, in a buffer at buf that starts with position base of the
      stream. Where the attribute has no value, the pointer was null when the name stood at
      home, and has been moved as the name was since. */
  ghost predicate PointsTo(a: Entry, b: Attribute, buf: nat, base: nat, name: nat, home: nat) {
    && b.name >= base + name && a.first == buf + (b.name - base)
    && if b.value.Some? then b.value.value >= base + name && a.second == buf + (b.value.value - base)
       else a.second == buf + name - home && home >= 1 && (home != buf + name ==> name == 0)
  }

  ghost predicate AllPoint(
    entries: seq<Entry>, attributes: seq<Attribute>, buf: nat, base: nat, name: nat, homes: seq<nat>)
  {
    && |entries| == |attributes| == |homes|
    && forall i :: 0 <= i < |entries| ==> PointsTo(entries[i], attributes[i], buf, base, name, homes[i])
  }

  /** The data from position base of the stream on, in which the scanner is at parsePos. */
  ghost predicate Shows(data: string, stream: string, s: Scanner, base: nat, parsePos: nat) {
    && base + |data| == |stream| && parsePos <= |data| && s.pos == base + parsePos
    && data == Overlay(stream, s.zeros, base) && Before(s.zeros, s.pos)
  }

  /** What asking for a value comes to: there is none, it is read, or the pointer that is
      followed does not lead into the buffer. */
  datatype Reading = Absent | Text(value: string) | Stray

  function ReadingOf(value: Option<string>): Reading {
    if value.None? then Absent else Text(value.value)
  }

  /** What is told of an element: its tag, and what asking for some keys came to. */
  datatype Handled = Handled(tag: string, values: seq<Reading>)

  /** The attribute of that name is a flag. */
  ghost predicate IsFlag(t: string, s: Scanner, key: string) {
    var a := Find(t, s.zeros, s.attributes, key);
    a.Some? && a.value.value.None?
  }

  /** A reading is what the text says, or strays from a flag. */
  ghost predicate Answers(r: Reading, t: string, s: Scanner, key: string) {
    if r == Stray then IsFlag(t, s, key) else r == ReadingOf(GetString(t, s, key))
  }

  ghost predicate Told(h: Handled, t: string, s: Scanner, keys: seq<string>) {
    && h.tag == Tag(t, s) && |h.values| == |keys|
    && forall j :: 0 <= j < |keys| ==> Answers(h.values[j], t, s, keys[j])
  }

  ghost predicate AllTold(hs: seq<Handled>, t: string, found: seq<Scanner>, keys: seq<string>) {
    |hs| == |found| && forall k :: 0 <= k < |found| ==> Told(hs[k], t, found[k], keys)
  }

  /** The text received from the '<' of the last element on, complete or not; all of it while
      there has been none. */
  function Pending(t: string, s: Scanner): int {
    |t| - if s.name == 0 then 0 else s.name - 1
  }

  /** The element was told of while some of the text was there, at least up to its end. */
  ghost predicate ToldInTime(h: Handled, t: string, s: Scanner, keys: seq<string>) {
    exists n :: s.pos <= n <= |t| && Told(h, t[..n], s, keys)
  }

  ghost predicate AllToldInTime(hs: seq<Handled>, t: string, found: seq<Scanner>, keys: seq<string>) {
    |hs| == |found| && forall k :: 0 <= k < |found| ==> ToldInTime(hs[k], t, found[k], keys)
  }

  lemma ToldOnMore(h: Handled, t: string, more: string, s: Scanner, keys: seq<string>)
    requires ToldInTime(h, t, s, keys)
    ensures ToldInTime(h, t + more, s, keys)
  {
    var n :| s.pos <= n <= |t| && Told(h, t[..n], s, keys);
    assert (t + more)[..n] == t[..n];
  }

  lemma ToldNow(hs: seq<Handled>, t: string, found: seq<Scanner>, keys: seq<string>)
    requires AllTold(hs, t, found, keys) && forall k :: 0 <= k < |found| ==> found[k].pos <= |t|
    ensures AllToldInTime(hs, t, found, keys)
  {
    forall k | 0 <= k < |found|
      ensures ToldInTime(hs[k], t, found[k], keys)
    {
      assert t[..|t|] == t;
    }
  }

  /** Elements told of earlier, and those told of since. */
  lemma AllToldSoFar(hs: seq<Handled>, found: seq<Scanner>, t: string, more: string,
                     hs': seq<Handled>, found': seq<Scanner>, keys: seq<string>)
    requires AllToldInTime(hs, t, found, keys) && AllToldInTime(hs', t + more, found', keys)
    ensures AllToldInTime(hs + hs', t + more, found + found', keys)
  {
    forall k | 0 <= k < |found + found'|
      ensures ToldInTime((hs + hs')[k], t + more, (found + found')[k], keys)
    {
      if k < |found| {
        ToldOnMore(hs[k], t, more, found[k], keys);
      } else {
        assert ToldInTime(hs'[k - |found|], t + more, found'[k - |found|], keys);
      }
    }
  }

  /** A size that growing can come to. */
  predicate Whole(size: nat) {
    size % BUF_INCREMENT == 0
  }

  lemma WholeGrows(size: nat)
    requires Whole(size)
    ensures Whole(size + BUF_INCREMENT)
  {
  }

  /** The most that the buffer may hold. */
  function Limit(max: nat): (l: nat)
    ensures max <= l < max + BUF_INCREMENT && Whole(l)
  {
    (max + BUF_INCREMENT - 1) / BUF_INCREMENT * BUF_INCREMENT
  }

  lemma BelowLimit(max: nat, c: nat)
    requires Whole(c) && c < max + BUF_INCREMENT
    ensures c <= Limit(max)
  {
  }

  /** The capacity once there is room again. */
  function Size(name: nat, base: nat, capacity: nat): (size: nat)
    ensures base <= name ==> base + capacity < name + size
  {
    if name <= base + 1 then capacity + BUF_INCREMENT else capacity
  }

  /** Whether the parser gives up on t, all of which is there to be read. The scanner has got to
      s, and the buffer is full with what stands between base and r: it is moved to start with
      the last name, or grown as well if it did already. */
  ghost predicate Overflows(t: string, s: Scanner, base: nat, r: nat, max: nat)
    requires base <= s.name <= s.pos <= r <= |t|
    decreases |t| - r
  {
    && r < |t|
    && (|| (s.name <= base + 1 && r - base >= max)
        || var next := s.name + Size(s.name, base, r - base);
           next < |t| && (NamesGrow(t[..next], s); Overflows(t, Drain(t[..next], s).last, s.name, next, max)))
  }

  /** One read, with what it leaves behind. */
  lemma OverflowStep(t: string, s: Scanner, base: nat, r: nat, max: nat, s': Scanner, r': nat)
    requires base <= s.name <= s.pos <= r < r' <= |t| && !(s.name <= base + 1 && r - base >= max)
    requires var next := s.name + Size(s.name, base, r - base); r' <= next && (r' < |t| ==> r' == next)
    requires s' == Drain(t[..r'], s).last
    ensures r' == |t| ==> !Overflows(t, s, base, r, max)
    ensures r' < |t| ==> s.name <= s'.name <= s'.pos <= r'
    ensures r' < |t| ==> Overflows(t, s, base, r, max) == Overflows(t, s', s.name, r', max)
  {
    NamesGrow(t[..r'], s);
  }

  /** What was taken in before the parser gave up, on more: too much text since the last '<'
      of an element. */
  ghost predicate GaveUp(s: Scanner, t: string, chunks: seq<string>, incoming: string, max: nat)
    requires s.pos <= |t|
  {
    && Concat(chunks) < incoming
    && Pending(t + Concat(chunks), Feed(s, t, chunks).last) >= max
  }

  /** Memory from the allocator: callers rely on no more than that it is not null and does not
      overlap the buffer still in use. */
  method Allocate(buf: nat, end: nat, size: nat) returns (a: nat)
    requires buf <= end && size > 0
    ensures a > 0 && (a + size <= buf || end <= a)
  {
    a := end + 1;
  }

  lemma OverlayUnread(t: string, zeros: set<nat>, from: nat, p: nat)
    requires from <= p < |t| && Before(zeros, p)
    ensures Overlay(t, zeros, from)[p - from] == t[p]
  {
  }

  lemma OverlaySlice(t: string, zeros: set<nat>, from: nat, p: nat, q: nat)
    requires from <= p <= q <= |t| && Before(zeros, p)
    ensures Overlay(t, zeros, from)[p - from..q - from] == t[p..q]
  {
  }

  lemma OverlayClobbered(t: string, zeros: set<nat>, from: nat, p: nat)
    requires from <= p < |t|
    ensures Overlay(t, zeros, from)[p - from := NUL] == Overlay(t, zeros + {p}, from)
  {
  }

  lemma OverlayShifted(t: string, zeros: set<nat>, from: nat, diff: nat)
    requires from + diff <= |t|
    ensures Overlay(t, zeros, from)[diff..] == Overlay(t, zeros, from + diff)
  {
  }

  lemma OverlayGrown(t: string, zeros: set<nat>, from: nat, more: string)
    requires from <= |t| && Before(zeros, |t|)
    ensures Overlay(t, zeros, from) + more == Overlay(t + more, zeros, from)
  {
  }

  function Shifted(entries: seq<Entry>, diff: int): (r: seq<Entry>)
    ensures |r| == |entries|
    ensures forall i :: 0 <= i < |r| ==> r[i] == Entry(entries[i].first + diff, entries[i].second + diff)
  {
    seq(|entries|, i requires 0 <= i < |entries| => Entry(entries[i].first + diff, entries[i].second + diff))
  }

  /** Moving the name to dst, and everything with it, keeps the pointers right. */
  lemma EntriesMoved(entries: seq<Entry>, attributes: seq<Attribute>, buf: nat, base: nat, name: nat, homes: seq<nat>,
                     dst: nat)
    requires AllPoint(entries, attributes, buf, base, name, homes)
    ensures AllPoint(Shifted(entries, dst - (buf + name)), attributes, dst, base + name, 0, homes)
  {
    var now := Shifted(entries, dst - (buf + name));
    forall i | 0 <= i < |entries|
      ensures PointsTo(now[i], attributes[i], dst, base + name, 0, homes[i])
    {
      assert PointsTo(entries[i], attributes[i], buf, base, name, homes[i]);
    }
  }

  lemma WindowMoved(data: string, stream: string, s: Scanner, base: nat, parsePos: nat, name: nat)
    requires Shows(data, stream, s, base, parsePos) && name <= parsePos
    ensures Shows(data[name..], stream, s, base + name, parsePos - name)
  {
    OverlayShifted(stream, s.zeros, base, name);
  }

  lemma WindowGrown(data: string, stream: string, s: Scanner, base: nat, parsePos: nat, more: string)
    requires Shows(data, stream, s, base, parsePos)
    ensures Shows(data + more, stream + more, s, base, parsePos)
  {
    OverlayGrown(stream, s.zeros, base, more);
  }

  lemma CStringStep(t: string, zeros: set<nat>, p: nat)
    requires p < |t| && Overwritten(t, zeros, p) != NUL
    ensures CString(t, zeros, p) == [Overwritten(t, zeros, p)] + CString(t, zeros, p + 1)
  {
  }

  /** Draining from start has given found, and stands at s, where it reports one more or
      ends. */
  ghost predicate SoFar(t: string, start: Scanner, found: seq<Scanner>, s: Scanner, more: bool) {
    && start.pos <= |t| && s.pos <= |t|
    && Drain(t, start) == if more then Drained(Drain(t, s).last, found + [s] + Drain(t, s).found) else Drained(s, found)
  }

  lemma FirstFound(t: string, start: Scanner)
    requires start.pos <= |t|
    ensures var (s, more) := RunOnce(t, start);
            SoFar(t, start, [], s, more)
  {
    DrainIsRuns(t, start);
    var (s, more) := RunOnce(t, start);
    assert [] + [s] == [s];
  }

  lemma NextFound(t: string, start: Scanner, found: seq<Scanner>, s: Scanner)
    requires SoFar(t, start, found, s, true)
    ensures var (s', more) := RunOnce(t, s);
            SoFar(t, start, found + [s], s', more)
  {
    DrainIsRuns(t, s);
    var (s', more) := RunOnce(t, s);
    if more {
      assert found + [s] + ([s'] + Drain(t, s').found) == found + [s] + [s'] + Drain(t, s').found;
    }
  }

  /** The scanner once the '=' has ended a name whose value starts skip characters on. */
  function NamedAt(s: Scanner, skip: nat, phase: Phase, quote: char): Scanner {
    s.(pos := s.pos + 2, zeros := s.zeros + {s.pos}, phase := phase, quote := quote,
       attributes := s.attributes + [Attribute(s.argument, Some(s.pos + skip))])
  }

  lemma EqualsStep(t: string, s: Scanner)
    requires s.pos < |t| && t[s.pos] == '='
    ensures NameStep(t, s)
         == if s.pos + 1 >= |t| then Wait
            else if !IsQuote(t[s.pos + 1]) then Move(NamedAt(s, 1, ArgumentValue, s.quote), false)
            else if s.pos + 2 >= |t| then Wait
            else Move(NamedAt(s, 2, QuotedValue, t[s.pos + 1]), false)
  {
  }

  lemma SlashStep(t: string, s: Scanner)
    requires s.pos + 1 < |t| && t[s.pos] == '/'
    ensures var s' := s.(pos := s.pos + 2, zeros := s.zeros + {s.pos});
            EndStep(t, s) == if t[s.pos + 1] == '>' then Finish(s') else Move(s'.(phase := ElementStart), false)
  {
  }

  class Parser {
    const bufLenMax: nat
    var buf: nat
    var capacity: nat
    var data: string
    var parsePos: nat
    var name: nat
    var argument: int
    var quote: char
    var attribute: seq<Entry>
    var starttls: bool
    var parseState: Phase
    var invalid: bool

    ghost var stream: string
    ghost var base: nat
    ghost var scan: Scanner
    /** Where the name stood in memory when each attribute was recorded. */
    ghost var homes: seq<nat>

    /** The buffer is a window on the stream. */
    ghost predicate Window()
      reads this
    {
      |data| <= capacity && Shows(data, stream, scan, base, parsePos)
    }

    ghost predicate Memory()
      reads this
    {
      && (capacity > 0 ==> buf > 0) && Whole(capacity)
      && (capacity == 0 || capacity < bufLenMax + BUF_INCREMENT)
      && (name == 0 || name + 2 <= capacity)
    }

    /** Name and attributes are those of the scanner. */
    ghost predicate Element()
      reads this
    {
      && name <= parsePos && scan.name == base + name
      && AllPoint(attribute, scan.attributes, buf, base, name, homes)
    }

    ghost predicate Valid()
      reads this
    {
      && !invalid && Window() && Memory() && parseState == scan.phase
      && scan.name <= base + name && scan.name <= scan.pos
      && (parseState != ElementStart ==> Element() && starttls == scan.starttls)
      && (parseState == ArgumentName ==>
            && scan.argument == base + argument && name <= argument <= parsePos
            && Before(scan.zeros, scan.argument))
      && (parseState == QuotedValue ==> quote == scan.quote)
    }

    constructor (max: nat)
      ensures Valid() && stream == [] && scan == NEW_SCANNER && bufLenMax == max && Exhausted() && Brimful()
      ensures capacity == 0
    {
      bufLenMax := max;
      buf, capacity, data, parsePos, name, argument, attribute := 0, 0, [], 0, 0, 0, [];
      quote, starttls, parseState, invalid := '"', false, ElementStart, false;
      stream, base, scan, homes := [], 0, NEW_SCANNER, [];
    }

    /** The state in which a call leaves the object that finds no element. */
    ghost predicate Exhausted()
      reads this
    {
      parseState == ElementStart ==> |data| <= parsePos + 2
    }

    /** The name is where the scanner says, although there may be no element under way. */
    ghost predicate Fresh()
      reads this
    {
      scan.name == base + name
    }

    /** There is no room in the buffer, and what it starts with is not forgotten. */
    ghost predicate Brimful()
      reads this
    {
      |data| == capacity && Fresh()
    }

    /** Moves everything from the name on to dst, where the buffer is from now on. All pointers
        are moved, null pointers too. */
    method MoveData(dst: nat)
      requires Valid() && name <= parsePos && (capacity > 0 ==> dst > 0)
      modifies this`buf, this`data, this`parsePos, this`name, this`argument, this`attribute, this`base
      ensures Valid() && name == 0 && |data| == old(|data|) - old(name) && buf == dst && base == old(base) + old(name)
    {
      var diff := dst - (buf + name);
      Carried(dst);
      data, attribute := data[name..], Shifted(attribute, diff);
      parsePos, argument, base, name, buf := parsePos - name, argument - name, base + name, 0, dst;
    }

    lemma Carried(dst: nat)
      requires Valid() && name <= parsePos
      ensures Shows(data[name..], stream, scan, base + name, parsePos - name)
      ensures parseState != ElementStart ==>
                AllPoint(Shifted(attribute, dst - (buf + name)), scan.attributes, dst, base + name, 0, homes)
    {
      WindowMoved(data, stream, scan, base, parsePos, name);
      if parseState != ElementStart {
        EntriesMoved(attribute, scan.attributes, buf, base, name, homes, dst);
      }
    }

    /** Where the name stands in memory. */
    ghost function NameAddress(): nat
      reads this
    {
      buf + name
    }

    /** Giving up is what awaits the parser if more is there to be read at once. */
    ghost predicate Overfull(more: string)
      requires Valid() && Brimful()
      reads this
    {
      Overflows(stream + more, scan, base, |stream|, bufLenMax)
    }

    /** Makes room for more input, if the limit allows. */
    method MakeRoom() returns (ok: bool)
      requires Valid() && Exhausted()
      modifies this`buf, this`capacity, this`data, this`parsePos, this`name, this`argument, this`attribute, this`base
      ensures Valid() && (ok ==> |data| < capacity)
      ensures !ok <==> old(|data| == capacity && name <= 1 && capacity >= bufLenMax)
      ensures ok && old(|data| == capacity) ==> base == old(base + name) && name == 0
      ensures ok && old(|data| == capacity) ==> capacity == old(capacity) + if old(name) <= 1 then BUF_INCREMENT else 0
      ensures ok && old(|data| == capacity) && old(capacity) > 0 ==> NameAddress() != old(NameAddress())
    {
      ok := true;
      if |data| == capacity {
        if name > 1 {
          MoveData(buf);
        } else if capacity >= bufLenMax {
          ok := false;
        } else {
          Grow();
        }
      } else if parseState == ElementStart && parsePos == |data| {
        data, parsePos, base := [], 0, |stream|;
      }
    }

    method Grow()
      requires Valid() && name <= parsePos && capacity < bufLenMax
      modifies this`buf, this`capacity, this`data, this`parsePos, this`name, this`argument, this`attribute, this`base
      ensures Valid() && |data| < capacity == old(capacity) + BUF_INCREMENT && base == old(base + name) && name == 0
      ensures old(capacity) > 0 ==> NameAddress() != old(NameAddress())
    {
      var newBuf := Allocate(buf, buf + capacity, capacity + BUF_INCREMENT);
      MoveData(newBuf);
      WholeGrows(capacity);
      capacity := capacity + BUF_INCREMENT;
    }

    /** Takes as much of the text on offer as there is room for. The parser gives up when the
        buffer is full, must not grow, and the last element starts it; the text received from
        there on then has the length of the limit, though the element may long be over. */
    method Read(incoming: string) returns (n: nat)
      requires Valid() && Exhausted()
      modifies this
      ensures n <= |incoming| && scan == old(scan) && homes == old(homes)
      ensures !invalid ==> Valid() && stream == old(stream) + incoming[..n]
      ensures !invalid && incoming != [] ==> n > 0
      ensures invalid ==> Pending(old(stream), old(scan)) >= bufLenMax
      ensures invalid <==> old(|data| == capacity && name <= 1 && capacity >= bufLenMax)
      ensures !invalid && old(|data| == capacity) ==> base == old(base + name) && name == 0
      ensures !invalid && old(|data| == capacity) ==>
                capacity == old(capacity) + if old(name) <= 1 then BUF_INCREMENT else 0
      ensures !invalid && old(|data| == capacity) && old(capacity) > 0 ==> NameAddress() != old(NameAddress())
      ensures !invalid && n < |incoming| ==> |data| == capacity
    {
      var ok := MakeRoom();
      if !ok {
        invalid := true;
        return 0;
      }
      n := if |incoming| <= capacity - |data| then |incoming| else capacity - |data|;
      var taken := incoming[..n];
      WindowGrown(data, stream, scan, base, parsePos, taken);
      data := data + taken;
      stream := stream + taken;
    }

    // ---- Parsing ----

    /** Ends a string here. */
    method Clobber()
      requires Window() && parsePos < |data|
      modifies this`data, this`parsePos, this`scan
      ensures Window() && parsePos == old(parsePos) + 1 && |data| == old(|data|)
      ensures scan == old(scan).(pos := old(scan).pos + 1, zeros := old(scan).zeros + {old(scan).pos})
    {
      OverlayClobbered(stream, scan.zeros, base, scan.pos);
      data := data[parsePos := NUL];
      parsePos := parsePos + 1;
      scan := scan.(pos := scan.pos + 1, zeros := scan.zeros + {scan.pos});
    }

    /** Goes on to the next character. */
    method Advance()
      requires Window() && parsePos < |data|
      modifies this`parsePos, this`scan
      ensures Window() && parsePos == old(parsePos) + 1
      ensures scan == old(scan).(pos := old(scan).pos + 1)
    {
      parsePos := parsePos + 1;
      scan := scan.(pos := scan.pos + 1);
    }

    /** What is not read yet is as it came. */
    lemma Unread(i: nat)
      requires Window() && parsePos <= i < |data|
      ensures data[i] == stream[base + i]
    {
      OverlayUnread(stream, scan.zeros, base, base + i);
    }

    /** The scan is at the element with that name still and has at most recorded more
        attributes, or is past it. */
    ghost predicate Goes(name: nat, homes: seq<nat>)
      reads this
    {
      name <= scan.name && (name == scan.name ==> homes <= this.homes)
    }

    /** Goes past a character between elements. */
    method PassOver()
      requires Valid() && parsePos < |data| && parseState == ElementStart
      modifies this`parsePos, this`scan
      ensures Valid() && parsePos == old(parsePos) + 1 && scan == old(scan).(pos := old(scan).pos + 1)
    {
      Advance();
    }

    method StepStart() returns (waits: bool)
      requires Valid() && parsePos < |data| && parseState == ElementStart
      modifies this`parsePos, this`name, this`attribute, this`starttls, this`parseState, this`scan, this`homes
      ensures Valid() && Goes(old(scan).name, old(homes)) && (old(Fresh()) ==> Fresh())
      ensures if waits then StartStep(stream, old(scan)) == Wait && scan == old(scan) && Exhausted()
              else StartStep(stream, old(scan)) == Move(scan, false)
    {
      waits := false;
      Unread(parsePos);
      if data[parsePos] != '<' {
        PassOver();
      } else if parsePos + 2 >= |data| {
        waits := true;
      } else {
        StartName();
      }
    }

    /** Goes past a '<', behind which a name may start. */
    method StartName()
      requires Valid() && parsePos + 2 < |data| && parseState == ElementStart && data[parsePos] == '<'
      modifies this`parsePos, this`name, this`attribute, this`starttls, this`parseState, this`scan, this`homes
      ensures Valid() && Fresh() && old(scan).name < scan.name
      ensures StartStep(stream, old(scan)) == Move(scan, false)
    {
      Unread(parsePos);
      Unread(parsePos + 1);
      PassOver();
      MarkName();
      if IsAlpha(data[name]) {
        OpenElement();
      }
    }

    /** A name may start here. */
    method MarkName()
      requires Valid() && parsePos + 2 <= |data| && parseState == ElementStart
      modifies this`name, this`scan
      ensures Valid() && Fresh() && name == parsePos && scan == old(scan).(name := old(scan).pos)
    {
      name := parsePos;
      scan := scan.(name := scan.pos);
    }

    /** An element without attributes so far. */
    method OpenElement()
      requires Valid() && Fresh() && name == parsePos && parseState == ElementStart
      modifies this`attribute, this`starttls, this`parseState, this`scan, this`homes
      ensures Valid() && Fresh()
      ensures scan == old(scan).(attributes := [], starttls := false, phase := ElementEnd)
    {
      attribute, starttls, parseState, homes := [], false, ElementEnd, [];
      scan := scan.(attributes := [], starttls := false, phase := ElementEnd);
    }

    /** Hands over to another phase. */
    method Enter(phase: Phase)
      requires Valid() && parseState != ElementStart && phase != ArgumentName && phase != QuotedValue
      modifies this`parseState, this`scan
      ensures Valid() && Element() && scan == old(scan).(phase := phase)
    {
      parseState := phase;
      scan := scan.(phase := phase);
    }

    method ClobberHere()
      requires Valid() && parsePos < |data| && parseState != ElementStart && parseState != ArgumentName
      modifies this`data, this`parsePos, this`scan
      ensures Valid() && Element() && parsePos == old(parsePos) + 1 && |data| == old(|data|)
      ensures scan == old(scan).(pos := old(scan).pos + 1, zeros := old(scan).zeros + {old(scan).pos})
    {
      Clobber();
    }

    method AdvanceHere()
      requires Valid() && parsePos < |data| && parseState != ElementStart
      modifies this`parsePos, this`scan
      ensures Valid() && Element() && parsePos == old(parsePos) + 1
      ensures scan == old(scan).(pos := old(scan).pos + 1)
    {
      Advance();
    }

    method ClobberAndSkip()
      requires Valid() && parsePos + 1 < |data| && parseState == ElementEnd
      modifies this`data, this`parsePos, this`scan
      ensures Valid() && Element() && parsePos == old(parsePos) + 2 && |data| == old(|data|)
      ensures scan == old(scan).(pos := old(scan).pos + 2, zeros := old(scan).zeros + {old(scan).pos})
    {
      ClobberHere();
      AdvanceHere();
    }

    method FinishElement() returns (found: bool)
      requires Valid() && parseState == ElementEnd
      modifies this`parseState, this`scan
      ensures Valid() && Element() && Finish(old(scan)) == Move(scan, found)
    {
      found := !starttls;
      if starttls {
        Enter(TlsEnd);
      } else {
        Enter(ElementStart);
      }
    }

    method StepEnd() returns (waits: bool, found: bool)
      requires Valid() && parsePos < |data| && parseState == ElementEnd
      modifies this`data, this`parsePos, this`parseState, this`argument, this`scan
      ensures Valid() && (found ==> Element())
      ensures scan.name == old(scan.name)
      ensures if waits then EndStep(stream, old(scan)) == Wait && scan == old(scan)
              else EndStep(stream, old(scan)) == Move(scan, found)
    {
      waits, found := false, false;
      var c := data[parsePos];
      Unread(parsePos);
      if c == ' ' {
        ClobberHere();
      } else if c == '/' {
        if parsePos + 1 >= |data| {
          waits := true;
        } else {
          found := StepSlash();
        }
      } else {
        found := StepElse();
      }
    }

    method StepElse() returns (found: bool)
      requires Valid() && parsePos < |data| && parseState == ElementEnd
      requires stream[scan.pos] != ' ' && stream[scan.pos] != '/'
      modifies this`data, this`parsePos, this`parseState, this`argument, this`scan
      ensures Valid() && (found ==> Element())
      ensures EndStep(stream, old(scan)) == Move(scan, found) && scan.name == old(scan.name)
    {
      found := false;
      var c := data[parsePos];
      Unread(parsePos);
      if c == '>' {
        ClobberHere();
        found := FinishElement();
      } else if !IsAlpha(c) {
        Enter(ElementStart);
      } else {
        StartArgument();
      }
    }

    method StepSlash() returns (found: bool)
      requires Valid() && parsePos + 1 < |data| && parseState == ElementEnd && stream[scan.pos] == '/'
      modifies this`data, this`parsePos, this`parseState, this`scan
      ensures Valid() && (found ==> Element())
      ensures EndStep(stream, old(scan)) == Move(scan, found) && scan.name == old(scan.name)
    {
      SlashStep(stream, scan);
      var c := SkipSlash();
      found := EndOrGiveUp(c == '>');
    }

    /** Goes past a '/' and what follows it. */
    method SkipSlash() returns (c: char)
      requires Valid() && parsePos + 1 < |data| && parseState == ElementEnd
      modifies this`data, this`parsePos, this`scan
      ensures Valid() && Element() && c == stream[old(scan).pos + 1]
      ensures scan == old(scan).(pos := old(scan).pos + 2, zeros := old(scan).zeros + {old(scan).pos})
    {
      Unread(parsePos + 1);
      c := data[parsePos + 1];
      ClobberAndSkip();
    }

    method EndOrGiveUp(ends: bool) returns (found: bool)
      requires Valid() && Element() && parseState == ElementEnd
      modifies this`parseState, this`scan
      ensures Valid() && (found ==> Element()) && scan.name == old(scan.name)
      ensures Move(scan, found)
           == if ends then Finish(old(scan)) else Move(old(scan).(phase := ElementStart), false)
    {
      found := false;
      if ends {
        found := FinishElement();
      } else {
        Enter(ElementStart);
      }
    }

    method StartArgument()
      requires Valid() && parsePos < |data| && parseState == ElementEnd
      modifies this`parsePos, this`argument, this`parseState, this`scan
      ensures Valid()
      ensures scan == old(scan).(argument := old(scan).pos, pos := old(scan).pos + 1, phase := ArgumentName)
    {
      argument := parsePos;
      AdvanceHere();
      parseState := ArgumentName;
      scan := scan.(argument := base + argument, phase := ArgumentName);
    }

    /** Records the attribute whose name has been read, and leaves its name behind. */
    method Push(value: Option<nat>)
      requires Valid() && parseState == ArgumentName && capacity > 0
      requires value.Some? ==> name <= value.value
      modifies this`attribute, this`parseState, this`scan, this`homes
      ensures Valid() && Element() && starttls == scan.starttls && homes == old(homes) + [NameAddress()]
      ensures scan == old(scan).(phase := ElementEnd, attributes := old(scan).attributes
                + [Attribute(scan.argument, if value.None? then None else Some(base + value.value))])
    {
      attribute := attribute + [Entry(buf + argument, if value.None? then 0 else buf + value.value)];
      parseState := ElementEnd;
      homes := homes + [buf + name];
      scan := scan.(phase := ElementEnd, attributes := scan.attributes
                + [Attribute(scan.argument, if value.None? then None else Some(base + value.value))]);
    }

    method StepName() returns (waits: bool)
      requires Valid() && parsePos < |data| && parseState == ArgumentName
      modifies this`data, this`parsePos, this`parseState, this`attribute, this`starttls, this`quote, this`scan,
               this`homes
      ensures Valid() && scan.name == old(scan.name) && old(homes) <= homes
      ensures if waits then NameStep(stream, old(scan)) == Wait && scan == old(scan)
              else NameStep(stream, old(scan)) == Move(scan, false)
    {
      waits := false;
      var c := data[parsePos];
      Unread(parsePos);
      if !EndsName(c) {
        AdvanceHere();
      } else if c != '=' {
        EndFlag();
      } else {
        waits := StepEquals();
      }
    }

    method StepEquals() returns (waits: bool)
      requires Valid() && parsePos < |data| && parseState == ArgumentName && stream[scan.pos] == '='
      modifies this`data, this`parsePos, this`parseState, this`attribute, this`quote, this`scan, this`homes
      ensures Valid() && scan.name == old(scan.name) && old(homes) <= homes
      ensures if waits then NameStep(stream, old(scan)) == Wait && scan == old(scan)
              else NameStep(stream, old(scan)) == Move(scan, false)
    {
      EqualsStep(stream, scan);
      waits := parsePos + 1 >= |data|;
      if !waits {
        waits := BeginValue();
      }
    }

    method BeginValue() returns (waits: bool)
      requires Valid() && parsePos + 1 < |data| && parseState == ArgumentName
      modifies this`data, this`parsePos, this`parseState, this`attribute, this`quote, this`scan, this`homes
      ensures Valid() && old(homes) <= homes
      ensures var quote := stream[old(scan).pos + 1];
              if !IsQuote(quote) then !waits && scan == NamedAt(old(scan), 1, ArgumentValue, old(scan).quote)
              else if waits then scan == old(scan) && |stream| <= scan.pos + 2
              else scan == NamedAt(old(scan), 2, QuotedValue, quote) && |stream| > old(scan).pos + 2
    {
      Unread(parsePos + 1);
      var quoted := IsQuote(data[parsePos + 1]);
      waits := quoted && parsePos + 2 >= |data|;
      if !quoted {
        EndName(1, ArgumentValue);
      } else if !waits {
        BeginQuoted();
      }
    }

    method BeginQuoted()
      requires Valid() && parsePos + 2 < |data| && parseState == ArgumentName
      modifies this`data, this`parsePos, this`parseState, this`attribute, this`quote, this`scan, this`homes
      ensures Valid() && old(homes) <= homes
      ensures scan == NamedAt(old(scan), 2, QuotedValue, stream[old(scan).pos + 1])
    {
      Unread(parsePos + 1);
      quote := data[parsePos + 1];
      EndName(2, QuotedValue);
    }

    /** An attribute without a value; the first of them is the tag. */
    method EndFlag()
      requires Valid() && parsePos < |data| && parseState == ArgumentName
      requires EndsName(stream[scan.pos]) && stream[scan.pos] != '='
      modifies this`parseState, this`attribute, this`starttls, this`scan, this`homes
      ensures Valid() && NameStep(stream, old(scan)) == Move(scan, false)
      ensures scan.name == old(scan.name) && old(homes) <= homes
    {
      var startTls := starttls;
      if argument == name {
        startTls := IsStartTls(data[name..parsePos]);
        TagRead();
      }
      Push(None);
      starttls := startTls;
      scan := scan.(starttls := startTls);
    }

    /** The tag in the buffer is the one in the stream. */
    lemma TagRead()
      requires Valid() && parseState == ArgumentName && argument == name
      ensures data[name..parsePos] == stream[scan.name..scan.pos]
    {
      OverlaySlice(stream, scan.zeros, base, scan.name, scan.pos);
    }

    /** The '=' ends the name; the value starts skip characters further on. */
    method EndName(skip: nat, phase: Phase)
      requires Valid() && parseState == ArgumentName && 1 <= skip <= 2
      requires parsePos + skip < |data| && (phase == ArgumentValue || phase == QuotedValue)
      modifies this`data, this`parsePos, this`parseState, this`attribute, this`scan, this`homes
      ensures Valid() && old(homes) <= homes
      ensures scan == NamedAt(old(scan), skip, phase, if phase == QuotedValue then quote else old(scan).quote)
    {
      Push(Some(parsePos + skip));
      ClobberAndSkip();
      parseState := phase;
      scan := scan.(phase := phase, quote := if phase == QuotedValue then quote else scan.quote);
    }

    method StepQuoted() returns (waits: bool)
      requires Valid() && parsePos < |data| && parseState == QuotedValue
      modifies this`data, this`parsePos, this`parseState, this`scan
      ensures Valid() && scan.name == old(scan.name)
      ensures if waits then Step(stream, old(scan)) == Wait && scan == old(scan)
              else Step(stream, old(scan)) == Move(scan, false)
    {
      waits := false;
      Unread(parsePos);
      if data[parsePos] != quote {
        AdvanceHere();
      } else if parsePos + 1 >= |data| {
        waits := true;
      } else {
        ClobberHere();
        Enter(Tail);
      }
    }

    /** Skips what is left of a value, with or without quotes. */
    method StepValue()
      requires Valid() && parsePos < |data| && (parseState == Tail || parseState == ArgumentValue)
      modifies this`parsePos, this`parseState, this`scan
      ensures Valid() && Step(stream, old(scan)) == Move(scan, false) && scan.name == old(scan.name)
    {
      Unread(parsePos);
      if data[parsePos] == ' ' || data[parsePos] == '>' {
        Enter(ElementEnd);
      } else {
        AdvanceHere();
        if parseState == Tail && parsePos == |data| {
          Enter(ElementEnd);
        }
      }
    }

    method StepTls() returns (waits: bool, found: bool)
      requires Valid() && parsePos < |data| && parseState == TlsEnd
      modifies this`parsePos, this`parseState, this`scan
      ensures Valid() && (found ==> Element()) && scan.name == old(scan.name)
      ensures if waits then Step(stream, old(scan)) == Wait && scan == old(scan)
              else Step(stream, old(scan)) == Move(scan, found)
    {
      found := false;
      Unread(parsePos);
      waits := data[parsePos] == '\r' && parsePos + 1 == |data|;
      if !waits {
        if data[parsePos] == '\r' {
          AdvanceHere();
        }
        found := EndLine();
      }
    }

    method EndLine() returns (found: bool)
      requires Valid() && parsePos < |data| && parseState == TlsEnd
      modifies this`parsePos, this`parseState, this`scan
      ensures Valid() && Element() && found == (stream[old(scan).pos] == '\n')
      ensures scan == old(scan).(pos := if found then old(scan).pos + 1 else old(scan).pos, phase := ElementStart)
    {
      Unread(parsePos);
      found := data[parsePos] == '\n';
      if found {
        AdvanceHere();
      }
      Enter(ElementStart);
    }

    /** Goes on to the next whole element, if there is one. */
    method Next() returns (found: bool)
      requires Valid()
      modifies this`data, this`parsePos, this`name, this`parseState, this`attribute, this`starttls, this`quote,
               this`argument, this`scan, this`homes
      ensures Valid() && (scan, found) == RunOnce(stream, old(scan))
      ensures if found then Element() else Exhausted()
      ensures |data| == old(|data|) && Goes(old(scan).name, old(homes)) && (old(Fresh()) ==> Fresh())
    {
      while parsePos < |data|
        invariant Valid() && RunOnce(stream, scan) == RunOnce(stream, old(scan))
        invariant |data| == old(|data|) && Goes(old(scan).name, old(homes)) && (old(Fresh()) ==> Fresh())
        decreases |stream| - scan.pos, Rank(scan.phase)
      {
        ghost var before := scan;
        var waits;
        waits, found := DoStep();
        if waits {
          return false;
        }
        if found {
          return;
        }
        StepAdvances(stream, before);
      }
      found := false;
    }

    method DoStep() returns (waits: bool, found: bool)
      requires Valid() && parsePos < |data|
      modifies this`data, this`parsePos, this`name, this`parseState, this`attribute, this`starttls, this`quote,
               this`argument, this`scan, this`homes
      ensures Valid() && (found ==> Element())
      ensures Goes(old(scan).name, old(homes)) && (old(Fresh()) ==> Fresh())
      ensures if waits then Step(stream, old(scan)) == Wait && scan == old(scan) && Exhausted()
              else Step(stream, old(scan)) == Move(scan, found)
    {
      waits, found := false, false;
      match parseState {
        case ElementStart => waits := StepStart();
        case ElementEnd => waits, found := StepEnd();
        case ArgumentName => waits := StepName();
        case TlsEnd => waits, found := StepTls();
        case QuotedValue => waits := StepQuoted();
        case _ => StepValue();
      }
    }

    // ---- Reading an element ----

    /** The string at an offset, up to the NUL that ends it. */
    method ReadString(offset: nat) returns (w: string)
      requires Window()
      ensures w == CString(stream, scan.zeros, base + offset)
    {
      w := [];
      var i := offset;
      while i < |data| && data[i] != NUL
        invariant offset <= i
        invariant w + CString(stream, scan.zeros, base + i) == CString(stream, scan.zeros, base + offset)
      {
        CStringStep(stream, scan.zeros, base + i);
        Reassociate(w, [data[i]], CString(stream, scan.zeros, base + i + 1));
        w := w + [data[i]];
        i := i + 1;
      }
    }

    /** The attribute of that name is a flag, and the name is not where it was in memory when
        the flag was recorded. */
    ghost predicate Lost(key: string)
      reads this
    {
      var i := IndexOf(stream, scan.zeros, scan.attributes, key);
      && i < |homes| && i < |scan.attributes|
      && scan.attributes[i].value.None? && homes[i] != NameAddress()
    }

    /** find: whether there is such an attribute, and the pointer to its value. The pointer is
        null if and only if the attribute is a flag and is not lost. */
    method FindAttribute(key: string) returns (found: bool, value: int)
      requires Valid() && Element() && capacity > 0
      ensures var a := Find(stream, scan.zeros, scan.attributes, key);
              && found == a.Some?
              && (found ==> (value == 0 <==> a.value.value.None? && !Lost(key)))
              && (found && a.value.value.Some? ==> value == buf + (a.value.value.value - base))
              && (found && Lost(key) ==> value < buf)
    {
      found, value := false, 0;
      var i := 0;
      while i < |attribute|
        invariant i <= |attribute| && !found
        invariant IndexOf(stream, scan.zeros, scan.attributes, key)
               == i + IndexOf(stream, scan.zeros, scan.attributes[i..], key)
      {
        assert PointsTo(attribute[i], scan.attributes[i], buf, base, name, homes[i]);
        var w := ReadString(attribute[i].first - buf);
        if SameIgnoringCase(key, w) {
          return true, attribute[i].second;
        }
        i := i + 1;
      }
    }

    /** getString: what the text says if and only if the pointer is not lost. */
    method GetValue(key: string) returns (r: Reading)
      requires Valid() && Element() && capacity > 0
      ensures r == if Lost(key) then Stray else ReadingOf(GetString(stream, scan, key))
      ensures Answers(r, stream, scan, key)
    {
      r := Absent;
      var found, value := FindAttribute(key);
      if found && value != 0 {
        if value < buf {
          r := Stray;
        } else {
          var w := ReadString(value - buf);
          w := Decode(w);
          r := Text(w);
        }
      }
    }

    // ---- The session's loop ----

    /** Asks the element at hand for its tag and for the values of some keys. */
    method Ask(keys: seq<string>) returns (h: Handled)
      requires Valid() && Element() && capacity > 0
      ensures Told(h, stream, scan, keys)
    {
      var tag := ReadString(name);
      var values: seq<Reading> := [];
      for j := 0 to |keys|
        invariant |values| == j
        invariant forall l :: 0 <= l < j ==> Answers(values[l], stream, scan, keys[l])
      {
        var r := GetValue(keys[j]);
        values := values + [r];
      }
      h := Handled(tag, values);
    }

    /** Handles every element in the buffer while it is at hand. */
    method HandleAll(keys: seq<string>) returns (hs: seq<Handled>, ghost found: seq<Scanner>)
      requires Valid()
      modifies this`data, this`parsePos, this`name, this`parseState, this`attribute, this`starttls, this`quote,
               this`argument, this`scan, this`homes
      ensures Valid() && Exhausted() && Drain(stream, old(scan)) == Drained(scan, found)
      ensures AllTold(hs, stream, found, keys)
      ensures |data| == old(|data|) && Goes(old(scan).name, old(homes)) && (old(Fresh()) ==> Fresh())
    {
      hs, found := [], [];
      ghost var start := scan;
      FirstFound(stream, start);
      var more := Next();
      while more
        invariant Valid() && (if more then Element() && capacity > 0 else Exhausted())
        invariant AllTold(hs, stream, found, keys) && SoFar(stream, start, found, scan, more)
        invariant |data| == old(|data|) && Goes(old(scan).name, old(homes)) && (old(Fresh()) ==> Fresh())
        decreases |stream| - scan.pos, more
      {
        ghost var at := scan;
        var h := Ask(keys);
        more := GoOn(start, found);
        hs, found := hs + [h], found + [at];
      }
    }

    /** Goes on from the element just found. */
    method GoOn(ghost start: Scanner, ghost found: seq<Scanner>) returns (more: bool)
      requires Valid() && Element() && SoFar(stream, start, found, scan, true)
      modifies this`data, this`parsePos, this`name, this`parseState, this`attribute, this`starttls, this`quote,
               this`argument, this`scan, this`homes
      ensures Valid() && (if more then Element() && capacity > 0 else Exhausted())
      ensures SoFar(stream, start, found + [old(scan)], scan, more)
      ensures old(scan).pos <= scan.pos && (more ==> old(scan).pos < scan.pos)
      ensures |data| == old(|data|) && Goes(old(scan).name, old(homes)) && (old(Fresh()) ==> Fresh())
    {
      NextFound(stream, start, found, scan);
      RunOnceAdvances(stream, scan);
      more := Next();
    }

    /** Takes in as much of the input as there is room for, and handles what it completes. */
    method ServeSome(incoming: string, keys: seq<string>)
      returns (n: nat, hs: seq<Handled>, ghost found: seq<Scanner>)
      requires Valid() && Exhausted() && incoming != []
      modifies this
      ensures !invalid ==> 0 < n <= |incoming| && Valid() && Exhausted() && AllToldInTime(hs, stream, found, keys)
      ensures !invalid ==> stream == old(stream) + incoming[..n] && Drain(stream, old(scan)) == Drained(scan, found)
      ensures invalid ==> Pending(old(stream), old(scan)) >= bufLenMax
      ensures old(Brimful()) ==> (invalid <==> old(scan.name <= base + 1 && capacity >= bufLenMax))
      ensures !invalid && old(Brimful()) ==> base == old(scan.name) && |stream| <= base + capacity
      ensures !invalid && old(Brimful()) ==>
                capacity == Size(old(scan).name, old(base), old(capacity))
      ensures !invalid && old(Brimful()) && n < |incoming| ==> Brimful()
    {
      hs, found := [], [];
      n := Read(incoming);
      if !invalid {
        ghost var s := scan;
        hs, found := HandleAll(keys);
        DrainFound(stream, s);
        ToldNow(hs, stream, found, keys);
      }
    }

    /** Takes in all of the input, piece by piece. */
    method Serve(incoming: string, keys: seq<string>)
      returns (hs: seq<Handled>, ghost chunks: seq<string>, ghost found: seq<Scanner>)
      requires Valid() && Exhausted()
      modifies this
      ensures !invalid ==> Valid() && Exhausted() && Concat(chunks) == incoming && stream == old(stream) + incoming
      ensures !invalid ==> Feed(old(scan), old(stream), chunks) == Drained(scan, found)
      ensures !invalid ==> AllToldInTime(hs, stream, found, keys)
      ensures old(scan).pos <= |old(stream)|
      ensures invalid ==> GaveUp(old(scan), old(stream), chunks, incoming, bufLenMax)
      ensures old(Brimful()) ==> (invalid <==> old(Overfull(incoming)))
    {
      hs, chunks, found := [], [], [];
      var rest := incoming;
      ghost var s0, t0 := scan, stream;
      ghost var full := Brimful();
      ghost var over := full && Overfull(incoming);
      assert t0 + Concat(chunks) == t0;
      while rest != []
        invariant Valid() && Exhausted() && Concat(chunks) + rest == incoming && AllToldInTime(hs, stream, found, keys)
        invariant stream == t0 + Concat(chunks) && Feed(s0, t0, chunks) == Drained(scan, found)
        invariant full ==> if rest == [] then !over else Brimful() && Overfull(rest) == over
        decreases |rest|
      {
        var n, more;
        ghost var fs;
        ghost var t, s, from, size := stream, scan, base, capacity;
        n, more, fs := ServeSome(rest, keys);
        if invalid {
          return;
        }
        if full {
          assert (t + rest)[..|stream|] == stream && stream + rest[n..] == t + rest;
          OverflowStep(t + rest, s, from, |t|, bufLenMax, scan, |stream|);
        }
        Extended(s0, t0, chunks, rest, n, incoming);
        AllToldSoFar(hs, found, t, rest[..n], more, fs, keys);
        hs, found, chunks, rest := hs + more, found + fs, chunks + [rest[..n]], rest[n..];
      }
      assert Concat(chunks) + [] == Concat(chunks);
    }
  }

  /** Taking n more characters in as one chunk. */
  lemma Extended(s: Scanner, t: string, chunks: seq<string>, rest: string, n: nat, incoming: string)
    requires s.pos <= |t| && n <= |rest| && Concat(chunks) + rest == incoming
    ensures var d, all := Feed(s, t, chunks), chunks + [rest[..n]];
            && Concat(all) + rest[n..] == incoming && t + Concat(all) == t + Concat(chunks) + rest[..n]
            && d.last.pos <= |t + Concat(chunks)|
            && var e := Drain(t + Concat(chunks) + rest[..n], d.last);
               Feed(s, t, all) == Drained(e.last, d.found + e.found)
  {
    FeedSnoc(s, t, chunks, rest[..n]);
    ConcatSnoc(chunks, rest[..n]);
    Reassociate(t, Concat(chunks), rest[..n]);
    Reassociate(Concat(chunks), rest[..n], rest[n..]);
    assert rest[..n] + rest[n..] == rest;
  }
}
