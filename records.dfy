/**
 * The client's record splitter for the event stream
 * (components/codex-drawer.tsx, the buffer handling in handleRun): the text
 * received so far is split on the blank line "\n\n", every piece but the last
 * is a complete record, and the last piece is kept as the buffer.
 */
module Records {
  import opened Text

  const Sep := "\n\n"

  /** `s.split("\n\n")`. */
  function Split(s: string): (r: seq<string>)
    ensures |r| >= 1
    decreases |s|
  {
    if |s| < 2 then [s]
    else if s[0] == '\n' && s[1] == '\n' then [""] + Split(s[2..])
    else
      var rest := Split(s[1..]);
      [[s[0]] + rest[0]] + rest[1..]
  }

  /** `parts.join("\n\n")`. */
  function Join(parts: seq<string>): string
    requires |parts| >= 1
  {
    if |parts| == 1 then parts[0] else parts[0] + Sep + Join(parts[1..])
  }

  /** Records, each followed by the separator. */
  function Framed(records: seq<string>): string {
    if records == [] then "" else records[0] + Sep + Framed(records[1..])
  }

  /** What split leaves as a complete piece: no separator inside, no trailing newline. */
  predicate IsRecord(r: string) {
    !HasBlankLine(r) && (r == [] || r[|r| - 1] != '\n')
  }

  predicate AllRecords(rs: seq<string>) {
    forall i :: 0 <= i < |rs| ==> IsRecord(rs[i])
  }

  function Last(parts: seq<string>): string
    requires |parts| >= 1
  {
    parts[|parts| - 1]
  }

  function Init(parts: seq<string>): seq<string>
    requires |parts| >= 1
  {
    parts[..|parts| - 1]
  }

  /** One chunk arriving: the new complete records and the new buffer. */
  function Feed(buffer: string, text: string): (string, seq<string>, string) {
    var parts := Split(buffer + text);
    (buffer + text, Init(parts), Last(parts))
  }

  // ----- properties of the splitter -----

  lemma FramedJoin(records: seq<string>, tail: string)
    ensures Framed(records) + tail == Join(records + [tail])
  {
    if records != [] {
      FramedJoin(records[1..], tail);
      assert (records + [tail])[1..] == records[1..] + [tail];
    }
  }

  lemma FramedAppend(a: seq<string>, b: seq<string>)
    ensures Framed(a + b) == Framed(a) + Framed(b)
  {
    if a != [] {
      FramedAppend(a[1..], b);
      assert (a + b)[0] == a[0] && (a + b)[1..] == a[1..] + b;
      calc {
        Framed(a + b);
        a[0] + Sep + Framed(a[1..] + b);
        a[0] + Sep + (Framed(a[1..]) + Framed(b));
        (a[0] + Sep + Framed(a[1..])) + Framed(b);
      }
    } else {
      assert a + b == b;
    }
  }

  lemma SplitStep(s: string)
    requires |s| >= 2 && !(s[0] == '\n' && s[1] == '\n')
    ensures Split(s) == [[s[0]] + Split(s[1..])[0]] + Split(s[1..])[1..]
  {
  }

  lemma JoinCons(x: string, parts: seq<string>)
    requires |parts| >= 1
    ensures Join([x] + parts) == x + Sep + Join(parts)
  {
    assert ([x] + parts)[1..] == parts;
  }

  lemma JoinPrepend(c: char, parts: seq<string>)
    requires |parts| >= 1
    ensures Join([[c] + parts[0]] + parts[1..]) == [c] + Join(parts)
  {
    var head := parts[0];
    var rest := parts[1..];
    if |parts| == 1 {
      assert Join([[c] + head]) == [c] + head;
    } else {
      JoinCons([c] + head, rest);
      assert Join(parts) == head + Sep + Join(rest);
      Prepend3(c, head, Join(rest));
    }
  }

  lemma Prepend3(c: char, x: string, y: string)
    ensures [c] + x + Sep + y == [c] + (x + Sep + y)
  {
  }

  /** Joining the pieces gives the text back. */
  lemma {:induction false} SplitJoin(s: string)
    ensures Join(Split(s)) == s
    decreases |s|
  {
    if |s| < 2 {
    } else if s[0] == '\n' && s[1] == '\n' {
      var tail := Split(s[2..]);
      SplitJoin(s[2..]);
      SplitSepStep(s);
      JoinCons("", tail);
      SepHead(s);
    } else {
      var rest := Split(s[1..]);
      SplitJoin(s[1..]);
      SplitStep(s);
      JoinPrepend(s[0], rest);
      CharHead(s);
    }
  }

  lemma SepHead(s: string)
    requires |s| >= 2 && s[0] == '\n' && s[1] == '\n'
    ensures "" + Sep + s[2..] == s
  {
  }

  lemma CharHead(s: string)
    requires s != []
    ensures [s[0]] + s[1..] == s
  {
  }

  lemma NoBlankLineTail(r: string)
    requires r != [] && !HasBlankLine(r)
    ensures !HasBlankLine(r[1..])
  {
    if HasBlankLine(r[1..]) {
      var i :| 0 <= i < |r[1..]| - 1 && BlankLineAt(r[1..], i);
      assert BlankLineAt(r, i + 1);
    }
  }

  lemma NoBlankLineCons(c: char, r: string)
    requires !HasBlankLine(r)
    requires c == '\n' ==> r == [] || r[0] != '\n'
    ensures !HasBlankLine([c] + r)
  {
    var s := [c] + r;
    if HasBlankLine(s) {
      var i :| 0 <= i < |s| - 1 && BlankLineAt(s, i);
      if i > 0 {
        assert BlankLineAt(r, i - 1);
      }
    }
  }

  lemma SplitSepStep(s: string)
    requires |s| >= 2 && s[0] == '\n' && s[1] == '\n'
    ensures Split(s) == [""] + Split(s[2..])
  {
  }

  lemma AllRecordsCons(x: string, xs: seq<string>)
    requires IsRecord(x) && AllRecords(xs)
    ensures AllRecords([x] + xs)
  {
  }

  lemma AllRecordsTail(xs: seq<string>)
    requires xs != [] && AllRecords(xs)
    ensures AllRecords(xs[1..])
  {
  }

  lemma ReplaceHead(first: string, rest: seq<string>)
    requires |rest| > 1
    ensures Init([first] + rest[1..]) == [first] + Init(rest)[1..]
    ensures Last([first] + rest[1..]) == Last(rest)
  {
  }

  /** Every piece but the last is a complete record; no piece holds a separator. */
  lemma {:induction false} SplitPieces(s: string)
    ensures AllRecords(Init(Split(s)))
    ensures !HasBlankLine(Last(Split(s)))
    decreases |s|
  {
    if |s| < 2 {
    } else if s[0] == '\n' && s[1] == '\n' {
      var tail := Split(s[2..]);
      SplitPieces(s[2..]);
      SplitSepStep(s);
      assert Init(Split(s)) == [""] + Init(tail);
      AllRecordsCons("", Init(tail));
      assert Last(Split(s)) == Last(tail);
    } else {
      var rest := Split(s[1..]);
      SplitPieces(s[1..]);
      SplitJoin(s[1..]);
      SplitStep(s);
      var first := [s[0]] + rest[0];
      if |rest| > 1 {
        JoinCons(rest[0], rest[1..]);
        assert rest == [rest[0]] + rest[1..];
        assert s[1..] == rest[0] + Sep + Join(rest[1..]);
        assert IsRecord(rest[0]) by { assert rest[0] == Init(rest)[0]; }
        if rest[0] == [] {
          assert s[1] == s[1..][0];
        } else {
          assert s[1] == rest[0][0];
        }
        NoBlankLineCons(s[0], rest[0]);
        ReplaceHead(first, rest);
        AllRecordsTail(Init(rest));
        AllRecordsCons(first, Init(rest)[1..]);
      } else {
        assert rest[0] == s[1..];
        NoBlankLineCons(s[0], rest[0]);
        assert Split(s) == [first];
      }
    }
  }

  /** A complete record followed by the separator splits off as one piece. */
  lemma {:induction false} SplitAfterRecord(r: string, t: string)
    requires IsRecord(r)
    ensures Split(r + Sep + t) == [r] + Split(t)
    decreases |r|
  {
    var s := r + Sep + t;
    if r == [] {
      assert s == Sep + t && s[2..] == t;
    } else {
      var r' := r[1..];
      NoBlankLineTail(r);
      assert IsRecord(r');
      SplitAfterRecord(r', t);
      assert s[1..] == r' + Sep + t;
      assert !(s[0] == '\n' && s[1] == '\n') by {
        if r' == [] {
          assert r == [r[0]];
        } else {
          assert s[1] == r[1];
          if r[0] == '\n' && r[1] == '\n' { assert BlankLineAt(r, 0); }
        }
      }
      assert r == [r[0]] + r';
    }
  }

  lemma FramedConsAppend(records: seq<string>, t: string)
    requires records != []
    ensures Framed(records) + t == records[0] + Sep + (Framed(records[1..]) + t)
  {
  }

  lemma ConsAppendSeq(xs: seq<string>, u: seq<string>)
    requires xs != []
    ensures [xs[0]] + (xs[1..] + u) == xs + u
  {
    assert xs == [xs[0]] + xs[1..];
  }

  lemma {:induction false} SplitFramed(records: seq<string>, t: string)
    requires AllRecords(records)
    ensures Split(Framed(records) + t) == records + Split(t)
  {
    if records != [] {
      var r0, rs := records[0], records[1..];
      var u := Framed(rs) + t;
      AllRecordsTail(records);
      SplitFramed(rs, t);
      FramedConsAppend(records, t);
      SplitAfterRecord(r0, u);
      assert Split(Framed(records) + t) == [r0] + Split(u);
      ConsAppendSeq(records, Split(t));
    } else {
      assert Framed(records) + t == t;
    }
  }

  lemma SplitWithoutSeparator(b: string)
    requires !HasBlankLine(b)
    ensures Split(b) == [b]
  {
    SplitJoin(b);
    var parts := Split(b);
    if |parts| > 1 {
      JoinCons(parts[0], parts[1..]);
      assert parts == [parts[0]] + parts[1..];
      assert b == parts[0] + Sep + Join(parts[1..]);
      assert BlankLineAt(b, |parts[0]|);
    }
  }

  /**
   * The buffer invariant kept by the consumer: everything received is the
   * complete records, each with its separator, followed by the buffer; the
   * records are what split would give, and the buffer holds no separator.
   */
  predicate BufferInvariant(received: string, records: seq<string>, buffer: string) {
    received == Framed(records) + buffer && AllRecords(records) && !HasBlankLine(buffer)
  }

  /** The invariant determines the records and the buffer: they are the pieces of the whole text. */
  lemma BufferInvariantSplit(received: string, records: seq<string>, buffer: string)
    requires BufferInvariant(received, records, buffer)
    ensures Split(received) == records + [buffer]
  {
    SplitFramed(records, buffer);
    SplitWithoutSeparator(buffer);
  }

  lemma AllRecordsAppend(a: seq<string>, b: seq<string>)
    requires AllRecords(a) && AllRecords(b)
    ensures AllRecords(a + b)
  {
  }

  /** The pieces of one text: complete records, then the rest, which together give the text back. */
  lemma SplitParts(s: string)
    ensures Framed(Init(Split(s))) + Last(Split(s)) == s
    ensures AllRecords(Init(Split(s))) && !HasBlankLine(Last(Split(s)))
  {
    var parts := Split(s);
    SplitPieces(s);
    SplitJoin(s);
    FramedJoin(Init(parts), Last(parts));
    InitLast(parts);
  }

  lemma InitLast(parts: seq<string>)
    requires |parts| >= 1
    ensures Init(parts) + [Last(parts)] == parts
  {
  }

  lemma InvariantExtend(received: string, records: seq<string>, buffer: string, text: string,
                        complete: seq<string>, rest: string)
    requires BufferInvariant(received, records, buffer)
    requires Framed(complete) + rest == buffer + text
    requires AllRecords(complete) && !HasBlankLine(rest)
    ensures BufferInvariant(received + text, records + complete, rest)
  {
    FramedAppend(records, complete);
    AllRecordsAppend(records, complete);
    assert received + text == Framed(records) + (buffer + text);
    assert Framed(records + complete) + rest == Framed(records) + (Framed(complete) + rest);
  }

  /** Each chunk keeps the buffer invariant. */
  lemma FeedKeepsInvariant(received: string, records: seq<string>, buffer: string, text: string)
    requires BufferInvariant(received, records, buffer)
    ensures BufferInvariant(received + text, records + Feed(buffer, text).1, Feed(buffer, text).2)
  {
    SplitParts(buffer + text);
    InvariantExtend(received, records, buffer, text, Feed(buffer, text).1, Feed(buffer, text).2);
  }

  function Concat(chunks: seq<string>): string {
    if chunks == [] then "" else chunks[0] + Concat(chunks[1..])
  }

  /** The consumer run over a whole sequence of chunks: all complete records in order, and the buffer. */
  function FeedAll(buffer: string, chunks: seq<string>): (seq<string>, string)
    decreases |chunks|
  {
    if chunks == [] then ([], buffer)
    else
      var (_, complete, next) := Feed(buffer, chunks[0]);
      var (more, last) := FeedAll(next, chunks[1..]);
      (complete + more, last)
  }

  lemma ConcatCons(received: string, chunks: seq<string>)
    requires chunks != []
    ensures received + Concat(chunks) == received + chunks[0] + Concat(chunks[1..])
  {
  }

  lemma RecordsAssoc(a: seq<string>, b: seq<string>, c: seq<string>)
    ensures a + (b + c) == a + b + c
  {
  }

  lemma {:induction false} FeedAllInvariant(received: string, records: seq<string>, buffer: string, chunks: seq<string>)
    requires BufferInvariant(received, records, buffer)
    ensures BufferInvariant(received + Concat(chunks), records + FeedAll(buffer, chunks).0, FeedAll(buffer, chunks).1)
    decreases |chunks|
  {
    if chunks != [] {
      var f := Feed(buffer, chunks[0]);
      var rest := FeedAll(f.2, chunks[1..]);
      assert FeedAll(buffer, chunks) == (f.1 + rest.0, rest.1);
      FeedKeepsInvariant(received, records, buffer, chunks[0]);
      FeedAllInvariant(received + chunks[0], records + f.1, f.2, chunks[1..]);
      ConcatCons(received, chunks);
      RecordsAssoc(records, f.1, rest.0);
    } else {
      assert received + Concat(chunks) == received && records + [] == records;
    }
  }

  /**
   * Reassembly: however a sequence of framed records is cut into chunks, the
   * consumer delivers exactly those records, in order, and ends with an empty buffer.
   */
  lemma Reassembly(records: seq<string>, chunks: seq<string>)
    requires AllRecords(records)
    requires Concat(chunks) == Framed(records)
    ensures FeedAll("", chunks) == (records, "")
  {
    assert BufferInvariant("", [], "");
    FeedAllInvariant("", [], "", chunks);
    var (got, buf) := FeedAll("", chunks);
    assert "" + Concat(chunks) == Framed(records) && [] + got == got;
    BufferInvariantSplit(Framed(records), got, buf);
    assert Framed(records) == Framed(records) + "";
    SplitFramed(records, "");
    assert got + [buf] == records + [""];
    assert got == (got + [buf])[..|got|];
  }
}
