/** The log viewer's tail: a backward read in fixed chunks that stops as soon as it may. */
module Tail {
  import opened Common

  const NL: Byte := 10

  type Text = seq<Byte>

  /** The last line with one more character. */
  function Lengthened(lines: seq<Text>, c: Byte): (r: seq<Text>)
    requires lines != []
    ensures |r| == |lines|
  {
    lines[..|lines| - 1] + [lines[|lines| - 1] + [c]]
  }

  /** Splitting on newlines, as many lines as newlines and one more. */
  function Split(s: Text): (lines: seq<Text>)
    ensures lines != []
  {
    if s == [] then [[]]
    else
      var front, c := Split(s[..|s| - 1]), s[|s| - 1];
      if c == NL then front + [[]] else Lengthened(front, c)
  }

  function Join(lines: seq<Text>): Text
    requires lines != []
  {
    if |lines| == 1 then lines[0] else Join(lines[..|lines| - 1]) + [NL] + lines[|lines| - 1]
  }

  /** Joined by newlines the lines are the text again, and none of them holds a newline. */
  lemma SplitMore(s: Text, c: Byte)
    ensures Split(s + [c]) == if c == NL then Split(s) + [[]] else Lengthened(Split(s), c)
  {
    assert (s + [c])[..|s|] == s;
  }

  lemma LengthenedAfter(p: seq<Text>, q: seq<Text>, c: Byte)
    requires q != []
    ensures Lengthened(p + q, c) == p + Lengthened(q, c)
  {
    assert (p + q)[..|p + q| - 1] == p + q[..|q| - 1];
    Joined(p, q[..|q| - 1], [q[|q| - 1] + [c]]);
  }

  lemma SplitIsLines(s: Text)
    ensures Join(Split(s)) == s
    ensures forall k :: 0 <= k < |Split(s)| ==> NL !in Split(s)[k]
  {
    SplitJoins(s);
    forall k | 0 <= k < |Split(s)|
      ensures NL !in Split(s)[k]
    {
      NoNewlineIn(s, k);
    }
  }

  lemma JoinMore(lines: seq<Text>, last: Text)
    requires lines != []
    ensures Join(lines + [last]) == Join(lines) + [NL] + last
  {
    assert (lines + [last])[..|lines|] == lines;
  }

  lemma JoinLengthened(lines: seq<Text>, c: Byte)
    requires lines != []
    ensures Join(Lengthened(lines, c)) == Join(lines) + [c]
  {
    var front, last := lines[..|lines| - 1], lines[|lines| - 1];
    assert lines == front + [last];
    if front != [] {
      JoinMore(front, last + [c]);
      JoinMore(front, last);
      hide Join;
      Joined(Join(front) + [NL], last, [c]);
    }
  }

  lemma {:induction false} SplitJoins(s: Text)
    ensures Join(Split(s)) == s
    decreases |s|
  {
    if s != [] {
      hide Split, Join, Lengthened;
      var init, c := s[..|s| - 1], s[|s| - 1];
      assert s == init + [c];
      SplitMore(init, c);
      SplitJoins(init);
      if c == NL {
        JoinMore(Split(init), []);
      } else {
        JoinLengthened(Split(init), c);
      }
    }
  }

  lemma {:induction false} NoNewlineIn(s: Text, k: nat)
    requires k < |Split(s)|
    ensures NL !in Split(s)[k]
    decreases |s|
  {
    if s != [] && k < |Split(s[..|s| - 1])| {
      NoNewlineIn(s[..|s| - 1], k);
    }
  }

  function DropEmpty(lines: seq<Text>): seq<Text> {
    if lines != [] && lines[|lines| - 1] == [] then DropEmpty(lines[..|lines| - 1]) else lines
  }

  function LastN(lines: seq<Text>, n: nat): seq<Text> {
    if |lines| > n then lines[|lines| - n..] else lines
  }

  /** Split, drop the trailing empty lines, keep the last n. */
  function SliceTail(s: Text, n: nat): seq<Text> { LastN(DropEmpty(Split(s)), n) }

  method SliceTailOf(buf: Text, n: nat) returns (lines: seq<Text>)
    ensures lines == SliceTail(buf, n)
  {
    lines := Split(buf);
    while |lines| > 0 && lines[|lines| - 1] == []
      invariant DropEmpty(lines) == DropEmpty(Split(buf))
    {
      lines := lines[..|lines| - 1];
    }
    if |lines| > n {
      lines := lines[|lines| - n..];
    }
  }

  lemma {:induction false} DropEmptyExactly(lines: seq<Text>) returns (m: nat)
    ensures m <= |lines| && DropEmpty(lines) == lines[..m] && (m > 0 ==> lines[m - 1] != [])
    ensures forall k :: m <= k < |lines| ==> lines[k] == []
    decreases |lines|
  {
    m := |lines|;
    if lines != [] && lines[m - 1] == [] {
      m := DropEmptyExactly(lines[..m - 1]);
    }
  }

  /**
   The tail is a stretch of the lines: only empty ones follow it, it ends in none, and it is n long
   or starts the text.
   */
  lemma SliceTailExactly(s: Text, n: nat) returns (k: nat, m: nat)
    ensures k <= m <= |Split(s)| && SliceTail(s, n) == Split(s)[k..m]
    ensures forall j :: m <= j < |Split(s)| ==> Split(s)[j] == []
    ensures m > 0 ==> Split(s)[m - 1] != []
    ensures m - k <= n && (m - k == n || k == 0)
  {
    hide Split, DropEmpty;
    m := DropEmptyExactly(Split(s));
    k := if m > n then m - n else 0;
  }

  // ---- counting --------------------------------------------------------------------------------

  function CountNL(s: Text): nat {
    if s == [] then 0 else CountNL(s[..|s| - 1]) + if s[|s| - 1] == NL then 1 else 0
  }

  /** The run of newlines at the very end. */
  function TrailingRun(s: Text): (k: nat)
    ensures k <= |s|
  {
    if s != [] && s[|s| - 1] == NL then TrailingRun(s[..|s| - 1]) + 1 else 0
  }

  function Body(s: Text): Text { s[..|s| - TrailingRun(s)] }

  lemma {:induction false} CountAppend(a: Text, b: Text)
    ensures CountNL(a + b) == CountNL(a) + CountNL(b)
    decreases |b|
  {
    if b == [] {
      assert a + b == a;
    } else {
      assert (a + b)[..|a + b| - 1] == a + b[..|b| - 1];
      CountAppend(a, b[..|b| - 1]);
    }
  }

  lemma {:induction false} RunAppend(a: Text, b: Text)
    ensures TrailingRun(a + b) == if TrailingRun(b) == |b| then |b| + TrailingRun(a) else TrailingRun(b)
    decreases |b|
  {
    if b == [] {
      assert a + b == a;
    } else {
      assert (a + b)[..|a + b| - 1] == a + b[..|b| - 1];
      RunAppend(a, b[..|b| - 1]);
    }
  }

  /** The newlines outside the trailing run are the separators of the body. */
  lemma {:induction false} CountBody(s: Text)
    ensures CountNL(s) == CountNL(Body(s)) + TrailingRun(s)
    decreases |s|
  {
    if s != [] && s[|s| - 1] == NL {
      var front := s[..|s| - 1];
      CountBody(front);
      assert Body(s) == Body(front);
    } else {
      assert Body(s) == s;
    }
  }

  // ---- a suffix with enough separators is enough -------------------------------------------------

  lemma {:induction false} SplitAtNewline(a: Text, b: Text)
    ensures Split(a + [NL] + b) == Split(a) + Split(b)
    decreases |b|
  {
    if b == [] {
      SplitMore(a, NL);
      assert a + [NL] + [] == a + [NL];
    } else {
      hide Split, Lengthened;
      var front, c := b[..|b| - 1], b[|b| - 1];
      assert b == front + [c];
      Joined(a + [NL], front, [c]);
      SplitAtNewline(a, front);
      SplitMore(a + [NL] + front, c);
      SplitMore(front, c);
      if c == NL {
        Joined(Split(a), Split(front), [[]]);
      } else {
        LengthenedAfter(Split(a), Split(front), c);
      }
    }
  }

  lemma {:induction false} SplitCount(s: Text)
    ensures |Split(s)| == CountNL(s) + 1
    decreases |s|
  {
    if s != [] {
      SplitCount(s[..|s| - 1]);
    }
  }

  lemma {:induction false} DropEmptyIsBody(s: Text)
    ensures DropEmpty(Split(s)) == if Body(s) == [] then [] else Split(Body(s))
    decreases |s|
  {
    if s == [] {
      assert DropEmpty([[]]) == DropEmpty([]);
    } else if s[|s| - 1] == NL {
      var front := s[..|s| - 1];
      DropEmptyIsBody(front);
      assert (Split(front) + [[]])[..|Split(front)|] == Split(front);
      assert Body(s) == Body(front);
    } else {
      assert Body(s) == s;
    }
  }

  lemma {:induction false} FirstNewline(s: Text) returns (x: Text, y: Text)
    requires CountNL(s) > 0
    ensures s == x + [NL] + y && CountNL(x) == 0 && CountNL(y) + 1 == CountNL(s)
    decreases |s|
  {
    var front, c := s[..|s| - 1], s[|s| - 1];
    if CountNL(front) == 0 {
      x, y := front, [];
    } else {
      var u, v := FirstNewline(front);
      x, y := u, v + [c];
      assert y[..|y| - 1] == v;
      assert s == front + [c];
    }
  }

  lemma LastNOfTail(p: seq<Text>, q: seq<Text>, n: nat)
    requires n <= |q|
    ensures LastN(p + q, n) == LastN(q, n)
  {
  }

  /** Lines before a part with n separators of its own cannot be among the last n. */
  lemma EnoughSeparators(h: Text, b: Text, n: nat)
    requires CountNL(b) >= n
    ensures LastN(Split(h + b), n) == LastN(Split(b), n)
  {
    if n == 0 {
      assert LastN(Split(h + b), 0) == [] == LastN(Split(b), 0);
    } else {
      var x, y := FirstNewline(b);
      hide Split, LastN, CountNL;
      Joined(h, x, [NL]);
      Joined(h, x + [NL], y);
      SplitAtNewline(h + x, y);
      SplitAtNewline(x, y);
      SplitCount(y);
      LastNOfTail(Split(h + x), Split(y), n);
      LastNOfTail(Split(x), Split(y), n);
    }
  }

  lemma BodyAppend(h: Text, u: Text)
    requires Body(u) != []
    ensures Body(h + u) == h + Body(u)
  {
    RunAppend(h, u);
  }

  /** Where the loop may stop: the tail of the suffix is the tail of the whole. */
  lemma StopEarly(h: Text, u: Text, n: nat)
    requires CountNL(u) - TrailingRun(u) >= n
    ensures SliceTail(h + u, n) == SliceTail(u, n)
  {
    if n == 0 {
      assert SliceTail(h + u, 0) == [] == SliceTail(u, 0);
    } else {
      DropEmptyIsBody(h + u);
      DropEmptyIsBody(u);
      CountBody(u);
      assert Body(u) != [] by { assert CountNL([]) == 0; }
      hide Split, DropEmpty, LastN, CountNL, TrailingRun, Body;
      BodyAppend(h, u);
      EnoughSeparators(h, Body(u), n);
    }
  }

  // ---- the backward read ---------------------------------------------------------------------------

  /** Chunks collected end-first, put back in file order. */
  function InFileOrder(chunks: seq<Text>): Text {
    if chunks == [] then [] else chunks[|chunks| - 1] + InFileOrder(chunks[..|chunks| - 1])
  }

  method Reassemble(chunks: seq<Text>) returns (buf: Text)
    ensures buf == InFileOrder(chunks)
  {
    buf := [];
    var i := |chunks|;
    assert chunks[..i] == chunks;
    while i > 0
      invariant 0 <= i <= |chunks|
      invariant buf + InFileOrder(chunks[..i]) == InFileOrder(chunks)
    {
      i := i - 1;
      assert chunks[..i + 1][..i] == chunks[..i];
      Joined(buf, chunks[i], InFileOrder(chunks[..i]));
      buf := buf + chunks[i];
    }
  }

  /** What the loop knows of the suffix it has read. */
  ghost predicate HaveRead(content: Text, frontier: nat, chunks: seq<Text>, newlines: nat, trailing: nat, run: bool) {
    && frontier <= |content|
    && InFileOrder(chunks) == content[frontier..]
    && newlines == CountNL(content[frontier..])
    && trailing == TrailingRun(content[frontier..])
    && (run <==> trailing == |content| - frontier)
  }

  lemma NothingRead(content: Text)
    ensures HaveRead(content, |content|, [], 0, 0, true)
  {
  }

  /** One more chunk, counted once. */
  lemma ChunkRead(content: Text, start: nat, frontier: nat, chunks: seq<Text>, newlines: nat, trailing: nat, run: bool)
    requires start <= frontier && HaveRead(content, frontier, chunks, newlines, trailing, run)
    ensures var chunk := content[start..frontier];
            HaveRead(content, start, chunks + [chunk], newlines + CountNL(chunk),
                     if run then trailing + TrailingRun(chunk) else trailing,
                     run && TrailingRun(chunk) == |chunk|)
  {
    var chunk, u := content[start..frontier], content[frontier..];
    assert content[start..] == chunk + u;
    assert (chunks + [chunk])[..|chunks|] == chunks;
    assert InFileOrder(chunks + [chunk]) == chunk + InFileOrder(chunks);
    CountAppend(chunk, u);
    RunAppend(chunk, u);
    hide CountNL, TrailingRun, InFileOrder;
  }

  /** At the start of the content, or with enough separators, the suffix read has the whole's tail. */
  lemma ReadEnough(content: Text, frontier: nat, chunks: seq<Text>, newlines: nat, trailing: nat, run: bool, n: nat)
    requires HaveRead(content, frontier, chunks, newlines, trailing, run)
    requires frontier == 0 || newlines - trailing >= n
    ensures SliceTail(InFileOrder(chunks), n) == SliceTail(content, n)
  {
    hide SliceTail, CountNL, TrailingRun, InFileOrder;
    assert content == content[..frontier] + content[frontier..];
    if frontier == 0 {
      assert content[0..] == content;
    } else {
      StopEarly(content[..frontier], content[frontier..], n);
    }
  }

  /** The lines a whole read would give, whatever the content, the count and the chunk size. */
  method TailLines(content: Text, n: nat, chunkSize: nat) returns (lines: seq<Text>)
    requires chunkSize >= 1
    ensures lines == SliceTail(content, n)
  {
    if |content| == 0 {
      assert DropEmpty([[]]) == DropEmpty([]);
      return [];
    }
    hide SliceTail, CountNL, TrailingRun, InFileOrder, HaveRead;
    var chunks: seq<Text> := [];
    var newlines: nat, trailing: nat, inTrailing := 0, 0, true;
    var frontier := |content|;
    NothingRead(content);
    while frontier > 0
      invariant 0 <= frontier <= |content|
      invariant HaveRead(content, frontier, chunks, newlines, trailing, inTrailing)
      decreases frontier
    {
      var readLen := Min(frontier, chunkSize);
      var start := frontier - readLen;
      var chunk := content[start..frontier];
      ChunkRead(content, start, frontier, chunks, newlines, trailing, inTrailing);
      chunks := chunks + [chunk];
      newlines := newlines + CountNL(chunk);
      if inTrailing {
        var stripped := TrailingRun(chunk);
        trailing := trailing + stripped;
        if stripped < |chunk| {
          inTrailing := false;
        }
      }
      frontier := start;
      if newlines - trailing >= n { break; }
    }
    ReadEnough(content, frontier, chunks, newlines, trailing, inTrailing, n);
    var buf := Reassemble(chunks);
    lines := SliceTailOf(buf, n);
  }
}
