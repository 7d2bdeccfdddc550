/**
 * The header splice (headerInjectingConn in internal/bridge/hijack.go): the session cookie of a redeemed ticket
 * is put into the 101 response as it goes down the wire. Bytes are characters here.
 */
module Splice {
  import opened Basics

  type Bytes = string

  const STATUS_PREFIX: Bytes := "HTTP/1.1 101"
  const LINE_END: Bytes := "\r\n"
  const BLOCK_END: Bytes := "\r\n\r\n"

  /** `bytes.Index`, searching from `from`: the first match, or -1. */
  function IndexFrom(p: Bytes, pattern: Bytes, from: nat): (i: int)
    ensures i == -1 || (from <= i && OccursAt(p, pattern, i))
    ensures forall j | from <= j && (i == -1 || j < i) :: !OccursAt(p, pattern, j)
    decreases |p| - from
  {
    if from > |p| - |pattern| then -1
    else if OccursAt(p, pattern, from) then from
    else IndexFrom(p, pattern, from + 1)
  }

  /** Whether a write is a complete 101 response head. */
  predicate IsUpgrade(p: Bytes) {
    STATUS_PREFIX <= p && IndexFrom(p, BLOCK_END, 0) != -1
  }

  function Spliced(p: Bytes, extra: Bytes): Bytes {
    if IsUpgrade(p) then
      var cut := IndexFrom(p, BLOCK_END, 0) + |LINE_END|;
      p[..cut] + extra + p[cut..]
    else p
  }

  function Concat(ps: seq<Bytes>): Bytes {
    if ps == [] then "" else Concat(ps[..|ps| - 1]) + ps[|ps| - 1]
  }

  /** What a whole sequence of successful writes puts on the wire. */
  function Wire(ps: seq<Bytes>, extra: Bytes): Bytes {
    if ps == [] then "" else Spliced(ps[0], extra) + Concat(ps[1..])
  }

  /** How the connection underneath answers one write: all of it, or an error after `n` bytes. */
  datatype Reply = Took | Failed(n: nat)

  class HeaderInjectingConn {
    const extra: Bytes
    var injected: bool
    /** What the connection underneath has been given. */
    var delivered: Bytes
    /** The caller's writes so far, and whether all of them succeeded. */
    ghost var writes: seq<Bytes>
    ghost var clean: bool

    ghost predicate Valid()
      reads this
    {
      (injected <==> writes != []) && (clean ==> delivered == Wire(writes, extra))
    }

    constructor (extra: Bytes)
      ensures Valid() && this.extra == extra && writes == [] && clean && delivered == ""
    {
      this.extra := extra;
      injected, delivered, writes, clean := false, "", [], true;
    }

    /** The raw write underneath. */
    method Send(p: Bytes, reply: Reply) returns (n: nat, ok: bool)
      requires reply.Failed? ==> reply.n <= |p|
      modifies this`delivered
      ensures ok <==> reply.Took?
      ensures n == (if ok then |p| else reply.n) && delivered == old(delivered) + p[..n]
    {
      match reply {
        case Took => n, ok := |p|, true;
        case Failed(k) => n, ok := k, false;
      }
      delivered := delivered + p[..n];
    }

    /**
     * One write. On success the caller's own length is reported, however many bytes went down; on failure no
     * more than it. The wire stays the concatenation of the caller's writes, with the splice in the first.
     */
    method Write(p: Bytes, reply: Reply) returns (n: nat, ok: bool)
      requires Valid()
      requires reply.Failed? ==> reply.n <= |if injected then p else Spliced(p, extra)|
      modifies this
      ensures Valid() && writes == old(writes) + [p]
      ensures ok <==> reply.Took?
      ensures clean == (old(clean) && ok)
      ensures ok ==> n == |p|
      ensures !ok ==> n <= |p| && delivered == old(delivered) + (if old(injected) then p else Spliced(p, extra))[..reply.n]
    {
      hide Wire;
      ghost var was := writes;
      writes := writes + [p];
      clean := clean && reply.Took?;
      WireGrows(was, p, extra);
      if injected {
        n, ok := Send(p, reply);
        return;
      }
      injected := true;
      if !(STATUS_PREFIX <= p) {
        n, ok := Send(p, reply);
        return;
      }
      var idx := IndexFrom(p, BLOCK_END, 0);
      if idx == -1 {
        n, ok := Send(p, reply);
        return;
      }
      var spliced := p[..idx + 2] + extra + p[idx + 2..];
      n, ok := Send(spliced, reply);
      if !ok {
        if n > |p| { n := |p|; }
        return;
      }
      n := |p|;
    }
  }

  lemma WireGrows(ps: seq<Bytes>, p: Bytes, extra: Bytes)
    ensures Wire(ps + [p], extra) == Wire(ps, extra) + if ps == [] then Spliced(p, extra) else p
  {
    hide Spliced;
    if ps == [] {
      assert [p][1..] == [];
    } else {
      var rest := (ps + [p])[1..];
      assert rest == ps[1..] + [p] && rest[..|rest| - 1] == ps[1..];
      assert Concat(rest) == Concat(ps[1..]) + p;
      assert Spliced(ps[0], extra) + (Concat(ps[1..]) + p) == Spliced(ps[0], extra) + Concat(ps[1..]) + p;
    }
  }

  // ----- As header lines -----

  /** A line of a response head: not empty, and free of the bytes that end it. */
  ghost predicate IsLine(l: Bytes) { l != "" && '\r' !in l && '\n' !in l }

  function Lines(ls: seq<Bytes>): Bytes {
    if ls == [] then "" else ls[0] + LINE_END + Lines(ls[1..])
  }

  /** A response: its status and header lines, the blank line, and whatever follows. */
  function Response(ls: seq<Bytes>, body: Bytes): Bytes { Lines(ls) + LINE_END + body }

  lemma {:induction false} LinesAppend(a: seq<Bytes>, b: seq<Bytes>)
    ensures Lines(a + b) == Lines(a) + Lines(b)
  {
    if a == [] {
      assert a + b == b;
    } else {
      assert (a + b)[1..] == a[1..] + b;
      LinesAppend(a[1..], b);
    }
  }

  /** The blank line is found where the lines end, and nowhere before. */
  lemma {:induction false} NoEarlyBlank(ls: seq<Bytes>, tail: Bytes, i: int)
    requires forall l | l in ls :: IsLine(l)
    requires 0 <= i < |Lines(ls)| - 2
    ensures !OccursAt(Lines(ls) + tail, BLOCK_END, i)
  {
    var l, rest := ls[0], Lines(ls[1..]);
    var text := Lines(ls) + tail;
    assert l in ls && text == l + LINE_END + (rest + tail);
    BlankShape(text, i);
    if i < |l| {
      assert text[i] == l[i];
    } else if i == |l| {
      assert ls[1] in ls && text[i + 2] == rest[0] == ls[1][0];
    } else if i >= |l| + 2 {
      var k := i - (|l| + 2);
      NoEarlyBlank(ls[1..], tail, k);
      MatchShift(l + LINE_END, rest + tail, k, BLOCK_END);
    }
  }

  lemma BlankShape(p: Bytes, i: int)
    ensures OccursAt(p, BLOCK_END, i) ==> p[i] == '\r' && p[i + 2] == '\r'
  {
    if OccursAt(p, BLOCK_END, i) {
      assert p[i..i + 4][0] == p[i] && p[i..i + 4][2] == p[i + 2];
    }
  }

  lemma MatchShift(a: Bytes, b: Bytes, k: nat, pattern: Bytes)
    ensures OccursAt(a + b, pattern, |a| + k) <==> OccursAt(b, pattern, k)
  {
    if k + |pattern| <= |b| {
      assert (a + b)[|a| + k..|a| + k + |pattern|] == b[k..k + |pattern|];
    }
  }

  /** A 101 response written as lines leaves with the extra lines after its own, and its body untouched. */
  lemma SplicedLines(ls: seq<Bytes>, extra: seq<Bytes>, body: Bytes)
    requires ls != [] && "HTTP/1.1 101" <= ls[0]
    requires forall l | l in ls :: IsLine(l)
    ensures IsUpgrade(Response(ls, body))
    ensures Spliced(Response(ls, body), Lines(extra)) == Response(ls + extra, body)
  {
    hide Lines, IndexFrom, OccursAt;
    var head, tail := Lines(ls), LINE_END + body;
    assert Response(ls, body) == head + tail;
    LinesEnd(ls);
    BlankFound(ls, tail, body);
    SplitAt(head, tail);
    LinesAppend(ls, extra);
    assert head + Lines(extra) + tail == Response(ls + extra, body);
  }

  lemma SplitAt(head: Bytes, tail: Bytes)
    ensures (head + tail)[..|head|] == head && (head + tail)[|head|..] == tail
  {
  }

  lemma BlankFound(ls: seq<Bytes>, tail: Bytes, body: Bytes)
    requires ls != [] && "HTTP/1.1 101" <= ls[0] && tail == LINE_END + body
    requires forall l | l in ls :: IsLine(l)
    ensures STATUS_PREFIX <= Lines(ls) + tail
    ensures IndexFrom(Lines(ls) + tail, BLOCK_END, 0) == |Lines(ls)| - 2
  {
    hide IndexFrom;
    var p, at := Lines(ls) + tail, |Lines(ls)| - 2;
    LinesEnd(ls);
    assert ls[0] <= Lines(ls) <= p;
    BlankHere(Lines(ls), body);
    var i := IndexFrom(p, BLOCK_END, 0);
    if 0 <= i < at { NoEarlyBlank(ls, tail, i); }
  }

  lemma BlankHere(head: Bytes, body: Bytes)
    requires |head| >= 2 && head[|head| - 2..] == LINE_END
    ensures OccursAt(head + (LINE_END + body), BLOCK_END, |head| - 2)
  {
    var p, at := head + (LINE_END + body), |head| - 2;
    assert p[at..at + 4] == head[at..] + LINE_END;
  }

  lemma {:induction false} LinesEnd(ls: seq<Bytes>)
    requires ls != []
    ensures |Lines(ls)| >= 2 && Lines(ls)[|Lines(ls)| - 2..] == LINE_END
  {
    if |ls| > 1 {
      LinesEnd(ls[1..]);
    } else {
      assert ls[1..] == [];
    }
  }

  /**
   * A socket whose first write is the 101 response: the client receives the same response with the extra
   * lines, once, and every later byte as it was written.
   */
  lemma UpgradedWire(ls: seq<Bytes>, extra: seq<Bytes>, body: Bytes, frames: seq<Bytes>)
    requires ls != [] && "HTTP/1.1 101" <= ls[0]
    requires forall l | l in ls :: IsLine(l)
    ensures Wire([Response(ls, body)] + frames, Lines(extra)) == Response(ls + extra, body) + Concat(frames)
  {
    assert ([Response(ls, body)] + frames)[1..] == frames;
    SplicedLines(ls, extra, body);
  }

  /** Anything else goes through as written. */
  lemma PlainWire(ps: seq<Bytes>, extra: Bytes)
    requires ps != [] ==> !("HTTP/1.1 101" <= ps[0] && Contains(ps[0], "\r\n\r\n"))
    ensures Wire(ps, extra) == Concat(ps)
  {
    if ps != [] {
      ConcatCons(ps);
      UpgradeMeans(ps[0]);
    }
  }

  /** A write is taken for the upgrade exactly when it is a 101 status line with a complete head. */
  lemma UpgradeMeans(p: Bytes)
    ensures IsUpgrade(p) <==> "HTTP/1.1 101" <= p && Contains(p, "\r\n\r\n")
  {
    hide OccursAt, IndexFrom;
    var i := IndexFrom(p, BLOCK_END, 0);
    if i != -1 { Within(p, i); }
  }

  lemma Within(p: Bytes, i: int)
    requires OccursAt(p, BLOCK_END, i)
    ensures 0 <= i <= |p|
  {
  }

  lemma {:induction false} ConcatCons(ps: seq<Bytes>)
    requires ps != []
    ensures Concat(ps) == ps[0] + Concat(ps[1..])
  {
    if |ps| > 1 {
      var init, last := ps[..|ps| - 1], ps[|ps| - 1];
      ConcatCons(init);
      assert init[1..] == ps[1..][..|ps| - 2];
      assert ps[0] + Concat(init[1..]) + last == ps[0] + (Concat(init[1..]) + last);
    } else {
      assert ps[..0] == [] && ps[1..] == [];
    }
  }
}
