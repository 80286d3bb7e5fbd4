/** Dialing through an HTTP CONNECT proxy: the phases of a dial, the hop's refusal, and the bytes handed to the
    tunnel. */
module Connect {
  import opened Options

  newtype Byte = x: int | 0 <= x < 256

  const LF: Byte := 10
  const CR: Byte := 13
  const MAX_BODY: nat := 4096
  const BUFFER: nat := 4096

  function Take(n: nat, s: seq<Byte>): (front: seq<Byte>)
    ensures front <= s && |front| == if n <= |s| then n else |s|
  {
    if n <= |s| then s[..n] else s
  }

  // Where a response's header section ends

  /** A blank line ends at k. */
  predicate BlankEndsAt(s: seq<Byte>, k: nat) {
    2 <= k <= |s| && s[k - 1] == LF && (s[k - 2] == LF || (3 <= k && s[k - 2] == CR && s[k - 3] == LF))
  }

  /** The end of the header section, if it is all there; `from` is where to start looking. */
  function HeadEnd(s: seq<Byte>, from: nat): (end: Option<nat>)
    requires from <= |s| + 1
    ensures end.Some? ==>
              from <= end.value && BlankEndsAt(s, end.value) && forall k :: from <= k < end.value ==> !BlankEndsAt(s, k)
    ensures end.None? ==> forall k :: from <= k ==> !BlankEndsAt(s, k)
    decreases |s| + 1 - from
  {
    if from > |s| then None
    else if BlankEndsAt(s, from) then Some(from)
    else HeadEnd(s, from + 1)
  }

  /** More bytes do not move it. */
  lemma HeadEndStays(s: seq<Byte>, t: seq<Byte>)
    requires s <= t && HeadEnd(s, 0).Some?
    ensures HeadEnd(t, 0) == HeadEnd(s, 0)
  {
    var k := HeadEnd(s, 0).value;
    assert forall x :: x <= k ==> (BlankEndsAt(t, x) <==> BlankEndsAt(s, x));
  }

  /** A line of a header section as it is written, and whether a carriage return stands before its line feed. */
  datatype Line = Line(text: seq<Byte>, crlf: bool)

  function Ending(crlf: bool): seq<Byte> { if crlf then [13, 10] else [10] }

  function Written(lines: seq<Line>): seq<Byte> {
    if lines == [] then [] else lines[0].text + Ending(lines[0].crlf) + Written(lines[1..])
  }

  /** No line is empty, and none holds a line break. */
  ghost predicate Lines(lines: seq<Line>) {
    forall i :: 0 <= i < |lines| ==> lines[i].text != [] && 10 !in lines[i].text && 13 !in lines[i].text
  }

  /** A header section: its lines and a blank one. */
  function Head(lines: seq<Line>, crlf: bool): seq<Byte> { Written(lines) + Ending(crlf) }

  lemma Behind(a: seq<Byte>, b: seq<Byte>, k: nat)
    requires k >= 3
    ensures BlankEndsAt(a + b, |a| + k) <==> BlankEndsAt(b, k)
  {
  }

  /** No blank line ends in a first line, or on the first two bytes behind it. */
  lemma FirstLine(line: Line, t: seq<Byte>, k: nat)
    requires Lines([line]) && k <= |line.text + Ending(line.crlf)| + 2
    requires |t| >= 1 ==> t[0] != 10 && (|t| >= 2 && t[1] == 10 ==> t[0] != 13)
    ensures !BlankEndsAt(line.text + Ending(line.crlf) + t, k)
  {
    var n, s := |line.text|, line.text + Ending(line.crlf) + t;
    assert [line][0] == line;
    assert forall i :: 0 <= i < n ==> s[i] == line.text[i] && line.text[i] in line.text;
  }

  lemma WrittenStarts(lines: seq<Line>, t: seq<Byte>)
    requires Lines(lines) && lines != []
    ensures var s := Written(lines) + t; |Written(lines)| >= 2 && s[0] != 10 && s[0] != 13
  {
    var text := lines[0].text;
    assert (Written(lines) + t)[0] == text[0] && text[0] in text;
  }

  /** No blank line ends among the lines. */
  lemma {:induction false} NoneInside(lines: seq<Line>, t: seq<Byte>, k: nat)
    requires Lines(lines) && k <= |Written(lines)|
    ensures !BlankEndsAt(Written(lines) + t, k)
  {
    if lines != [] {
      var first, rest := lines[0].text + Ending(lines[0].crlf), Written(lines[1..]);
      assert Written(lines) + t == first + (rest + t);
      if k >= |first| + 3 {
        NoneInside(lines[1..], t, k - |first|);
        Behind(first, rest + t, k - |first|);
      } else if lines[1..] != [] {
        WrittenStarts(lines[1..], t);
        FirstLine(lines[0], rest + t, k);
      } else {
        FirstLine(lines[0], [], k);
        assert BlankEndsAt(first + (rest + t), k) <==> BlankEndsAt(first + [], k);
      }
    }
  }

  lemma {:induction false} WrittenEnds(lines: seq<Line>)
    requires lines != []
    ensures Written(lines) != [] && Written(lines)[|Written(lines)| - 1] == 10
  {
    if |lines| > 1 {
      WrittenEnds(lines[1..]);
    } else {
      assert Written(lines[1..]) == [];
    }
  }

  /** A header section ends where its blank line does, whatever follows it. */
  lemma HeadIsWritten(lines: seq<Line>, crlf: bool, rest: seq<Byte>)
    requires lines != [] && Lines(lines)
    ensures HeadEnd(Head(lines, crlf) + rest, 0) == Some(|Head(lines, crlf)|)
  {
    var w, s := Written(lines), Head(lines, crlf) + rest;
    WrittenEnds(lines);
    assert s == w + (Ending(crlf) + rest);
    forall k | 0 <= k < |Head(lines, crlf)| ensures !BlankEndsAt(s, k) {
      if k <= |w| {
        NoneInside(lines, Ending(crlf) + rest, k);
      }
    }
    assert BlankEndsAt(s, |Head(lines, crlf)|);
  }

  /** Lines without the blank one, and an unfinished line after them, are no header section. */
  lemma HeadIsUnfinished(lines: seq<Line>, more: seq<Byte>)
    requires Lines(lines) && 10 !in more
    ensures HeadEnd(Written(lines) + more, 0) == None
  {
    var w, s := Written(lines), Written(lines) + more;
    forall k: nat ensures !BlankEndsAt(s, k) {
      if k <= |w| {
        NoneInside(lines, more, k);
      } else if k <= |s| {
        assert s[k - 1] == more[k - 1 - |w|];
      }
    }
  }

  // The connection and its buffered reader

  /** A connection to the hop: `left` is what the hop has still to say on it. */
  class Conn {
    var left: seq<Byte>
    var closed: bool

    constructor (bytes: seq<Byte>)
      ensures left == bytes && !closed
    {
      left, closed := bytes, false;
    }

    /** Returns at most `size` bytes, as many as happen to have arrived, and nothing only at the end. */
    method Read(size: nat, arrived: nat) returns (p: seq<Byte>)
      requires arrived >= 1
      modifies this`left
      ensures p + left == old(left) && |p| <= size && (p == [] ==> size == 0 || left == [])
    {
      var n := if size < arrived then size else arrived;
      p := Take(n, left);
      left := left[|p|..];
    }

    method Close()
      modifies this`closed
      ensures closed
    {
      closed := true;
    }
  }

  lemma Uncut(a: seq<Byte>, b: seq<Byte>, c: seq<Byte>, d: seq<Byte>)
    requires a + b == c + d && |a| == |c|
    ensures a == c && b == d
  {
    assert a == (a + b)[..|a|] && b == (a + b)[|a|..];
  }

  class Reader {
    const conn: Conn
    var buf: seq<Byte>

    /** What is still to be read, here and on the connection. */
    ghost function Stream(): seq<Byte>
      reads this, conn
    {
      buf + conn.left
    }

    constructor (conn: Conn)
      ensures this.conn == conn && buf == []
    {
      this.conn, buf := conn, [];
    }

    /** http.ReadResponse as far as the bytes go: it fills the buffer until the header section is there, however it
        arrives, and consumes exactly that section. */
    method ReadHead(arrivals: nat -> nat) returns (head: Option<seq<Byte>>)
      requires forall i :: arrivals(i) >= 1
      requires buf == []
      modifies this`buf, conn`left
      ensures head.Some? <==> HeadEnd(old(conn.left), 0).Some?
      ensures head.Some? ==> head.value + Stream() == old(conn.left) && |head.value| == HeadEnd(old(conn.left), 0).value
    {
      var read: seq<Byte> := [];
      var i := 0;
      while HeadEnd(read, 0).None?
        invariant read + conn.left == old(conn.left)
        decreases |conn.left|
      {
        var p := conn.Read(BUFFER, arrivals(i));
        if p == [] {
          assert read == old(conn.left);
          return None;
        }
        read := read + p;
        i := i + 1;
      }
      HeadEndStays(read, old(conn.left));
      var end := HeadEnd(read, 0).value;
      head := Some(read[..end]);
      buf := read[end..];
      assert read == read[..end] + read[end..];
    }

    /** Of a header section and what follows, the section is consumed and the rest is left, however the bytes arrive. */
    method ReadWrittenHead(arrivals: nat -> nat, ghost lines: seq<Line>, ghost crlf: bool, ghost rest: seq<Byte>)
      returns (head: Option<seq<Byte>>)
      requires forall i :: arrivals(i) >= 1
      requires buf == [] && lines != [] && Lines(lines) && conn.left == Head(lines, crlf) + rest
      modifies this`buf, conn`left
      ensures head == Some(Head(lines, crlf)) && Stream() == rest
    {
      HeadIsWritten(lines, crlf, rest);
      head := ReadHead(arrivals);
      Uncut(head.value, Stream(), Head(lines, crlf), rest);
    }
  }

  // The tunnel

  /** What a successful dial returns: the bytes the reader took past the header section, then the connection. */
  class Tunnel {
    const conn: Conn
    var pending: seq<Byte>
    ghost var delivered: seq<Byte>

    /** All that the hop says after the header section. */
    ghost function Whole(): seq<Byte>
      reads this, conn
    {
      delivered + (pending + conn.left)
    }

    constructor (conn: Conn, pending: seq<Byte>)
      ensures this.conn == conn && delivered == [] && Whole() == pending + conn.left
    {
      this.conn, this.pending, delivered := conn, pending, [];
      new;
      assert Whole() == pending + conn.left;
    }

    method Read(size: nat, arrived: nat) returns (p: seq<Byte>)
      requires arrived >= 1
      modifies this`pending, this`delivered, conn`left
      ensures Whole() == old(Whole()) && delivered == old(delivered) + p && |p| <= size
      ensures p == [] ==> size == 0 || delivered == Whole()
    {
      if pending != [] {
        p := Take(size, pending);
        pending := pending[|p|..];
      } else {
        p := conn.Read(size, arrived);
      }
      delivered := delivered + p;
    }

    /** Reads of any sizes, as the bytes happen to arrive, concatenate to the next stretch of what the hop says. */
    method ReadAll(sizes: seq<nat>, arrivals: nat -> nat) returns (out: seq<Byte>)
      requires delivered == [] && forall i :: arrivals(i) >= 1
      modifies this`pending, this`delivered, conn`left
      ensures Whole() == old(Whole()) && out <= Whole() && delivered == out
      ensures (forall i :: 0 <= i < |sizes| ==> sizes[i] >= 1) ==> |out| >= |sizes| || out == Whole()
    {
      out := [];
      for i := 0 to |sizes|
        invariant Whole() == old(Whole()) && delivered == out
        invariant (forall k :: 0 <= k < |sizes| ==> sizes[k] >= 1) ==> |out| >= i || out == Whole()
      {
        var p := Read(sizes[i], arrivals(i));
        out := out + p;
      }
    }
  }

  // The dial

  datatype Phase = Idle | Dial | Tls | Hop

  datatype Verdict = Verdict(status: int, body: seq<Byte>)

  /** A failed dial: the phase it struck in, and the hop's answer if that was the reason. */
  datatype Error = Error(phase: Phase, verdict: Option<Verdict>)

  /** Per-request state shared by the dial attempts for it. */
  class Memo {
    var phase: Phase
    var verdict: Option<Verdict>

    constructor ()
      ensures phase == Idle && verdict == None
    {
      phase, verdict := Idle, None;
    }

    /** Records a phase, and a verdict if there is one; a context may carry no memo. */
    static method Set(m: Memo?, p: Phase, v: Option<Verdict>)
      modifies m
      ensures m != null ==> m.phase == p && m.verdict == if v.Some? then v else old(m.verdict)
    {
      if m != null {
        m.phase := p;
        if v.Some? {
          m.verdict := v;
        }
      }
    }

    static function Known(m: Memo?): Option<Verdict>
      reads m
    {
      if m == null then None else m.verdict
    }
  }

  /** What the environment does: whether the dial, the handshake and the request's writing succeed, what the hop says,
      how it arrives, whether its header section is well formed and with what status, what body the response's framing
      (a length, chunks, or the end of the connection) makes of the bytes after that, and whether the context is over
      before the tunnel is up. */
  datatype World = World(
    dials: bool, tls: Option<bool>, writes: bool, says: seq<Byte>, arrivals: nat -> nat, parses: bool, status: int,
    body: seq<Byte> -> seq<Byte>, expires: bool)

  ghost predicate Arrives(w: World) { forall i :: w.arrivals(i) >= 1 }

  predicate Accepted(w: World) { 200 <= w.status < 300 }

  /** The hop has answered in full. */
  predicate Answers(w: World) { w.writes && HeadEnd(w.says, 0).Some? && w.parses }

  /** What the hop says after its header section. */
  function After(w: World): seq<Byte>
    requires Answers(w)
  {
    w.says[HeadEnd(w.says, 0).value..]
  }

  function Least(a: nat, b: nat): (least: nat)
    ensures least <= a && least <= b && (least == a || least == b)
  {
    if a < b then a else b
  }

  /** The request and its answer, on an open connection. */
  method Converse(w: World, conn: Conn) returns (tunnel: Tunnel?, error: Option<Error>)
    requires Arrives(w) && conn.left == w.says
    modifies conn`left
    ensures tunnel != null <==> error.None?
    ensures tunnel != null <==> Answers(w) && Accepted(w) && !w.expires
    ensures tunnel != null ==> fresh(tunnel) && tunnel.conn == conn && tunnel.delivered == [] &&
                               tunnel.Whole() == After(w)
    ensures error.Some? ==> error.value.phase == Hop
    ensures error.Some? ==> (error.value.verdict.Some? <==> Answers(w) && !Accepted(w))
    ensures error.Some? && error.value.verdict.Some? ==>
              error.value.verdict.value == Verdict(w.status, Take(MAX_BODY, w.body(After(w))))
  {
    if !w.writes {
      return null, Some(Error(Hop, None));
    }
    var br := new Reader(conn);
    var head := br.ReadHead(w.arrivals);
    if head.None? || !w.parses {
      return null, Some(Error(Hop, None));
    }
    assert br.Stream() == After(w);
    if w.status / 100 != 2 {
      var body := Take(MAX_BODY, w.body(br.buf + conn.left));
      return null, Some(Error(Hop, Some(Verdict(w.status, body))));
    }
    if w.expires {
      return null, Some(Error(Hop, None));
    }
    tunnel := new Tunnel(conn, br.buf);
    error := None;
  }

  /** How a dial ends when the hop has not refused this request before. */
  function Struck(w: World): Phase {
    if !w.dials then Dial
    else if w.tls == Some(false) then Tls
    else if Answers(w) && Accepted(w) && !w.expires then Idle
    else Hop
  }

  predicate Refuses(w: World) { w.dials && w.tls != Some(false) && Answers(w) && !Accepted(w) }

  /** A hop that has refused the request is not asked again. Otherwise the memo names the phase the dial failed in, or
      none when the tunnel is up; a failed dial leaves its connection closed, and a tunnel carries all that the hop says
      after its header section. */
  method DialContext(memo: Memo?, w: World) returns (conn: Conn?, tunnel: Tunnel?, error: Option<Error>)
    requires Arrives(w)
    modifies memo
    ensures tunnel != null <==> error.None?
    ensures old(Memo.Known(memo)).Some? ==>
              conn == null && error == Some(Error(Hop, old(Memo.Known(memo)))) && (memo != null ==> unchanged(memo))
    ensures old(Memo.Known(memo)).None? ==> (tunnel != null <==> Struck(w) == Idle)
    ensures old(Memo.Known(memo)).None? && error.Some? ==>
              error.value.phase == Struck(w) && (error.value.verdict.Some? <==> Refuses(w)) &&
              error.value.phase == (if !w.dials then Dial else if w.tls == Some(false) then Tls else Hop) &&
              (Refuses(w) ==> error.value.verdict == Some(Verdict(w.status, Take(MAX_BODY, w.body(After(w))))))
    ensures old(Memo.Known(memo)).None? && memo != null ==>
              memo.phase == Struck(w) && memo.verdict == if error.Some? then error.value.verdict else None
    ensures conn != null ==> fresh(conn) && (conn.closed <==> error.Some?)
    ensures tunnel != null ==> conn != null && fresh(tunnel) && tunnel.conn == conn && tunnel.delivered == [] &&
                               Answers(w) && tunnel.Whole() == After(w)
  {
    conn, tunnel := null, null;
    if Memo.Known(memo).Some? {
      return null, null, Some(Error(Hop, Memo.Known(memo)));
    }
    Memo.Set(memo, Dial, None);
    if !w.dials {
      return null, null, Some(Error(Dial, None));
    }
    conn := new Conn(w.says);
    if w.tls.Some? {
      Memo.Set(memo, Tls, None);
      if !w.tls.value {
        conn.Close();
        return conn, null, Some(Error(Tls, None));
      }
    }
    Memo.Set(memo, Hop, None);
    tunnel, error := Converse(w, conn);
    if error.Some? {
      conn.Close();
      Memo.Set(memo, Hop, error.value.verdict);
      return conn, null, error;
    }
    Memo.Set(memo, Idle, None);
  }

  /** Attempts for one request, one after another, with the same memo: once the hop has refused, every later attempt
      fails with that refusal, whatever the world would do. */
  method Attempts(memo: Memo, worlds: seq<World>) returns (errors: seq<Option<Error>>)
    requires forall i :: 0 <= i < |worlds| ==> Arrives(worlds[i])
    modifies memo
    ensures |errors| == |worlds|
    ensures forall i, j :: 0 <= i < j < |errors| && errors[i].Some? && errors[i].value.verdict.Some? ==>
              errors[j] == Some(Error(Hop, errors[i].value.verdict))
  {
    errors := [];
    for k := 0 to |worlds|
      invariant |errors| == k
      invariant forall i :: 0 <= i < k && errors[i].Some? && errors[i].value.verdict.Some? ==>
                  memo.verdict == errors[i].value.verdict
      invariant forall i, j :: 0 <= i < j < k && errors[i].Some? && errors[i].value.verdict.Some? ==>
        errors[j] == Some(Error(Hop, errors[i].value.verdict))
    {
      var conn, tunnel, error := DialContext(memo, worlds[k]);
      errors := errors + [error];
    }
  }

  /** However a successful dial's answer arrives and however its tunnel is read, what comes out is a prefix of the bytes
      after the response's header section. */
  method DialAndRead(w: World, sizes: seq<nat>, arrivals: nat -> nat) returns (out: Option<seq<Byte>>)
    requires Arrives(w) && forall i :: arrivals(i) >= 1
    ensures out.Some? <==> Struck(w) == Idle
    ensures out.Some? ==> Answers(w) && out.value <= After(w)
    ensures out.Some? && (forall i :: 0 <= i < |sizes| ==> sizes[i] >= 1) ==>
              |out.value| >= |sizes| || out.value == After(w)
  {
    var conn, tunnel, error := DialContext(null, w);
    if tunnel == null {
      return None;
    }
    var read := tunnel.ReadAll(sizes, arrivals);
    out := Some(read);
  }

  /** A hop that answers with a header section and then `rest`: the dial succeeds exactly when everything else goes well
      and the status is a 2xx, and what is read from the tunnel is `rest` from its first byte on, all of it in the
      end. */
  method DialWritten(w: World, ghost lines: seq<Line>, ghost crlf: bool, ghost rest: seq<Byte>, sizes: seq<nat>,
                     arrivals: nat -> nat)
    returns (out: Option<seq<Byte>>)
    requires Arrives(w) && forall i :: arrivals(i) >= 1
    requires lines != [] && Lines(lines) && w.says == Head(lines, crlf) + rest
    ensures out.Some? <==>
              w.dials && w.tls != Some(false) && w.writes && w.parses && 200 <= w.status <= 299 && !w.expires
    ensures out.Some? ==> out.value <= rest
    ensures out.Some? && |sizes| > |rest| && (forall i :: 0 <= i < |sizes| ==> sizes[i] >= 1) ==> out.value == rest
  {
    HeadIsWritten(lines, crlf, rest);
    out := DialAndRead(w, sizes, arrivals);
    assert w.says[|Head(lines, crlf)|..] == rest;
  }

  /** A hop that stops before the blank line has not answered: there is no tunnel and no verdict. */
  method DialUnfinished(w: World, ghost lines: seq<Line>, ghost more: seq<Byte>)
    returns (tunnel: Tunnel?, error: Option<Error>)
    requires Arrives(w) && Lines(lines) && 10 !in more && w.says == Written(lines) + more
    ensures tunnel == null && error.Some? && error.value.verdict.None?
  {
    HeadIsUnfinished(lines, more);
    var conn;
    conn, tunnel, error := DialContext(null, w);
  }

  /** A hop that answers with anything but a 2xx: the verdict holds its status, and the first 4096 bytes, at most, of
      the body that the framing makes of what follows the header section. */
  method DialRefused(w: World, ghost lines: seq<Line>, ghost crlf: bool, ghost rest: seq<Byte>)
    returns (verdict: Verdict)
    requires Arrives(w) && w.dials && w.tls != Some(false) && w.writes && w.parses && !(200 <= w.status <= 299)
    requires lines != [] && Lines(lines) && w.says == Head(lines, crlf) + rest
    ensures verdict.status == w.status && verdict.body <= w.body(rest)
    ensures |verdict.body| == if |w.body(rest)| < 4096 then |w.body(rest)| else 4096
  {
    HeadIsWritten(lines, crlf, rest);
    assert w.says[|Head(lines, crlf)|..] == rest;
    var conn, tunnel, error := DialContext(null, w);
    verdict := error.value.verdict.value;
  }
}
