/**
 The receive loop over a growing buffer, for any frame parser whose verdicts are final: the events do not
 depend on how the stream was cut into chunks. `Frames` supplies the parser of the client.
 */
module Streams {
  import opened Bytes

  /** What a parser finds at the front of the buffer. `Bad`: a length that no string can have. */
  datatype Parsed = More | Bad | Got(opcode: nat, payload: seq<byte>, size: nat)

  type Parser = f: seq<byte> -> Parsed | forall s :: f(s).Got? ==> 0 < f(s).size <= |s|
    witness s => More

  /** A verdict is final when octets that arrive later do not change it. */
  ghost predicate Stable(f: Parser) {
    forall s, t :: f(s) != More ==> f(s + t) == f(s)
  }

  /** What the receive loop does with a frame: hand a data frame on, answer a ping, or nothing. */
  datatype Event = Packet(payload: seq<byte>) | PingReply(payload: seq<byte>)

  /** The loop goes on, the peer closed, or a length could not be allocated. */
  datatype Outcome = Running | Closed | Failed

  const CLOSE: nat := 0x8
  const PING: nat := 0x9

  function EventsOf(opcode: nat, payload: seq<byte>): seq<Event> {
    if opcode == PING then [PingReply(payload)]
    else if opcode == 0x1 || opcode == 0x2 || opcode == 0x0 then [Packet(payload)]
    else []
  }

  /** One pass of the parse loop: events, octets consumed, and whether the loop returned. */
  datatype Pass = Pass(events: seq<Event>, consumed: nat, outcome: Outcome)

  function ParseAll(f: Parser, s: seq<byte>): (r: Pass)
    ensures r.consumed <= |s|
    decreases |s|
  {
    match f(s)
    case More => Pass([], 0, Running)
    case Bad => Pass([], 0, Failed)
    case Got(opcode, payload, size) =>
      if opcode == CLOSE then Pass([], size, Closed)
      else
        var rest := ParseAll(f, s[size..]);
        Pass(EventsOf(opcode, payload) + rest.events, size + rest.consumed, rest.outcome)
  }

  /** The receive loop between two calls of `recv`: the octets not consumed yet and what has happened so far. */
  datatype Receiver = Receiver(rx: seq<byte>, events: seq<Event>, outcome: Outcome)

  const FRESH := Receiver([], [], Running)

  /** One call of `recv`; nothing is read after the loop has returned. */
  function Feed(f: Parser, r: Receiver, chunk: seq<byte>): Receiver {
    if r.outcome != Running then r
    else
      var pass := ParseAll(f, r.rx + chunk);
      Receiver((r.rx + chunk)[pass.consumed..], r.events + pass.events, pass.outcome)
  }

  function FeedAll(f: Parser, r: Receiver, chunks: seq<seq<byte>>): Receiver
    decreases |chunks|
  {
    if |chunks| == 0 then r else FeedAll(f, Feed(f, r, chunks[0]), chunks[1..])
  }

  function Concat(chunks: seq<seq<byte>>): seq<byte> {
    if |chunks| == 0 then [] else chunks[0] + Concat(chunks[1..])
  }

  /** More octets leave what was parsed, and continue where the pass stopped. */
  ghost predicate Continues(f: Parser, s: seq<byte>, t: seq<byte>) {
    var p, q := ParseAll(f, s), ParseAll(f, s + t);
    if p.outcome != Running then q == p
    else
      var r := ParseAll(f, s[p.consumed..] + t);
      q == Pass(p.events + r.events, p.consumed + r.consumed, r.outcome)
  }

  lemma Associative(a: seq<Event>, b: seq<Event>, c: seq<Event>)
    ensures a + (b + c) == (a + b) + c
  {}

  lemma DropTwice(s: seq<byte>, a: nat, b: nat, t: seq<byte>)
    requires a + b <= |s|
    ensures s[a..][b..] + t == s[a + b..] + t && (s + t)[a..] == s[a..] + t && (s + t)[a..][b..] == (s + t)[a + b..]
  {}

  /** A frame, and then a pass. */
  function After(opcode: nat, payload: seq<byte>, size: nat, rest: Pass): Pass {
    Pass(EventsOf(opcode, payload) + rest.events, size + rest.consumed, rest.outcome)
  }

  lemma FirstFrame(f: Parser, s: seq<byte>, opcode: nat, payload: seq<byte>, size: nat)
    requires f(s) == Got(opcode, payload, size) && opcode != CLOSE
    ensures ParseAll(f, s) == After(opcode, payload, size, ParseAll(f, s[size..]))
  {}

  /** A frame before both leaves the one pass the beginning of the other. */
  lemma AfterBoth(opcode: nat, payload: seq<byte>, size: nat, p: Pass, q: Pass, r: Pass)
    requires q == Pass(p.events + r.events, p.consumed + r.consumed, r.outcome)
    ensures var p', q' := After(opcode, payload, size, p), After(opcode, payload, size, q);
            q' == Pass(p'.events + r.events, p'.consumed + r.consumed, r.outcome)
  {
    Associative(EventsOf(opcode, payload), p.events, r.events);
  }

  lemma ContinuesStep(f: Parser, s: seq<byte>, t: seq<byte>, opcode: nat, payload: seq<byte>, size: nat)
    requires f(s + t) == f(s) == Got(opcode, payload, size) && opcode != CLOSE
    requires Continues(f, s[size..], t)
    ensures Continues(f, s, t)
  {
    var p, q := ParseAll(f, s[size..]), ParseAll(f, s[size..] + t);
    DropTwice(s, size, p.consumed, t);
    FirstFrame(f, s, opcode, payload, size);
    FirstFrame(f, s + t, opcode, payload, size);
    if p.outcome == Running {
      AfterBoth(opcode, payload, size, p, q, ParseAll(f, s[size + p.consumed..] + t));
    }
  }

  lemma {:induction false} ParseAllMore(f: Parser, s: seq<byte>, t: seq<byte>)
    requires Stable(f)
    ensures Continues(f, s, t)
    decreases |s|
  {
    match f(s) {
      case More =>
        assert s[0..] + t == s + t;
        var r := ParseAll(f, s + t);
        assert [] + r.events == r.events;
      case Bad =>
        assert f(s + t) == f(s);
      case Got(opcode, payload, size) =>
        assert f(s + t) == f(s);
        if opcode != CLOSE {
          ParseAllMore(f, s[size..], t);
          ContinuesStep(f, s, t, opcode, payload, size);
        }
    }
  }

  /** A pass leaves nothing that could still be parsed. */
  lemma {:induction false} PassIsComplete(f: Parser, s: seq<byte>)
    ensures ParseAll(f, s).outcome == Running ==> f(s[ParseAll(f, s).consumed..]) == More
    decreases |s|
  {
    match f(s) {
      case More => assert s[0..] == s;
      case Bad =>
      case Got(opcode, payload, size) =>
        if opcode != CLOSE {
          PassIsComplete(f, s[size..]);
          assert s[size..][ParseAll(f, s[size..]).consumed..] == s[ParseAll(f, s).consumed..];
        }
    }
  }

  lemma {:induction false} FeedAllStopped(f: Parser, r: Receiver, chunks: seq<seq<byte>>)
    requires r.outcome != Running
    ensures FeedAll(f, r, chunks) == r
    decreases |chunks|
  {
    if |chunks| > 0 {
      FeedAllStopped(f, r, chunks[1..]);
    }
  }

  /** From any point of a stream, only the concatenation of the chunks matters. */
  ghost predicate OnlyConcatMatters(f: Parser, r: Receiver, chunks: seq<seq<byte>>) {
    var end, pass := FeedAll(f, r, chunks), ParseAll(f, r.rx + Concat(chunks));
    && end.events == r.events + pass.events
    && end.outcome == pass.outcome
    && (end.outcome == Running ==> end.rx == (r.rx + Concat(chunks))[pass.consumed..] && f(end.rx) == More)
  }

  lemma ChunkStep(f: Parser, r: Receiver, chunks: seq<seq<byte>>)
    requires r.outcome == Running && |chunks| > 0
    requires Continues(f, r.rx + chunks[0], Concat(chunks[1..]))
    requires var next := Feed(f, r, chunks[0]);
             if next.outcome == Running then OnlyConcatMatters(f, next, chunks[1..])
             else FeedAll(f, next, chunks[1..]) == next
    ensures OnlyConcatMatters(f, r, chunks)
  {
    var s, t := r.rx + chunks[0], Concat(chunks[1..]);
    var whole := s + t;
    assert r.rx + Concat(chunks) == whole;
    var next, p, all := Feed(f, r, chunks[0]), ParseAll(f, s), ParseAll(f, whole);
    var end := FeedAll(f, next, chunks[1..]);
    assert FeedAll(f, r, chunks) == end;
    if next.outcome == Running {
      var q := ParseAll(f, next.rx + t);
      assert all == Pass(p.events + q.events, p.consumed + q.consumed, q.outcome);
      DropTwice(s, p.consumed, 0, t);
      DropTwice(whole, p.consumed, q.consumed, []);
      assert whole[p.consumed..] == next.rx + t;
      Associative(r.events, p.events, q.events);
      assert end.events == r.events + all.events;
    }
  }

  lemma {:induction false} ChunksDoNotMatter(f: Parser, r: Receiver, chunks: seq<seq<byte>>)
    requires Stable(f) && r.outcome == Running && f(r.rx) == More
    ensures OnlyConcatMatters(f, r, chunks)
    decreases |chunks|
  {
    if |chunks| == 0 {
      assert r.rx + Concat(chunks) == r.rx && r.rx[0..] == r.rx;
    } else {
      var s, t := r.rx + chunks[0], Concat(chunks[1..]);
      ParseAllMore(f, s, t);
      var next := Feed(f, r, chunks[0]);
      if next.outcome == Running {
        PassIsComplete(f, s);
        ChunksDoNotMatter(f, next, chunks[1..]);
      } else {
        FeedAllStopped(f, next, chunks[1..]);
      }
      ChunkStep(f, r, chunks);
    }
  }

  /** A pass over `s` has come to `pos` with these events: the rest of it is a pass over what follows. */
  ghost predicate PassReached(f: Parser, s: seq<byte>, events: seq<Event>, pos: nat)
    requires pos <= |s|
  {
    var r := ParseAll(f, s[pos..]);
    ParseAll(f, s) == Pass(events + r.events, pos + r.consumed, r.outcome)
  }

  lemma PassStart(f: Parser, s: seq<byte>)
    ensures PassReached(f, s, [], 0)
  {}

  /** The last round of the parse loop: octets are missing, or a length is impossible. */
  lemma PassEnds(f: Parser, s: seq<byte>, events: seq<Event>, pos: nat)
    requires pos <= |s| && PassReached(f, s, events, pos) && !f(s[pos..]).Got?
    ensures ParseAll(f, s) == Pass(events, pos, if f(s[pos..]) == Bad then Failed else Running)
  {}

  /** A round of the parse loop with a whole frame: `after` and `next` are what the loop has then. */
  lemma PassStep(f: Parser, s: seq<byte>, events: seq<Event>, pos: nat, p: Parsed, after: seq<Event>, next: nat)
    requires pos <= |s| && PassReached(f, s, events, pos)
    requires p.Got? && p == f(s[pos..]) && p.opcode != CLOSE
    requires after == events + EventsOf(p.opcode, p.payload) && next == pos + p.size
    ensures next <= |s| && PassReached(f, s, after, next)
  {
    assert s[pos..][p.size..] == s[next..];
    Associative(events, EventsOf(p.opcode, p.payload), ParseAll(f, s[next..]).events);
  }

  lemma PassCloses(f: Parser, s: seq<byte>, events: seq<Event>, pos: nat, p: Parsed)
    requires pos <= |s| && PassReached(f, s, events, pos)
    requires p.Got? && p == f(s[pos..]) && p.opcode == CLOSE
    ensures ParseAll(f, s) == Pass(events, pos + p.size, Closed)
  {}

  // ---- the loops as written ------------------------------------------------------------------------

  /** What the loop does with a frame, by its opcode. */
  method Dispatch(events: seq<Event>, opcode: nat, payload: seq<byte>) returns (more: seq<Event>)
    ensures more == events + EventsOf(opcode, payload)
  {
    if opcode == PING {
      more := events + [PingReply(payload)];
    } else if opcode == 0x1 || opcode == 0x2 || opcode == 0x0 {
      more := events + [Packet(payload)];
    } else {
      more := events;
    }
  }

  /** Parse as many complete frames as are buffered. */
  method ParseBuffered(f: Parser, rx: seq<byte>) returns (events: seq<Event>, pos: nat, outcome: Outcome)
    ensures Pass(events, pos, outcome) == ParseAll(f, rx)
  {
    PassStart(f, rx);
    events, pos := [], 0;
    while true
      invariant pos <= |rx| && PassReached(f, rx, events, pos)
      decreases |rx| - pos
    {
      var rest := rx[pos..];
      var p := f(rest);
      match p {
        case Got(opcode, payload, size) =>
          if opcode == CLOSE {
            PassCloses(f, rx, events, pos, p);
            return events, pos + size, Closed;
          }
          var more := Dispatch(events, opcode, payload);
          PassStep(f, rx, events, pos, p, more, pos + size);
          events, pos := more, pos + size;
        case _ =>
          PassEnds(f, rx, events, pos);
          return events, pos, if p == Bad then Failed else Running;
      }
    }
  }

  /** The receive loop on the chunks that `recv` delivers: append, parse, erase what was consumed. */
  method ReceiveLoop(f: Parser, chunks: seq<seq<byte>>) returns (events: seq<Event>, rx: seq<byte>, outcome: Outcome)
    ensures Receiver(rx, events, outcome) == FeedAll(f, FRESH, chunks)
  {
    events, rx, outcome := [], [], Running;
    var i := 0;
    while i < |chunks| && outcome == Running
      invariant i <= |chunks|
      invariant FeedAll(f, FRESH, chunks) == FeedAll(f, Receiver(rx, events, outcome), chunks[i..])
    {
      assert chunks[i..][1..] == chunks[i + 1..];
      rx := rx + chunks[i];
      var more, pos;
      more, pos, outcome := ParseBuffered(f, rx);
      events := events + more;
      rx := rx[pos..];
      i := i + 1;
    }
    if outcome != Running {
      FeedAllStopped(f, Receiver(rx, events, outcome), chunks[i..]);
    }
  }
}
