// The framing between host and guest agent: a 4-byte big-endian length and that many bytes.

module Framing {
  import opened Arithmetic
  import opened Basics

  newtype byte = x: int | 0 <= x < 0x100

  type Bytes = seq<byte>

  const MAX_FRAME: nat := 0x80_0000
  const MAX_REQUESTS: nat := 0x10_0000

  // The low k bytes of a number, most significant first.
  function BigEndian(n: nat, k: nat): (h: Bytes)
    ensures |h| == k
  {
    if k == 0 then [] else BigEndian(n / 0x100, k - 1) + [(n % 0x100) as byte]
  }

  function ValueOf(h: Bytes): nat {
    if h == [] then 0 else 0x100 * ValueOf(h[..|h| - 1]) + h[|h| - 1] as nat
  }

  function Power(k: nat): nat {
    if k == 0 then 1 else 0x100 * Power(k - 1)
  }

  // The length is written as an unsigned 32-bit number, whatever is lost by that.
  function Header(n: nat): Bytes {
    BigEndian(n, 4)
  }

  function Frame(payload: Bytes): Bytes {
    Header(|payload|) + payload
  }

  lemma {:induction false} BigEndianRoundTrip(n: nat, k: nat)
    ensures Power(k) > 0 && ValueOf(BigEndian(n, k)) == n % Power(k)
  {
    if k > 0 {
      BigEndianRoundTrip(n / 0x100, k - 1);
      var h := BigEndian(n, k);
      assert h[..k - 1] == BigEndian(n / 0x100, k - 1);
      LowByte(n, Power(k - 1));
    }
  }

  // Appending a digit multiplies the modulus.
  lemma LowByte(n: nat, p: nat)
    requires p > 0
    ensures n % (0x100 * p) == 0x100 * (n / 0x100 % p) + n % 0x100
  {
    var m, d := n / 0x100, n % 0x100;
    QuotientSplits(m, p);
    var q, r := m / p, m % p;
    assert 0x100 * p > 0;
    MultipleAssociates(q, p, 0x100);
    MultipleNext(q, 0x100 * p);
    assert Multiple(Multiple(q, p), 0x100) == 0x100 * (m - r);
    MultipleIsQuotient(n, 0x100 * p, q);
  }

  lemma HeaderWraps(n: nat)
    ensures ValueOf(Header(n)) == n % 0x1_0000_0000
  {
    BigEndianRoundTrip(n, 4);
    assert Power(4) == 0x1_0000_0000 by {
      assert Power(1) == 0x100 && Power(2) == 0x1_0000;
      assert Power(3) == 0x100_0000;
    }
  }

  lemma HeaderRoundTrip(n: nat)
    requires n < 0x1_0000_0000
    ensures ValueOf(Header(n)) == n
  {
    HeaderWraps(n);
  }

  // What a read finds. EndOfStream is the plain end that a caller takes for a closed
  // connection; Truncated is an end in the middle.
  datatype Reading = Payload(payload: Bytes, rest: Bytes) | EndOfStream | Truncated | BadSize

  function Parse(s: Bytes): Reading {
    if s == [] then EndOfStream
    else if |s| < 4 then Truncated
    else
      var size := ValueOf(s[..4]);
      if size == 0 || size > MAX_FRAME then BadSize
      else if |s| == 4 then EndOfStream
      else if |s| < 4 + size then Truncated
      else Payload(s[4..4 + size], s[4 + size..])
  }

  predicate Sendable(payload: Bytes) {
    0 < |payload| <= MAX_FRAME
  }

  // A frame is read back, and nothing of what follows is touched, exactly when its payload
  // has an admissible size. The writer does not check that; what is read then has the size
  // that is left of the length in 32 bits, if that is admissible, and is refused otherwise.
  lemma FrameRoundTripIff(payload: Bytes, rest: Bytes)
    ensures Parse(Frame(payload) + rest) == Payload(payload, rest) <==> Sendable(payload)
    ensures
      var size := |payload| % 0x1_0000_0000;
      Parse(Frame(payload) + rest) ==
      if 0 < size <= MAX_FRAME then Payload(payload[..size], payload[size..] + rest) else BadSize
  {
    var s, size := Frame(payload) + rest, |payload| % 0x1_0000_0000;
    HeaderWraps(|payload|);
    assert s[..4] == Header(|payload|);
    assert size <= |payload|;
    assert s[4..4 + size] == payload[..size];
    assert s[4 + size..] == payload[size..] + rest;
    if Sendable(payload) {
      assert payload[..size] == payload && payload[size..] + rest == rest;
    } else if 0 < size <= MAX_FRAME {
      assert |payload[..size]| != |payload|;
    }
  }

  lemma FrameRoundTrip(payload: Bytes, rest: Bytes)
    requires Sendable(payload)
    ensures Parse(Frame(payload) + rest) == Payload(payload, rest)
  {
    FrameRoundTripIff(payload, rest);
  }

  // The plain end is reported at the end, and also right after a header.
  lemma EndOfStreamIff(s: Bytes)
    ensures Parse(s) == EndOfStream <==> s == [] || (|s| == 4 && 0 < ValueOf(s) <= MAX_FRAME)
  {
    if |s| == 4 {
      assert s[..4] == s;
    }
  }

  // How reading frame after frame ends.
  datatype Ending = Clean | Cut | Refused

  function ReadAll(s: Bytes): (seq<Bytes>, Ending)
    decreases |s|
  {
    match Parse(s)
    case EndOfStream => ([], Clean)
    case Truncated => ([], Cut)
    case BadSize => ([], Refused)
    case Payload(payload, rest) =>
      var (more, ending) := ReadAll(rest);
      ([payload] + more, ending)
  }

  function Frames(payloads: seq<Bytes>): Bytes {
    if payloads == [] then [] else Frame(payloads[0]) + Frames(payloads[1..])
  }

  predicate AllSendable(payloads: seq<Bytes>) {
    forall i | 0 <= i < |payloads| :: Sendable(payloads[i])
  }

  lemma {:induction false} FramesRoundTrip(payloads: seq<Bytes>)
    requires AllSendable(payloads)
    ensures ReadAll(Frames(payloads)) == (payloads, Clean)
    decreases |payloads|
  {
    if payloads != [] {
      FrameRoundTrip(payloads[0], Frames(payloads[1..]));
      FramesRoundTrip(payloads[1..]);
      assert payloads == [payloads[0]] + payloads[1..];
    }
  }

  // The number of frames that lie within the first k bytes, and the length of the rest.
  function Whole(payloads: seq<Bytes>, k: nat): (nat, nat) {
    if payloads == [] || k < 4 + |payloads[0]| then (0, k)
    else
      var (n, left) := Whole(payloads[1..], k - 4 - |payloads[0]|);
      (n + 1, left)
  }

  lemma BrokenFrame(payload: Bytes, k: nat)
    requires Sendable(payload) && k < 4 + |payload|
    ensures Parse(Frame(payload)[..k]) == if k == 0 || k == 4 then EndOfStream else Truncated
  {
    var s := Frame(payload)[..k];
    HeaderRoundTrip(|payload|);
    if k >= 4 {
      assert s[..4] == Header(|payload|);
    }
  }

  // A connection that breaks after k bytes: the whole frames are delivered, no other bytes
  // are, and the end looks clean exactly at a frame boundary or right after a header.
  lemma {:induction false} BrokenConnection(payloads: seq<Bytes>, k: nat)
    requires AllSendable(payloads) && k <= |Frames(payloads)|
    ensures
      var (n, left) := Whole(payloads, k);
      && n <= |payloads|
      && ReadAll(Frames(payloads)[..k]) == (payloads[..n], if left == 0 || left == 4 then Clean else Cut)
    decreases |payloads|
  {
    var s := Frames(payloads)[..k];
    if payloads == [] {
      assert s == [];
    } else if k < 4 + |payloads[0]| {
      assert s == Frame(payloads[0])[..k];
      BrokenFrame(payloads[0], k);
    } else {
      var k' := k - 4 - |payloads[0]|;
      assert s == Frame(payloads[0]) + Frames(payloads[1..])[..k'];
      FrameRoundTrip(payloads[0], Frames(payloads[1..])[..k']);
      BrokenConnection(payloads[1..], k');
      var n := Whole(payloads[1..], k').0;
      assert payloads[..n + 1] == [payloads[0]] + payloads[1..][..n];
    }
  }

  // ---------------------------------------------------------------------------
  // Reading from a connection

  class Connection {
    const reliable: bool    // what is written gets through
    const incoming: Bytes
    var pos: nat
    var outgoing: Bytes

    constructor (incoming: Bytes, reliable: bool)
      ensures this.incoming == incoming && this.reliable == reliable && pos == 0 && outgoing == []
    {
      this.incoming, this.reliable := incoming, reliable;
      pos, outgoing := 0, [];
    }

    ghost predicate Valid()
      reads this
    {
      pos <= |incoming|
    }

    function Left(): Bytes
      requires Valid()
      reads this
    {
      incoming[pos..]
    }

    // Fills a buffer of n bytes, or takes all that is left; got is how many there were.
    method ReadFull(n: nat) returns (data: Bytes, got: nat)
      requires Valid()
      modifies this`pos
      ensures Valid() && got == |data| <= n && pos == old(pos) + got
      ensures data == old(Left())[..got] && Left() == old(Left())[got..]
      ensures got < n ==> Left() == []
    {
      got := if |incoming| - pos < n then |incoming| - pos else n;
      data := incoming[pos..pos + got];
      pos := pos + got;
    }

    method ReadFrame() returns (r: Reading)
      requires Valid()
      modifies this`pos
      ensures Valid() && r == Parse(old(Left()))
      ensures r.Payload? ==> Left() == r.rest && pos > old(pos)
    {
      ghost var left := Left();
      var head, got := ReadFull(4);
      if got == 0 {
        return EndOfStream;
      }
      if got < 4 {
        return Truncated;
      }
      assert head == left[..4];
      var size := ValueOf(head);
      if size == 0 || size > MAX_FRAME {
        return BadSize;
      }
      var data, n := ReadFull(size);
      if n == 0 {
        return EndOfStream;
      }
      if n < size {
        return Truncated;
      }
      assert data == left[4..4 + size];
      return Payload(data, incoming[pos..]);
    }

    // A write that fails may have sent part of the frame.
    method WriteFrame(payload: Bytes) returns (ok: bool)
      modifies this`outgoing
      ensures reliable ==> ok
      ensures ok <==> outgoing == old(outgoing) + Frame(payload)
      ensures old(outgoing) <= outgoing <= old(outgoing) + Frame(payload)
    {
      ok := Reach(reliable);
      if ok {
        outgoing := outgoing + Header(|payload|);
        outgoing := outgoing + payload;
      } else {
        var sent: int := *;
        if 0 <= sent < |Frame(payload)| {
          outgoing := outgoing + Frame(payload)[..sent];
        }
      }
    }
  }

  // ---------------------------------------------------------------------------
  // Serving requests

  // What the agent makes of a payload: a request to disconnect, a request to run something,
  // or something that does not decode.
  datatype Request = Disconnect | Run(answer: Bytes) | Garbled

  datatype Service = Service(understand: Bytes -> Request, farewell: Bytes)

  // The answers to a list of requests, up to the first that asks to disconnect.
  function Answers(v: Service, requests: seq<Bytes>): seq<Bytes> {
    if requests == [] then []
    else
      match v.understand(requests[0])
      case Disconnect => [v.farewell]
      case Run(answer) => [answer] + Answers(v, requests[1..])
      case Garbled => []
  }

  // One answer more for a prefix that runs through.
  lemma {:induction false} AnswersExtend(v: Service, requests: seq<Bytes>, last: Bytes)
    requires forall i | 0 <= i < |requests| :: v.understand(requests[i]).Run?
    ensures Answers(v, requests + [last]) == Answers(v, requests) + Answers(v, [last])
    ensures |Answers(v, requests)| == |requests|
  {
    if requests != [] {
      assert (requests + [last])[1..] == requests[1..] + [last];
      AnswersExtend(v, requests[1..], last);
    } else {
      assert [] + [last] == [last];
    }
  }

  lemma {:induction false} FramesJoin(a: seq<Bytes>, b: seq<Bytes>)
    ensures Frames(a + b) == Frames(a) + Frames(b)
  {
    if a == [] {
      assert a + b == b;
    } else {
      assert (a + b)[1..] == a[1..] + b;
      FramesJoin(a[1..], b);
    }
  }

  // How a session over some input goes when everything written gets through: the number of
  // payloads that are read, and whether it ends without an error. At most limit are read.
  function Session(v: Service, s: Bytes, limit: nat): (nat, bool)
    decreases limit
  {
    if limit == 0 then (0, false)
    else
      match Parse(s)
      case EndOfStream => (0, true)
      case Truncated => (0, false)
      case BadSize => (0, false)
      case Payload(payload, rest) =>
        match v.understand(payload)
        case Disconnect => (1, true)
        case Garbled => (1, false)
        case Run(_) => var (n, ok) := Session(v, rest, limit - 1); (n + 1, ok)
  }

  predicate AllRun(v: Service, requests: seq<Bytes>) {
    forall i | 0 <= i < |requests| :: v.understand(requests[i]).Run?
  }

  // So far the requests have been read from s and answered, and left is still to be read.
  ghost predicate Served(v: Service, s: Bytes, requests: seq<Bytes>, left: Bytes, before: Bytes, after: Bytes,
                         limit: nat)
  {
    && |requests| <= limit && AllRun(v, requests)
    && ReadSoFar(s, requests, left)
    && after == before + Frames(Answers(v, requests))
    && SessionSoFar(v, s, |requests|, left, limit)
  }

  ghost predicate ReadSoFar(s: Bytes, requests: seq<Bytes>, left: Bytes) {
    ReadAll(s).0 == requests + ReadAll(left).0
  }

  ghost predicate SessionSoFar(v: Service, s: Bytes, k: nat, left: Bytes, limit: nat)
    requires k <= limit
  {
    var (n, ok) := Session(v, left, limit - k);
    Session(v, s, limit) == (k + n, ok)
  }

  lemma ServedNothing(v: Service, s: Bytes, before: Bytes, limit: nat)
    ensures Served(v, s, [], s, before, before, limit)
  {
    assert [] + ReadAll(s).0 == ReadAll(s).0;
    assert before + Frames(Answers(v, [])) == before;
  }

  // The limit is reached, or the input is at its end or goes on with something that is not a
  // frame.
  lemma ServedAll(v: Service, s: Bytes, k: nat, left: Bytes, limit: nat)
    requires k <= limit && SessionSoFar(v, s, k, left, limit)
    ensures k < limit && !Parse(left).Payload? ==> Session(v, s, limit) == (k, Parse(left).EndOfStream?)
    ensures k == limit ==> Session(v, s, limit) == (k, false)
  {
  }

  lemma ReadOne(s: Bytes, requests: seq<Bytes>, left: Bytes, payload: Bytes, rest: Bytes)
    requires ReadSoFar(s, requests, left) && Parse(left) == Payload(payload, rest)
    ensures ReadSoFar(s, requests + [payload], rest)
    ensures requests + [payload] <= ReadAll(s).0
  {
    JoinOne(requests, payload, ReadAll(rest).0);
  }

  lemma JoinOne<T>(a: seq<T>, x: T, b: seq<T>)
    ensures a + ([x] + b) == a + [x] + b
    ensures a + [x] <= a + ([x] + b)
  {
  }

  lemma SessionOne(v: Service, s: Bytes, k: nat, left: Bytes, payload: Bytes, rest: Bytes, limit: nat)
    requires k < limit && SessionSoFar(v, s, k, left, limit) && Parse(left) == Payload(payload, rest)
    ensures v.understand(payload).Run? ==> SessionSoFar(v, s, k + 1, rest, limit)
    ensures !v.understand(payload).Run? ==> Session(v, s, limit) == (k + 1, v.understand(payload).Disconnect?)
  {
  }

  // One more payload was read, and next is what had been written afterwards.
  lemma ServeOne(v: Service, s: Bytes, requests: seq<Bytes>, left: Bytes, before: Bytes, after: Bytes, payload: Bytes,
                 rest: Bytes, next: Bytes, limit: nat)
    requires Served(v, s, requests, left, before, after, limit) && |requests| < limit
    requires Parse(left) == Payload(payload, rest) && after <= next <= after + Frames(Answers(v, [payload]))
    ensures requests + [payload] <= ReadAll(s).0
    ensures Between(v, requests + [payload], before, next)
    ensures next == after + Frames(Answers(v, [payload])) <==> next == before + Frames(Answers(v, requests + [payload]))
    ensures next == after + Frames(Answers(v, [payload])) && v.understand(payload).Run? ==>
              Served(v, s, requests + [payload], rest, before, next, limit)
    ensures !v.understand(payload).Run? ==>
              Session(v, s, limit) == (|requests| + 1, v.understand(payload).Disconnect?)
  {
    ReadOne(s, requests, left, payload, rest);
    SessionOne(v, s, |requests|, left, payload, rest, limit);
    AnswerOne(v, requests, before, after, payload, next);
  }

  // All answers but the last have been written, and the last one perhaps in part.
  ghost predicate Between(v: Service, requests: seq<Bytes>, before: Bytes, now: Bytes) {
    if requests == [] then now == before
    else before + Frames(Answers(v, requests[..|requests| - 1])) <= now <= before + Frames(Answers(v, requests))
  }

  lemma AnswerOne(v: Service, requests: seq<Bytes>, before: Bytes, after: Bytes, payload: Bytes, next: Bytes)
    requires after == before + Frames(Answers(v, requests)) && AllRun(v, requests)
    requires after <= next <= after + Frames(Answers(v, [payload]))
    ensures after + Frames(Answers(v, [payload])) == before + Frames(Answers(v, requests + [payload]))
    ensures Between(v, requests + [payload], before, next)
  {
    AnswersExtend(v, requests, payload);
    FramesJoin(Answers(v, requests), Answers(v, [payload]));
    Associate(before, Frames(Answers(v, requests)), Frames(Answers(v, [payload])));
    assert (requests + [payload])[..|requests|] == requests;
  }

  lemma Associate(a: Bytes, b: Bytes, c: Bytes)
    ensures a + b + c == a + (b + c)
  {
  }

  // Answers one payload; more tells whether to go on after it.
  method Respond(c: Connection, v: Service, payload: Bytes) returns (ok: bool, more: bool)
    modifies c`outgoing
    ensures c.outgoing == old(c.outgoing) + Frames(Answers(v, [payload])) <==> ok || v.understand(payload).Garbled?
    ensures old(c.outgoing) <= c.outgoing <= old(c.outgoing) + Frames(Answers(v, [payload]))
    ensures ok ==> if more then v.understand(payload).Run? else v.understand(payload).Disconnect?
    ensures c.reliable ==> (ok <==> !v.understand(payload).Garbled?)
  {
    assert [payload][1..] == [];
    match v.understand(payload) {
      case Garbled =>
        return false, false;
      case Disconnect =>
        ok := c.WriteFrame(v.farewell);
        more := false;
      case Run(answer) =>
        ok := c.WriteFrame(answer);
        more := true;
    }
  }

  // Serves until the stream ends or a request asks to disconnect. The payloads that are read
  // are answered in order, and nothing else is written. Unless a write breaks off, which is
  // then the last one and an error, the session goes as it should.
  method Serve(c: Connection, v: Service) returns (ok: bool, ghost requests: seq<Bytes>)
    requires c.Valid()
    modifies c
    ensures c.Valid() && requests <= ReadAll(old(c.Left())).0
    ensures ok || c.reliable ==> c.outgoing == old(c.outgoing) + Frames(Answers(v, requests))
    ensures c.outgoing == old(c.outgoing) + Frames(Answers(v, requests)) ==>
              (|requests|, ok) == Session(v, old(c.Left()), MAX_REQUESTS)
    ensures Between(v, requests, old(c.outgoing), c.outgoing)
  {
    ghost var s, before, limit: nat := c.Left(), c.outgoing, MAX_REQUESTS;
    requests := [];
    ServedNothing(v, s, before, limit);
    for count := 0 to MAX_REQUESTS
      invariant c.Valid() && |requests| == count
      invariant Served(v, s, requests, c.Left(), before, c.outgoing, limit)
      invariant requests <= ReadAll(s).0 && Between(v, requests, before, c.outgoing)
    {
      ghost var left, after := c.Left(), c.outgoing;
      var r := c.ReadFrame();
      if !r.Payload? {
        ServedAll(v, s, count, left, limit);
        return r.EndOfStream?, requests;
      }
      var more;
      ok, more := Respond(c, v, r.payload);
      ServeOne(v, s, requests, left, before, after, r.payload, r.rest, c.outgoing, limit);
      requests := requests + [r.payload];
      if !ok || !more {
        return;
      }
    }
    ServedAll(v, s, MAX_REQUESTS, c.Left(), limit);
    ok := false;
  }

  // Requests that only ask to run something are all read, if there are fewer than the limit,
  // and the session ends without an error exactly when the stream ends cleanly.
  lemma {:induction false} RunsAreServed(v: Service, s: Bytes, limit: nat)
    requires AllRun(v, ReadAll(s).0) && |ReadAll(s).0| < limit
    ensures Session(v, s, limit) == (|ReadAll(s).0|, ReadAll(s).1 == Clean)
    decreases limit
  {
    match Parse(s)
    case Payload(payload, rest) =>
      assert ReadAll(s).0[0] == payload && ReadAll(s).0[1..] == ReadAll(rest).0;
      forall i | 0 <= i < |ReadAll(rest).0| ensures v.understand(ReadAll(rest).0[i]).Run? {
        assert ReadAll(s).0[i + 1] == ReadAll(rest).0[i];
      }
      RunsAreServed(v, rest, limit - 1);
    case _ =>
  }

  // And each has its own answer.
  lemma {:induction false} OneAnswerEach(v: Service, requests: seq<Bytes>)
    requires AllRun(v, requests)
    ensures |Answers(v, requests)| == |requests|
    ensures forall i | 0 <= i < |requests| :: v.understand(requests[i]) == Run(Answers(v, requests)[i])
  {
    if requests != [] {
      assert forall i | 0 <= i < |requests[1..]| :: requests[1..][i] == requests[i + 1];
      OneAnswerEach(v, requests[1..]);
    }
  }

  // A host that sends fewer than 2^20 requests to run something, and then closes: the agent's
  // session reads them all and ends without an error, and from what it writes the host reads
  // back one answer for each request, in order.
  lemma ConversationIsAnswered(v: Service, requests: seq<Bytes>)
    requires AllSendable(requests) && AllRun(v, requests) && |requests| < MAX_REQUESTS
    requires AllSendable(Answers(v, requests))
    ensures Session(v, Frames(requests), MAX_REQUESTS) == (|requests|, true)
    ensures ReadAll(Frames(requests)).0 == requests
    ensures ReadAll(Frames(Answers(v, requests))) == (Answers(v, requests), Clean)
    ensures |Answers(v, requests)| == |requests|
    ensures forall i | 0 <= i < |requests| :: v.understand(requests[i]) == Run(Answers(v, requests)[i])
  {
    FramesRoundTrip(requests);
    FramesRoundTrip(Answers(v, requests));
    RunsAreServed(v, Frames(requests), MAX_REQUESTS);
    OneAnswerEach(v, requests);
  }

  // The same through the agent's own loop: what it leaves on the connection reads back as one
  // answer for each request.
  method Converse(v: Service, requests: seq<Bytes>) returns (ok: bool, answers: seq<Bytes>)
    requires AllSendable(requests) && AllRun(v, requests) && |requests| < MAX_REQUESTS
    requires AllSendable(Answers(v, requests))
    ensures ok && |answers| == |requests|
    ensures forall i | 0 <= i < |requests| :: v.understand(requests[i]) == Run(answers[i])
  {
    var c := new Connection(Frames(requests), true);
    ghost var received;
    ok, received := Serve(c, v);
    ConversationIsAnswered(v, requests);
    answers := ReadAll(c.outgoing).0;
    assert c.incoming[0..] == c.incoming;
    assert received == requests;
    assert [] + Frames(Answers(v, requests)) == Frames(Answers(v, requests));
  }
}
