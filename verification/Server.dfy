/** The server: one handler per store, serving the requests of a connection one after the other. */
module Server {
  import opened Wrappers
  import opened Blocks
  import opened Wire

  /** What a connection does to the table, what it is sent back, and why it ends. */
  datatype Session = Session(table: Table, output: Bytes, err: ReadError)

  /** Requests are answered until the input runs out; `faults(n)` is the store's error for the n-th request. */
  function Serve(table: Table, input: Bytes, faults: nat -> Option<Bytes>, n: nat): Session
    decreases |input|
  {
    var parsed := Parse(input);
    if parsed.Failure? then Session(table, [], parsed.error)
    else
      ParsedFits(input);
      var (table', reply) := Answer(table, parsed.value.0, faults(n));
      var later := Serve(table', parsed.value.1, faults, n + 1);
      Session(later.table, EncodeReply(reply) + later.output, later.err)
  }

  /** One direction of a connection. */
  class Pipe {
    var data: Bytes

    constructor ()
      ensures data == []
    {
      data := [];
    }

    method Write(bytes: Bytes)
      modifies this
      ensures data == old(data) + bytes
    {
      data := data + bytes;
    }

    /** `io.ReadFull`: all the bytes asked for, or an error after everything that was left. */
    method Read(n: nat) returns (r: Result<Bytes, ReadError>)
      modifies this
      ensures match ReadFull(old(data), n)
              case Success(parts) => r == Success(parts.0) && data == parts.1
              case Failure(e) => r == Failure(e) && data == []
    {
      if n <= |data| {
        r := Success(data[..n]);
        data := data[n..];
      } else {
        r := Failure(if data == [] then EOF else UnexpectedEOF);
        data := [];
      }
    }
  }

  class Handler {
    var store: Table

    constructor ()
      ensures store == map[]
    {
      store := map[];
    }

    method WriteStatus(output: Pipe, status: byte)
      modifies output
      ensures output.data == old(output.data) + EncodeReply(Status(status))
    {
      output.Write([status]);
    }

    /** The reply is laid out in one buffer: status, length, value. */
    method WriteValue(output: Pipe, val: Bytes)
      modifies output
      ensures output.data == old(output.data) + EncodeReply(Value(val))
    {
      var buf := FilledBuffer(STATUS_OK, val);
      output.Write(buf[..]);
    }

    method WriteError(output: Pipe, msg: Bytes)
      modifies output
      ensures output.data == old(output.data) + EncodeReply(Fault(msg))
    {
      var buf := FilledBuffer(STATUS_ERROR, msg);
      output.Write(buf[..]);
    }

    method FilledBuffer(status: byte, val: Bytes) returns (buf: array<byte>)
      ensures fresh(buf) && buf[..] == [status] + PutUint32(|val|) + val
    {
      buf := new byte[1 + 4 + |val|](_ => 0);
      buf[0] := status;
      var len := PutUint32(|val|);
      buf[1], buf[2], buf[3], buf[4] := len[0], len[1], len[2], len[3];
      forall i | 0 <= i < |val| {
        buf[5 + i] := val[i];
      }
    }

    method HandleGet(output: Pipe, key: Bytes, fault: Option<Bytes>)
      modifies output
      ensures output.data == old(output.data) + EncodeReply(Answer(store, Get(key), fault).1)
    {
      if fault.Some? {
        WriteError(output, fault.value);
      } else if key !in store {
        WriteStatus(output, STATUS_NOT_FOUND);
      } else {
        WriteValue(output, store[key]);
      }
    }

    method HandleSet(input: Pipe, output: Pipe, key: Bytes, fault: Option<Bytes>) returns (err: Option<ReadError>)
      requires input != output
      modifies this, input, output
      ensures match ReadFull(old(input.data), 4)
              case Failure(e) => err == Some(e) && input.data == [] && store == old(store)
                && output.data == old(output.data)
              case Success(len) =>
                match ReadFull(len.1, Uint32(len.0))
                case Failure(e) => err == Some(e) && input.data == [] && store == old(store)
                  && output.data == old(output.data)
                case Success(val) =>
                  && err == None && input.data == val.1 && store == Answer(old(store), Set(key, val.0), fault).0
                  && output.data == old(output.data) + EncodeReply(Answer(old(store), Set(key, val.0), fault).1)
    {
      var valLen := input.Read(4);
      if valLen.Failure? {
        return Some(valLen.error);
      }
      var val := input.Read(Uint32(valLen.value));
      if val.Failure? {
        return Some(val.error);
      }
      if fault.Some? {
        WriteError(output, fault.value);
      } else {
        store := store[key := val.value];
        WriteStatus(output, STATUS_OK);
      }
      err := None;
    }

    method HandleDelete(output: Pipe, key: Bytes, fault: Option<Bytes>)
      modifies this, output
      ensures store == Answer(old(store), Delete(key), fault).0
      ensures output.data == old(output.data) + EncodeReply(Answer(old(store), Delete(key), fault).1)
    {
      if fault.Some? {
        WriteError(output, fault.value);
      } else {
        store := store - {key};
        WriteStatus(output, STATUS_OK);
      }
    }

    /** One request: parsed completely before anything is changed or sent. */
    method Handle(input: Pipe, output: Pipe, fault: Option<Bytes>) returns (err: Option<ReadError>)
      requires input != output
      modifies this, input, output
      ensures match Parse(old(input.data))
              case Failure(e) => err == Some(e) && input.data == [] && store == old(store)
                && output.data == old(output.data)
              case Success(parsed) =>
                && err == None && input.data == parsed.1 && store == Answer(old(store), parsed.0, fault).0
                && output.data == old(output.data) + EncodeReply(Answer(old(store), parsed.0, fault).1)
    {
      var op := input.Read(1);
      if op.Failure? {
        return Some(op.error);
      }
      var keyLen := input.Read(4);
      if keyLen.Failure? {
        return Some(keyLen.error);
      }
      var key := input.Read(Uint32(keyLen.value));
      if key.Failure? {
        return Some(key.error);
      }
      err := None;
      if op.value[0] == OP_GET {
        HandleGet(output, key.value, fault);
      } else if op.value[0] == OP_SET {
        err := HandleSet(input, output, key.value, fault);
      } else if op.value[0] == OP_DELETE {
        HandleDelete(output, key.value, fault);
      } else {
        WriteError(output, Ascii("unknown op: ") + Digits(op.value[0]));
      }
    }

    /** A connection is served until a request cannot be read. */
    method HandleConn(input: Pipe, output: Pipe, faults: nat -> Option<Bytes>) returns (err: ReadError)
      requires input != output
      modifies this, input, output
      ensures store == Serve(old(store), old(input.data), faults, 0).table
      ensures output.data == old(output.data) + Serve(old(store), old(input.data), faults, 0).output
      ensures err == Serve(old(store), old(input.data), faults, 0).err && input.data == []
    {
      ghost var whole := Serve(store, input.data, faults, 0);
      ghost var before := output.data;
      var n := 0;
      while true
        invariant Remains(whole, before, output.data, Serve(store, input.data, faults, n))
        decreases |input.data|
      {
        ghost var table, at, sent := store, input.data, output.data;
        var failed := Handle(input, output, faults(n));
        if failed.Some? {
          LastRemains(whole, before, sent, table, at, faults, n);
          return failed.value;
        }
        NextRemains(whole, before, sent, table, at, faults, n);
        n := n + 1;
      }
    }
  }

  /** What has been sent and what is still to come make up the whole session. */
  ghost predicate Remains(whole: Session, before: Bytes, sent: Bytes, rest: Session) {
    rest.table == whole.table && sent + rest.output == before + whole.output && rest.err == whole.err
  }

  lemma LastRemains(whole: Session, before: Bytes, sent: Bytes, table: Table, input: Bytes,
                    faults: nat -> Option<Bytes>, n: nat)
    requires Remains(whole, before, sent, Serve(table, input, faults, n)) && Parse(input).Failure?
    ensures table == whole.table && sent == before + whole.output && Parse(input).error == whole.err
  {
    assert sent + [] == sent;
  }

  lemma NextRemains(whole: Session, before: Bytes, sent: Bytes, table: Table, input: Bytes,
                    faults: nat -> Option<Bytes>, n: nat)
    requires Remains(whole, before, sent, Serve(table, input, faults, n)) && Parse(input).Success?
    ensures var (req, rest) := Parse(input).value;
            var (table', reply) := Answer(table, req, faults(n));
            Remains(whole, before, sent + EncodeReply(reply), Serve(table', rest, faults, n + 1)) && |rest| < |input|
  {
    ParsedFits(input);
    var (req, rest) := Parse(input).value;
    var (table', reply) := Answer(table, req, faults(n));
    Regroup(sent, EncodeReply(reply), Serve(table', rest, faults, n + 1).output);
  }

  // ---------- pipelining ----------

  function Stream(reqs: seq<Request>): Bytes {
    if reqs == [] then [] else EncodeRequest(reqs[0]) + Stream(reqs[1..])
  }

  function Answers(table: Table, reqs: seq<Request>, faults: nat -> Option<Bytes>, n: nat): (Table, seq<Reply>)
    decreases |reqs|
  {
    if reqs == [] then (table, [])
    else
      var (table', reply) := Answer(table, reqs[0], faults(n));
      var later := Answers(table', reqs[1..], faults, n + 1);
      (later.0, [reply] + later.1)
  }

  function Replies(replies: seq<Reply>): Bytes {
    if replies == [] then [] else EncodeReply(replies[0]) + Replies(replies[1..])
  }

  lemma Regroup(a: Bytes, b: Bytes, c: Bytes)
    ensures a + (b + c) == (a + b) + c
  {
  }

  lemma StreamFirst(reqs: seq<Request>, tail: Bytes)
    requires reqs != []
    ensures Stream(reqs) + tail == EncodeRequest(reqs[0]) + (Stream(reqs[1..]) + tail)
  {
    Regroup(EncodeRequest(reqs[0]), Stream(reqs[1..]), tail);
  }

  lemma ServeFirst(table: Table, req: Request, rest: Bytes, faults: nat -> Option<Bytes>, n: nat, later: Session)
    requires Fits(req) && later == Serve(Answer(table, req, faults(n)).0, rest, faults, n + 1)
    ensures Serve(table, EncodeRequest(req) + rest, faults, n)
         == Session(later.table, EncodeReply(Answer(table, req, faults(n)).1) + later.output, later.err)
  {
    ParseFits(req, rest);
  }

  lemma FirstReply(reply: Reply, replies: seq<Reply>)
    ensures Replies([reply] + replies) == EncodeReply(reply) + Replies(replies)
  {
    assert ([reply] + replies)[1..] == replies;
  }

  /**
   Pipelined framing: a stream of requests that fit is split into exactly those requests.  Their answers
   go out in order, and whatever follows them is served as if it came first.
   */
  lemma {:induction false} StreamServed(table: Table, reqs: seq<Request>, tail: Bytes, faults: nat -> Option<Bytes>,
                                        n: nat, answers: (Table, seq<Reply>), m: nat, later: Session)
    requires forall k :: 0 <= k < |reqs| ==> Fits(reqs[k])
    requires answers == Answers(table, reqs, faults, n) && m == n + |reqs| && later == Serve(answers.0, tail, faults, m)
    ensures Serve(table, Stream(reqs) + tail, faults, n)
            == Session(later.table, Replies(answers.1) + later.output, later.err)
    decreases |reqs|
  {
    if reqs == [] {
      assert [] + tail == tail && [] + later.output == later.output;
    } else {
      var (table', reply) := Answer(table, reqs[0], faults(n));
      var others := Answers(table', reqs[1..], faults, n + 1);
      assert answers == (others.0, [reply] + others.1);
      StreamServed(table', reqs[1..], tail, faults, n + 1, others, m, later);
      StreamStep(table, reqs, tail, faults, n, others.1, later,
                 Session(later.table, Replies(others.1) + later.output, later.err));
    }
  }

  lemma StreamStep(table: Table, reqs: seq<Request>, tail: Bytes, faults: nat -> Option<Bytes>, n: nat,
                   others: seq<Reply>, later: Session, rest: Session)
    requires reqs != [] && Fits(reqs[0]) && rest == Session(later.table, Replies(others) + later.output, later.err)
    requires rest == Serve(Answer(table, reqs[0], faults(n)).0, Stream(reqs[1..]) + tail, faults, n + 1)
    ensures Serve(table, Stream(reqs) + tail, faults, n)
         == Session(later.table, Replies([Answer(table, reqs[0], faults(n)).1] + others) + later.output, later.err)
  {
    var reply := Answer(table, reqs[0], faults(n)).1;
    StreamFirst(reqs, tail);
    ServeFirst(table, reqs[0], Stream(reqs[1..]) + tail, faults, n, rest);
    FirstReply(reply, others);
    Regroup(EncodeReply(reply), Replies(others), later.output);
  }

  /**
   A connection that breaks off inside a request: the requests before it are answered and take effect, the
   broken one leaves no reply and no trace in the table.
   */
  lemma BrokenOff(table: Table, reqs: seq<Request>, last: Request, cut: nat, faults: nat -> Option<Bytes>)
    requires (forall k :: 0 <= k < |reqs| ==> Fits(reqs[k])) && Fits(last) && cut < |EncodeRequest(last)|
    ensures var session, answers :=
            Serve(table, Stream(reqs) + EncodeRequest(last)[..cut], faults, 0), Answers(table, reqs, faults, 0);
            && session.table == answers.0 && session.output == Replies(answers.1)
            && session.err == if cut in {0, 1, 5, 5 + |last.key|, 9 + |last.key|} then EOF else UnexpectedEOF
  {
    var answers := Answers(table, reqs, faults, 0);
    StreamServed(table, reqs, EncodeRequest(last)[..cut], faults, 0, answers, |reqs|,
                 Serve(answers.0, EncodeRequest(last)[..cut], faults, |reqs|));
    PrefixFails(last, cut);
    PrefixError(last, cut);
    assert Replies(Answers(table, reqs, faults, 0).1) + [] == Replies(Answers(table, reqs, faults, 0).1);
  }

  // ---------- the replies, as the client reads them ----------

  /** What the caller of a datastore operation gets back. */
  datatype Seen = Done | Found(val: Bytes) | NotFound

  ghost predicate ShortValues(table: Table) {
    forall k | k in table :: |table[k]| < LIMIT
  }

  /** The operations of the datastore; nothing else is ever sent. */
  predicate Datastore(req: Request) {
    !req.Other?
  }

  function ReadReply(req: Request, input: Bytes): Result<(Seen, Bytes), ReadError> {
    if req.Get? then
      var value :- ReadValueOf(input);
      Success((if value.0.Some? then Found(value.0.value) else NotFound, value.1))
    else
      var status :- ReadStatusOf(input);
      Success((Done, status.1))
  }

  function SeenAll(reqs: seq<Request>, input: Bytes): Result<(seq<Seen>, Bytes), ReadError>
    decreases |reqs|
  {
    if reqs == [] then Success(([], input))
    else
      var first :- ReadReply(reqs[0], input);
      var later :- SeenAll(reqs[1..], first.1);
      Success(([first.0] + later.0, later.1))
  }

  /** The same operations on a map in memory. */
  function Local(table: Table, req: Request): (Table, Seen) {
    match req
    case Get(key) => (table, if key in table then Found(table[key]) else NotFound)
    case Set(key, val) => (table[key := val], Done)
    case Delete(key) => (table - {key}, Done)
    case Other(_, _) => (table, Done)
  }

  function LocalAll(table: Table, reqs: seq<Request>): (Table, seq<Seen>)
    decreases |reqs|
  {
    if reqs == [] then (table, [])
    else
      var (table', seen) := Local(table, reqs[0]);
      var later := LocalAll(table', reqs[1..]);
      (later.0, [seen] + later.1)
  }

  function NoFault(n: nat): Option<Bytes> {
    None
  }

  /** A reply to a request that fits is read back as what the map in memory gives. */
  lemma ReplyReads(table: Table, req: Request, rest: Bytes)
    requires ShortValues(table) && Datastore(req)
    ensures Answer(table, req, None).0 == Local(table, req).0
    ensures ReadReply(req, EncodeReply(Answer(table, req, None).1) + rest) == Success((Local(table, req).1, rest))
  {
    match req
    case Get(key) =>
      if key in table {
        ValueReads(STATUS_OK, table[key], rest);
      } else {
        StatusReads(STATUS_NOT_FOUND, rest);
      }
    case _ => StatusReads(STATUS_OK, rest);
  }

  lemma LocalShort(table: Table, req: Request)
    requires ShortValues(table) && Fits(req)
    ensures ShortValues(Local(table, req).0)
  {
  }

  /** The replies to a pipelined stream decode in order, one per request, to what the map in memory gives. */
  lemma {:induction false} RepliesRead(table: Table, reqs: seq<Request>, rest: Bytes, n: nat)
    requires ShortValues(table) && forall k :: 0 <= k < |reqs| ==> Fits(reqs[k]) && Datastore(reqs[k])
    ensures Answers(table, reqs, NoFault, n).0 == LocalAll(table, reqs).0
    ensures SeenAll(reqs, Replies(Answers(table, reqs, NoFault, n).1) + rest)
            == Success((LocalAll(table, reqs).1, rest))
    decreases |reqs|
  {
    if reqs == [] {
      assert [] + rest == rest;
    } else {
      var (table', reply) := Answer(table, reqs[0], None);
      var others := Answers(table', reqs[1..], NoFault, n + 1);
      LocalShort(table, reqs[0]);
      ReplyReads(table, reqs[0], Replies(others.1) + rest);
      RepliesRead(table', reqs[1..], rest, n + 1);
      FirstReply(reply, others.1);
      Regroup(EncodeReply(reply), Replies(others.1), rest);
    }
  }

  /** End to end on one connection: any requests that fit, sent together, behave as on a map in memory. */
  lemma PipelinedAgrees(table: Table, reqs: seq<Request>)
    requires ShortValues(table) && forall k :: 0 <= k < |reqs| ==> Fits(reqs[k]) && Datastore(reqs[k])
    ensures Serve(table, Stream(reqs), NoFault, 0).table == LocalAll(table, reqs).0
    ensures SeenAll(reqs, Serve(table, Stream(reqs), NoFault, 0).output) == Success((LocalAll(table, reqs).1, []))
    ensures Serve(table, Stream(reqs), NoFault, 0).err == EOF
  {
    var answers := Answers(table, reqs, NoFault, 0);
    StreamServed(table, reqs, [], NoFault, 0, answers, |reqs|, Serve(answers.0, [], NoFault, |reqs|));
    RepliesRead(table, reqs, [], 0);
    assert Stream(reqs) + [] == Stream(reqs);
  }
}
