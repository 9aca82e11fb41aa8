/**
 The wire protocol: length-prefixed requests and replies, the server's parser and dispatcher, and the
 client's encoder and decoder.

 A length is written as a 32-bit number, so longer keys and values are cut in their length field only.
 A failing store operation is a parameter of the request it fails for.
 */
module Wire {
  import opened Wrappers
  import opened Blocks

  const OP_GET: byte := 1
  const OP_SET: byte := 2
  const OP_DELETE: byte := 3

  const STATUS_OK: byte := 0
  const STATUS_NOT_FOUND: byte := 1
  const STATUS_ERROR: byte := 2

  const LIMIT: nat := 0x1_0000_0000

  type Bytes = seq<byte>
  type Table = map<Bytes, Bytes>

  datatype ReadError = EOF | UnexpectedEOF

  datatype Request = Get(key: Bytes) | Set(key: Bytes, val: Bytes) | Delete(key: Bytes) | Other(op: byte, key: Bytes)

  // ---------- numbers ----------

  /** Four bytes, most significant first, of the number modulo 2^32. */
  function PutUint32(n: nat): (b: Bytes)
    ensures |b| == 4
  {
    [n / 0x100_0000 % 0x100, n / 0x1_0000 % 0x100, n / 0x100 % 0x100, n % 0x100]
  }

  function Uint32(b: Bytes): (n: nat)
    requires |b| == 4
    ensures n < LIMIT
  {
    (((b[0] as int) * 0x100 + b[1]) * 0x100 + b[2]) * 0x100 + b[3]
  }

  lemma Uint32Back(n: nat)
    ensures Uint32(PutUint32(n)) == n % LIMIT
  {
    var q1, q2, q3 := n / 0x100, n / 0x1_0000, n / 0x100_0000;
    assert q2 == q1 / 0x100 && q3 == q2 / 0x100;
    assert n == q1 * 0x100 + n % 0x100 && q1 == q2 * 0x100 + q1 % 0x100 && q2 == q3 * 0x100 + q2 % 0x100;
    assert q3 == q3 / 0x100 * 0x100 + q3 % 0x100;
    assert n == q3 / 0x100 * LIMIT + Uint32(PutUint32(n));
  }

  // ---------- requests ----------

  function OpOf(req: Request): byte {
    match req
    case Get(_) => OP_GET
    case Set(_, _) => OP_SET
    case Delete(_) => OP_DELETE
    case Other(op, _) => op
  }

  /** What the client writes. */
  function Encode(op: byte, key: Bytes, val: Bytes): Bytes {
    [op] + PutUint32(|key|) + key + if op == OP_SET then PutUint32(|val|) + val else []
  }

  function EncodeRequest(req: Request): Bytes {
    Encode(OpOf(req), req.key, if req.Set? then req.val else [])
  }

  /** Read exactly `n` bytes: the bytes read and the bytes left. */
  function ReadFull(input: Bytes, n: nat): (r: Result<(Bytes, Bytes), ReadError>)
    ensures r.Success? <==> n <= |input|
    ensures r.Success? ==> |r.value.0| == n && r.value.0 + r.value.1 == input
  {
    if n <= |input| then Success((input[..n], input[n..])) else Failure(if input == [] then EOF else UnexpectedEOF)
  }

  /** The request at the front of the input, and the rest of the input. */
  function Parse(input: Bytes): Result<(Request, Bytes), ReadError> {
    var op :- ReadFull(input, 1);
    var keyLen :- ReadFull(op.1, 4);
    var key :- ReadFull(keyLen.1, Uint32(keyLen.0));
    if op.0[0] == OP_GET then Success((Get(key.0), key.1))
    else if op.0[0] == OP_SET then
      var valLen :- ReadFull(key.1, 4);
      var val :- ReadFull(valLen.1, Uint32(valLen.0));
      Success((Set(key.0, val.0), val.1))
    else if op.0[0] == OP_DELETE then Success((Delete(key.0), key.1))
    else Success((Other(op.0[0], key.0), key.1))
  }

  /** Keys and values whose lengths the length field can hold. */
  predicate Fits(req: Request) {
    |req.key| < LIMIT && (req.Set? ==> |req.val| < LIMIT)
      && (req.Other? ==> req.op != OP_GET && req.op != OP_SET && req.op != OP_DELETE)
  }

  lemma ReadPrefix(a: Bytes, b: Bytes)
    ensures ReadFull(a + b, |a|) == Success((a, b))
  {
    assert (a + b)[..|a|] == a && (a + b)[|a|..] == b;
  }

  lemma EncodeGrouped(req: Request, rest: Bytes)
    ensures EncodeRequest(req) + rest
         == [OpOf(req)] + (PutUint32(|req.key|) + (req.key + ((if req.Set? || OpOf(req) == OP_SET
                                                               then PutUint32(if req.Set? then |req.val| else 0)
                                                                    + if req.Set? then req.val else []
                                                               else []) + rest)))
  {
  }

  lemma ParsesHead(op: byte, key: Bytes, tail: Bytes)
    requires |key| < LIMIT
    ensures var input := [op] + (PutUint32(|key|) + (key + tail));
            && ReadFull(input, 1) == Success(([op], PutUint32(|key|) + (key + tail)))
            && ReadFull(PutUint32(|key|) + (key + tail), 4) == Success((PutUint32(|key|), key + tail))
            && Uint32(PutUint32(|key|)) == |key|
            && ReadFull(key + tail, |key|) == Success((key, tail))
  {
    ReadPrefix([op], PutUint32(|key|) + (key + tail));
    ReadPrefix(PutUint32(|key|), key + tail);
    ReadPrefix(key, tail);
    Uint32Back(|key|);
  }

  lemma ParsesTail(val: Bytes, rest: Bytes)
    requires |val| < LIMIT
    ensures ReadFull((PutUint32(|val|) + val) + rest, 4) == Success((PutUint32(|val|), val + rest))
    ensures Uint32(PutUint32(|val|)) == |val| && ReadFull(val + rest, |val|) == Success((val, rest))
  {
    assert (PutUint32(|val|) + val) + rest == PutUint32(|val|) + (val + rest);
    ReadPrefix(PutUint32(|val|), val + rest);
    ReadPrefix(val, rest);
    Uint32Back(|val|);
  }

  lemma ParseFits(req: Request, rest: Bytes)
    requires Fits(req)
    ensures Parse(EncodeRequest(req) + rest) == Success((req, rest))
  {
    EncodeGrouped(req, rest);
    if req.Set? {
      ParsesHead(OpOf(req), req.key, (PutUint32(|req.val|) + req.val) + rest);
      ParsesTail(req.val, rest);
    } else {
      ParsesHead(OpOf(req), req.key, [] + rest);
      assert [] + rest == rest;
    }
  }

  /** Whatever comes out of the parser fits: its lengths were read from 32-bit fields. */
  lemma ParsedFits(input: Bytes)
    requires Parse(input).Success?
    ensures Fits(Parse(input).value.0) && |Parse(input).value.1| + 5 <= |input|
  {
  }

  /** Framing: the server reads back exactly the request that was written if and only if it fits. */
  lemma ParsesBackIffFits(req: Request, rest: Bytes)
    ensures Parse(EncodeRequest(req) + rest) == Success((req, rest)) <==> Fits(req)
  {
    if Fits(req) {
      ParseFits(req, rest);
    } else if Parse(EncodeRequest(req) + rest).Success? {
      ParsedFits(EncodeRequest(req) + rest);
    }
  }

  // ---------- prefix-freeness ----------

  lemma ReadLonger(a: Bytes, b: Bytes, n: nat)
    requires ReadFull(a, n).Success?
    ensures ReadFull(a + b, n) == Success((ReadFull(a, n).value.0, ReadFull(a, n).value.1 + b))
  {
    var (x, y) := ReadFull(a, n).value;
    assert a + b == x + (y + b);
    ReadPrefix(x, y + b);
  }

  lemma ParseValueLonger(a: Bytes, b: Bytes)
    requires ReadFull(a, 4).Success? && ReadFull(ReadFull(a, 4).value.1, Uint32(ReadFull(a, 4).value.0)).Success?
    ensures var len := ReadFull(a, 4).value;
            var val := ReadFull(len.1, Uint32(len.0)).value;
            ReadFull(a + b, 4) == Success((len.0, len.1 + b))
              && ReadFull(len.1 + b, Uint32(len.0)) == Success((val.0, val.1 + b))
  {
    ReadLonger(a, b, 4);
    ReadLonger(ReadFull(a, 4).value.1, b, Uint32(ReadFull(a, 4).value.0));
  }

  /** What the parser has understood does not depend on the bytes that follow. */
  lemma ParseLonger(a: Bytes, b: Bytes)
    requires Parse(a).Success?
    ensures Parse(a + b) == Success((Parse(a).value.0, Parse(a).value.1 + b))
  {
    var op := ReadFull(a, 1).value;
    ReadLonger(a, b, 1);
    ParseValueLonger(op.1, b);
    var keyLen := ReadFull(op.1, 4).value;
    var key := ReadFull(keyLen.1, Uint32(keyLen.0)).value;
    if op.0[0] == OP_SET {
      ParseValueLonger(key.1, b);
    }
  }

  /** No strict prefix of a request can be mistaken for a request. */
  lemma PrefixFails(req: Request, cut: nat)
    requires Fits(req) && cut < |EncodeRequest(req)|
    ensures Parse(EncodeRequest(req)[..cut]).Failure?
  {
    var input := EncodeRequest(req);
    assert input + [] == input && input[..cut] + input[cut..] == input;
    ParseFits(req, []);
    if Parse(input[..cut]).Success? {
      ParseLonger(input[..cut], input[cut..]);
    }
  }

  lemma CutShort(head: Bytes, tail: Bytes, cut: nat, n: nat)
    requires cut <= |head| + |tail| && n == |head|
    ensures cut < n ==> ReadFull((head + tail)[..cut], n) == Failure(if cut == 0 then EOF else UnexpectedEOF)
    ensures cut >= n ==> ReadFull((head + tail)[..cut], n) == Success((head, tail[..cut - n]))
  {
    if cut >= n {
      assert (head + tail)[..cut] == head + tail[..cut - n];
      ReadPrefix(head, tail[..cut - n]);
    }
  }

  lemma CutInHead(input: Bytes, op: byte, key: Bytes, tail: Bytes, cut: nat)
    requires |key| < LIMIT && cut < 5 + |key|
    requires input == ([op] + (PutUint32(|key|) + (key + tail)))[..cut]
    ensures Parse(input) == Failure(if cut in {0, 1, 5} then EOF else UnexpectedEOF)
  {
    CutShort([op], PutUint32(|key|) + (key + tail), cut, 1);
    if cut >= 1 {
      CutShort(PutUint32(|key|), key + tail, cut - 1, 4);
      Uint32Back(|key|);
    }
    if cut >= 5 {
      CutShort(key, tail, cut - 5, |key|);
    }
  }

  /** With the key read, a Set fails as its value fails. */
  lemma SetFails(input: Bytes, behindOp: Bytes, keyLen: Bytes, behindLen: Bytes, key: Bytes, left: Bytes)
    requires ReadFull(input, 1) == Success(([OP_SET], behindOp)) && |keyLen| == 4
    requires ReadFull(behindOp, 4) == Success((keyLen, behindLen))
    requires ReadFull(behindLen, Uint32(keyLen)) == Success((key, left))
    ensures ReadFull(left, 4).Failure? ==> Parse(input) == Failure(ReadFull(left, 4).error)
    ensures ReadFull(left, 4).Success? ==>
              var len := ReadFull(left, 4).value;
              ReadFull(len.1, Uint32(len.0)).Failure? ==> Parse(input) == Failure(ReadFull(len.1, Uint32(len.0)).error)
  {
  }

  lemma CutBehindKey(input: Bytes, key: Bytes, tail: Bytes, cut: nat, left: Bytes)
    requires |key| < LIMIT && 5 + |key| <= cut <= 5 + |key| + |tail| && left == tail[..cut - 5 - |key|]
    requires input == ([OP_SET] + (PutUint32(|key|) + (key + tail)))[..cut]
    ensures ReadFull(left, 4).Failure? ==> Parse(input) == Failure(ReadFull(left, 4).error)
    ensures ReadFull(left, 4).Success? ==>
              var len := ReadFull(left, 4).value;
              ReadFull(len.1, Uint32(len.0)).Failure? ==> Parse(input) == Failure(ReadFull(len.1, Uint32(len.0)).error)
  {
    CutShort([OP_SET], PutUint32(|key|) + (key + tail), cut, 1);
    CutShort(PutUint32(|key|), key + tail, cut - 1, 4);
    Uint32Back(|key|);
    CutShort(key, tail, cut - 5, |key|);
    SetFails(input, (PutUint32(|key|) + (key + tail))[..cut - 1], PutUint32(|key|), (key + tail)[..cut - 5], key, left);
  }

  lemma CutInValue(val: Bytes, cut: nat)
    requires |val| < LIMIT && cut < 4 + |val|
    ensures var len := ReadFull((PutUint32(|val|) + val)[..cut], 4);
            if cut < 4 then len == Failure(if cut == 0 then EOF else UnexpectedEOF)
            else len.Success? && ReadFull(len.value.1, Uint32(len.value.0))
                                 == Failure(if cut == 4 then EOF else UnexpectedEOF)
  {
    CutShort(PutUint32(|val|), val, cut, 4);
    Uint32Back(|val|);
  }

  lemma EncodedAs(req: Request, tail: Bytes)
    requires Fits(req) && tail == if req.Set? then PutUint32(|req.val|) + req.val else []
    ensures EncodeRequest(req) == [OpOf(req)] + (PutUint32(|req.key|) + (req.key + tail))
    ensures |EncodeRequest(req)| == 5 + |req.key| + |tail|
  {
  }

  /** A request that is cut off ends in EOF between two fields and in UnexpectedEOF inside one. */
  lemma PrefixError(req: Request, cut: nat)
    requires Fits(req) && cut < |EncodeRequest(req)|
    ensures Parse(EncodeRequest(req)[..cut])
         == Failure(if cut in {0, 1, 5, 5 + |req.key|, 9 + |req.key|} then EOF else UnexpectedEOF)
  {
    var tail := if req.Set? then PutUint32(|req.val|) + req.val else [];
    EncodedAs(req, tail);
    if cut < 5 + |req.key| {
      CutInHead(EncodeRequest(req)[..cut], OpOf(req), req.key, tail, cut);
    } else {
      CutBehindKey(EncodeRequest(req)[..cut], req.key, tail, cut, tail[..cut - 5 - |req.key|]);
      CutInValue(req.val, cut - 5 - |req.key|);
    }
  }

  // ---------- replies ----------

  datatype Reply = Status(status: byte) | Value(val: Bytes) | Fault(msg: Bytes)

  function EncodeReply(reply: Reply): Bytes {
    match reply
    case Status(status) => [status]
    case Value(val) => [STATUS_OK] + PutUint32(|val|) + val
    case Fault(msg) => [STATUS_ERROR] + PutUint32(|msg|) + msg
  }

  function Digits(n: nat): Bytes {
    (if n < 10 then [] else Digits(n / 10)) + [48 + n % 10]
  }

  function Ascii(s: string): Bytes {
    seq(|s|, i requires 0 <= i < |s| => s[i] as int % 256)
  }

  /** The store's answer to a request; `fault` is the message of a store operation that fails. */
  function Answer(table: Table, req: Request, fault: Option<Bytes>): (Table, Reply) {
    match req
    case Get(key) =>
      if fault.Some? then (table, Fault(fault.value))
      else if key in table then (table, Value(table[key])) else (table, Status(STATUS_NOT_FOUND))
    case Set(key, val) => if fault.Some? then (table, Fault(fault.value)) else (table[key := val], Status(STATUS_OK))
    case Delete(key) => if fault.Some? then (table, Fault(fault.value)) else (table - {key}, Status(STATUS_OK))
    case Other(op, _) => (table, Fault(Ascii("unknown op: ") + Digits(op)))
  }

  /** What the client sees: readStatus hands on the first byte, readValue takes any status but NotFound for a value. */
  function ReadStatusOf(input: Bytes): Result<(byte, Bytes), ReadError> {
    var status :- ReadFull(input, 1);
    Success((status.0[0], status.1))
  }

  function ReadValueOf(input: Bytes): Result<(Option<Bytes>, Bytes), ReadError> {
    var status :- ReadStatusOf(input);
    if status.0 == STATUS_NOT_FOUND then Success((None, status.1))
    else
      var valLen :- ReadFull(status.1, 4);
      var val :- ReadFull(valLen.1, Uint32(valLen.0));
      Success((Some(val.0), val.1))
  }

  lemma StatusReads(status: byte, rest: Bytes)
    ensures ReadStatusOf([status] + rest) == Success((status, rest))
  {
    ReadPrefix([status], rest);
  }

  lemma ValueReads(status: byte, val: Bytes, rest: Bytes)
    requires status != STATUS_NOT_FOUND && |val| < LIMIT
    ensures ReadValueOf([status] + PutUint32(|val|) + val + rest) == Success((Some(val), rest))
  {
    assert [status] + PutUint32(|val|) + val + rest == [status] + ((PutUint32(|val|) + val) + rest);
    StatusReads(status, (PutUint32(|val|) + val) + rest);
    ParsesTail(val, rest);
  }
}
