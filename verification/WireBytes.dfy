/**
 The bytes on the wire, in numbers: what a request and a reply look like, and what the server does with them.
 Both sides share one encoder in module Wire; here it is held against the protocol as it is written down.
 */
module WireBytes {
  import opened Wrappers
  import opened Blocks
  import opened Wire
  import opened Server
  import opened Remote

  /** Four bytes that spell a length, the most significant first; a longer one only up to a multiple of 2^32. */
  predicate Spells(b: Bytes, n: nat) {
    |b| == 4 && b[0] as int * 16777216 + b[1] as int * 65536 + b[2] as int * 256 + b[3] as int == n % 4294967296
  }

  lemma PutSpells(n: nat)
    ensures Spells(PutUint32(n), n)
  {
    Uint32Back(n);
  }

  lemma SpelledReads(b: Bytes, n: nat)
    requires Spells(b, n) && n < 4294967296
    ensures Uint32(b) == n
  {
  }

  // ---------- what is sent ----------

  lemma Sliced(a: Bytes, b: Bytes, c: Bytes)
    requires |a| == 1 && |b| == 4
    ensures var all := a + b + c;
            |all| == 5 + |c| && all[0] == a[0] && all[1..5] == b && all[5..] == c
  {
  }

  /** A request: 1, 2 or 3 for Get, Set and Delete, the length of the key, the key; for a Set also the value. */
  lemma RequestBytes(req: Request)
    requires !req.Other?
    ensures var sent, n := EncodeRequest(req), 5 + |req.key|;
            && |sent| >= n && sent[0] == (if req.Get? then 1 else if req.Set? then 2 else 3)
            && Spells(sent[1..5], |req.key|) && sent[5..n] == req.key
            && (!req.Set? ==> |sent| == n)
            && (req.Set? ==>
                  && |sent| == n + 4 + |req.val|
                  && Spells(sent[n..n + 4], |req.val|) && sent[n + 4..] == req.val)
  {
    PutSpells(|req.key|);
    if req.Set? {
      PutSpells(|req.val|);
      SetSlices(req.key, PutUint32(|req.key|), PutUint32(|req.val|), req.val);
    } else {
      Sliced([OpOf(req)], PutUint32(|req.key|), req.key);
      assert EncodeRequest(req) == [OpOf(req)] + PutUint32(|req.key|) + req.key;
    }
  }

  lemma SetSlices(key: Bytes, keyLen: Bytes, valLen: Bytes, val: Bytes)
    requires |keyLen| == |valLen| == 4
    ensures var sent, n := [OP_SET] + keyLen + key + (valLen + val), 5 + |key|;
            && |sent| == n + 4 + |val| && sent[0] == OP_SET && sent[1..5] == keyLen && sent[5..n] == key
            && sent[n..n + 4] == valLen && sent[n + 4..] == val
  {
  }

  /** A reply that carries something: a status, a length, and that many bytes. */
  predicate Carries(reply: Bytes, status: nat, bytes: Bytes) {
    |reply| == 5 + |bytes| && reply[0] == status && Spells(reply[1..5], |bytes|) && reply[5..] == bytes
  }

  lemma ReplyBytes(reply: Reply)
    ensures reply.Status? ==> EncodeReply(reply) == [reply.status]
    ensures reply.Value? ==> Carries(EncodeReply(reply), 0, reply.val)
    ensures reply.Fault? ==> Carries(EncodeReply(reply), 2, reply.msg)
  {
    if reply.Value? {
      PutSpells(|reply.val|);
      Sliced([STATUS_OK], PutUint32(|reply.val|), reply.val);
    } else if reply.Fault? {
      PutSpells(|reply.msg|);
      Sliced([STATUS_ERROR], PutUint32(|reply.msg|), reply.msg);
    }
  }

  // ---------- what is done with it ----------

  /** The request in front of the input is understood as `req`, and leaves `rest` to be read. */
  ghost predicate ReadAs(input: Bytes, req: Request, rest: Bytes) {
    Parse(input) == Success((req, rest))
  }

  lemma HeadReads(op: byte, len: Bytes, key: Bytes, tail: Bytes)
    requires Spells(len, |key|) && |key| < 4294967296
    ensures var input := [op] + len + key + tail;
            && ReadFull(input, 1) == Success(([op], len + (key + tail)))
            && ReadFull(len + (key + tail), 4) == Success((len, key + tail)) && Uint32(len) == |key|
            && ReadFull(key + tail, |key|) == Success((key, tail))
  {
    assert [op] + len + key + tail == [op] + (len + (key + tail));
    ReadPrefix([op], len + (key + tail));
    ReadPrefix(len, key + tail);
    ReadPrefix(key, tail);
    SpelledReads(len, |key|);
  }

  lemma ValueFollows(len: Bytes, val: Bytes, rest: Bytes)
    requires Spells(len, |val|) && |val| < 4294967296
    ensures ReadFull(len + val + rest, 4) == Success((len, val + rest)) && Uint32(len) == |val|
    ensures ReadFull(val + rest, |val|) == Success((val, rest))
  {
    assert len + val + rest == len + (val + rest);
    ReadPrefix(len, val + rest);
    ReadPrefix(val, rest);
    SpelledReads(len, |val|);
  }

  /** Every first byte but 2: what follows the key is the next request. */
  lemma ShortReads(op: byte, len: Bytes, key: Bytes, rest: Bytes)
    requires Spells(len, |key|) && |key| < 4294967296 && op != 2
    ensures ReadAs([op] + len + key + rest, if op == 1 then Get(key) else if op == 3 then Delete(key)
                   else Other(op, key),
                   rest)
  {
    HeadReads(op, len, key, rest);
  }

  lemma SetReads(len: Bytes, key: Bytes, valLen: Bytes, val: Bytes, rest: Bytes)
    requires Spells(len, |key|) && |key| < 4294967296 && Spells(valLen, |val|) && |val| < 4294967296
    ensures ReadAs([2] + len + key + (valLen + val + rest), Set(key, val), rest)
  {
    HeadReads(2, len, key, valLen + val + rest);
    ValueFollows(valLen, val, rest);
  }

  /** What the server does with these bytes: the table afterwards, what it sends back, what it has not read yet. */
  ghost predicate Does(table: Table, input: Bytes, fault: Option<Bytes>, table': Table, sent: Bytes, rest: Bytes) {
    Parse(input).Success? &&
    var (req, left) := Parse(input).value;
    Answer(table, req, fault).0 == table' && EncodeReply(Answer(table, req, fault).1) == sent && left == rest
  }

  /** 1: the value under the key, or the single byte 1 when there is none, or the store's error. */
  lemma GetDoes(table: Table, len: Bytes, key: Bytes, rest: Bytes, fault: Option<Bytes>, sent: Bytes)
    requires Spells(len, |key|) && |key| < 4294967296
    requires match fault
             case Some(msg) => Carries(sent, 2, msg)
             case None => if key in table then Carries(sent, 0, table[key]) else sent == [1]
    ensures Does(table, [1] + len + key + rest, fault, table, sent, rest)
  {
    ShortReads(1, len, key, rest);
    var reply := Answer(table, Get(key), fault).1;
    ReplyBytes(reply);
    if fault.Some? {
      CarriesOnce(sent, EncodeReply(reply), 2, fault.value);
    } else if key in table {
      CarriesOnce(sent, EncodeReply(reply), 0, table[key]);
    }
  }

  /** A status, a length and the bytes leave no choice. */
  lemma CarriesOnce(a: Bytes, b: Bytes, status: nat, bytes: Bytes)
    requires Carries(a, status, bytes) && Carries(b, status, bytes)
    ensures a == b
  {
    SpelledOnce(a[1..5], b[1..5], |bytes|);
    assert a == [a[0]] + a[1..5] + a[5..] && b == [b[0]] + b[1..5] + b[5..];
  }

  lemma SpelledOnce(a: Bytes, b: Bytes, n: nat)
    requires Spells(a, n) && Spells(b, n)
    ensures a == b
  {
    assert a[0] == b[0] && a[1] == b[1] && a[2] == b[2] && a[3] == b[3];
  }

  /** 2: the value is stored and the byte 0 sent, or nothing is stored and the store's error sent. */
  lemma SetDoes(table: Table, len: Bytes, key: Bytes, valLen: Bytes, val: Bytes, rest: Bytes, fault: Option<Bytes>,
                sent: Bytes)
    requires Spells(len, |key|) && |key| < 4294967296 && Spells(valLen, |val|) && |val| < 4294967296
    requires if fault.Some? then Carries(sent, 2, fault.value) else sent == [0]
    ensures Does(table, [2] + len + key + (valLen + val + rest), fault,
                 if fault.Some? then table else table[key := val], sent, rest)
  {
    SetReads(len, key, valLen, val, rest);
    var reply := Answer(table, Set(key, val), fault).1;
    ReplyBytes(reply);
    if fault.Some? {
      CarriesOnce(sent, EncodeReply(reply), 2, fault.value);
    }
  }

  /** 3: the entry is gone and the byte 0 sent, or the store's error. */
  lemma DeleteDoes(table: Table, len: Bytes, key: Bytes, rest: Bytes, fault: Option<Bytes>, sent: Bytes)
    requires Spells(len, |key|) && |key| < 4294967296
    requires if fault.Some? then Carries(sent, 2, fault.value) else sent == [0]
    ensures Does(table, [3] + len + key + rest, fault, if fault.Some? then table else table - {key}, sent, rest)
  {
    ShortReads(3, len, key, rest);
    var reply := Answer(table, Delete(key), fault).1;
    ReplyBytes(reply);
    if fault.Some? {
      CarriesOnce(sent, EncodeReply(reply), 2, fault.value);
    }
  }

  /** The number that decimal digits spell. */
  function Decimal(digits: Bytes): int {
    if digits == [] then 0 else Decimal(digits[..|digits| - 1]) * 10 + (digits[|digits| - 1] as int - 48)
  }

  /** Decimal digits without a needless zero in front. */
  ghost predicate IsNumeral(b: Bytes) {
    && b != [] && (forall k :: 0 <= k < |b| ==> 48 <= b[k] <= 57)
    && (|b| > 1 ==> b[0] != 48)
  }

  lemma OneMore(b: Bytes, digit: byte)
    ensures Decimal(b + [digit]) == Decimal(b) * 10 + (digit as int - 48)
    ensures IsNumeral(b) && b != [48] && 48 <= digit <= 57 ==> IsNumeral(b + [digit])
  {
    assert (b + [digit])[..|b + [digit]| - 1] == b;
  }

  lemma {:induction false} DigitsSpell(n: nat)
    ensures IsNumeral(Digits(n)) && Decimal(Digits(n)) == n
  {
    if n < 10 {
      OneMore([], 48 + n);
      assert Digits(n) == [] + [48 + n];
    } else {
      DigitsSpell(n / 10);
      OneMore(Digits(n / 10), 48 + n % 10);
      assert Decimal([48]) == 0 by {
        OneMore([], 48);
        assert [] + [48] == [48 as byte];
      }
    }
  }

  /** The bytes of the text "unknown op: ". */
  const UNKNOWN_OP: Bytes := [117, 110, 107, 110, 111, 119, 110, 32, 111, 112, 58, 32]

  lemma UnknownOpText()
    ensures Ascii("unknown op: ") == UNKNOWN_OP
  {
    var s := "unknown op: ";
    assert |s| == 12;
    forall i | 0 <= i < 12
      ensures Ascii(s)[i] == UNKNOWN_OP[i]
    {
      assert s[0] == 'u' && s[1] == 'n' && s[2] == 'k' && s[3] == 'n' && s[4] == 'o' && s[5] == 'w';
      assert s[6] == 'n' && s[7] == ' ' && s[8] == 'o' && s[9] == 'p' && s[10] == ':' && s[11] == ' ';
    }
  }

  lemma {:induction false} NumeralBound(b: Bytes)
    requires IsNumeral(b)
    ensures Decimal(b) >= 0 && (|b| > 1 ==> Decimal(b) >= 10) && (|b| == 1 ==> Decimal(b) == b[0] - 48)
  {
    if |b| > 1 {
      NumeralBound(b[..|b| - 1]);
    } else {
      assert b[..0] == [];
    }
  }

  lemma {:induction false} DigitsOnce(a: Bytes, b: Bytes)
    requires IsNumeral(a) && IsNumeral(b) && Decimal(a) == Decimal(b)
    ensures a == b
    decreases |a|
  {
    NumeralBound(a);
    NumeralBound(b);
    if |a| > 1 {
      var a', b' := a[..|a| - 1], b[..|b| - 1];
      NumeralBound(a');
      NumeralBound(b');
      assert Decimal(a') == Decimal(b');
      DigitsOnce(a', b');
      assert a == a' + [a[|a| - 1]] && b == b' + [b[|b| - 1]];
    }
  }

  lemma OtherAnswer(table: Table, op: byte, key: Bytes, fault: Option<Bytes>, numeral: Bytes)
    requires IsNumeral(numeral) && Decimal(numeral) == op
    ensures Answer(table, Other(op, key), fault) == (table, Fault(UNKNOWN_OP + numeral))
  {
    UnknownOpText();
    DigitsSpell(op);
    DigitsOnce(numeral, Digits(op));
  }

  lemma ErrorSent(reply: Reply, msg: Bytes, sent: Bytes)
    requires reply == Fault(msg) && Carries(sent, 2, msg)
    ensures EncodeReply(reply) == sent
  {
    ReplyBytes(reply);
    CarriesOnce(sent, EncodeReply(reply), 2, msg);
  }

  /** Any other first byte: an error that names it in decimal, and nothing changes, whatever the store does. */
  lemma OtherDoes(table: Table, op: byte, len: Bytes, key: Bytes, rest: Bytes, fault: Option<Bytes>, numeral: Bytes,
                  sent: Bytes)
    requires Spells(len, |key|) && |key| < 4294967296 && op !in {1, 2, 3}
    requires IsNumeral(numeral) && Decimal(numeral) == op && Carries(sent, 2, UNKNOWN_OP + numeral)
    ensures Does(table, [op] + len + key + rest, fault, table, sent, rest)
  {
    ShortReads(op, len, key, rest);
    OtherAnswer(table, op, key, fault, numeral);
    ErrorSent(Answer(table, Other(op, key), fault).1, UNKNOWN_OP + numeral, sent);
  }

  // ---------- the calls over a connection ----------

  /** The operation is one that writes this key. */
  predicate Writes(req: Request, key: Bytes) {
    (req.Set? || req.Delete?) && req.key == key
  }

  lemma {:induction false} UntouchedStays(table: Table, reqs: seq<Request>, key: Bytes)
    requires forall k :: 0 <= k < |reqs| ==> !Writes(reqs[k], key)
    ensures var table' := LocalAll(table, reqs).0;
            (key in table' <==> key in table) && (key in table ==> table'[key] == table[key])
    decreases |reqs|
  {
    if reqs != [] {
      UntouchedStays(Local(table, reqs[0]).0, reqs[1..], key);
    }
  }

  lemma {:induction false} LastWriteStays(table: Table, reqs: seq<Request>, key: Bytes, at: nat)
    requires at < |reqs| && Writes(reqs[at], key)
    requires forall k :: at < k < |reqs| ==> !Writes(reqs[k], key)
    ensures var table' := LocalAll(table, reqs).0;
            (key in table' <==> reqs[at].Set?) && (reqs[at].Set? ==> table'[key] == reqs[at].val)
    decreases |reqs|
  {
    if at == 0 {
      UntouchedStays(Local(table, reqs[0]).0, reqs[1..], key);
    } else {
      LastWriteStays(Local(table, reqs[0]).0, reqs[1..], key, at - 1);
    }
  }

  lemma {:induction false} AllShort(table: Table, reqs: seq<Request>)
    requires ShortValues(table) && forall k :: 0 <= k < |reqs| ==> Fits(reqs[k])
    ensures ShortValues(LocalAll(table, reqs).0)
    decreases |reqs|
  {
    if reqs != [] {
      LocalShort(table, reqs[0]);
      AllShort(Local(table, reqs[0]).0, reqs[1..]);
    }
  }

  lemma GetSeesLocal(table: Table, reqs: seq<Request>, key: Bytes)
    requires ShortValues(table) && forall k :: 0 <= k < |reqs| ==> Fits(reqs[k]) && Datastore(reqs[k])
    requires |key| < 4294967296
    ensures var table' := LocalAll(table, reqs).0;
            Connected(ConnectedAll(table, reqs).0, Get(key), NoFault).1
            == Success(if key in table' then Found(table'[key]) else NotFound)
  {
    ConnectedAgrees(table, reqs);
    AllShort(table, reqs);
    OneAgrees(LocalAll(table, reqs).0, Get(key));
  }

  /**
   The store remembers: after any calls over connections, a Get gives the value of the last Set of its key, nothing
   if a Delete came after it, and what was there at first if nobody wrote the key.
   */
  lemma GetSeesLastWrite(table: Table, reqs: seq<Request>, key: Bytes, at: nat)
    requires ShortValues(table) && forall k :: 0 <= k < |reqs| ==> Fits(reqs[k]) && Datastore(reqs[k])
    requires |key| < 4294967296 && at <= |reqs|
    requires at < |reqs| ==> Writes(reqs[at], key)
    requires if at < |reqs| then forall k :: at < k < |reqs| ==> !Writes(reqs[k], key)
             else forall k :: 0 <= k < |reqs| ==> !Writes(reqs[k], key)
    ensures Connected(ConnectedAll(table, reqs).0, Get(key), NoFault).1
         == Success(if at < |reqs| then (if reqs[at].Set? then Found(reqs[at].val) else NotFound)
                    else if key in table then Found(table[key]) else NotFound)
  {
    GetSeesLocal(table, reqs, key);
    if at < |reqs| {
      LastWriteStays(table, reqs, key, at);
    } else {
      UntouchedStays(table, reqs, key);
    }
  }

  /** A refused Delete is as silent as a refused Set; a refused KeystoreSet is the one call that reports it. */
  lemma RefusedCalls(table: Table, key: Bytes, data: Bytes, msg: Bytes, faults: nat -> Option<Bytes>)
    requires Fits(Set(key, data)) && faults(0) == Some(msg)
    ensures Connected(table, Delete(key), faults) == (table, Success(Done))
    ensures PublishConnected(table, key, data, faults) == (table, Success(false))
  {
    RefusedReply(table, Delete(key), msg, faults);
    RefusedReply(table, Set(key, data), msg, faults);
  }

  lemma RefusedReply(table: Table, req: Request, msg: Bytes, faults: nat -> Option<Bytes>)
    requires Fits(req) && (req.Set? || req.Delete?) && faults(0) == Some(msg)
    ensures var session := Serve(table, EncodeRequest(req), faults, 0);
            session.table == table && ReadStatusOf(session.output) == Success((2, PutUint32(|msg|) + msg))
  {
    assert EncodeRequest(req) + [] == EncodeRequest(req);
    ServeFirst(table, req, [], faults, 0, Serve(table, [], faults, 1));
    FaultBytes(msg);
    StatusReads(STATUS_ERROR, PutUint32(|msg|) + msg);
  }
}
