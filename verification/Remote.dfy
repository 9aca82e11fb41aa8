/**
 The client's datastore and keystore in connected mode: every operation opens a connection, writes one
 request and reads one reply.  Where this agrees with the map in memory, and where it does not.
 */
module Remote {
  import opened Wrappers
  import opened Blocks
  import opened Wire
  import opened Server

  // ---------- the client's calls ----------

  method WriteOp(conn: Pipe, op: byte, key: Bytes, val: Bytes)
    modifies conn
    ensures conn.data == old(conn.data) + Encode(op, key, val)
  {
    ghost var before := conn.data;
    conn.Write([op]);
    conn.Write(PutUint32(|key|));
    conn.Write(key);
    assert conn.data == before + ([op] + PutUint32(|key|) + key);
    if op == OP_SET {
      conn.Write(PutUint32(|val|));
      conn.Write(val);
    }
  }

  /** An error of the read is a panic of the program. */
  method ReadStatus(conn: Pipe) returns (status: Result<byte, ReadError>)
    modifies conn
    ensures match ReadStatusOf(old(conn.data))
            case Success(read) => status == Success(read.0) && conn.data == read.1
            case Failure(e) => status == Failure(e)
  {
    var buf := conn.Read(1);
    status := if buf.Success? then Success(buf.value[0]) else Failure(buf.error);
  }

  method ReadValue(conn: Pipe) returns (value: Result<Option<Bytes>, ReadError>)
    modifies conn
    ensures match ReadValueOf(old(conn.data))
            case Success(read) => value == Success(read.0) && conn.data == read.1
            case Failure(e) => value == Failure(e)
  {
    var status :- ReadStatus(conn);
    if status == STATUS_NOT_FOUND {
      return Success(None);
    }
    var valLen :- conn.Read(4);
    var val :- conn.Read(Uint32(valLen));
    value := Success(Some(val));
  }

  /** One operation over one connection: the table afterwards, and what the caller sees. */
  function Connected(table: Table, req: Request, faults: nat -> Option<Bytes>): (Table, Result<Seen, ReadError>) {
    var session := Serve(table, EncodeRequest(req), faults, 0);
    var seen := ReadReply(req, session.output);
    (session.table, if seen.Success? then Success(seen.value.0) else Failure(seen.error))
  }

  lemma EmptyFirst(bytes: Bytes)
    ensures [] + bytes == bytes
  {
  }

  /** Open a connection and send one request; the server runs until there is nothing left to read. */
  method Dial(server: Handler, op: byte, key: Bytes, val: Bytes, faults: nat -> Option<Bytes>) returns (conn: Pipe)
    modifies server
    ensures fresh(conn) && conn.data == Serve(old(server.store), Encode(op, key, val), faults, 0).output
    ensures server.store == Serve(old(server.store), Encode(op, key, val), faults, 0).table
  {
    var request := new Pipe();
    conn := new Pipe();
    WriteOp(request, op, key, val);
    EmptyFirst(Encode(op, key, val));
    var closed := server.HandleConn(request, conn, faults);
    EmptyFirst(conn.data);
    EmptyFirst(Serve(old(server.store), Encode(op, key, val), faults, 0).output);
  }

  method DatastoreSet(server: Handler, key: Bytes, value: Bytes, faults: nat -> Option<Bytes>)
      returns (seen: Result<Seen, ReadError>)
    modifies server
    ensures (server.store, seen) == Connected(old(server.store), Set(key, value), faults)
  {
    var reply := Dial(server, OP_SET, key, value, faults);
    var status := ReadStatus(reply);
    seen := if status.Success? then Success(Done) else Failure(status.error);
  }

  method DatastoreGet(server: Handler, key: Bytes, faults: nat -> Option<Bytes>) returns (seen: Result<Seen, ReadError>)
    modifies server
    ensures (server.store, seen) == Connected(old(server.store), Get(key), faults)
  {
    var reply := Dial(server, OP_GET, key, [], faults);
    var value := ReadValue(reply);
    seen := if value.Failure? then Failure(value.error)
            else if value.value.Some? then Success(Found(value.value.value)) else Success(NotFound);
  }

  method DatastoreDelete(server: Handler, key: Bytes, faults: nat -> Option<Bytes>)
      returns (seen: Result<Seen, ReadError>)
    modifies server
    ensures (server.store, seen) == Connected(old(server.store), Delete(key), faults)
  {
    var reply := Dial(server, OP_DELETE, key, [], faults);
    var status := ReadStatus(reply);
    seen := if status.Success? then Success(Done) else Failure(status.error);
  }

  // ---------- agreement ----------

  function ConnectedAll(table: Table, reqs: seq<Request>): (Table, seq<Result<Seen, ReadError>>)
    decreases |reqs|
  {
    if reqs == [] then (table, [])
    else
      var (table', seen) := Connected(table, reqs[0], NoFault);
      var later := ConnectedAll(table', reqs[1..]);
      (later.0, [seen] + later.1)
  }

  lemma OneAgrees(table: Table, req: Request)
    requires ShortValues(table) && Fits(req) && Datastore(req)
    ensures Connected(table, req, NoFault) == (Local(table, req).0, Success(Local(table, req).1))
  {
    var reply := Answer(table, req, None);
    assert EncodeRequest(req) + [] == EncodeRequest(req);
    ServeFirst(table, req, [], NoFault, 0, Serve(reply.0, [], NoFault, 1));
    ReplyReads(table, req, []);
  }

  /**
   Connected mode agrees with in-memory mode: for every sequence of datastore operations whose keys and
   values fit, the server's table ends up as the local map, and every call returns the same.
   */
  lemma {:induction false} ConnectedAgrees(table: Table, reqs: seq<Request>)
    requires ShortValues(table) && forall k :: 0 <= k < |reqs| ==> Fits(reqs[k]) && Datastore(reqs[k])
    ensures ConnectedAll(table, reqs).0 == LocalAll(table, reqs).0
    ensures |ConnectedAll(table, reqs).1| == |reqs| && |LocalAll(table, reqs).1| == |reqs|
    ensures forall k :: 0 <= k < |reqs| ==> ConnectedAll(table, reqs).1[k] == Success(LocalAll(table, reqs).1[k])
    decreases |reqs|
  {
    if reqs != [] {
      OneAgrees(table, reqs[0]);
      LocalShort(table, reqs[0]);
      ConnectedAgrees(Local(table, reqs[0]).0, reqs[1..]);
    }
  }

  // ---------- disagreement ----------

  lemma {:induction false} ServedShort(table: Table, input: Bytes, faults: nat -> Option<Bytes>, n: nat)
    requires ShortValues(table)
    ensures ShortValues(Serve(table, input, faults, n).table)
    decreases |input|
  {
    var parsed := Parse(input);
    if parsed.Success? {
      ParsedFits(input);
      ServedShort(Answer(table, parsed.value.0, faults(n)).0, parsed.value.1, faults, n + 1);
    }
  }

  /** Storing a value and reading it back gives the value if and only if its length fits the length field. */
  lemma SetThenGet(table: Table, key: Bytes, val: Bytes)
    requires ShortValues(table) && |key| < LIMIT
    ensures Connected(Connected(table, Set(key, val), NoFault).0, Get(key), NoFault).1 == Success(Found(val))
            <==> |val| < LIMIT
  {
    var table' := Connected(table, Set(key, val), NoFault).0;
    ServedShort(table, EncodeRequest(Set(key, val)), NoFault, 0);
    if |val| < LIMIT {
      OneAgrees(table, Set(key, val));
    }
    OneAgrees(table', Get(key));
  }

  /** A store error is read as a value: the call agrees with the map only if the message happens to be there. */
  lemma GetFaultAgreesIff(table: Table, key: Bytes, msg: Bytes, faults: nat -> Option<Bytes>)
    requires ShortValues(table) && |key| < LIMIT && |msg| < LIMIT && faults(0) == Some(msg)
    ensures Connected(table, Get(key), faults) == (table, Success(Found(msg)))
    ensures Connected(table, Get(key), faults).1 == Success(Local(table, Get(key)).1)
            <==> key in table && table[key] == msg
  {
    var req := Get(key);
    assert EncodeRequest(req) + [] == EncodeRequest(req);
    ServeFirst(table, req, [], faults, 0, Serve(table, [], faults, 1));
    ValueReads(STATUS_ERROR, msg, []);
  }

  lemma FaultBytes(msg: Bytes)
    ensures EncodeReply(Fault(msg)) + [] == [STATUS_ERROR] + (PutUint32(|msg|) + msg)
  {
  }

  /** A failed Set goes unnoticed: the caller sees the same, and the table is as it was. */
  lemma SetFaultIsSilent(table: Table, key: Bytes, val: Bytes, msg: Bytes, faults: nat -> Option<Bytes>)
    requires Fits(Set(key, val)) && faults(0) == Some(msg)
    ensures Connected(table, Set(key, val), faults) == (table, Success(Done))
  {
    var req, rest := Set(key, val), PutUint32(|msg|) + msg;
    assert EncodeRequest(req) + [] == EncodeRequest(req);
    ServeFirst(table, req, [], faults, 0, Serve(table, [], faults, 1));
    FaultBytes(msg);
    StatusReads(STATUS_ERROR, rest);
  }

  // ---------- the keystore ----------

  /** In memory a taken name is refused. */
  function PublishLocal(table: Table, key: Bytes, data: Bytes): (Table, bool) {
    if key in table then (table, false) else (table[key := data], true)
  }

  /** Over a connection it is an ordinary Set; success is the status byte. */
  function PublishConnected(table: Table, key: Bytes, data: Bytes,
                            faults: nat -> Option<Bytes>): (Table, Result<bool, ReadError>)
  {
    var session := Serve(table, EncodeRequest(Set(key, data)), faults, 0);
    var status := ReadStatusOf(session.output);
    (session.table, if status.Success? then Success(status.value.0 == STATUS_OK) else Failure(status.error))
  }

  method KeystoreSet(server: Handler, key: Bytes, data: Bytes, faults: nat -> Option<Bytes>)
      returns (ok: Result<bool, ReadError>)
    modifies server
    ensures (server.store, ok) == PublishConnected(old(server.store), key, data, faults)
  {
    var reply := Dial(server, OP_SET, key, data, faults);
    var status := ReadStatus(reply);
    ok := if status.Success? then Success(status.value == STATUS_OK) else Failure(status.error);
  }

  /** Publishing a key over a connection agrees with the keystore in memory exactly when the name is free. */
  lemma PublishAgreesIff(table: Table, key: Bytes, data: Bytes)
    requires Fits(Set(key, data))
    ensures PublishConnected(table, key, data, NoFault) == (table[key := data], Success(true))
    ensures PublishConnected(table, key, data, NoFault)
            == (PublishLocal(table, key, data).0, Success(PublishLocal(table, key, data).1))
       <==> key !in table
  {
    var req := Set(key, data);
    assert EncodeRequest(req) + [] == EncodeRequest(req);
    ServeFirst(table, req, [], NoFault, 0, Serve(table[key := data], [], NoFault, 1));
    StatusReads(STATUS_OK, []);
  }
}
