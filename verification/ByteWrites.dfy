/**
 Writing files as bytes: storing and appending seal each record under derived keys with a fresh IV.  Any run
 of stores and appends on the bytes gives the results of the symbolic run and leaves an envelope of each of
 its payloads.
 */
module ByteWrites {
  import opened Wrappers
  import opened Blocks
  import opened Records
  import opened Protocol
  import opened Ledgers
  import opened Refinement
  import opened Runs
  import opened Envelope
  import opened Derivation
  import opened ByteStore

  /** The bytes of the store, the supply of fresh names and the number of IVs drawn. */
  datatype Drive = Drive(disk: Disk, next: nat, drawn: nat) {
    function Skip(k: nat): Drive {
      this.(next := next + k)
    }
  }

  /** The primitives, and the IVs in the order they are drawn. */
  datatype Machine = Machine(base: Base, iv: nat -> seq<byte>) {
    ghost predicate Valid() {
      base.Valid() && forall n :: |iv(n)| == AES_BLOCK
    }

    /** The drive holds an envelope of each sealed payload. */
    ghost predicate Mirrors(d: Drive, st: State)
      requires Valid()
    {
      base.Keeps(d.disk, st) && d.next == st.next
    }

    /** Encode, derive the keys, encrypt and authenticate under the next IV, and store. */
    function Put(d: Drive, u: UUID, key: Key, plain: Record): Drive
      requires Valid()
    {
      Drive(d.disk[u := base.Seal(key, plain, iv(d.drawn))], d.next, d.drawn + 1)
    }
  }

  lemma PutMirrors(m: Machine, d: Drive, st: State, u: UUID, key: Key, plain: Record)
    requires m.Valid() && m.Mirrors(d, st)
    ensures m.Mirrors(m.Put(d, u, key, plain), st.Put(u, Sealed(key, plain)))
  {
    var b, iv := m.base, m.iv(d.drawn);
    BytesStoreAsSymbols(b.cry, b.mat, b.codec, d.disk, st, u, key, plain, iv, KeyBytes(b.cry, b.mat, key));
  }

  // ---------- storing ----------

  function BytePutBlocks(m: Machine, d: Drive, chunks: seq<seq<byte>>, key: nat): Drive
    requires m.Valid()
    decreases |chunks|
  {
    if chunks == [] then d
    else BytePutBlocks(m, m.Put(d.Skip(1), Random(d.next), FileKey(key), BlockRec(chunks[0])), chunks[1..], key)
  }

  lemma {:induction false} PutBlocksMirror(m: Machine, d: Drive, st: State, chunks: seq<seq<byte>>, key: nat)
    requires m.Valid() && m.Mirrors(d, st)
    ensures m.Mirrors(BytePutBlocks(m, d, chunks, key), PutBlocks(st, chunks, key))
    decreases |chunks|
  {
    if chunks != [] {
      var d1, st1 := d.Skip(1), st.Draw(1);
      PutMirrors(m, d1, st1, Random(d.next), FileKey(key), BlockRec(chunks[0]));
      PutBlocksMirror(m, m.Put(d1, Random(d.next), FileKey(key), BlockRec(chunks[0])),
                     st1.Put(Random(d.next), Sealed(FileKey(key), BlockRec(chunks[0]))), chunks[1..], key);
    }
  }

  function ByteSaveUser(m: Machine, d: Drive, user: UserData): Drive
    requires m.Valid()
  {
    m.Put(d, UserUUID(user.username), UserKey(user.master), UserRec(user))
  }

  function ByteStoreFile(m: Machine, d: Drive, user: UserData, filename: string, content: seq<byte>): (Drive, UserData)
    requires m.Valid()
  {
    var fileKey, inode, mailbox, mailKey := d.next, d.next + 1, d.next + 2, d.next + 3;
    var accessUUID := AccessUUID(user.username, filename);
    var d1 := m.Put(d.Skip(4), Random(mailbox), MailKey(mailKey), MailboxRec(MailboxNode(fileKey, Random(inode))));
    var d2 := m.Put(d1, accessUUID, PersonalKey(user.master, filename),
                    AccessRec(Access(Random(mailbox), mailKey, map[])));
    var chunks := Chunks(content);
    var d3 := BytePutBlocks(m, d2, chunks, fileKey);
    var node := Inode(|content|, FreshIds(d2.next, |chunks|));
    var d4 := m.Put(d3, Random(inode), FileKey(fileKey), InodeRec(node));
    var user' := user.(files := user.files[filename := accessUUID]);
    (ByteSaveUser(m, d4, user'), user')
  }

  /** Storing needs no hypothesis: it reads nothing. */
  lemma StoreMirrors(m: Machine, d: Drive, st: State, user: UserData, filename: string, content: seq<byte>)
    requires m.Valid() && m.Mirrors(d, st)
    ensures m.Mirrors(ByteStoreFile(m, d, user, filename, content).0, StoreFile(st, user, filename, content).st)
    ensures ByteStoreFile(m, d, user, filename, content).1 == StoreFile(st, user, filename, content).user
  {
    var fileKey, inode, mailbox, mailKey := st.next, st.next + 1, st.next + 2, st.next + 3;
    var accessUUID := AccessUUID(user.username, filename);
    var box := MailboxRec(MailboxNode(fileKey, Random(inode)));
    var access := AccessRec(Access(Random(mailbox), mailKey, map[]));
    var d1, st1 := m.Put(d.Skip(4), Random(mailbox), MailKey(mailKey), box),
                   st.Draw(4).Put(Random(mailbox), Sealed(MailKey(mailKey), box));
    PutMirrors(m, d.Skip(4), st.Draw(4), Random(mailbox), MailKey(mailKey), box);
    var d2, st2 := m.Put(d1, accessUUID, PersonalKey(user.master, filename), access),
                   st1.Put(accessUUID, Sealed(PersonalKey(user.master, filename), access));
    PutMirrors(m, d1, st1, accessUUID, PersonalKey(user.master, filename), access);
    var chunks := Chunks(content);
    var d3, st3 := BytePutBlocks(m, d2, chunks, fileKey), PutBlocks(st2, chunks, fileKey);
    PutBlocksMirror(m, d2, st2, chunks, fileKey);
    var node := InodeRec(Inode(|content|, FreshIds(st2.next, |chunks|)));
    var user' := user.(files := user.files[filename := accessUUID]);
    PutMirrors(m, d3, st3, Random(inode), FileKey(fileKey), node);
    PutMirrors(m, m.Put(d3, Random(inode), FileKey(fileKey), node),
             st3.Put(Random(inode), Sealed(FileKey(fileKey), node)), UserUUID(user'.username), UserKey(user'.master),
             UserRec(user'));
  }

  // ---------- appending ----------

  function ByteNode(b: Base, disk: Disk, user: UserData, filename: string): Result<MailboxNode, Error>
    requires b.Valid()
  {
    var access :- ByteAccess(b, disk, user, filename);
    ByteMailbox(b, disk, access)
  }

  /** The writes of an append that has read the mailbox and the inode. */
  function ExtendedState(st: State, node: MailboxNode, inode: Inode, data: seq<byte>): State {
    var chunks := Chunks(data);
    PutBlocks(st, chunks, node.fileKey).Put(node.inode, Sealed(FileKey(node.fileKey), InodeRec(
      Inode(inode.size + |data|, inode.blocks + FreshIds(st.next, |chunks|)))))
  }

  function ByteExtended(m: Machine, d: Drive, node: MailboxNode, inode: Inode, data: seq<byte>): Drive
    requires m.Valid()
  {
    var chunks := Chunks(data);
    m.Put(BytePutBlocks(m, d, chunks, node.fileKey), node.inode, FileKey(node.fileKey), InodeRec(
      Inode(inode.size + |data|, inode.blocks + FreshIds(d.next, |chunks|))))
  }

  function ByteAppendToFile(m: Machine, d: Drive, user: UserData, filename: string, content: Option<seq<byte>>)
      : (Drive, Result<(), Error>)
    requires m.Valid()
  {
    if content.None? then (d, Failure(NilContent))
    else
      var found := ByteNode(m.base, d.disk, user, filename);
      if found.Failure? then (d, Failure(found.error))
      else
        var node := found.value;
        var read := ByteInode(m.base, d.disk, node);
        if read.Failure? then (d, Failure(read.error))
        else (ByteExtended(m, d, node, read.value, content.value), Success(()))
  }

  lemma ChainAgrees(b: Base, disk: Disk, w: World, names: set<string>, sid: nat, filename: string)
    requires b.Valid() && Inv(w) && sid < |w.sessions| && filename in names
    requires b.Keeps(disk, w.st) && NoCollision(b, disk, w, names)
    ensures ByteNode(b, disk, w.sessions[sid], filename) == OpenNode(w.st, w.sessions[sid], filename)
    ensures OpenNode(w.st, w.sessions[sid], filename).Success? ==>
              var node := OpenNode(w.st, w.sessions[sid], filename).value;
              ByteInode(b, disk, node) == OpenInode(w.st, node)
  {
    var user := w.sessions[sid];
    var s := AccessUUID(user.username, filename);
    assert InUse(w, names, PersonalKey(user.master, filename));
    AccessAgrees(b, disk, w.led, w.st, user, filename);
    if Holds(w.led, user, filename) {
      var m := w.led.recs[s].mailbox;
      HolderOpensAccess(w.led, w.st, user, filename);
      RecordOpensMailbox(w.led, w.st, w.led.recs[s]);
      MailboxAgrees(b, disk, w.led, w.st, w.led.recs[s]);
      FileKeyDrawn(w.led, m);
      TagsOfInode(b, disk, w, names, w.led.mails[m].file, w.led.mails[m].fileKey);
      InodeAgrees(b, disk, w.led, w.st, w.led.mails[m].file, w.led.mails[m].fileKey);
    } else {
      NonHolderFails(w.led, w.st, user, filename);
    }
  }

  lemma ExtendedMirrors(m: Machine, d: Drive, st: State, node: MailboxNode, inode: Inode, data: seq<byte>)
    requires m.Valid() && m.Mirrors(d, st)
    ensures m.Mirrors(ByteExtended(m, d, node, inode, data), ExtendedState(st, node, inode, data))
  {
    var chunks := Chunks(data);
    PutBlocksMirror(m, d, st, chunks, node.fileKey);
    PutMirrors(m, BytePutBlocks(m, d, chunks, node.fileKey), PutBlocks(st, chunks, node.fileKey), node.inode,
             FileKey(node.fileKey), InodeRec(Inode(inode.size + |data|, inode.blocks + FreshIds(st.next, |chunks|))));
  }

  lemma AppendExtends(st: State, user: UserData, filename: string, data: seq<byte>)
    ensures var found := OpenNode(st, user, filename);
            found.Failure? ==>
              AppendToFile(st, user, filename, Some(data)) == Outcome(st, user, Failure(found.error))
    ensures var found := OpenNode(st, user, filename);
            found.Success? && OpenInode(st, found.value).Failure? ==>
              AppendToFile(st, user, filename, Some(data))
              == Outcome(st, user, Failure(OpenInode(st, found.value).error))
    ensures var found := OpenNode(st, user, filename);
            found.Success? && OpenInode(st, found.value).Success? ==>
              AppendToFile(st, user, filename, Some(data))
              == Outcome(ExtendedState(st, found.value, OpenInode(st, found.value).value, data), user, Success(()))
  {
  }

  lemma AppendWrites(m: Machine, d: Drive, st: State, user: UserData, filename: string, data: seq<byte>)
    requires m.Valid() && m.Mirrors(d, st)
    requires ByteNode(m.base, d.disk, user, filename) == OpenNode(st, user, filename)
    requires OpenNode(st, user, filename).Success? ==>
               var node := OpenNode(st, user, filename).value;
               ByteInode(m.base, d.disk, node) == OpenInode(st, node)
    ensures m.Mirrors(ByteAppendToFile(m, d, user, filename, Some(data)).0,
                    AppendToFile(st, user, filename, Some(data)).st)
    ensures ByteAppendToFile(m, d, user, filename, Some(data)).1 == AppendToFile(st, user, filename, Some(data)).res
  {
    AppendExtends(st, user, filename, data);
    var found := OpenNode(st, user, filename);
    if found.Success? && OpenInode(st, found.value).Success? {
      ExtendedMirrors(m, d, st, found.value, OpenInode(st, found.value).value, data);
    }
  }

  lemma AppendMirrors(m: Machine, d: Drive, w: World, names: set<string>, sid: nat, filename: string,
                    data: Option<seq<byte>>)
    requires m.Valid() && m.Mirrors(d, w.st) && Inv(w) && sid < |w.sessions| && filename in names
    requires NoCollision(m.base, d.disk, w, names)
    ensures var user := w.sessions[sid];
            && m.Mirrors(ByteAppendToFile(m, d, user, filename, data).0, AppendToFile(w.st, user, filename, data).st)
            && ByteAppendToFile(m, d, user, filename, data).1 == AppendToFile(w.st, user, filename, data).res
  {
    if data.Some? {
      ChainAgrees(m.base, d.disk, w, names, sid, filename);
      AppendWrites(m, d, w.st, w.sessions[sid], filename, data.value);
    }
  }

  // ---------- runs of stores and appends ----------

  /** Every operation is a store or an append of some session, under a name of interest. */
  predicate WritesOnly(ops: seq<Op>, names: set<string>, sessions: nat) {
    forall k :: 0 <= k < |ops| ==>
      (ops[k].Store? || ops[k].Append?) && ops[k].sid < sessions && ops[k].filename in names
  }

  /** One write on the bytes: the drive, the sessions and the success. */
  function ByteStep(m: Machine, d: Drive, sessions: seq<UserData>, op: Op): (Drive, seq<UserData>, bool)
    requires m.Valid() && (op.Store? || op.Append?) && op.sid < |sessions|
  {
    if op.Store? then
      var (d', user') := ByteStoreFile(m, d, sessions[op.sid], op.filename, op.content);
      (d', sessions[op.sid := user'], true)
    else
      var (d', res) := ByteAppendToFile(m, d, sessions[op.sid], op.filename, op.data);
      (d', sessions, res.Success?)
  }

  function ByteRun(m: Machine, d: Drive, sessions: seq<UserData>, ops: seq<Op>, names: set<string>)
      : (Drive, seq<UserData>, seq<bool>)
    requires m.Valid() && WritesOnly(ops, names, |sessions|)
    decreases |ops|
  {
    if ops == [] then (d, sessions, [])
    else
      var (d1, sessions1, ok) := ByteStep(m, d, sessions, ops[0]);
      var (d', sessions', oks) := ByteRun(m, d1, sessions1, ops[1..], names);
      (d', sessions', [ok] + oks)
  }

  /** No key of the run finds a foreign tag on any of the drives it passes through. */
  ghost predicate NeverCollides(m: Machine, d: Drive, w: World, ops: seq<Op>, names: set<string>)
    requires m.Valid() && WritesOnly(ops, names, |w.sessions|)
    decreases |ops|
  {
    && d.disk.Keys == w.st.store.Keys && NoCollision(m.base, d.disk, w, names)
    && (ops != [] ==>
          && |Step(w, ops[0]).sessions| == |w.sessions|
          && NeverCollides(m, ByteStep(m, d, w.sessions, ops[0]).0, Step(w, ops[0]), ops[1..], names))
  }

  lemma WriteStep(w: World, op: Op)
    requires (op.Store? || op.Append?) && HasSession(w, op)
    ensures op.Store? ==>
              var out := StoreFile(w.st, w.sessions[op.sid], op.filename, op.content);
              Step(w, op).st == out.st && Step(w, op).sessions == w.sessions[op.sid := out.user] && Succeeds(w, op)
    ensures op.Append? ==>
              var out := AppendToFile(w.st, w.sessions[op.sid], op.filename, op.data);
              && Step(w, op).st == out.st && Step(w, op).sessions == w.sessions
              && Succeeds(w, op) == out.res.Success?
  {
    if op.Append? {
      assert AppendToFile(w.st, w.sessions[op.sid], op.filename, op.data).user == w.sessions[op.sid];
    }
  }

  lemma StepMirrors(m: Machine, d: Drive, w: World, op: Op, names: set<string>)
    requires m.Valid() && m.Mirrors(d, w.st) && Inv(w) && (op.Store? || op.Append?) && HasSession(w, op)
    requires op.filename in names && NoCollision(m.base, d.disk, w, names)
    ensures m.Mirrors(ByteStep(m, d, w.sessions, op).0, Step(w, op).st)
    ensures ByteStep(m, d, w.sessions, op).1 == Step(w, op).sessions
    ensures ByteStep(m, d, w.sessions, op).2 == Succeeds(w, op)
  {
    WriteStep(w, op);
    if op.Store? {
      StoreMirrors(m, d, w.st, w.sessions[op.sid], op.filename, op.content);
    } else {
      AppendMirrors(m, d, w, names, op.sid, op.filename, op.data);
    }
  }

  lemma NextCollides(m: Machine, d: Drive, w: World, ops: seq<Op>, names: set<string>, d1: Drive, w1: World)
    requires m.Valid() && WritesOnly(ops, names, |w.sessions|) && ops != [] && NeverCollides(m, d, w, ops, names)
    requires d1 == ByteStep(m, d, w.sessions, ops[0]).0 && w1 == Step(w, ops[0])
    ensures NoCollision(m.base, d.disk, w, names) && HasSession(w, ops[0]) && ops[0].filename in names
    ensures WritesOnly(ops[1..], names, |w1.sessions|) && NeverCollides(m, d1, w1, ops[1..], names)
  {
  }

  lemma RunUnfolds(m: Machine, d: Drive, w: World, ops: seq<Op>, names: set<string>, d1: Drive, w1: World, ok: bool)
    requires m.Valid() && WritesOnly(ops, names, |w.sessions|) && ops != []
    requires ByteStep(m, d, w.sessions, ops[0]) == (d1, w1.sessions, ok) && w1 == Step(w, ops[0])
    requires WritesOnly(ops[1..], names, |w1.sessions|)
    ensures var r := ByteRun(m, d1, w1.sessions, ops[1..], names);
            ByteRun(m, d, w.sessions, ops, names) == (r.0, r.1, [ok] + r.2)
    ensures Run(w, ops) == Run(w1, ops[1..]) && Results(w, ops) == [Succeeds(w, ops[0])] + Results(w1, ops[1..])
  {
  }

  /**
   Files can be written as bytes.  Take any reachable world, a byte store holding an envelope of each of its
   sealed payloads, and any sequence of stores and appends by the logged-in users.  If no key of the run ever
   finds a valid tag on a payload it did not seal, the bytes give the results of the symbolic run, and hold an
   envelope of each payload it leaves.
   */
  lemma {:induction false} BytesRunAsSymbols(m: Machine, d: Drive, w: World, ops: seq<Op>, names: set<string>)
    requires m.Valid() && m.Mirrors(d, w.st) && Inv(w) && WritesOnly(ops, names, |w.sessions|)
    requires NeverCollides(m, d, w, ops, names)
    ensures m.Mirrors(ByteRun(m, d, w.sessions, ops, names).0, Run(w, ops).st)
    ensures ByteRun(m, d, w.sessions, ops, names).1 == Run(w, ops).sessions
    ensures ByteRun(m, d, w.sessions, ops, names).2 == Results(w, ops)
    decreases |ops|
  {
    if ops != [] {
      var d1, w1, ok := ByteStep(m, d, w.sessions, ops[0]).0, Step(w, ops[0]), Succeeds(w, ops[0]);
      NextCollides(m, d, w, ops, names, d1, w1);
      StepMirrors(m, d, w, ops[0], names);
      RunUnfolds(m, d, w, ops, names, d1, w1, ok);
      StepInv(w, ops[0]);
      BytesRunAsSymbols(m, d1, w1, ops[1..], names);
    }
  }

  lemma {:induction false} LastCollides(m: Machine, d: Drive, w: World, ops: seq<Op>, names: set<string>, last: Drive)
    requires m.Valid() && m.Mirrors(d, w.st) && Inv(w) && WritesOnly(ops, names, |w.sessions|)
    requires NeverCollides(m, d, w, ops, names) && last == ByteRun(m, d, w.sessions, ops, names).0
    ensures last.disk.Keys == Run(w, ops).st.store.Keys && NoCollision(m.base, last.disk, Run(w, ops), names)
    decreases |ops|
  {
    if ops != [] {
      var d1, w1 := ByteStep(m, d, w.sessions, ops[0]).0, Step(w, ops[0]);
      NextCollides(m, d, w, ops, names, d1, w1);
      StepMirrors(m, d, w, ops[0], names);
      RunUnfolds(m, d, w, ops, names, d1, w1, Succeeds(w, ops[0]));
      StepInv(w, ops[0]);
      LastCollides(m, d1, w1, ops[1..], names, last);
    }
  }

  /** What was written as bytes is read back from them: after the run every load gives what the symbols give. */
  lemma BytesReadBack(m: Machine, d: Drive, w: World, ops: seq<Op>, names: set<string>, sid: nat, filename: string)
    requires m.Valid() && m.Mirrors(d, w.st) && Inv(w) && WritesOnly(ops, names, |w.sessions|)
    requires NeverCollides(m, d, w, ops, names) && sid < |Run(w, ops).sessions| && filename in names
    ensures var (last, sessions, _) := ByteRun(m, d, w.sessions, ops, names);
            && sid < |sessions|
            && ByteLoadFile(m.base, last.disk, sessions[sid], filename)
               == LoadFile(Run(w, ops).st, Run(w, ops).sessions[sid], filename)
  {
    var last := ByteRun(m, d, w.sessions, ops, names).0;
    BytesRunAsSymbols(m, d, w, ops, names);
    LastCollides(m, d, w, ops, names, last);
    RunInv(w, ops);
    BytesLoadAsSymbols(m.base, last.disk, Run(w, ops), names, sid, filename);
  }
}
