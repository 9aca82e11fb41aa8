/**
 Reading a file from the bytes of the store: access record, mailbox, inode and blocks, each fetched,
 verified, decrypted and decoded.  In every reachable world that gives what the symbolic store gives.
 */
module ByteStore {
  import opened Wrappers
  import opened Blocks
  import opened Records
  import opened Protocol
  import opened Ledgers
  import opened Refinement
  import opened Runs
  import opened Envelope
  import opened Derivation

  type Disk = map<UUID, seq<byte>>

  /** The primitives and the encoding the program is built on. */
  datatype Base = Base(cry: Crypto, mat: Material, codec: Codec) {
    ghost predicate Valid() {
      Sized(cry) && Faithful(codec)
    }

    /** The byte store holds an envelope of each sealed payload. */
    ghost predicate Keeps(disk: Disk, st: State)
      requires Valid()
    {
      StoredBytes(cry, mat, codec, disk, st)
    }

    function Fetch(disk: Disk, u: UUID, key: Key, kind: Kind): (r: Result<Record, Error>)
      requires Valid()
      ensures r.Success? ==> KindOf(r.value) == kind
    {
      ByteOpen(cry, mat, codec, disk, u, key, kind)
    }

    function Seal(key: Key, plain: Record, iv: seq<byte>): seq<byte>
      requires Valid()
    {
      Enveloped(cry, codec.encode(plain), KeyBytes(cry, mat, key).enc, KeyBytes(cry, mat, key).mac, iv)
    }
  }

  // ---------- loading from bytes ----------

  function ByteAccess(b: Base, disk: Disk, user: UserData, filename: string): Result<Access, Error>
    requires b.Valid()
  {
    var r :- b.Fetch(disk, AccessUUID(user.username, filename), PersonalKey(user.master, filename), AccessKind);
    Success(r.access)
  }

  function ByteMailbox(b: Base, disk: Disk, access: Access): Result<MailboxNode, Error>
    requires b.Valid()
  {
    var r :- b.Fetch(disk, access.mailbox, MailKey(access.key), MailboxKind);
    Success(r.node)
  }

  function ByteInode(b: Base, disk: Disk, node: MailboxNode): Result<Inode, Error>
    requires b.Valid()
  {
    var r :- b.Fetch(disk, node.inode, FileKey(node.fileKey), InodeKind);
    Success(r.inode)
  }

  function ByteBlocks(b: Base, disk: Disk, blocks: seq<UUID>, key: nat): Result<seq<byte>, Error>
    requires b.Valid()
  {
    if blocks == [] then Success([])
    else
      var r :- b.Fetch(disk, blocks[0], FileKey(key), BlockKind);
      var rest :- ByteBlocks(b, disk, blocks[1..], key);
      Success(r.data + rest)
  }

  function ByteLoadFile(b: Base, disk: Disk, user: UserData, filename: string): Result<seq<byte>, Error>
    requires b.Valid()
  {
    var access :- ByteAccess(b, disk, user, filename);
    var node :- ByteMailbox(b, disk, access);
    var inode :- ByteInode(b, disk, node);
    ByteBlocks(b, disk, inode.blocks, node.fileKey)
  }

  // ---------- what is assumed of the tags ----------

  /** The keys of a run: those of the logged-in users, for the file names of interest, and every key drawn. */
  ghost predicate InUse(w: World, names: set<string>, key: Key) {
    match key
    case UserKey(m) => exists k :: 0 <= k < |w.sessions| && w.sessions[k].master == m
    case PersonalKey(m, f) => f in names && exists k :: 0 <= k < |w.sessions| && w.sessions[k].master == m
    case FileKey(n) => n < w.st.next
    case MailKey(n) => n < w.st.next
  }

  /** No stored payload carries a valid tag under a key of the run that it was not sealed with. */
  ghost predicate NoCollision(b: Base, disk: Disk, w: World, names: set<string>)
    requires b.Valid() && disk.Keys == w.st.store.Keys
  {
    forall u, key | u in w.st.store && InUse(w, names, key) && !(w.st.store[u].Sealed? && w.st.store[u].lock == key) ::
      NoValidTag(b.cry, b.mat, disk[u], key)
  }

  /** The keys of the run, and those the stored payloads are sealed with. */
  ghost function KeysAround(w: World, names: set<string>): iset<Key> {
    iset key: Key | InUse(w, names, key) || Locks(w, key)
  }

  ghost predicate Locks(w: World, key: Key) {
    exists u :: u in w.st.store && w.st.store[u].Sealed? && w.st.store[u].lock == key
  }

  /**
   The primitives do not collide: not in the derivations of the keys around, not in cutting the MAC keys, and no
   two of the cut keys give one tag on a stored payload.  What is stored and not sealed carries no valid tag.
   */
  ghost predicate NothingCollides(b: Base, disk: Disk, w: World, used: iset<Key>)
    requires b.Valid() && disk.Keys == w.st.store.Keys
  {
    && AsLongAsAsked(b.mat) && CollisionFree(b.cry, b.mat, used)
    && (forall k, k' | k in used && k' in used && CutMac(b, k) == CutMac(b, k') ::
          KeyBytes(b.cry, b.mat, k).mac == KeyBytes(b.cry, b.mat, k').mac)
    && (forall u, k | u in w.st.store && w.st.store[u].Sealed? && k in used && |disk[u]| >= 64
                      && TagUnder(b, disk[u], k) == TagUnder(b, disk[u], w.st.store[u].lock) ::
          CutMac(b, k) == CutMac(b, w.st.store[u].lock))
    && forall u, k | u in w.st.store && !w.st.store[u].Sealed? && k in used :: NoValidTag(b.cry, b.mat, disk[u], k)
  }

  function CutMac(b: Base, key: Key): seq<byte>
    requires b.Valid()
  {
    b.cry.hash(KeyBytes(b.cry, b.mat, key).mac)[..16]
  }

  /** The tag this key would put on the text in a payload. */
  function TagUnder(b: Base, payload: seq<byte>, key: Key): seq<byte>
    requires b.Valid() && |payload| >= 64
  {
    b.cry.hmac(CutMac(b, key), payload[..|payload| - 64])
  }

  lemma SealedTag(b: Base, payload: seq<byte>, lock: Key, plain: Record)
    requires b.Valid() && IsSealed(b.cry, b.mat, b.codec, payload, lock, plain)
    ensures |payload| >= 64 && payload[|payload| - 64..] == TagUnder(b, payload, lock)
  {
    var keys := KeyBytes(b.cry, b.mat, lock);
    var iv :| |iv| == AES_BLOCK && payload == Enveloped(b.cry, b.codec.encode(plain), keys.enc, keys.mac, iv);
    PayloadIs(b.cry, b.codec.encode(plain), keys.enc, keys.mac, iv);
  }

  lemma ForeignTag(b: Base, disk: Disk, w: World, used: iset<Key>, u: UUID, key: Key)
    requires b.Valid() && b.Keeps(disk, w.st) && NothingCollides(b, disk, w, used)
    requires u in w.st.store && w.st.store[u].Sealed? && key in used && w.st.store[u].lock in used
    requires key != w.st.store[u].lock
    ensures NoValidTag(b.cry, b.mat, disk[u], key)
  {
    var p, lock := disk[u], w.st.store[u].lock;
    SealedTag(b, p, lock, w.st.store[u].plain);
    if TagUnder(b, p, key) == TagUnder(b, p, lock) {
      assert CutMac(b, key) == CutMac(b, lock);
      KeysApart(b.cry, b.mat, used, key, lock);
    }
  }

  lemma UnsealedTag(b: Base, disk: Disk, w: World, used: iset<Key>, u: UUID, key: Key)
    requires b.Valid() && b.Keeps(disk, w.st) && NothingCollides(b, disk, w, used)
    requires u in w.st.store && !w.st.store[u].Sealed? && key in used
    ensures NoValidTag(b.cry, b.mat, disk[u], key)
  {
  }

  /**
   Nothing has to be assumed of tags: if the hash, the HMAC, the encoding of strings and the drawn bytes do not
   collide on what the run asks of them, no key of the run finds a valid tag on a payload it did not seal.
   */
  lemma PrimitivesSuffice(b: Base, disk: Disk, w: World, names: set<string>)
    requires b.Valid() && b.Keeps(disk, w.st) && NothingCollides(b, disk, w, KeysAround(w, names))
    ensures NoCollision(b, disk, w, names)
  {
    var used := KeysAround(w, names);
    forall u, key | u in w.st.store && InUse(w, names, key) && !(w.st.store[u].Sealed? && w.st.store[u].lock == key)
      ensures NoValidTag(b.cry, b.mat, disk[u], key)
    {
      assert key in used;
      if w.st.store[u].Sealed? {
        assert Locks(w, w.st.store[u].lock);
        assert w.st.store[u].lock in used;
        ForeignTag(b, disk, w, used, u, key);
      } else {
        UnsealedTag(b, disk, w, used, u, key);
      }
    }
  }

  /** One read agrees: a key that fits opens the kind of record that is read, one that does not finds no valid tag. */
  ghost predicate Agreeable(b: Base, disk: Disk, st: State, u: UUID, key: Key, kind: Kind)
    requires b.Valid() && disk.Keys == st.store.Keys
  {
    u in st.store ==>
      if st.store[u].Sealed? && st.store[u].lock == key then KindOf(st.store[u].plain) == kind
      else NoValidTag(b.cry, b.mat, disk[u], key)
  }

  lemma ReadAgrees(b: Base, disk: Disk, st: State, u: UUID, key: Key, kind: Kind)
    requires b.Valid() && b.Keeps(disk, st) && Agreeable(b, disk, st, u, key, kind)
    ensures b.Fetch(disk, u, key, kind) == st.Open(u, key, kind)
  {
    BytesOpenAsSymbols(b.cry, b.mat, b.codec, disk, st, u, key, kind);
  }

  // ---------- the four reads in a represented store ----------

  lemma AccessAgrees(b: Base, disk: Disk, led: Ledger, st: State, user: UserData, filename: string)
    requires b.Valid() && b.Keeps(disk, st) && RecsStored(led, st) && NamedStored(led, st)
    requires var u, key := AccessUUID(user.username, filename), PersonalKey(user.master, filename);
             u in st.store && !(st.store[u].Sealed? && st.store[u].lock == key) ==>
               NoValidTag(b.cry, b.mat, disk[u], key)
    ensures ByteAccess(b, disk, user, filename) == OpenAccess(st, user, filename)
  {
    var u := AccessUUID(user.username, filename);
    if u in led.recs {
      assert StoredAs(st, u, Sealed(PersonalKey(led.recs[u].master, led.recs[u].filename),
                                    AccessRec(AccessOf(led, led.recs[u]))));
    } else if u in st.store {
      assert UserStored(led, u, st.store[u]);
    }
    ReadAgrees(b, disk, st, u, PersonalKey(user.master, filename), AccessKind);
  }

  lemma MailboxAgrees(b: Base, disk: Disk, led: Ledger, st: State, rec: RecInfo)
    requires b.Valid() && b.Keeps(disk, st) && MailsStored(led, st) && rec.mailbox in led.mails
    ensures ByteMailbox(b, disk, AccessOf(led, rec)) == OpenMailbox(st, AccessOf(led, rec))
  {
    assert StoredAs(st, Random(rec.mailbox), NodeOf(led.mails[rec.mailbox]));
    ReadAgrees(b, disk, st, Random(rec.mailbox), MailKey(led.mails[rec.mailbox].key), MailboxKind);
  }

  lemma InodeAgrees(b: Base, disk: Disk, led: Ledger, st: State, i: nat, key: nat)
    requires b.Valid() && b.Keeps(disk, st) && FilesStored(led, st) && i in led.files
    requires Random(i) in disk && key != led.files[i].key ==> NoValidTag(b.cry, b.mat, disk[Random(i)], FileKey(key))
    ensures ByteInode(b, disk, MailboxNode(key, Random(i))) == OpenInode(st, MailboxNode(key, Random(i)))
    ensures OpenInode(st, MailboxNode(key, Random(i))).Success? ==>
              key == led.files[i].key && OpenInode(st, MailboxNode(key, Random(i))).value.blocks == led.files[i].blocks
  {
    assert StoredAs(st, Random(i), InodeOf(led.files[i]));
    ReadAgrees(b, disk, st, Random(i), FileKey(key), InodeKind);
  }

  lemma {:induction false} BlocksAgree(b: Base, disk: Disk, st: State, blocks: seq<UUID>, key: nat)
    requires b.Valid() && b.Keeps(disk, st)
    requires forall j :: 0 <= j < |blocks| ==> Agreeable(b, disk, st, blocks[j], FileKey(key), BlockKind)
    ensures ByteBlocks(b, disk, blocks, key) == LoadBlocks(st, blocks, key)
  {
    if blocks != [] {
      ReadAgrees(b, disk, st, blocks[0], FileKey(key), BlockKind);
      BlocksAgree(b, disk, st, blocks[1..], key);
    }
  }

  lemma FileAgrees(b: Base, disk: Disk, led: Ledger, st: State, i: nat)
    requires b.Valid() && b.Keeps(disk, st) && BlocksStored(led, st) && i in led.files
    ensures ByteBlocks(b, disk, led.files[i].blocks, led.files[i].key)
            == LoadBlocks(st, led.files[i].blocks, led.files[i].key)
  {
    var file := led.files[i];
    assert FileBlocksStored(st, file);
    forall j | 0 <= j < |file.blocks|
      ensures Agreeable(b, disk, st, file.blocks[j], FileKey(file.key), BlockKind)
    {
      assert StoredAs(st, file.blocks[j], Sealed(FileKey(file.key), BlockRec(file.chunks[j])));
    }
    BlocksAgree(b, disk, st, file.blocks, file.key);
  }

  // ---------- every reachable world ----------

  lemma FileKeyDrawn(led: Ledger, m: nat)
    requires RolesOK(led) && MailsOK(led) && m in led.mails
    ensures led.mails[m].fileKey < led.next && led.mails[m].file in led.files
  {
    assert MailOK(led, m, led.mails[m]);
  }

  /** From the opened access record on. */
  lemma HolderAgrees(b: Base, disk: Disk, led: Ledger, st: State, user: UserData, filename: string, rec: RecInfo,
                     i: nat, key: nat)
    requires b.Valid() && b.Keeps(disk, st) && FilesStored(led, st) && BlocksStored(led, st) && MailsStored(led, st)
    requires rec.mailbox in led.mails && key == led.mails[rec.mailbox].fileKey && i == led.mails[rec.mailbox].file
    requires i in led.files
    requires ByteAccess(b, disk, user, filename) == OpenAccess(st, user, filename) == Success(AccessOf(led, rec))
    requires Random(i) in disk && key != led.files[i].key ==> NoValidTag(b.cry, b.mat, disk[Random(i)], FileKey(key))
    ensures ByteLoadFile(b, disk, user, filename) == LoadFile(st, user, filename)
  {
    RecordOpensMailbox(led, st, rec);
    MailboxAgrees(b, disk, led, st, rec);
    InodeAgrees(b, disk, led, st, i, key);
    FileAgrees(b, disk, led, st, i);
  }

  lemma TagsOfInode(b: Base, disk: Disk, w: World, names: set<string>, i: nat, key: nat)
    requires b.Valid() && b.Keeps(disk, w.st) && NoCollision(b, disk, w, names) && FilesStored(w.led, w.st)
    requires i in w.led.files && key < w.st.next
    ensures Random(i) in disk && key != w.led.files[i].key ==> NoValidTag(b.cry, b.mat, disk[Random(i)], FileKey(key))
  {
    assert InUse(w, names, FileKey(key)) && StoredAs(w.st, Random(i), InodeOf(w.led.files[i]));
  }

  /**
   The bytes are enough.  Take any reachable world and any byte store that holds an envelope for each of its
   sealed payloads.  If no key of the run finds a valid tag on a payload it did not seal, every logged-in
   user loads from the bytes, under every name, exactly what it loads from the symbolic store, with the
   same error when it loads nothing.
   */
  lemma BytesLoadAsSymbols(b: Base, disk: Disk, w: World, names: set<string>, sid: nat, filename: string)
    requires b.Valid() && Inv(w) && sid < |w.sessions| && filename in names
    requires b.Keeps(disk, w.st) && NoCollision(b, disk, w, names)
    ensures ByteLoadFile(b, disk, w.sessions[sid], filename) == LoadFile(w.st, w.sessions[sid], filename)
  {
    var user := w.sessions[sid];
    var s := AccessUUID(user.username, filename);
    assert InUse(w, names, PersonalKey(user.master, filename));
    AccessAgrees(b, disk, w.led, w.st, user, filename);
    if Holds(w.led, user, filename) {
      var m := w.led.recs[s].mailbox;
      HolderOpensAccess(w.led, w.st, user, filename);
      FileKeyDrawn(w.led, m);
      TagsOfInode(b, disk, w, names, w.led.mails[m].file, w.led.mails[m].fileKey);
      HolderAgrees(b, disk, w.led, w.st, user, filename, w.led.recs[s], w.led.mails[m].file, w.led.mails[m].fileKey);
    } else {
      NonHolderFails(w.led, w.st, user, filename);
    }
  }

  /** There is such a byte store for every symbolic one: seal each payload, whatever the random bytes are. */
  lemma BytesExist(b: Base, st: State, iv: seq<byte>) returns (disk: Disk)
    requires b.Valid() && |iv| == AES_BLOCK
    ensures b.Keeps(disk, st)
  {
    disk := map u | u in st.store :: if st.store[u].Sealed? then b.Seal(st.store[u].lock, st.store[u].plain, iv)
      else [];
    forall u | u in disk && st.store[u].Sealed?
      ensures IsSealed(b.cry, b.mat, b.codec, disk[u], st.store[u].lock, st.store[u].plain)
    {
      assert |iv| == AES_BLOCK && disk[u] == b.Seal(st.store[u].lock, st.store[u].plain, iv);
    }
  }
}
