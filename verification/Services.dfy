/**
 The storage, key store and services of the client, as objects that update their fields.
 Every operation is proved equal to its specification in module Protocol, from any state whatsoever.
 */
module Services {
  import opened Wrappers
  import opened Blocks
  import opened Records
  import Protocol

  class MemoryStorage {
    var store: map<UUID, Payload>
    ghost var log: set<Payload>   // every payload this storage was ever handed

    constructor ()
      ensures store == map[] && log == {}
    {
      store, log := map[], {};
    }

    method Get(key: UUID) returns (value: Option<Payload>)
      ensures value == if key in store then Some(store[key]) else None
    {
      value := if key in store then Some(store[key]) else None;
    }

    method Set(key: UUID, value: Payload)
      modifies this
      ensures store == old(store)[key := value] && log == old(log) + {value}
    {
      store, log := store[key := value], log + {value};
    }

    method Delete(key: UUID)
      modifies this
      ensures store == old(store) - {key} && log == old(log)
    {
      store := store - {key};
    }
  }

  class MemoryKeyStore {
    var store: map<KeyName, PublicKey>

    constructor ()
      ensures store == map[]
    {
      store := map[];
    }

    method Get(key: KeyName) returns (value: Option<PublicKey>)
      ensures value == if key in store then Some(store[key]) else None
    {
      value := if key in store then Some(store[key]) else None;
    }

    method Set(key: KeyName, value: PublicKey)
      modifies this
      ensures store == old(store)[key := value]
    {
      store := store[key := value];
    }
  }

  /** The source of random UUIDs and random keys: no name is handed out twice. */
  class Entropy {
    var next: nat

    constructor ()
      ensures next == 0
    {
      next := 0;
    }

    method Fresh() returns (n: nat)
      modifies this
      ensures n == old(next) && next == old(next) + 1
    {
      n := next;
      next := next + 1;
    }
  }

  /** A logged-in user; only the list of files changes during a session. */
  class User {
    const username: string
    const pke: nat
    const ds: nat
    const master: Master
    var files: map<string, UUID>

    constructor (data: UserData)
      ensures Data() == data
    {
      username, pke, ds, master, files := data.username, data.pke, data.ds, data.master, data.files;
    }

    function Data(): UserData
      reads this
    {
      UserData(username, pke, ds, master, files)
    }
  }

  datatype Backend = Backend(storage: MemoryStorage, keyStore: MemoryKeyStore, entropy: Entropy) {

    ghost function St(): State
      reads storage, keyStore, entropy
    {
      State(storage.store, storage.log, keyStore.store, entropy.next)
    }

    method Open(uuid: UUID, key: Key, kind: Kind) returns (r: Result<Record, Error>)
      ensures r == St().Open(uuid, key, kind)
    {
      var payload := storage.Get(uuid);
      if payload.None? {
        return Failure(Missing(kind));
      }
      if payload.value.Sealed? && payload.value.lock == key && KindOf(payload.value.plain) == kind {
        return Success(payload.value.plain);
      }
      return Failure(Unreadable(kind));
    }

    method SaveUser(user: User)
      modifies storage
      ensures St() == Protocol.SaveUser(old(St()), user.Data())
    {
      storage.Set(UserUUID(user.username), Sealed(UserKey(user.master), UserRec(user.Data())));
    }

    /** The chain Access -> MailboxNode that every file operation starts with. */
    method OpenNode(user: User, filename: string)
        returns (access: Result<Access, Error>, node: Result<MailboxNode, Error>)
      ensures access == Protocol.OpenAccess(St(), user.Data(), filename)
      ensures node == Protocol.OpenNode(St(), user.Data(), filename)
      ensures access.Success? ==> node == Protocol.OpenMailbox(St(), access.value)
    {
      var r := Open(AccessUUID(user.username, filename), PersonalKey(user.master, filename), AccessKind);
      if r.Failure? {
        return Failure(r.error), Failure(r.error);
      }
      access := Success(r.value.access);
      r := Open(access.value.mailbox, MailKey(access.value.key), MailboxKind);
      node := if r.Failure? then Failure(r.error) else Success(r.value.node);
    }

    method OpenInode(node: MailboxNode) returns (inode: Result<Inode, Error>)
      ensures inode == Protocol.OpenInode(St(), node)
    {
      var r := Open(node.inode, FileKey(node.fileKey), InodeKind);
      inode := if r.Failure? then Failure(r.error) else Success(r.value.inode);
    }

    /** Seal each block under a fresh UUID and collect the UUIDs. */
    method PutBlocks(blocks: seq<FileBlock>, fileKey: nat) returns (uuids: seq<UUID>)
      modifies storage, entropy
      ensures St() == Protocol.PutBlocks(old(St()), Payloads(blocks), fileKey)
      ensures uuids == Protocol.FreshIds(old(entropy.next), |blocks|)
    {
      uuids := [];
      ghost var chunks := Payloads(blocks);
      for i := 0 to |blocks|
        invariant entropy.next == old(entropy.next) + i
        invariant uuids == Protocol.FreshIds(old(entropy.next), i)
        invariant Protocol.PutBlocks(old(St()), chunks, fileKey) == Protocol.PutBlocks(St(), chunks[i..], fileKey)
      {
        assert chunks[i..][1..] == chunks[i + 1..];
        var n := entropy.Fresh();
        storage.Set(Random(n), Sealed(FileKey(fileKey), BlockRec(blocks[i].block)));
        uuids := uuids + [Random(n)];
      }
    }
  }

  function Prefixed(data: seq<byte>, rest: Result<seq<byte>, Error>): Result<seq<byte>, Error> {
    if rest.Success? then Success(data + rest.value) else rest
  }

  lemma PrefixedTwice(a: seq<byte>, b: seq<byte>, rest: Result<seq<byte>, Error>)
    ensures Prefixed(a, Prefixed(b, rest)) == Prefixed(a + b, rest)
  {
    if rest.Success? {
      assert a + (b + rest.value) == (a + b) + rest.value;
    }
  }

  class FileService {
    const backend: Backend

    constructor (backend: Backend)
      ensures this.backend == backend
    {
      this.backend := backend;
    }

    method StoreFile(user: User, filename: string, content: seq<byte>) returns (res: Result<(), Error>)
      modifies backend.storage, backend.entropy, user
      ensures Protocol.Outcome(backend.St(), user.Data(), res)
           == Protocol.StoreFile(old(backend.St()), old(user.Data()), filename, content)
    {
      var fileKey := backend.entropy.Fresh();
      var inodeId := backend.entropy.Fresh();
      var mailboxId := backend.entropy.Fresh();
      var mailKey := backend.entropy.Fresh();
      backend.storage.Set(Random(mailboxId),
                          Sealed(MailKey(mailKey), MailboxRec(MailboxNode(fileKey, Random(inodeId)))));
      var accessUUID := AccessUUID(user.username, filename);
      var access := Access(Random(mailboxId), mailKey, map[]);
      backend.storage.Set(accessUUID, Sealed(PersonalKey(user.master, filename), AccessRec(access)));
      ghost var st2 := backend.St();
      assert st2 == old(backend.St()).Draw(4)
                    .Put(Random(mailboxId), Sealed(MailKey(mailKey), MailboxRec(MailboxNode(fileKey, Random(inodeId)))))
                    .Put(accessUUID, Sealed(PersonalKey(user.master, filename), AccessRec(access)));
      var blocks := ByteToBlock(content);
      var uuids := backend.PutBlocks(blocks, fileKey);
      var inode := Inode(|content|, uuids);
      backend.storage.Set(Random(inodeId), Sealed(FileKey(fileKey), InodeRec(inode)));
      assert backend.St() == Protocol.PutBlocks(st2, Chunks(content), fileKey)
                             .Put(Random(inodeId), Sealed(FileKey(fileKey), InodeRec(inode)));
      user.files := user.files[filename := accessUUID];
      backend.SaveUser(user);
      res := Success(());
    }

    method LoadFile(user: User, filename: string) returns (res: Result<seq<byte>, Error>)
      ensures res == Protocol.LoadFile(backend.St(), user.Data(), filename)
    {
      var _, node := backend.OpenNode(user, filename);
      if node.Failure? {
        return Failure(node.error);
      }
      var inode := backend.OpenInode(node.value);
      if inode.Failure? {
        return Failure(inode.error);
      }
      var blocks, key := inode.value.blocks, node.value.fileKey;
      ghost var whole := Protocol.LoadBlocks(backend.St(), blocks, key);
      assert blocks[0..] == blocks;
      assert whole.Success? ==> [] + whole.value == whole.value;
      var data := [];
      for i := 0 to |blocks|
        invariant whole == Prefixed(data, Protocol.LoadBlocks(backend.St(), blocks[i..], key))
      {
        assert blocks[i..][1..] == blocks[i + 1..];
        var r := backend.Open(blocks[i], FileKey(key), BlockKind);
        if r.Failure? {
          return Failure(r.error);
        }
        PrefixedTwice(data, r.value.data, Protocol.LoadBlocks(backend.St(), blocks[i + 1..], key));
        data := data + r.value.data;
      }
      assert data + [] == data;
      res := Success(data);
    }

    method AppendToFile(user: User, filename: string, content: Option<seq<byte>>) returns (res: Result<(), Error>)
      modifies backend.storage, backend.entropy
      ensures Protocol.Outcome(backend.St(), user.Data(), res)
           == Protocol.AppendToFile(old(backend.St()), old(user.Data()), filename, content)
    {
      if content.None? {
        return Failure(NilContent);
      }
      var _, node := backend.OpenNode(user, filename);
      if node.Failure? {
        return Failure(node.error);
      }
      var inode := backend.OpenInode(node.value);
      if inode.Failure? {
        return Failure(inode.error);
      }
      var blocks := ByteToBlock(content.value);
      var uuids := backend.PutBlocks(blocks, node.value.fileKey);
      var newInode := Inode(inode.value.size + |content.value|, inode.value.blocks + uuids);
      backend.storage.Set(node.value.inode, Sealed(FileKey(node.value.fileKey), InodeRec(newInode)));
      res := Success(());
    }

    /** The names in the user's list of files, in whatever order the map gives them. */
    method ListFiles(user: User) returns (names: seq<string>)
      ensures forall f :: f in names <==> f in user.files
      ensures forall i, j :: 0 <= i < j < |names| ==> names[i] != names[j]
    {
      names := [];
      var left := user.files.Keys;
      while left != {}
        invariant left <= user.files.Keys
        invariant forall f :: f in names <==> f in user.files.Keys - left
        invariant forall i, j :: 0 <= i < j < |names| ==> names[i] != names[j]
        decreases |left|
      {
        var filename :| filename in left;
        assert filename !in names;
        names := names + [filename];
        left := left - {filename};
      }
    }
  }

  class InvitationService {
    const backend: Backend

    constructor (backend: Backend)
      ensures this.backend == backend
    {
      this.backend := backend;
    }

    method CreateInvitation(user: User, filename: string, recipient: string) returns (res: Result<UUID, Error>)
      modifies backend.storage, backend.entropy
      ensures Protocol.Outcome(backend.St(), user.Data(), res)
           == Protocol.CreateInvitation(old(backend.St()), old(user.Data()), filename, recipient)
    {
      var access, node := backend.OpenNode(user, filename);
      if node.Failure? {
        return Failure(node.error);
      }
      var mailboxId := backend.entropy.Fresh();
      var mailKey := backend.entropy.Fresh();
      backend.storage.Set(Random(mailboxId), Sealed(MailKey(mailKey), MailboxRec(node.value)));
      var publicKey := backend.keyStore.Get(EncName(recipient));
      if publicKey.None? {
        return Failure(NoRecipient);
      }
      if !publicKey.value.PKEPublic? {
        return Failure(WrongKeyType);
      }
      var ptr := backend.entropy.Fresh();
      backend.storage.Set(Random(ptr), Signed(publicKey.value.n, user.ds, Invitation(Random(mailboxId), mailKey)));
      var children := access.value.children[recipient := ChildInfo(Random(mailboxId), mailKey)];
      backend.storage.Set(AccessUUID(user.username, filename),
                          Sealed(PersonalKey(user.master, filename), AccessRec(access.value.(children := children))));
      res := Success(Random(ptr));
    }

    method AcceptInvitation(user: User, sender: string, ptr: UUID, filename: string) returns (res: Result<(), Error>)
      modifies backend.storage, user
      ensures Protocol.Outcome(backend.St(), user.Data(), res)
           == Protocol.AcceptInvitation(old(backend.St()), old(user.Data()), sender, ptr, filename)
    {
      var payload := backend.storage.Get(ptr);
      if payload.None? {
        return Failure(Missing(InvitationKind));
      }
      var verifyKey := backend.keyStore.Get(SigName(sender));
      if verifyKey.None? {
        return Failure(NoSender);
      }
      if !payload.value.Signed? || verifyKey.value != DSPublic(payload.value.signer) {
        return Failure(BadSignature);
      }
      if payload.value.to != user.pke {
        return Failure(Unreadable(InvitationKind));
      }
      var invitation := payload.value.invitation;
      var accessUUID := AccessUUID(user.username, filename);
      backend.storage.Set(accessUUID, Sealed(PersonalKey(user.master, filename),
                                             AccessRec(Access(invitation.mailbox, invitation.key, map[]))));
      user.files := user.files[filename := accessUUID];
      backend.SaveUser(user);
      res := Success(());
    }

    /** Re-seal the blocks in place, one at a time. */
    method RekeyBlocks(blocks: seq<UUID>, oldKey: nat, newKey: nat) returns (res: Result<(), Error>)
      modifies backend.storage
      ensures (backend.St(), res) == Protocol.RekeyBlocks(old(backend.St()), blocks, oldKey, newKey)
    {
      for i := 0 to |blocks|
        invariant Protocol.RekeyBlocks(old(backend.St()), blocks, oldKey, newKey)
               == Protocol.RekeyBlocks(backend.St(), blocks[i..], oldKey, newKey)
        invariant backend.entropy.next == old(backend.entropy.next)
      {
        assert blocks[i..][1..] == blocks[i + 1..];
        var r := backend.Open(blocks[i], FileKey(oldKey), BlockKind);
        if r.Failure? {
          return Failure(r.error);
        }
        backend.storage.Set(blocks[i], Sealed(FileKey(newKey), r.value));
      }
      res := Success(());
    }

    /** Update one child mailbox, or skip it when it is missing or cannot be verified. */
    method VisitChild(child: ChildInfo, newKey: nat)
      modifies backend.storage
      ensures backend.St() == Visit(old(backend.St()), child, newKey)
    {
      var r := backend.Open(child.mailbox, MailKey(child.key), MailboxKind);
      if r.Success? {
        var node := r.value.node.(fileKey := newKey);
        backend.storage.Set(child.mailbox, Sealed(MailKey(child.key), MailboxRec(node)));
      }
    }

    /** Visit the children in any order, skipping the recipient and every mailbox that cannot be read. */
    method PatchChildren(children: map<string, ChildInfo>, recipient: string, newKey: nat)
      modifies backend.storage
      ensures backend.St() == Protocol.PatchChildren(old(backend.St()), children, children.Keys - {recipient}, newKey)
    {
      ghost var start, done := backend.St(), {};
      NothingPatched(start, children, newKey);
      var todo := children.Keys;
      while todo != {}
        invariant todo <= children.Keys && recipient !in done
        invariant done + todo - {recipient} == children.Keys - {recipient}
        invariant backend.St() == Protocol.PatchChildren(start, children, done, newKey)
      {
        var c :| c in todo;
        if c != recipient {
          OnePatched(start, children, done, c, newKey);
          VisitChild(children[c], newKey);
          done := done + {c};
        }
        todo := todo - {c};
      }
      assert done == children.Keys - {recipient};
    }

    method RevokeAccess(user: User, filename: string, recipient: string) returns (res: Result<(), Error>)
      modifies backend.storage, backend.entropy, user
      ensures Protocol.Outcome(backend.St(), user.Data(), res)
           == Protocol.RevokeAccess(old(backend.St()), old(user.Data()), filename, recipient)
    {
      var access, node := backend.OpenNode(user, filename);
      if node.Failure? {
        return Failure(node.error);
      }
      var newKey := backend.entropy.Fresh();
      ghost var st1 := backend.St();
      assert st1 == old(backend.St()).Draw(1);
      var inode := backend.OpenInode(node.value);
      if inode.Failure? {
        return Failure(inode.error);
      }
      res := RekeyBlocks(inode.value.blocks, node.value.fileKey, newKey);
      if res.Failure? {
        return;
      }
      Reissue(user, filename, recipient, access.value, node.value.inode, inode.value, newKey);
      res := Success(());
    }

    method Reissue(user: User, filename: string, recipient: string,
                   access: Access, inodeUUID: UUID, inode: Inode, newKey: nat)
      modifies backend.storage, backend.entropy, user
      ensures Protocol.Outcome(backend.St(), user.Data(), Success(()))
           == Protocol.Reissue(old(backend.St()), old(user.Data()), filename, recipient, access, inodeUUID, inode,
                               newKey)
    {
      backend.storage.Set(inodeUUID, Sealed(FileKey(newKey), InodeRec(inode)));
      var mailKey := backend.entropy.Fresh();
      var mailboxId := backend.entropy.Fresh();
      backend.storage.Set(Random(mailboxId), Sealed(MailKey(mailKey), MailboxRec(MailboxNode(newKey, inodeUUID))));
      ghost var st1 := backend.St();
      assert st1 == old(backend.St()).Draw(2).Put(inodeUUID, Sealed(FileKey(newKey), InodeRec(inode)))
                    .Put(Random(mailboxId), Sealed(MailKey(mailKey), MailboxRec(MailboxNode(newKey, inodeUUID))));
      PatchChildren(access.children, recipient, newKey);
      ghost var st2 := backend.St();
      assert st2 == Protocol.PatchChildren(st1, access.children, access.children.Keys - {recipient}, newKey);
      var access' := Access(Random(mailboxId), mailKey, access.children - {recipient});
      var accessUUID := AccessUUID(user.username, filename);
      backend.storage.Set(accessUUID, Sealed(PersonalKey(user.master, filename), AccessRec(access')));
      user.files := user.files[filename := accessUUID];
      ghost var st3 := st2.Put(accessUUID, Sealed(PersonalKey(user.master, filename), AccessRec(access')));
      assert backend.St() == st3;
      backend.SaveUser(user);
      assert backend.St() == Protocol.SaveUser(st3, user.Data());
      assert user.Data() == old(user.Data()).(files := old(user.files)[filename := accessUUID]);
    }
  }

  lemma NothingPatched(st: State, children: map<string, ChildInfo>, newKey: nat)
    ensures Protocol.PatchChildren(st, children, {}, newKey) == st
  {
  }

  lemma OverwriteOneMore(st: State, patched: map<UUID, Payload>, u: UUID, p: Payload)
    requires u in patched ==> patched[u] == p
    ensures Protocol.Overwrite(st, patched[u := p]) == Protocol.Overwrite(st, patched).Put(u, p)
  {
    assert patched[u := p].Values == patched.Values + {p} by {
      assert patched[u := p][u] == p;
      forall w | w in patched.Values
        ensures w in patched[u := p].Values
      {
        var j :| j in patched && patched[j] == w;
        assert patched[u := p][j] == w;
      }
    }
    assert st.store + patched[u := p] == (st.store + patched)[u := p];
  }

  lemma PatchedOneMore(st: State, children: map<string, ChildInfo>, seen: set<string>, c: string, newKey: nat)
    requires c in children
    ensures Protocol.Patched(st, children, seen + {c}, newKey)
         == if st.Open(children[c].mailbox, MailKey(children[c].key), MailboxKind).Success?
            then Protocol.Patched(st, children, seen, newKey)
                 [children[c].mailbox := Protocol.WithFileKey(st.store[children[c].mailbox], newKey)]
            else Protocol.Patched(st, children, seen, newKey)
  {
    var m := children[c].mailbox;
    forall u
      ensures Protocol.Patchable(st, children, seen + {c}, u) <==>
              Protocol.Patchable(st, children, seen, u)
                || (u == m && st.Open(m, MailKey(children[c].key), MailboxKind).Success?)
    {
    }
  }

  /** What a visit reads is what was there first, up to an already updated file key. */
  lemma StillReadable(st: State, patched: map<UUID, Payload>, u: UUID, key: Key, newKey: nat)
    requires u in patched ==> u in st.store && st.store[u].Sealed? && st.store[u].plain.MailboxRec?
                              && patched[u] == Protocol.WithFileKey(st.store[u], newKey)
    ensures var r, r' := st.Open(u, key, MailboxKind), Protocol.Overwrite(st, patched).Open(u, key, MailboxKind);
            r.Success? == r'.Success?
            && (r.Success? ==>
                  Sealed(key, MailboxRec(r'.value.node.(fileKey := newKey)))
                  == Protocol.WithFileKey(st.store[u], newKey))
  {
  }

  /** One more child visited: either nothing changes, or exactly its mailbox gets the new key. */
  lemma OnePatched(st: State, children: map<string, ChildInfo>, seen: set<string>, c: string, newKey: nat)
    requires c in children
    ensures Protocol.PatchChildren(st, children, seen + {c}, newKey)
         == Visit(Protocol.PatchChildren(st, children, seen, newKey), children[c], newKey)
  {
    var m, key := children[c].mailbox, MailKey(children[c].key);
    var before := Protocol.Patched(st, children, seen, newKey);
    PatchedOneMore(st, children, seen, c, newKey);
    StillReadable(st, before, m, key, newKey);
    if st.Open(m, key, MailboxKind).Success? {
      OverwriteOneMore(st, before, m, Protocol.WithFileKey(st.store[m], newKey));
    }
  }

  /** The body of the loop over the children, on the whole state. */
  function Visit(st: State, child: ChildInfo, newKey: nat): State {
    var r := st.Open(child.mailbox, MailKey(child.key), MailboxKind);
    if r.Success? then st.Put(child.mailbox, Sealed(MailKey(child.key), MailboxRec(r.value.node.(fileKey := newKey))))
    else st
  }

  class UserService {
    const backend: Backend

    constructor (backend: Backend)
      ensures this.backend == backend
    {
      this.backend := backend;
    }

    method InitUser(username: string, password: string) returns (res: Result<UserData, Error>, user: User?)
      modifies backend.storage, backend.keyStore, backend.entropy
      ensures (backend.St(), res) == Protocol.InitUser(old(backend.St()), username, password)
      ensures res.Success? ==> user != null && fresh(user) && user.Data() == res.value
    {
      user := null;
      var taken := backend.storage.Get(UserUUID(username));
      if taken.Some? {
        return Failure(UserExists), null;
      }
      var pke := backend.entropy.Fresh();
      var ds := backend.entropy.Fresh();
      backend.keyStore.Set(EncName(username), PKEPublic(pke));
      backend.keyStore.Set(SigName(username), DSPublic(ds));
      user := new User(UserData(username, pke, ds, Master(username, password), map[]));
      backend.SaveUser(user);
      res := Success(user.Data());
    }

    method GetUser(username: string, password: string) returns (res: Result<UserData, Error>, user: User?)
      ensures res == Protocol.GetUser(backend.St(), username, password)
      ensures res.Success? ==> user != null && fresh(user) && user.Data() == res.value
    {
      user := null;
      var r := backend.Open(UserUUID(username), UserKey(Master(username, password)), UserKind);
      if r.Failure? {
        return Failure(r.error), null;
      }
      res := Success(r.value.user);
      user := new User(r.value.user);
    }
  }
}
