/**
 The six file-sharing operations and the two user operations, as functions of the whole state.
 These are the specifications the service classes are proved against: they keep every branch, every
 early return and the order of the writes.
 */
module Protocol {
  import opened Wrappers
  import opened Blocks
  import opened Records

  /** What an operation leaves behind: the state, the caller's in-memory user and the returned value. */
  datatype Outcome<+T> = Outcome(st: State, user: UserData, res: Result<T, Error>)

  // ---------- reading the chain Access -> MailboxNode -> Inode -> blocks ----------

  function OpenAccess(st: State, user: UserData, filename: string): Result<Access, Error> {
    var r :- st.Open(AccessUUID(user.username, filename), PersonalKey(user.master, filename), AccessKind);
    Success(r.access)
  }

  function OpenMailbox(st: State, access: Access): Result<MailboxNode, Error> {
    var r :- st.Open(access.mailbox, MailKey(access.key), MailboxKind);
    Success(r.node)
  }

  function OpenInode(st: State, node: MailboxNode): Result<Inode, Error> {
    var r :- st.Open(node.inode, FileKey(node.fileKey), InodeKind);
    Success(r.inode)
  }

  function OpenNode(st: State, user: UserData, filename: string): Result<MailboxNode, Error> {
    var access :- OpenAccess(st, user, filename);
    OpenMailbox(st, access)
  }

  function LoadBlocks(st: State, blocks: seq<UUID>, key: nat): Result<seq<byte>, Error> {
    if blocks == [] then Success([])
    else
      var r :- st.Open(blocks[0], FileKey(key), BlockKind);
      var rest :- LoadBlocks(st, blocks[1..], key);
      Success(r.data + rest)
  }

  function LoadFile(st: State, user: UserData, filename: string): Result<seq<byte>, Error> {
    var node :- OpenNode(st, user, filename);
    var inode :- OpenInode(st, node);
    LoadBlocks(st, inode.blocks, node.fileKey)
  }

  // ---------- writing ----------

  function SaveUser(st: State, user: UserData): State {
    st.Put(UserUUID(user.username), Sealed(UserKey(user.master), UserRec(user)))
  }

  /** One fresh UUID and one sealed block per chunk, in order. */
  function PutBlocks(st: State, chunks: seq<seq<byte>>, key: nat): State
    decreases |chunks|
  {
    if chunks == [] then st
    else PutBlocks(st.Draw(1).Put(Random(st.next), Sealed(FileKey(key), BlockRec(chunks[0]))), chunks[1..], key)
  }

  function FreshIds(first: nat, count: nat): (r: seq<UUID>)
    ensures |r| == count && forall i :: 0 <= i < count ==> r[i] == Random(first + i)
  {
    seq(count, i requires 0 <= i < count => Random(first + i))
  }

  function StoreFile(st: State, user: UserData, filename: string, content: seq<byte>): Outcome<()> {
    var fileKey, inode, mailbox, mailKey := st.next, st.next + 1, st.next + 2, st.next + 3;
    var accessUUID := AccessUUID(user.username, filename);
    var st1 :=
      st.Draw(4).Put(Random(mailbox), Sealed(MailKey(mailKey), MailboxRec(MailboxNode(fileKey, Random(inode)))));
    var st2 := st1.Put(accessUUID,
                       Sealed(PersonalKey(user.master, filename), AccessRec(Access(Random(mailbox), mailKey, map[]))));
    var chunks := Chunks(content);
    var st3 := PutBlocks(st2, chunks, fileKey);
    var node := Inode(|content|, FreshIds(st2.next, |chunks|));
    var st4 := st3.Put(Random(inode), Sealed(FileKey(fileKey), InodeRec(node)));
    var user' := user.(files := user.files[filename := accessUUID]);
    Outcome(SaveUser(st4, user'), user', Success(()))
  }

  function AppendToFile(st: State, user: UserData, filename: string, content: Option<seq<byte>>): Outcome<()> {
    if content.None? then Outcome(st, user, Failure(NilContent))
    else
      var found := OpenNode(st, user, filename);
      if found.Failure? then Outcome(st, user, Failure(found.error))
      else
        var node := found.value;
        var read := OpenInode(st, node);
        if read.Failure? then Outcome(st, user, Failure(read.error))
        else
          var chunks := Chunks(content.value);
          var st1 := PutBlocks(st, chunks, node.fileKey);
          var inode := Inode(read.value.size + |content.value|, read.value.blocks + FreshIds(st.next, |chunks|));
          Outcome(st1.Put(node.inode, Sealed(FileKey(node.fileKey), InodeRec(inode))), user, Success(()))
  }

  // ---------- sharing ----------

  function CreateInvitation(st: State, user: UserData, filename: string, recipient: string): Outcome<UUID> {
    var found := OpenAccess(st, user, filename);
    if found.Failure? then Outcome(st, user, Failure(found.error))
    else
      var access := found.value;
      var read := OpenMailbox(st, access);
      if read.Failure? then Outcome(st, user, Failure(read.error))
      else
        var mailbox, mailKey := Random(st.next), st.next + 1;
        // The recipient's mailbox is written before the recipient's key is looked up.
        var st1 := st.Draw(2).Put(mailbox, Sealed(MailKey(mailKey), MailboxRec(read.value)));
        if EncName(recipient) !in st1.keys then Outcome(st1, user, Failure(NoRecipient))
        else if !st1.keys[EncName(recipient)].PKEPublic? then Outcome(st1, user, Failure(WrongKeyType))
        else
          var ptr := Random(st1.next);
          var invitation := Signed(st1.keys[EncName(recipient)].n, user.ds, Invitation(mailbox, mailKey));
          var st2 := st1.Draw(1).Put(ptr, invitation);
          var access' := access.(children := access.children[recipient := ChildInfo(mailbox, mailKey)]);
          var st3 := st2.Put(AccessUUID(user.username, filename),
                             Sealed(PersonalKey(user.master, filename), AccessRec(access')));
          Outcome(st3, user, Success(ptr))
  }

  function AcceptInvitation(st: State, user: UserData, sender: string, ptr: UUID, filename: string): Outcome<()> {
    if ptr !in st.store then Outcome(st, user, Failure(Missing(InvitationKind)))
    else if SigName(sender) !in st.keys then Outcome(st, user, Failure(NoSender))
    else if !st.store[ptr].Signed? || st.keys[SigName(sender)] != DSPublic(st.store[ptr].signer) then
      Outcome(st, user, Failure(BadSignature))
    else if st.store[ptr].to != user.pke then Outcome(st, user, Failure(Unreadable(InvitationKind)))
    else
      var invitation := st.store[ptr].invitation;
      var accessUUID := AccessUUID(user.username, filename);
      var st1 := st.Put(accessUUID, Sealed(PersonalKey(user.master, filename),
                                           AccessRec(Access(invitation.mailbox, invitation.key, map[]))));
      var user' := user.(files := user.files[filename := accessUUID]);
      Outcome(SaveUser(st1, user'), user', Success(()))
  }

  // ---------- revocation ----------

  /** Re-seal the blocks one by one; the first unreadable block stops the loop and keeps what was written. */
  function RekeyBlocks(st: State, blocks: seq<UUID>, oldKey: nat, newKey: nat): (State, Result<(), Error>)
    decreases |blocks|
  {
    if blocks == [] then (st, Success(()))
    else
      var r := st.Open(blocks[0], FileKey(oldKey), BlockKind);
      if r.Failure? then (st, Failure(r.error))
      else RekeyBlocks(st.Put(blocks[0], Sealed(FileKey(newKey), r.value)), blocks[1..], oldKey, newKey)
  }

  /** The child mailboxes among `names` that are present and open under their recorded key. */
  ghost predicate Patchable(st: State, children: map<string, ChildInfo>, names: set<string>, u: UUID) {
    exists c :: c in names && c in children && children[c].mailbox == u
                && st.Open(u, MailKey(children[c].key), MailboxKind).Success?
  }

  function WithFileKey(p: Payload, newKey: nat): Payload
    requires p.Sealed? && p.plain.MailboxRec?
  {
    Sealed(p.lock, MailboxRec(p.plain.node.(fileKey := newKey)))
  }

  /** Every patchable mailbox gets the new file key; it does not matter in which order. */
  ghost function Patched(st: State, children: map<string, ChildInfo>, names: set<string>,
                         newKey: nat): map<UUID, Payload>
  {
    map u | u in st.store && Patchable(st, children, names, u) :: WithFileKey(st.store[u], newKey)
  }

  ghost function Overwrite(st: State, patched: map<UUID, Payload>): State {
    st.(store := st.store + patched, log := st.log + patched.Values)
  }

  ghost function PatchChildren(st: State, children: map<string, ChildInfo>, names: set<string>, newKey: nat): State {
    Overwrite(st, Patched(st, children, names, newKey))
  }

  /**
   The second half of a revocation: seal the inode under the new key, make a new mailbox for the revoker,
   patch the other children's mailboxes and rewrite the access record.
   */
  ghost function Reissue(st: State, user: UserData, filename: string, recipient: string,
                         access: Access, inodeUUID: UUID, inode: Inode, newKey: nat): Outcome<()> {
    var mailKey, mailbox := st.next, Random(st.next + 1);
    var st1 := st.Draw(2).Put(inodeUUID, Sealed(FileKey(newKey), InodeRec(inode)))
               .Put(mailbox, Sealed(MailKey(mailKey), MailboxRec(MailboxNode(newKey, inodeUUID))));
    var st2 := PatchChildren(st1, access.children, access.children.Keys - {recipient}, newKey);
    var access' := Access(mailbox, mailKey, access.children - {recipient});
    var accessUUID := AccessUUID(user.username, filename);
    var st3 := st2.Put(accessUUID, Sealed(PersonalKey(user.master, filename), AccessRec(access')));
    var user' := user.(files := user.files[filename := accessUUID]);
    Outcome(SaveUser(st3, user'), user', Success(()))
  }

  ghost function RevokeAccess(st: State, user: UserData, filename: string, recipient: string): Outcome<()> {
    var found := OpenAccess(st, user, filename);
    if found.Failure? then Outcome(st, user, Failure(found.error))
    else
      var access := found.value;
      var read := OpenMailbox(st, access);
      if read.Failure? then Outcome(st, user, Failure(read.error))
      else
        // The new file key is drawn before the inode is looked up.
        var node, newKey, st1 := read.value, st.next, st.Draw(1);
        var inode := OpenInode(st1, node);
        if inode.Failure? then Outcome(st1, user, Failure(inode.error))
        else
          var (st2, rekeyed) := RekeyBlocks(st1, inode.value.blocks, node.fileKey, newKey);
          if rekeyed.Failure? then Outcome(st2, user, Failure(rekeyed.error))
          else Reissue(st2, user, filename, recipient, access, node.inode, inode.value, newKey)
  }

  // ---------- users ----------

  function InitUser(st: State, username: string, password: string): (State, Result<UserData, Error>) {
    if UserUUID(username) in st.store then (st, Failure(UserExists))
    else
      var user := UserData(username, st.next, st.next + 1, Master(username, password), map[]);
      var st1 := st.Draw(2).(keys := st.keys[EncName(username) := PKEPublic(user.pke)]
                                            [SigName(username) := DSPublic(user.ds)]);
      (SaveUser(st1, user), Success(user))
  }

  function GetUser(st: State, username: string, password: string): Result<UserData, Error> {
    var r :- st.Open(UserUUID(username), UserKey(Master(username, password)), UserKind);
    Success(r.user)
  }
}
