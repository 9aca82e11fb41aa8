/**
 What the operations on files do on any store whatever, one that somebody has tampered with included: each
 reads the access record, the mailbox, the inode and the blocks in this order, and the first that does not open
 decides the answer.  Only a revocation can fail with something already written.
 */
module Tampered {
  import opened Wrappers
  import opened Blocks
  import opened Records
  import opened Protocol
  import opened Ledgers
  import opened Refinement

  /** Why a record of this kind cannot be read under this key, if it cannot. */
  function FaultAt(st: State, u: UUID, key: Key, kind: Kind): Option<Error> {
    if u !in st.store then Some(Missing(kind))
    else if st.store[u].Sealed? && st.store[u].lock == key && KindOf(st.store[u].plain) == kind then None
    else Some(Unreadable(kind))
  }

  ghost predicate HasAccessRecord(st: State, user: UserData, filename: string, access: Access) {
    StoredAs(st, AccessUUID(user.username, filename), Sealed(PersonalKey(user.master, filename), AccessRec(access)))
  }

  ghost predicate HasMailbox(st: State, access: Access, node: MailboxNode) {
    StoredAs(st, access.mailbox, Sealed(MailKey(access.key), MailboxRec(node)))
  }

  ghost predicate HasInode(st: State, node: MailboxNode, inode: Inode) {
    StoredAs(st, node.inode, Sealed(FileKey(node.fileKey), InodeRec(inode)))
  }

  /** The chain opens down to the inode. */
  ghost predicate Chain(st: State, user: UserData, filename: string, access: Access, node: MailboxNode, inode: Inode) {
    HasAccessRecord(st, user, filename, access) && HasMailbox(st, access, node) && HasInode(st, node, inode)
  }

  // ---------- the chain breaks ----------

  /** No access record of the caller's: all four operations answer alike and leave everything as it was. */
  lemma BrokenAccess(st: State, user: UserData, filename: string, content: seq<byte>, r: string, e: Error)
    requires FaultAt(st, AccessUUID(user.username, filename), PersonalKey(user.master, filename), AccessKind) == Some(e)
    ensures LoadFile(st, user, filename) == Failure(e)
    ensures AppendToFile(st, user, filename, Some(content)) == Outcome(st, user, Failure(e))
    ensures CreateInvitation(st, user, filename, r) == Outcome(st, user, Failure(e))
    ensures RevokeAccess(st, user, filename, r) == Outcome(st, user, Failure(e))
  {
  }

  /** No mailbox under the recorded key: the same. */
  lemma BrokenMailbox(st: State, user: UserData, filename: string, access: Access, content: seq<byte>, r: string,
                      e: Error)
    requires HasAccessRecord(st, user, filename, access)
    requires FaultAt(st, access.mailbox, MailKey(access.key), MailboxKind) == Some(e)
    ensures LoadFile(st, user, filename) == Failure(e)
    ensures AppendToFile(st, user, filename, Some(content)) == Outcome(st, user, Failure(e))
    ensures CreateInvitation(st, user, filename, r) == Outcome(st, user, Failure(e))
    ensures RevokeAccess(st, user, filename, r) == Outcome(st, user, Failure(e))
  {
  }

  /** No inode under the file key: a revocation has drawn its new key by then; an invitation does not notice. */
  lemma BrokenInode(st: State, user: UserData, filename: string, access: Access, node: MailboxNode,
                    content: seq<byte>, r: string, e: Error)
    requires HasAccessRecord(st, user, filename, access) && HasMailbox(st, access, node)
    requires FaultAt(st, node.inode, FileKey(node.fileKey), InodeKind) == Some(e)
    ensures LoadFile(st, user, filename) == Failure(e)
    ensures AppendToFile(st, user, filename, Some(content)) == Outcome(st, user, Failure(e))
    ensures RevokeAccess(st, user, filename, r) == Outcome(st.Draw(1), user, Failure(e))
  {
  }

  /** What an invitation does with a key of the wrong type, or none, under the recipient's name. */
  lemma NoKeyToInvite(st: State, user: UserData, filename: string, access: Access, node: MailboxNode, r: string)
    requires HasAccessRecord(st, user, filename, access) && HasMailbox(st, access, node)
    requires EncName(r) !in st.keys || st.keys[EncName(r)].DSPublic?
    ensures CreateInvitation(st, user, filename, r)
         == Outcome(st.Draw(2).Put(Random(st.next), Sealed(MailKey(st.next + 1), MailboxRec(node))), user,
                    Failure(if EncName(r) in st.keys then WrongKeyType else NoRecipient))
  {
  }

  /** An invitation that the named sender's published key does not verify is refused, whatever is wrong with it. */
  lemma UnverifiedAccept(st: State, user: UserData, sender: string, ptr: UUID, filename: string)
    requires ptr in st.store && SigName(sender) in st.keys
    requires st.store[ptr].Sealed? || st.keys[SigName(sender)] != DSPublic(st.store[ptr].signer)
    ensures AcceptInvitation(st, user, sender, ptr, filename) == Outcome(st, user, Failure(BadSignature))
  {
  }

  /** A revocation passes over a child mailbox that is missing or does not open under its recorded key. */
  lemma BrokenChildSkipped(st: State, children: map<string, ChildInfo>, names: set<string>, newKey: nat, u: UUID)
    requires forall c | c in names && c in children && children[c].mailbox == u ::
               FaultAt(st, u, MailKey(children[c].key), MailboxKind).Some?
    ensures Same(st, PatchChildren(st, children, names, newKey), u)
  {
  }

  /** Every other child's mailbox keeps its key and its inode and gets the new file key. */
  lemma ChildPatched(st: State, children: map<string, ChildInfo>, names: set<string>, newKey: nat, c: string,
                     node: MailboxNode)
    requires c in names && c in children
    requires StoredAs(st, children[c].mailbox, Sealed(MailKey(children[c].key), MailboxRec(node)))
    ensures StoredAs(PatchChildren(st, children, names, newKey), children[c].mailbox,
                     Sealed(MailKey(children[c].key), MailboxRec(MailboxNode(newKey, node.inode))))
  {
    assert Patchable(st, children, names, children[c].mailbox);
  }

  // ---------- a block breaks ----------

  /** The first `j` blocks open to these texts, and the next one does not open. */
  ghost predicate BreaksAt(st: State, us: seq<UUID>, chunks: seq<seq<byte>>, key: nat, j: nat, e: Error) {
    && j < |us| && BlocksUnder(st, us[..j], chunks, key)
    && FaultAt(st, us[j], FileKey(key), BlockKind) == Some(e)
  }

  lemma BreaksLater(st: State, st1: State, us: seq<UUID>, chunks: seq<seq<byte>>, key: nat, j: nat, e: Error)
    requires BreaksAt(st, us, chunks, key, j, e) && j > 0
    requires forall i :: 0 < i <= j ==> Same(st, st1, us[i])
    ensures BreaksAt(st1, us[1..], chunks[1..], key, j - 1, e)
  {
    forall i | 0 <= i < j - 1
      ensures StoredAs(st1, us[1..][..j - 1][i], Sealed(FileKey(key), BlockRec(chunks[1..][i])))
    {
      assert StoredAs(st, us[..j][i + 1], Sealed(FileKey(key), BlockRec(chunks[i + 1])));
    }
  }

  lemma {:induction false} LoadBreaks(st: State, us: seq<UUID>, chunks: seq<seq<byte>>, key: nat, j: nat, e: Error)
    requires BreaksAt(st, us, chunks, key, j, e)
    ensures LoadBlocks(st, us, key) == Failure(e)
    decreases j
  {
    if j > 0 {
      assert StoredAs(st, us[..j][0], Sealed(FileKey(key), BlockRec(chunks[0])));
      BreaksLater(st, st, us, chunks, key, j, e);
      LoadBreaks(st, us[1..], chunks[1..], key, j - 1, e);
    }
  }

  /** LoadFile returns no part of a file of which a block does not open. */
  lemma BrokenBlockLoads(st: State, user: UserData, filename: string, access: Access, node: MailboxNode, inode: Inode,
                         chunks: seq<seq<byte>>, j: nat, e: Error)
    requires Chain(st, user, filename, access, node, inode)
    requires BreaksAt(st, inode.blocks, chunks, node.fileKey, j, e)
    ensures LoadFile(st, user, filename) == Failure(e)
  {
    LoadBreaks(st, inode.blocks, chunks, node.fileKey, j, e);
  }

  /** The re-keying loop stops there: the blocks before are under the new key, everything else is as it was. */
  lemma {:induction false} RekeyBreaks(st: State, us: seq<UUID>, chunks: seq<seq<byte>>, oldKey: nat, newKey: nat,
                                       j: nat, e: Error)
    requires Distinct(us) && BreaksAt(st, us, chunks, oldKey, j, e)
    ensures var (st', res) := RekeyBlocks(st, us, oldKey, newKey);
            && res == Failure(e) && st'.next == st.next && st'.keys == st.keys
            && BlocksUnder(st', us[..j], chunks, newKey)
            && forall u: UUID | u !in us[..j] :: Same(st, st', u)
    decreases j
  {
    if j > 0 {
      assert StoredAs(st, us[..j][0], Sealed(FileKey(oldKey), BlockRec(chunks[0])));
      var st1 := st.Put(us[0], Sealed(FileKey(newKey), BlockRec(chunks[0])));
      BreaksLater(st, st1, us, chunks, oldKey, j, e);
      RekeyBreaks(st1, us[1..], chunks[1..], oldKey, newKey, j - 1, e);
      RekeyOne(st, st1, us, chunks, oldKey, newKey, j);
    }
  }

  lemma RekeyOne(st: State, st1: State, us: seq<UUID>, chunks: seq<seq<byte>>, oldKey: nat, newKey: nat, j: nat)
    requires Distinct(us) && 0 < j <= |us| && |chunks| == j
    requires StoredAs(st, us[0], Sealed(FileKey(oldKey), BlockRec(chunks[0])))
    requires st1 == st.Put(us[0], Sealed(FileKey(newKey), BlockRec(chunks[0])))
    requires BlocksUnder(RekeyBlocks(st1, us[1..], oldKey, newKey).0, us[1..][..j - 1], chunks[1..], newKey)
    requires forall u: UUID | u !in us[1..][..j - 1] :: Same(st1, RekeyBlocks(st1, us[1..], oldKey, newKey).0, u)
    ensures RekeyBlocks(st, us, oldKey, newKey) == RekeyBlocks(st1, us[1..], oldKey, newKey)
    ensures BlocksUnder(RekeyBlocks(st, us, oldKey, newKey).0, us[..j], chunks, newKey)
    ensures forall u: UUID | u !in us[..j] :: Same(st, RekeyBlocks(st, us, oldKey, newKey).0, u)
  {
    var st' := RekeyBlocks(st1, us[1..], oldKey, newKey).0;
    assert us[..j] == [us[0]] + us[1..][..j - 1];
    assert us[0] !in us[1..][..j - 1] && Same(st1, st', us[0]);
    forall i | 0 <= i < j
      ensures StoredAs(st', us[..j][i], Sealed(FileKey(newKey), BlockRec(chunks[i])))
    {
      if i > 0 {
        assert StoredAs(st', us[1..][..j - 1][i - 1], Sealed(FileKey(newKey), BlockRec(chunks[1..][i - 1])));
      }
    }
    forall u: UUID | u !in us[..j]
      ensures Same(st, st', u)
    {
      assert u != us[0] && Same(st1, st', u);
    }
  }

  lemma RevokeReaches(st: State, user: UserData, filename: string, access: Access, node: MailboxNode, inode: Inode,
                      r: string)
    requires Chain(st, user, filename, access, node, inode)
    requires RekeyBlocks(st.Draw(1), inode.blocks, node.fileKey, st.next).1.Failure?
    ensures var (st', res) := RekeyBlocks(st.Draw(1), inode.blocks, node.fileKey, st.next);
            RevokeAccess(st, user, filename, r) == Outcome(st', user, Failure(res.error))
  {
  }

  /**
   A revocation that meets a block that does not open gives up there.  The blocks before it stay under the new
   key, which is recorded nowhere; inode, mailboxes and access records are as they were.
   */
  lemma BrokenBlockRevokes(st: State, user: UserData, filename: string, access: Access, node: MailboxNode,
                           inode: Inode, chunks: seq<seq<byte>>, j: nat, e: Error, r: string, out: Outcome<()>)
    requires Chain(st, user, filename, access, node, inode) && Distinct(inode.blocks)
    requires BreaksAt(st, inode.blocks, chunks, node.fileKey, j, e) && out == RevokeAccess(st, user, filename, r)
    ensures out.res == Failure(e) && out.user == user && out.st.next == st.next + 1 && out.st.keys == st.keys
    ensures BlocksUnder(out.st, inode.blocks[..j], chunks, st.next)
    ensures forall u: UUID | u !in inode.blocks[..j] :: Same(st, out.st, u)
  {
    RekeyBreaks(st.Draw(1), inode.blocks, chunks, node.fileKey, st.next, j, e);
    RevokeReaches(st, user, filename, access, node, inode, r);
  }

  lemma FirstBlockLost(st: State, us: seq<UUID>, chunks: seq<seq<byte>>, key: nat, newKey: nat)
    requires us != [] && chunks != [] && key != newKey
    requires StoredAs(st, us[0], Sealed(FileKey(newKey), BlockRec(chunks[0])))
    ensures LoadBlocks(st, us, key) == Failure(Unreadable(BlockKind))
  {
  }

  lemma ChainStays(st: State, st': State, user: UserData, filename: string, access: Access, node: MailboxNode,
                   inode: Inode, us: seq<UUID>, chunks: seq<seq<byte>>, key: nat)
    requires Chain(st, user, filename, access, node, inode) && BlocksUnder(st, us, chunks, key)
    requires forall u: UUID | u !in us :: Same(st, st', u)
    ensures Chain(st', user, filename, access, node, inode)
  {
    forall i | 0 <= i < |us|
      ensures us[i] != AccessUUID(user.username, filename) && us[i] != access.mailbox && us[i] != node.inode
    {
      assert StoredAs(st, us[i], Sealed(FileKey(key), BlockRec(chunks[i])));
    }
    var home := AccessUUID(user.username, filename);
    assert home !in us && access.mailbox !in us && node.inode !in us;
    assert Same(st, st', home) && Same(st, st', access.mailbox) && Same(st, st', node.inode);
  }

  /** So a revocation that fails in the second block or later costs the revoker, too, what was still readable. */
  lemma FailedRevocationLoses(st: State, user: UserData, filename: string, access: Access, node: MailboxNode,
                              inode: Inode, chunks: seq<seq<byte>>, j: nat, e: Error, r: string, out: Outcome<()>)
    requires Chain(st, user, filename, access, node, inode) && Distinct(inode.blocks) && node.fileKey < st.next
    requires BreaksAt(st, inode.blocks, chunks, node.fileKey, j, e) && j > 0
    requires out == RevokeAccess(st, user, filename, r)
    ensures LoadBlocks(st, inode.blocks[..j], node.fileKey) == Success(Flatten(chunks))
    ensures LoadBlocks(out.st, inode.blocks[..j], node.fileKey) == Failure(Unreadable(BlockKind))
    ensures LoadFile(out.st, user, filename) == Failure(Unreadable(BlockKind))
  {
    BrokenBlockRevokes(st, user, filename, access, node, inode, chunks, j, e, r, out);
    LoadBlocksReads(st, inode.blocks[..j], chunks, node.fileKey);
    assert StoredAs(out.st, inode.blocks[..j][0], Sealed(FileKey(st.next), BlockRec(chunks[0])));
    FirstBlockLost(out.st, inode.blocks[..j], chunks, node.fileKey, st.next);
    FirstBlockLost(out.st, inode.blocks, chunks, node.fileKey, st.next);
    ChainStays(st, out.st, user, filename, access, node, inode, inode.blocks[..j], chunks, node.fileKey);
  }
}
