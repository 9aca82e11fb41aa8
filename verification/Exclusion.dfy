/**
 A file key that is out of a user's reach stays out of it until somebody who holds the key invites the user,
 and from then on the user knows it.
 */
module Exclusion {
  import opened Wrappers
  import opened Blocks
  import opened Records
  import opened Protocol
  import opened Ledgers
  import opened LedgerSteps
  import opened Refinement
  import opened RefineFiles
  import opened RefineSharing
  import opened RefineRevoke
  import opened RefineUsers
  import opened Runs
  import opened Secrecy
  import opened Knowledge

  // ---------- the mailbox nodes an operation writes ----------

  predicate NodeWith(p: Payload, n: nat) {
    p.Sealed? && p.lock.MailKey? && p.plain.MailboxRec? && p.plain.node.fileKey == n
  }

  /** Every mailbox node with file key `n` in the new log was in the old one. */
  ghost predicate NoNewNode(log: set<Payload>, log': set<Payload>, n: nat) {
    forall p | p in log' && NodeWith(p, n) :: p in log
  }

  lemma StoreNodes(st: State, user: UserData, filename: string, content: seq<byte>, n: nat)
    requires n != st.next
    ensures NoNewNode(st.log, StoreFile(st, user, filename, content).st.log, n)
  {
    StoreLog(st, user, filename, content);
  }

  lemma AppendNodes(st: State, user: UserData, filename: string, content: Option<seq<byte>>, n: nat)
    ensures NoNewNode(st.log, AppendToFile(st, user, filename, content).st.log, n)
  {
    if content.Some? && OpenNode(st, user, filename).Success? {
      var key, chunks := OpenNode(st, user, filename).value.fileKey, Chunks(content.value);
      PutBlocksWrites(st, chunks, key);
      var st1 := PutBlocks(st, chunks, key);
      assert forall p | p in st1.log :: p in st.log || p in st1.log - st.log;
    }
  }

  lemma AcceptNodes(st: State, user: UserData, sender: string, ptr: UUID, filename: string, n: nat)
    ensures NoNewNode(st.log, AcceptInvitation(st, user, sender, ptr, filename).st.log, n)
  {
  }

  lemma InitNodes(st: State, username: string, password: string, n: nat)
    ensures NoNewNode(st.log, InitUser(st, username, password).0.log, n)
  {
  }

  /** An invitation writes one node: the copy of the inviter's, under the fresh mailbox key. */
  lemma InviteNodes(st: State, user: UserData, filename: string, recipient: string, p: Payload, n: nat)
    requires p in CreateInvitation(st, user, filename, recipient).st.log && p !in st.log && NodeWith(p, n)
    ensures OpenNode(st, user, filename).Success? && OpenNode(st, user, filename).value.fileKey == n
    ensures p.lock == MailKey(st.next + 1)
  {
  }

  lemma {:induction false} RekeyLog(st: State, blocks: seq<UUID>, oldKey: nat, newKey: nat)
    ensures forall p | p in RekeyBlocks(st, blocks, oldKey, newKey).0.log ::
              p in st.log || (p.Sealed? && p.lock == FileKey(newKey))
    ensures RekeyBlocks(st, blocks, oldKey, newKey).0.next == st.next
    ensures st.log <= RekeyBlocks(st, blocks, oldKey, newKey).0.log
    decreases |blocks|
  {
    if blocks != [] {
      var r := st.Open(blocks[0], FileKey(oldKey), BlockKind);
      if r.Success? {
        RekeyLog(st.Put(blocks[0], Sealed(FileKey(newKey), r.value)), blocks[1..], oldKey, newKey);
      }
    }
  }

  lemma PatchNodes(st: State, children: map<string, ChildInfo>, names: set<string>, newKey: nat, n: nat)
    requires n != newKey
    ensures NoNewNode(st.log, PatchChildren(st, children, names, newKey).log, n)
  {
  }

  lemma ReissueNodes(st: State, user: UserData, filename: string, recipient: string, access: Access, inodeUUID: UUID,
                     inode: Inode, newKey: nat, n: nat)
    requires n != newKey
    ensures NoNewNode(st.log, Reissue(st, user, filename, recipient, access, inodeUUID, inode, newKey).st.log, n)
  {
    var st1 := st.Draw(2).Put(inodeUUID, Sealed(FileKey(newKey), InodeRec(inode)))
               .Put(Random(st.next + 1), Sealed(MailKey(st.next), MailboxRec(MailboxNode(newKey, inodeUUID))));
    PatchNodes(st1, access.children, access.children.Keys - {recipient}, newKey, n);
  }

  lemma RevokeNodes(st: State, user: UserData, filename: string, recipient: string, n: nat)
    requires n != st.next
    ensures NoNewNode(st.log, RevokeAccess(st, user, filename, recipient).st.log, n)
  {
    if OpenNode(st, user, filename).Success? {
      var access, node, st1 := OpenAccess(st, user, filename).value, OpenNode(st, user, filename).value, st.Draw(1);
      var inode := OpenInode(st1, node);
      if inode.Success? {
        RekeyLog(st1, inode.value.blocks, node.fileKey, st.next);
        var st2 := RekeyBlocks(st1, inode.value.blocks, node.fileKey, st.next).0;
        ReissueNodes(st2, user, filename, recipient, access, node.inode, inode.value, st.next, n);
      }
    }
  }

  // ---------- what is out of reach ----------

  /** No mailbox that `x` may read holds file key `n`, and none ever did. */
  ghost predicate OutOfReach(led: Ledger, log: set<Payload>, x: string, n: nat) {
    && n < led.next
    && KeyConfined(led, log, x, n)
    && forall m | m in led.mails && led.mails[m].fileKey == n :: !MayRead(led, x, led.mails[m].key)
  }

  /** A mailbox with file key `n` had it before, or is new. */
  ghost predicate MailsBefore(led: Ledger, led': Ledger, n: nat) {
    forall m | m in led'.mails && m in led.mails && led'.mails[m].fileKey == n :: led.mails[m].fileKey == n
  }

  ghost predicate NoNewMail(led: Ledger, led': Ledger, n: nat) {
    forall m | m in led'.mails && m !in led.mails :: led'.mails[m].fileKey != n
  }

  /** Nobody is sent a mailbox that was there already. */
  ghost predicate SentBefore(led: Ledger, led': Ledger) {
    forall k | k in led'.invs && led'.invs[k].mailbox in led.mails ::
      k in led.invs && led.invs[k].mailbox == led'.invs[k].mailbox
  }

  lemma MayReadBack(led: Ledger, led': Ledger, x: string, key: nat)
    requires Grows(led, led') && SentBefore(led, led') && KeyInUse(led, key) && MayRead(led', x, key)
    ensures MayRead(led, x, key)
  {
  }

  lemma ConfinedKept(led: Ledger, led': Ledger, log: set<Payload>, log': set<Payload>, x: string, n: nat)
    requires LogOK(led, log) && Grows(led, led') && SentBefore(led, led') && KeyConfined(led, log, x, n)
    requires forall p | p in log' && NodeWith(p, n) && p !in log :: !MayRead(led', x, p.lock.n)
    ensures KeyConfined(led', log', x, n)
  {
    forall p | p in log' && p.Sealed? && p.lock.MailKey? && p.plain.MailboxRec? && p.plain.node.fileKey == n
      ensures !MayRead(led', x, p.lock.n)
    {
      if p in log && MayRead(led', x, p.lock.n) {
        assert PayloadOK(led, p);
        MayReadBack(led, led', x, p.lock.n);
      }
    }
  }

  lemma MailsOutOfReach(led: Ledger, led': Ledger, log: set<Payload>, x: string, n: nat)
    requires MailsOK(led) && Grows(led, led') && SentBefore(led, led') && OutOfReach(led, log, x, n)
    requires MailsBefore(led, led', n)
    requires forall m | m in led'.mails && m !in led.mails && led'.mails[m].fileKey == n ::
               !MayRead(led', x, led'.mails[m].key)
    ensures forall m | m in led'.mails && led'.mails[m].fileKey == n :: !MayRead(led', x, led'.mails[m].key)
  {
    forall m | m in led'.mails && led'.mails[m].fileKey == n && m in led.mails
      ensures !MayRead(led', x, led'.mails[m].key)
    {
      assert MailOK(led, m, led.mails[m]);
      if MayRead(led', x, led.mails[m].key) {
        MayReadBack(led, led', x, led.mails[m].key);
      }
    }
  }

  /** The ledger after an operation that gives file key `n` to no mailbox and sends nobody an old mailbox. */
  ghost predicate Unconcerned(led: Ledger, led': Ledger, n: nat) {
    Grows(led, led') && MailsBefore(led, led', n) && NoNewMail(led, led', n) && SentBefore(led, led')
  }

  lemma UnconcernedKeeps(led: Ledger, led': Ledger, log: set<Payload>, log': set<Payload>, x: string, n: nat)
    requires MailsOK(led) && LogOK(led, log) && OutOfReach(led, log, x, n) && Unconcerned(led, led', n)
    requires NoNewNode(log, log', n)
    ensures OutOfReach(led', log', x, n)
  {
    ConfinedKept(led, led', log, log', x, n);
    MailsOutOfReach(led, led', log, x, n);
  }

  // ---------- the operations that do not concern the key ----------

  lemma SameMailsUnconcerned(led: Ledger, led': Ledger, n: nat)
    requires Grows(led, led') && led'.mails == led.mails && led'.invs == led.invs
    ensures Unconcerned(led, led', n)
  {
  }

  lemma StoreUnconcerned(led: Ledger, user: UserData, filename: string, content: seq<byte>, n: nat)
    requires WellFormed(led) && Registered(led, user) && n < led.next
    ensures Unconcerned(led, StoreLedger(led, user, filename, content), n)
  {
    StoreKeeps(led, user, filename, content);
    StoreMailsBefore(led, user, filename, content, StoreLedger(led, user, filename, content), n);
  }

  lemma StoreMailsBefore(led: Ledger, user: UserData, filename: string, content: seq<byte>, led': Ledger, n: nat)
    requires n < led.next && led' == StoreLedger(led, user, filename, content)
    ensures MailsBefore(led, led', n) && NoNewMail(led, led', n) && SentBefore(led, led')
  {
  }

  lemma AppendSame(led: Ledger, user: UserData, filename: string, content: seq<byte>)
    ensures AppendLedger(led, user, filename, content).mails == led.mails
    ensures AppendLedger(led, user, filename, content).invs == led.invs
  {
  }

  lemma AppendUnconcerned(led: Ledger, user: UserData, filename: string, content: seq<byte>, n: nat)
    requires WellFormed(led)
    ensures Unconcerned(led, AppendLedger(led, user, filename, content), n)
  {
    AppendKeeps(led, user, filename, content);
    AppendSame(led, user, filename, content);
    SameMailsUnconcerned(led, AppendLedger(led, user, filename, content), n);
  }

  lemma AcceptSame(led: Ledger, user: UserData, sender: string, ptr: UUID, filename: string)
    ensures AcceptLedger(led, user, sender, ptr, filename).mails == led.mails
    ensures AcceptLedger(led, user, sender, ptr, filename).invs == led.invs
  {
  }

  lemma AcceptUnconcerned(led: Ledger, user: UserData, sender: string, ptr: UUID, filename: string, n: nat)
    requires WellFormed(led) && Registered(led, user)
    ensures Unconcerned(led, AcceptLedger(led, user, sender, ptr, filename), n)
  {
    AcceptKeeps(led, user, sender, ptr, filename);
    AcceptSame(led, user, sender, ptr, filename);
    SameMailsUnconcerned(led, AcceptLedger(led, user, sender, ptr, filename), n);
  }

  lemma RevokeMailsBefore(led: Ledger, user: UserData, filename: string, recipient: string, led': Ledger, n: nat)
    requires n < led.next && led' == RevokeLedger(led, user, filename, recipient)
    ensures MailsBefore(led, led', n) && NoNewMail(led, led', n) && SentBefore(led, led')
  {
  }

  lemma RevokeUnconcerned(led: Ledger, user: UserData, filename: string, recipient: string, n: nat)
    requires WellFormed(led) && n < led.next
    ensures Unconcerned(led, RevokeLedger(led, user, filename, recipient), n)
  {
    RevokeKeeps(led, user, filename, recipient);
    RevokeMailsBefore(led, user, filename, recipient, RevokeLedger(led, user, filename, recipient), n);
  }

  lemma CallKeeps(w: World, op: Op, x: string, n: nat)
    requires Confidential(w) && HasSession(w, op) && IsCall(op) && !op.Invite? && OutOfReach(w.led, w.st.log, x, n)
    ensures OutOfReach(LedgerAfter(w, op), Performed(w, op).0.log, x, n)
  {
    CallUnconcerned(w, op, n);
    CallNodes(w, op, n);
    UnconcernedKeeps(w.led, LedgerAfter(w, op), w.st.log, Performed(w, op).0.log, x, n);
  }

  lemma CallUnconcerned(w: World, op: Op, n: nat)
    requires WellFormed(w.led) && HasSession(w, op) && IsCall(op) && !op.Invite?
    requires Registered(w.led, Caller(w, op)) && n < w.led.next
    ensures Unconcerned(w.led, LedgerAfter(w, op), n)
  {
    var user := Caller(w, op);
    if op.Store? {
      StoreUnconcerned(w.led, user, op.filename, op.content, n);
    } else if op.Append? && op.data.Some? {
      AppendUnconcerned(w.led, user, op.filename, op.data.value, n);
    } else if op.Accept? {
      AcceptUnconcerned(w.led, user, op.sender, op.ptr, op.filename, n);
    } else if op.Revoke? {
      RevokeUnconcerned(w.led, user, op.filename, op.recipient, n);
    } else {
      SameMailsUnconcerned(w.led, w.led, n);
    }
  }

  lemma CallNodes(w: World, op: Op, n: nat)
    requires HasSession(w, op) && IsCall(op) && !op.Invite? && n != w.st.next
    ensures NoNewNode(w.st.log, Performed(w, op).0.log, n)
  {
    match op
    case Store(_, f, content) => StoreNodes(w.st, Caller(w, op), f, content, n);
    case Append(_, f, data) => AppendNodes(w.st, Caller(w, op), f, data, n);
    case Accept(_, sender, ptr, f) => AcceptNodes(w.st, Caller(w, op), sender, ptr, f, n);
    case Revoke(_, f, r) => RevokeNodes(w.st, Caller(w, op), f, r, n);
  }

  // ---------- invitations ----------

  /** What an invitation from mailbox `m` leaves on the ledger. */
  ghost predicate InviteShape(led: Ledger, user: UserData, recipient: string, m: nat, led': Ledger) {
    && m in led.mails && led'.mails == led.mails[led.next := CopyOf(led, m, user.username, recipient)]
    && Has(led', led.next + 1, MailKeyRole(led.next))
    && led'.invs == if recipient in led.accounts then
         led.invs[led.next + 2 := InvInfo(user.username, recipient, led.next)] else led.invs
  }

  lemma InviteHasShape(led: Ledger, user: UserData, filename: string, recipient: string, m: nat)
    requires Holds(led, user, filename) && m == led.recs[AccessUUID(user.username, filename)].mailbox && m in led.mails
    ensures InviteShape(led, user, recipient, m, InviteLedger(led, user, filename, recipient))
  {
  }

  /** The inviter may read its own mailbox, so a user the key is out of reach of is not the inviter. */
  lemma InviterIsNot(led: Ledger, log: set<Payload>, x: string, n: nat, s: UUID)
    requires OwnMailOK(led) && OutOfReach(led, log, x, n) && s in led.recs && led.recs[s].mailbox in led.mails
    requires led.mails[led.recs[s].mailbox].fileKey == n
    ensures led.recs[s].master.username != x
  {
    assert MailKeyOf(led, led.recs[s].mailbox) == led.mails[led.recs[s].mailbox].key;
  }

  lemma CopyIsUnsent(led: Ledger, user: UserData, recipient: string, m: nat, led': Ledger)
    requires InvsOK(led) && Below(led) && InviteShape(led, user, recipient, m, led') && recipient !in led.accounts
    ensures !Sent(led', led.next)
  {
    forall k | k in led.invs
      ensures led.invs[k].mailbox != led.next
    {
      assert InvOK(led, k, led.invs[k]);
    }
  }

  lemma CopyNotForOthers(led: Ledger, user: UserData, recipient: string, m: nat, led': Ledger, x: string)
    requires InvsOK(led) && Below(led) && InviteShape(led, user, recipient, m, led')
    requires x != user.username && !(x == recipient && recipient in led.accounts)
    ensures !MayRead(led', x, led.next + 1)
  {
    if x == recipient {
      CopyIsUnsent(led, user, recipient, m, led');
    }
  }

  ghost predicate OnlyCopyIsNew(led: Ledger, led': Ledger, m: nat) {
    m in led.mails
    && forall k | k in led'.mails && k !in led.mails ::
         led'.mails[k].key == led.next + 1 && led'.mails[k].fileKey == led.mails[m].fileKey
  }

  lemma InviteBefore(led: Ledger, user: UserData, recipient: string, m: nat, led': Ledger, n: nat)
    requires Below(led) && InviteShape(led, user, recipient, m, led')
    ensures MailsBefore(led, led', n) && SentBefore(led, led') && OnlyCopyIsNew(led, led', m)
  {
  }

  /** The one new mailbox and node: they hold key `n` only if the inviter's mailbox does. */
  ghost predicate NodeIsCopy(led: Ledger, log: set<Payload>, log': set<Payload>, m: nat, n: nat)
    requires m in led.mails
  {
    forall p | p in log' && p !in log && NodeWith(p, n) :: led.mails[m].fileKey == n && p.lock == MailKey(led.next + 1)
  }

  lemma InviteCopySafe(led: Ledger, log: set<Payload>, user: UserData, recipient: string, led': Ledger, x: string,
                       n: nat, s: UUID, m: nat)
    requires InvsOK(led) && Below(led) && OwnMailOK(led) && OutOfReach(led, log, x, n)
    requires InviteShape(led, user, recipient, m, led')
    requires s in led.recs && led.recs[s].master.username == user.username && m == led.recs[s].mailbox
    requires !(x == recipient && recipient in led.accounts && led.mails[m].fileKey == n)
    ensures led.mails[m].fileKey == n ==> !MayRead(led', x, led.next + 1)
  {
    if led.mails[m].fileKey == n {
      InviterIsNot(led, log, x, n, s);
      CopyNotForOthers(led, user, recipient, m, led', x);
    }
  }

  lemma InviteConfined(led: Ledger, log: set<Payload>, led': Ledger, log': set<Payload>, x: string, n: nat, m: nat)
    requires LogOK(led, log) && KeyConfined(led, log, x, n) && Grows(led, led') && SentBefore(led, led')
    requires m in led.mails && NodeIsCopy(led, log, log', m, n)
    requires led.mails[m].fileKey == n ==> !MayRead(led', x, led.next + 1)
    ensures KeyConfined(led', log', x, n)
  {
    ConfinedKept(led, led', log, log', x, n);
  }

  lemma InviteMailsKept(led: Ledger, log: set<Payload>, led': Ledger, x: string, n: nat, m: nat)
    requires MailsOK(led) && OutOfReach(led, log, x, n) && Grows(led, led')
    requires MailsBefore(led, led', n) && SentBefore(led, led') && OnlyCopyIsNew(led, led', m)
    requires led.mails[m].fileKey == n ==> !MayRead(led', x, led.next + 1)
    ensures forall k | k in led'.mails && led'.mails[k].fileKey == n :: !MayRead(led', x, led'.mails[k].key)
  {
    MailsOutOfReach(led, led', log, x, n);
  }

  lemma InviteHolderKeeps(led: Ledger, log: set<Payload>, user: UserData, recipient: string, led': Ledger,
                          log': set<Payload>, x: string, n: nat, s: UUID, m: nat)
    requires MailsOK(led) && InvsOK(led) && Below(led) && LogOK(led, log) && OwnMailOK(led)
    requires OutOfReach(led, log, x, n)
    requires s in led.recs && led.recs[s].master.username == user.username && m == led.recs[s].mailbox
    requires InviteShape(led, user, recipient, m, led') && Grows(led, led') && NodeIsCopy(led, log, log', m, n)
    requires !(x == recipient && recipient in led.accounts && led.mails[m].fileKey == n)
    ensures OutOfReach(led', log', x, n)
  {
    InviteCopySafe(led, log, user, recipient, led', x, n, s, m);
    InviteBefore(led, user, recipient, m, led', n);
    InviteConfined(led, log, led', log', x, n, m);
    InviteMailsKept(led, log, led', x, n, m);
  }

  lemma InviteNodeIsCopy(led: Ledger, st: State, user: UserData, filename: string, recipient: string, n: nat, m: nat)
    requires RecsOK(led) && RecsStored(led, st) && MailsStored(led, st) && Holds(led, user, filename)
    requires led.next == st.next
    requires m == led.recs[AccessUUID(user.username, filename)].mailbox && m in led.mails
    ensures NodeIsCopy(led, st.log, CreateInvitation(st, user, filename, recipient).st.log, m, n)
  {
    HolderOpensAccess(led, st, user, filename);
    RecordOpensMailbox(led, st, led.recs[AccessUUID(user.username, filename)]);
    forall p | p in CreateInvitation(st, user, filename, recipient).st.log && p !in st.log && NodeWith(p, n)
      ensures led.mails[m].fileKey == n && p.lock == MailKey(led.next + 1)
    {
      InviteNodes(st, user, filename, recipient, p, n);
    }
  }

  lemma InviteStepKeeps(led: Ledger, st: State, user: UserData, filename: string, recipient: string, x: string, n: nat)
    requires WellFormed(led) && Represents(led, st) && Registered(led, user) && Guarded(led, st.log)
    requires OutOfReach(led, st.log, x, n)
    requires Holds(led, user, filename) && led.recs[AccessUUID(user.username, filename)].mailbox in led.mails
    requires !(x == recipient && recipient in led.accounts
               && led.mails[led.recs[AccessUUID(user.username, filename)].mailbox].fileKey == n)
    ensures OutOfReach(InviteLedger(led, user, filename, recipient),
                       CreateInvitation(st, user, filename, recipient).st.log, x, n)
  {
    var s := AccessUUID(user.username, filename);
    var m := led.recs[s].mailbox;
    NextIsFresh(led);
    InviteKeeps(led, user, filename, recipient);
    InviteHasShape(led, user, filename, recipient, m);
    InviteNodeIsCopy(led, st, user, filename, recipient, n, m);
    InviteHolderKeeps(led, st.log, user, recipient, InviteLedger(led, user, filename, recipient),
                      CreateInvitation(st, user, filename, recipient).st.log, x, n, s, m);
  }

  // ---------- leaks ----------

  /** A successful invitation of `x` from a record whose mailbox opens to file key `n`. */
  ghost predicate Leak(w: World, op: Op, x: string, n: nat) {
    && op.Invite? && op.recipient == x && HasSession(w, op) && Succeeds(w, op)
    && OpenNode(w.st, Caller(w, op), op.filename).Success?
       && OpenNode(w.st, Caller(w, op), op.filename).value.fileKey == n
  }

  /** Some step of the run leaks the key. */
  ghost predicate Leaks(w: World, ops: seq<Op>, x: string, n: nat)
    decreases |ops|
  {
    ops != [] && (Leak(w, ops[0], x, n) || Leaks(Step(w, ops[0]), ops[1..], x, n))
  }

  ghost predicate Excluded(w: World, x: string, n: nat) {
    OutOfReach(w.led, w.st.log, x, n)
  }

  lemma NoLeakOnLedger(w: World, op: Op, x: string, n: nat, m: nat)
    requires Inv(w) && op.Invite? && HasSession(w, op) && !Leak(w, op, x, n) && Holds(w.led, Caller(w, op), op.filename)
    requires m == w.led.recs[AccessUUID(Caller(w, op).username, op.filename)].mailbox
    ensures m in w.led.mails && !(x == op.recipient && op.recipient in w.led.accounts && w.led.mails[m].fileKey == n)
  {
    InviteInv(w, op);
    HolderOpensNode(w.led, w.st, Caller(w, op), op.filename, m);
  }

  lemma InviteExcludes(w: World, op: Op, x: string, n: nat)
    requires Confidential(w) && Excluded(w, x, n) && op.Invite? && HasSession(w, op) && !Leak(w, op, x, n)
    ensures OutOfReach(LedgerAfter(w, op), Performed(w, op).0.log, x, n)
  {
    var user := Caller(w, op);
    if Holds(w.led, user, op.filename) {
      NoLeakOnLedger(w, op, x, n, w.led.recs[AccessUUID(user.username, op.filename)].mailbox);
      InviteStepKeeps(w.led, w.st, user, op.filename, op.recipient, x, n);
    } else {
      InviteNonHolder(w.led, w.st, user, op.filename, op.recipient);
    }
  }

  lemma RegisterKeepsReach(led: Ledger, st: State, username: string, password: string, x: string, n: nat)
    requires WellFormed(led) && Represents(led, st) && LogOK(led, st.log) && OutOfReach(led, st.log, x, n)
    requires UserUUID(username) !in st.store
    ensures OutOfReach(RegisterLedger(led, username, password), InitUser(st, username, password).0.log, x, n)
  {
    AbsentIsUnregistered(led, st, username);
    RegisterKeeps(led, username, password);
    InitNodes(st, username, password, n);
    SameMailsUnconcerned(led, RegisterLedger(led, username, password), n);
    UnconcernedKeeps(led, RegisterLedger(led, username, password), st.log, InitUser(st, username, password).0.log, x,
                     n);
  }

  lemma UserExcludes(w: World, op: Op, x: string, n: nat)
    requires Confidential(w) && Excluded(w, x, n) && (op.Register? || op.Login?)
    ensures Excluded(Step(w, op), x, n)
  {
    if op.Register? && UserUUID(op.username) !in w.st.store {
      RegisterKeepsReach(w.led, w.st, op.username, op.password, x, n);
    }
  }

  lemma InterleaveExcludes(w: World, op: Op, x: string, n: nat)
    requires Confidential(w) && Excluded(w, x, n) && op.Interleave?
    ensures Excluded(Step(w, op), x, n)
  {
    InterleaveInv(w, op);
    InterleaveLog(w, op);
    SameMailsUnconcerned(w.led, Step(w, op).led, n);
    UnconcernedKeeps(w.led, Step(w, op).led, w.st.log, Step(w, op).st.log, x, n);
  }

  lemma StepExcludes(w: World, op: Op, x: string, n: nat)
    requires Confidential(w) && Excluded(w, x, n) && !Leak(w, op, x, n)
    ensures Excluded(Step(w, op), x, n)
  {
    if op.Interleave? {
      InterleaveExcludes(w, op, x, n);
    } else if op.Register? || op.Login? {
      UserExcludes(w, op, x, n);
    } else if HasSession(w, op) {
      CallStep(w, op);
      if op.Invite? {
        InviteExcludes(w, op, x, n);
      } else {
        CallKeeps(w, op, x, n);
      }
    }
  }

  lemma {:induction false} RunExcludes(w: World, ops: seq<Op>, x: string, n: nat)
    requires Confidential(w) && Excluded(w, x, n) && !Leaks(w, ops, x, n)
    ensures Confidential(Run(w, ops)) && Excluded(Run(w, ops), x, n)
    decreases |ops|
  {
    if ops != [] {
      StepExcludes(w, ops[0], x, n);
      StepConfidential(w, ops[0]);
      RunExcludes(Step(w, ops[0]), ops[1..], x, n);
    }
  }

  // ---------- what a leak gives away for good ----------

  lemma AppendLog(st: State, user: UserData, filename: string, content: Option<seq<byte>>)
    ensures st.log <= AppendToFile(st, user, filename, content).st.log
  {
    if content.Some? && OpenNode(st, user, filename).Success? {
      PutBlocksWrites(st, Chunks(content.value), OpenNode(st, user, filename).value.fileKey);
    }
  }

  lemma ReissueLog(st: State, user: UserData, filename: string, recipient: string, access: Access, inodeUUID: UUID,
                   inode: Inode, newKey: nat)
    ensures st.log <= Reissue(st, user, filename, recipient, access, inodeUUID, inode, newKey).st.log
  {
  }

  lemma RevocationLog(st: State, user: UserData, filename: string, recipient: string)
    ensures st.log <= RevokeAccess(st, user, filename, recipient).st.log
  {
    if OpenNode(st, user, filename).Success? {
      var access, node, st1 := OpenAccess(st, user, filename).value, OpenNode(st, user, filename).value, st.Draw(1);
      var inode := OpenInode(st1, node);
      if inode.Success? {
        RekeyLog(st1, inode.value.blocks, node.fileKey, st.next);
        var st2 := RekeyBlocks(st1, inode.value.blocks, node.fileKey, st.next).0;
        ReissueLog(st2, user, filename, recipient, access, node.inode, inode.value, st.next);
      }
    }
  }

  lemma SharingLog(st: State, user: UserData, filename: string, other: string, ptr: UUID)
    ensures st.log <= CreateInvitation(st, user, filename, other).st.log
    ensures st.log <= AcceptInvitation(st, user, other, ptr, filename).st.log
  {
  }

  lemma CallLog(w: World, op: Op)
    requires HasSession(w, op) && IsCall(op)
    ensures w.st.log <= Performed(w, op).0.log
  {
    match op
    case Store(_, f, content) => StoreLog(w.st, Caller(w, op), f, content);
    case Append(_, f, data) => AppendLog(w.st, Caller(w, op), f, data);
    case Invite(_, f, r) => SharingLog(w.st, Caller(w, op), f, r, Random(0));
    case Accept(_, sender, ptr, f) => SharingLog(w.st, Caller(w, op), f, sender, ptr);
    case Revoke(_, f, r) => RevocationLog(w.st, Caller(w, op), f, r);
  }

  /** The store never forgets what it was given. */
  lemma StepLog(w: World, op: Op)
    ensures w.st.log <= Step(w, op).st.log
  {
    if op.Interleave? {
      InterleaveLog(w, op);
    } else if HasSession(w, op) && IsCall(op) {
      CallLog(w, op);
      CallStep(w, op);
    }
  }

  lemma KnowsMore(led: Ledger, led': Ledger, log: set<Payload>, log': set<Payload>, x: string, y: Secret)
    requires Grows(led, led') && log <= log' && Knows(led, log, x, y)
    ensures Knows(led', log', x, y)
  {
    var trail: seq<Secret> :| |trail| > 0 && Own(led, x, trail[0]) && trail[|trail| - 1] == y && Trail(log, trail);
    OwnMore(led, led', x, trail[0]);
    forall i | 0 < i < |trail|
      ensures Leads(log', trail[i - 1], trail[i])
    {
      assert Leads(log, trail[i - 1], trail[i]);
    }
    assert Trail(log', trail);
  }

  lemma OwnMore(led: Ledger, led': Ledger, x: string, y: Secret)
    requires Grows(led, led') && Own(led, x, y)
    ensures Own(led', x, y)
  {
  }

  lemma {:induction false} RunKnows(w: World, ops: seq<Op>, x: string, y: Secret)
    requires Inv(w) && Knows(w.led, w.st.log, x, y)
    ensures Knows(Run(w, ops).led, Run(w, ops).st.log, x, y)
    decreases |ops|
  {
    if ops != [] {
      StepInv(w, ops[0]);
      StepGrows(w, ops[0]);
      StepLog(w, ops[0]);
      KnowsMore(w.led, Step(w, ops[0]).led, w.st.log, Step(w, ops[0]).st.log, x, y);
      RunKnows(Step(w, ops[0]), ops[1..], x, y);
    }
  }

  lemma InviteWrites(st: State, user: UserData, filename: string, recipient: string, node: MailboxNode,
                     log': set<Payload>)
    requires CreateInvitation(st, user, filename, recipient).res.Success?
    requires log' == CreateInvitation(st, user, filename, recipient).st.log
    requires OpenNode(st, user, filename) == Success(node)
    ensures EncName(recipient) in st.keys && st.keys[EncName(recipient)].PKEPublic?
    ensures Sealed(MailKey(st.next + 1), MailboxRec(node)) in log'
    ensures Signed(st.keys[EncName(recipient)].n, user.ds, Invitation(Random(st.next), st.next + 1)) in log'
  {
  }

  lemma TwoPayloads(led: Ledger, log: set<Payload>, x: string, p: Payload, q: Payload)
    requires p in log && q in log && p.Signed? && x in led.accounts && p.to == led.accounts[x].pke
    requires q.Sealed? && q.lock == MailKey(p.invitation.key) && q.plain.MailboxRec?
    ensures Knows(led, log, x, FileSecret(q.plain.node.fileKey))
  {
    assert Opener(p) == PkeSecret(p.to) && Reveals(p, MailSecret(p.invitation.key));
    assert Opener(q) == MailSecret(p.invitation.key) && Reveals(q, FileSecret(q.plain.node.fileKey));
    ThreeSteps(led, log, x, PkeSecret(p.to), MailSecret(p.invitation.key), FileSecret(q.plain.node.fileKey));
  }

  lemma RecipientKey(led: Ledger, st: State, x: string)
    requires KeysPublished(led, st) && EncName(x) in st.keys
    ensures x in led.accounts && st.keys[EncName(x)] == PKEPublic(led.accounts[x].pke)
  {
  }

  lemma LeakWrites(led: Ledger, st: State, user: UserData, filename: string, x: string, led': Ledger,
                   log': set<Payload>)
    requires KeysPublished(led, st) && Grows(led, led') && OpenNode(st, user, filename).Success?
    requires CreateInvitation(st, user, filename, x).res.Success?
    requires log' == CreateInvitation(st, user, filename, x).st.log
    ensures Knows(led', log', x, FileSecret(OpenNode(st, user, filename).value.fileKey))
  {
    var node := OpenNode(st, user, filename).value;
    InviteWrites(st, user, filename, x, node, log');
    RecipientKey(led, st, x);
    TwoPayloads(led', log', x, Signed(st.keys[EncName(x)].n, user.ds, Invitation(Random(st.next), st.next + 1)),
                Sealed(MailKey(st.next + 1), MailboxRec(node)));
  }

  lemma LeakTeaches(w: World, op: Op, x: string, n: nat)
    requires Inv(w) && Leak(w, op, x, n)
    ensures Knows(Step(w, op).led, Step(w, op).st.log, x, FileSecret(n))
  {
    CallStep(w, op);
    StepGrows(w, op);
    LeakWrites(w.led, w.st, Caller(w, op), op.filename, x, Step(w, op).led, Step(w, op).st.log);
  }

  lemma {:induction false} RunTeaches(w: World, ops: seq<Op>, x: string, n: nat)
    requires Inv(w) && Leaks(w, ops, x, n)
    ensures Knows(Run(w, ops).led, Run(w, ops).st.log, x, FileSecret(n))
    decreases |ops|
  {
    StepInv(w, ops[0]);
    if Leak(w, ops[0], x, n) {
      LeakTeaches(w, ops[0], x, n);
      RunKnows(Step(w, ops[0]), ops[1..], x, FileSecret(n));
    } else {
      RunTeaches(Step(w, ops[0]), ops[1..], x, n);
    }
  }

  // ---------- the revocation ----------

  lemma RevokedMail(led: Ledger, rec: RecInfo, recipient: string, mail: MailInfo, m: nat)
    requires RolesOK(led) && MailsOK(led) && m != led.next + 2
    requires m in KeptMails(led, rec, recipient)[led.next + 2 := mail]
    requires KeptMails(led, rec, recipient)[led.next + 2 := mail][m].fileKey == led.next
    ensures m in led.mails && Kept(rec, recipient, m)
    ensures KeptMails(led, rec, recipient)[led.next + 2 := mail][m].key == led.mails[m].key
  {
    assert MailOK(led, m, led.mails[m]);
  }

  /** Apart from the revoker's new mailbox, the new key is in kept children's mailboxes only. */
  ghost predicate OnlyKeptHaveKey(led: Ledger, rec: RecInfo, recipient: string, led': Ledger) {
    forall m | m in led'.mails && led'.mails[m].fileKey == led.next && m != led.next + 2 ::
      m in led.mails && Kept(rec, recipient, m) && led'.mails[m].key == led.mails[m].key
  }

  lemma RevokeKeysOnlyKept(led: Ledger, rec: RecInfo, recipient: string, mail: MailInfo, led': Ledger)
    requires RolesOK(led) && MailsOK(led) && led'.mails == KeptMails(led, rec, recipient)[led.next + 2 := mail]
    ensures OnlyKeptHaveKey(led, rec, recipient, led')
  {
    forall m | m in led'.mails && led'.mails[m].fileKey == led.next && m != led.next + 2
      ensures m in led.mails && Kept(rec, recipient, m) && led'.mails[m].key == led.mails[m].key
    {
      RevokedMail(led, rec, recipient, mail, m);
    }
  }

  lemma RevokedMails(led: Ledger, log: set<Payload>, s: UUID, rec: RecInfo, recipient: string, mail: MailInfo,
                     led': Ledger, x: string)
    requires MailsOK(led) && EntriesOK(led, log) && Grows(led, led') && OnlyKeptHaveKey(led, rec, recipient, led')
    requires s in led.recs && rec == led.recs[s] && Has(led', mail.key, MailKeyRole(led.next + 2))
    requires led.next + 2 in led'.mails && led'.mails[led.next + 2] == mail && mail.origin.Rotated?
    requires mail.origin.maker == rec.master.username
    requires x != rec.master.username && !(x in rec.children && x != recipient)
    ensures forall m | m in led'.mails && led'.mails[m].fileKey == led.next :: !MayRead(led', x, led'.mails[m].key)
  {
    NotForOthers(led', led.next + 2, mail.key, rec.master.username, x);
    forall m | m in led'.mails && led'.mails[m].fileKey == led.next && m != led.next + 2
      ensures !MayRead(led', x, led'.mails[m].key)
    {
      KeptNotFor(led, log, s, rec, recipient, m, led', x);
    }
  }

  /** The ledger half: nobody but the revoker and the kept children may read a mailbox with the new key. */
  lemma RevokeLedgerExcludes(led: Ledger, log: set<Payload>, user: UserData, filename: string, recipient: string,
                             led': Ledger, s: UUID, rec: RecInfo, i: nat, mail: MailInfo, x: string)
    requires RolesOK(led) && MailsOK(led) && EntriesOK(led, log) && Registered(led, user)
    requires user.master.username == user.username
    requires CanOpen(led, user, filename) && led' == RevokeLedger(led, user, filename, recipient) && Grows(led, led')
    requires s == AccessUUID(user.username, filename) && rec == led.recs[s] && i == FileOf(led, user, filename)
    requires mail == NewMail(rec, i, led.next, user.username)
    requires x != user.username && !(x in rec.children && x != recipient)
    ensures forall m | m in led'.mails && led'.mails[m].fileKey == led.next :: !MayRead(led', x, led'.mails[m].key)
  {
    RevokeShape(led, user, filename, recipient, led', i, s, rec);
    RevokedFacts(led, user, filename, recipient, led', i, s, rec, mail,
                 rec.(mailbox := led.next + 2, children := rec.children - {recipient}));
    RevokeKeysOnlyKept(led, rec, recipient, mail, led');
    RevokedMails(led, log, s, rec, recipient, mail, led', x);
  }

  lemma RevokeExcludes(led: Ledger, st: State, user: UserData, filename: string, recipient: string, x: string, s: UUID,
                       i: nat)
    requires WellFormed(led) && Represents(led, st) && Registered(led, user) && Guarded(led, st.log)
    requires CanOpen(led, user, filename)
    requires LeftOut(led, user, filename, recipient, x) && s == AccessUUID(user.username, filename)
    requires i == FileOf(led, user, filename)
    ensures OutOfReach(RevokeLedger(led, user, filename, recipient), RevokeAccess(st, user, filename, recipient).st.log,
                       x, led.next)
  {
    var led', rec := RevokeLedger(led, user, filename, recipient), led.recs[s];
    assert user.master.username == user.username;
    RevokeKeeps(led, user, filename, recipient);
    RevokeStepKnown(led, st, user, filename, recipient, x);
    RevokeLedgerExcludes(led, st.log, user, filename, recipient, led', s, rec, i,
                         NewMail(rec, i, led.next, user.username), x);
    assert led.next < led'.next;
  }

  lemma RevocationExcludes(w: World, op: Op, access: Access, x: string)
    requires Confidential(w) && op.Revoke? && Succeeds(w, op)
    requires OpenAccess(w.st, Caller(w, op), op.filename) == Success(access)
    requires x != Caller(w, op).username && !(x in access.children && x != op.recipient)
    ensures Confidential(Step(w, op)) && Excluded(Step(w, op), x, w.st.next)
  {
    var user := Caller(w, op);
    RevokeInv(w, op);
    CallStep(w, op);
    HolderOpensAccess(w.led, w.st, user, op.filename);
    RevokeExcludes(w.led, w.st, user, op.filename, op.recipient, x, AccessUUID(user.username, op.filename),
                   FileOf(w.led, user, op.filename));
    StepConfidential(w, op);
  }

  /**
   Revocation as secrecy over whole runs.  After a successful revocation take anybody but the revoker and
   the kept direct children, and any continuation.  From everything the store was ever given, before or
   after, that user can work out the key the revocation sealed the file with exactly if some later step is
   a successful invitation of that user from a record whose mailbox holds the key.  Invitations to other
   files do not matter, nor do those by holders who have lost the file.
   */
  lemma RevokedLearnsIffInvited(op: Op, access: Access, x: string, w: World, later: seq<Op>, w': World)
    requires Confidential(w) && w' == Run(Step(w, op), later)
    requires op.Revoke? && Succeeds(w, op) && OpenAccess(w.st, Caller(w, op), op.filename) == Success(access)
    requires x != Caller(w, op).username && !(x in access.children && x != op.recipient)
    ensures Knows(w'.led, w'.st.log, x, FileSecret(w.st.next)) <==> Leaks(Step(w, op), later, x, w.st.next)
  {
    RevocationExcludes(w, op, access, x);
    if Leaks(Step(w, op), later, x, w.st.next) {
      RunTeaches(Step(w, op), later, x, w.st.next);
    } else {
      RunExcludes(Step(w, op), later, x, w.st.next);
      OutsidersStayOut(w'.led, w'.st.log, x, w.st.next);
    }
  }

  // ---------- the storing ----------

  lemma StoredNodeOnly(led: Ledger, log: set<Payload>, user: UserData, filename: string, log': set<Payload>, p: Payload)
    requires RolesOK(led) && LogOK(led, log) && OnlyThese(log, log', StoredPayloads(led.next, user, filename))
    requires p in log' && NodeWith(p, led.next)
    ensures p == StoredNode(led.next)
  {
    OlderNodes(led, log);
  }

  /** The new file's key is sealed for the storer alone. */
  lemma StoreConfines(led: Ledger, log: set<Payload>, user: UserData, filename: string, led': Ledger,
                      log': set<Payload>, x: string)
    requires RolesOK(led) && LogOK(led, log) && StoreShape(led, user, filename, led') && x != user.username
    requires OnlyThese(log, log', StoredPayloads(led.next, user, filename))
    ensures KeyConfined(led', log', x, led.next)
  {
    NotForOthers(led', led.next + 2, led.next + 3, user.username, x);
    forall p | p in log' && p.Sealed? && p.lock.MailKey? && p.plain.MailboxRec? && p.plain.node.fileKey == led.next
      ensures !MayRead(led', x, p.lock.n)
    {
      StoredNodeOnly(led, log, user, filename, log', p);
    }
  }

  lemma StoredMailOnly(led: Ledger, user: UserData, filename: string, content: seq<byte>, led': Ledger)
    requires RolesOK(led) && MailsOK(led) && led' == StoreLedger(led, user, filename, content)
    ensures forall m | m in led'.mails && led'.mails[m].fileKey == led.next :: m == led.next + 2
  {
    forall m | m in led.mails
      ensures led.mails[m].fileKey < led.next
    {
      assert MailOK(led, m, led.mails[m]);
    }
  }

  lemma StoreExcludes(led: Ledger, st: State, user: UserData, filename: string, content: seq<byte>, x: string)
    requires WellFormed(led) && led.next == st.next && LogOK(led, st.log) && x != user.username
    ensures OutOfReach(StoreLedger(led, user, filename, content), StoreFile(st, user, filename, content).st.log, x,
                       led.next)
  {
    var led' := StoreLedger(led, user, filename, content);
    StoreLog(st, user, filename, content);
    StoreHasShape(led, user, filename, content);
    StoreConfines(led, st.log, user, filename, led', StoreFile(st, user, filename, content).st.log, x);
    StoredMailOnly(led, user, filename, content, led');
    NotForOthers(led', led.next + 2, led.next + 3, user.username, x);
  }

  lemma StorerKnows(led: Ledger, st: State, user: UserData, filename: string, content: seq<byte>)
    requires Registered(led, user) && led.next == st.next
    ensures Knows(StoreLedger(led, user, filename, content), StoreFile(st, user, filename, content).st.log,
                  user.username, FileSecret(led.next))
  {
    StoreWritesLog(st, user, filename, content, led.next);
    StoreHasShape(led, user, filename, content);
    RevokerKnows(StoreLedger(led, user, filename, content), StoreFile(st, user, filename, content).st.log, user,
                 StoredAccess(led.next, user, filename), FirstMail(led.next, user), led.next);
  }

  lemma StoreWritesLog(st: State, user: UserData, filename: string, content: seq<byte>, n: nat)
    requires n == st.next
    ensures StoredAccess(n, user, filename) in StoreFile(st, user, filename, content).st.log
    ensures NodeOf(FirstMail(n, user)) in StoreFile(st, user, filename, content).st.log
  {
    var st2 := BeforeBlocks(st, user, filename);
    StoreLogParts(st, user, filename, content, st2,
                  Sealed(FileKey(st.next), InodeRec(Inode(|content|, FreshIds(st2.next, |Chunks(content)|)))));
    PutBlocksWrites(st2, Chunks(content), st.next);
  }

  /**
   Confidentiality of a stored file over whole runs.  After a StoreFile, in any continuation and from everything
   the store was ever given, the key the file was sealed with can be worked out by the storer, and by anybody
   else exactly if some later step is a successful invitation of that user from a record whose mailbox holds
   the key.  Users who were never invited learn nothing, whatever else they do.
   */
  lemma StoredKnownIffInvited(op: Op, x: string, w: World, later: seq<Op>, w': World)
    requires Confidential(w) && op.Store? && HasSession(w, op) && w' == Run(Step(w, op), later)
    ensures Knows(w'.led, w'.st.log, x, FileSecret(w.st.next))
       <==> x == Caller(w, op).username || Leaks(Step(w, op), later, x, w.st.next)
  {
    var user := Caller(w, op);
    CallStep(w, op);
    StepConfidential(w, op);
    if x == user.username {
      StorerKnows(w.led, w.st, user, op.filename, op.content);
      RunKnows(Step(w, op), later, x, FileSecret(w.st.next));
    } else if Leaks(Step(w, op), later, x, w.st.next) {
      RunTeaches(Step(w, op), later, x, w.st.next);
    } else {
      StoreExcludes(w.led, w.st, user, op.filename, op.content, x);
      RunExcludes(Step(w, op), later, x, w.st.next);
      OutsidersStayOut(w'.led, w'.st.log, x, w.st.next);
    }
  }
}
