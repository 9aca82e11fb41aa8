/** Who keeps access to what: storers, live holders, bystanders, and the callers of failed operations. */
module Stability {
  import opened Wrappers
  import opened Blocks
  import opened Records
  import opened Protocol
  import opened Ledgers
  import opened LedgerSteps
  import opened Refinement
  import opened RefineFiles
  import opened RefineRevoke
  import opened Simulation
  import opened Runs
  import opened Guarantees

  // ---------- when a live holder keeps access ----------

  /** The mailbox is the mailbox of some child other than the recipient. */
  ghost predicate KeptChild(access: Access, recipient: string, mailbox: UUID) {
    exists c :: c in access.children && c != recipient && access.children[c].mailbox == mailbox
  }

  lemma KeptChildAgrees(led: Ledger, rec: RecInfo, recipient: string, m: nat)
    ensures KeptChild(AccessOf(led, rec), recipient, Random(m)) <==> Kept(rec, recipient, m)
  {
    if Kept(rec, recipient, m) {
      var c :| c in rec.children && c != recipient && rec.children[c] == m;
      assert AccessOf(led, rec).children[c].mailbox == Random(m);
    }
  }

  /** The invitation leads to a mailbox that opens the inode. */
  predicate LeadsTo(st: State, ptr: UUID, inode: UUID) {
    && ptr in st.store && st.store[ptr].Signed?
    && var invitation := st.store[ptr].invitation;
       var node := OpenMailbox(st, Access(invitation.mailbox, invitation.key, map[]));
       node.Success? && node.value.inode == inode && OpenInode(st, node.value).Success?
  }

  /**
   What a step must not do to a user's access to `inode`: put another record in the place of the user's,
   unless it is the same user's and leads to the same inode; or revoke on the inode through another record
   without keeping the user's mailbox as a direct child.
   */
  ghost predicate Spares(w: World, op: Op, user: UserData, filename: string, inode: UUID) {
    HasSession(w, op) && IsCall(op) && Succeeds(w, op) ==>
      var caller, s := Caller(w, op), AccessUUID(user.username, filename);
      match op
      case Store(_, f, _) => s != AccessUUID(caller.username, f) && s != UserUUID(caller.username)
      case Accept(_, _, ptr, f) =>
        && s != UserUUID(caller.username)
        && (s == AccessUUID(caller.username, f) ==>
              user.master == caller.master && filename == f && LeadsTo(w.st, ptr, inode))
      case Revoke(_, f, r) =>
        && s != UserUUID(caller.username)
        && (Opened(w.st, caller, f) == Some(inode) && s != AccessUUID(caller.username, f) ==>
              KeptMailbox(w.st, caller, f, r, user, filename))
      case _ => true
  }

  /** The mailbox of one record is that of a direct child, other than the recipient, of another. */
  ghost predicate KeptMailbox(st: State, caller: UserData, f: string, recipient: string, user: UserData,
                              filename: string)
  {
    var own, theirs := OpenAccess(st, caller, f), OpenAccess(st, user, filename);
    own.Success? && theirs.Success? && KeptChild(own.value, recipient, theirs.value.mailbox)
  }

  ghost predicate AllSpare(w: World, ops: seq<Op>, user: UserData, filename: string, inode: UUID)
    decreases |ops|
  {
    ops == []
      || (Spares(w, ops[0], user, filename, inode) && AllSpare(Step(w, ops[0]), ops[1..], user, filename, inode))
  }

  ghost predicate HoldsFile(led: Ledger, user: UserData, filename: string, i: nat) {
    CanOpen(led, user, filename) && FileOf(led, user, filename) == i
  }

  /** A record, its mailbox and its file are as they were. */
  ghost predicate SameHolding(led: Ledger, led': Ledger, s: UUID) {
    && (s in led'.recs <==> s in led.recs)
    && (s in led.recs ==> led'.recs[s] == led.recs[s] && SameMailbox(led, led', led.recs[s].mailbox))
  }

  ghost predicate SameMailbox(led: Ledger, led': Ledger, m: nat) {
    && m in led.mails && m in led'.mails && led'.mails[m] == led.mails[m]
    && led.mails[m].file in led.files && led.mails[m].file in led'.files
    && led'.files[led.mails[m].file].key == led.files[led.mails[m].file].key
    && led'.files[led.mails[m].file].chunks == led.files[led.mails[m].file].chunks
  }

  lemma HoldingKept(led: Ledger, led': Ledger, user: UserData, filename: string)
    requires SameHolding(led, led', AccessUUID(user.username, filename))
    ensures LedgerView(led', user, filename) == LedgerView(led, user, filename)
  {
  }

  lemma RecordMailboxKnown(led: Ledger, s: UUID)
    requires MailsOK(led) && RecsOK(led) && s in led.recs
    ensures led.recs[s].mailbox in led.mails && led.mails[led.recs[s].mailbox].file in led.files
  {
    assert RecOK(led, s, led.recs[s]);
    assert MailOK(led, led.recs[s].mailbox, led.mails[led.recs[s].mailbox]);
  }

  /** A mailbox of another file is not among a record's children. */
  lemma NotKept(led: Ledger, s: UUID, recipient: string, m: nat)
    requires RecsOK(led) && s in led.recs && m in led.mails && led.mails[m].file != led.mails[led.recs[s].mailbox].file
    requires led.recs[s].mailbox in led.mails
    ensures !Kept(led.recs[s], recipient, m)
  {
    assert RecOK(led, s, led.recs[s]);
  }

  lemma RevokedHolding(led: Ledger, led': Ledger, i: nat, s: UUID, rec: RecInfo, r: string, mail: MailInfo,
                       rec': RecInfo, home: UUID, s': UUID, m: nat)
    requires MailsBelow(led) && i in led.files && s' != s && s' != home
    requires s' in led.recs ==>
               m == led.recs[s'].mailbox && m in led.mails && led.mails[m].file != i && !Kept(rec, r, m)
    requires led'.files == led.files[i := led.files[i].(key := led.next)]
    requires led'.mails == KeptMails(led, rec, r)[led.next + 2 := mail]
    requires led'.recs == led.recs[s := rec'] - {home}
    ensures SameHolding(led, led', s')
  {
  }

  lemma SameHolder(led: Ledger, led': Ledger, user: UserData, filename: string, i: nat)
    requires HoldsFile(led, user, filename, i) && SameHolding(led, led', AccessUUID(user.username, filename))
    ensures HoldsFile(led', user, filename, i)
  {
  }

  /** The revoker's own new mailbox opens the file. */
  lemma RevokerHolds(led: Ledger, led': Ledger, user: UserData, filename: string, recipient: string, i: nat, s: UUID,
                     rec: RecInfo)
    requires HoldsFile(led, user, filename, i) && s == AccessUUID(user.username, filename) && rec == led.recs[s]
    requires s != UserUUID(user.username) && led' == RevokeLedger(led, user, filename, recipient)
    ensures HoldsFile(led', user, filename, i)
  {
    RevokeShape(led, user, filename, recipient, led', i, s, rec);
  }

  lemma SameRecordHolds(led: Ledger, led': Ledger, caller: UserData, f: string, user: UserData, filename: string,
                        i: nat)
    requires HoldsFile(led, user, filename, i) && CanOpen(led, caller, f) && HoldsFile(led', caller, f, i)
    requires AccessUUID(user.username, filename) == AccessUUID(caller.username, f)
    ensures HoldsFile(led', user, filename, i)
  {
  }

  /** The caller revokes on another file, through another record. */
  lemma RevokeKeepsOther(led: Ledger, caller: UserData, f: string, r: string, user: UserData, filename: string, i: nat,
                         led': Ledger, j: nat, s: UUID, rec: RecInfo, s': UUID, m: nat)
    requires Below(led) && MailsOK(led) && RecsOK(led) && HoldsFile(led, user, filename, i)
    requires CanOpen(led, caller, f) && j != i
    requires led' == RevokeLedger(led, caller, f, r) && j == FileOf(led, caller, f)
    requires s == AccessUUID(caller.username, f) && rec == led.recs[s] && s' == AccessUUID(user.username, filename)
    requires s' != s && s' != UserUUID(caller.username) && m == led.recs[s'].mailbox
    ensures HoldsFile(led', user, filename, i)
  {
    MailsAreBelow(led);
    RevokeShape(led, caller, f, r, led', j, s, rec);
    NotKept(led, s, r, m);
    RevokedHolding(led, led', j, s, rec, r, NewMail(rec, j, led.next, caller.username),
                   rec.(mailbox := led.next + 2, children := rec.children - {r}), UserUUID(caller.username), s', m);
    SameHolder(led, led', user, filename, i);
  }

  lemma RevokeKeepsStale(led: Ledger, caller: UserData, f: string, r: string, user: UserData, filename: string, i: nat,
                         led': Ledger)
    requires RecsOK(led) && HoldsFile(led, user, filename, i) && !CanOpen(led, caller, f)
    requires led' == RevokeLedger(led, caller, f, r)
    ensures HoldsFile(led', user, filename, i)
  {
    RevokeStaleParts(led, caller, f, r, led');
  }

  lemma RevokeKeepsHolder(led: Ledger, caller: UserData, f: string, r: string, user: UserData, filename: string, i: nat)
    requires Below(led) && MailsOK(led) && RecsOK(led) && HoldsFile(led, user, filename, i)
    requires AccessUUID(user.username, filename) != UserUUID(caller.username)
    requires AccessUUID(user.username, filename) == AccessUUID(caller.username, f) || !HoldsFile(led, caller, f, i)
    ensures HoldsFile(RevokeLedger(led, caller, f, r), user, filename, i)
  {
    var s, s', led' :=
      AccessUUID(caller.username, f), AccessUUID(user.username, filename), RevokeLedger(led, caller, f, r);
    if !CanOpen(led, caller, f) {
      RevokeKeepsStale(led, caller, f, r, user, filename, i, led');
    } else if s == s' {
      RevokerHolds(led, led', caller, f, r, i, s, led.recs[s]);
      SameRecordHolds(led, led', caller, f, user, filename, i);
    } else {
      RevokeKeepsOther(led, caller, f, r, user, filename, i, led', FileOf(led, caller, f), s, led.recs[s], s',
                       led.recs[s'].mailbox);
    }
  }

  /** The record may have more children and the file more blocks, but keys and mailboxes are as they were. */
  lemma GrownHolder(led: Ledger, led': Ledger, user: UserData, filename: string, i: nat)
    requires HoldsFile(led, user, filename, i)
    requires forall m | m in led.mails :: m in led'.mails && led'.mails[m] == led.mails[m]
    requires forall j | j in led.files :: j in led'.files && led'.files[j].key == led.files[j].key
    requires var s := AccessUUID(user.username, filename);
             s in led'.recs && led'.recs[s].(children := led.recs[s].children) == led.recs[s]
    ensures HoldsFile(led', user, filename, i)
  {
  }

  /** Exactly when a StoreFile leaves a holder its file. */
  lemma StoreHolderIff(led: Ledger, caller: UserData, f: string, content: seq<byte>, user: UserData, filename: string,
                       i: nat)
    requires Below(led) && HoldsFile(led, user, filename, i)
    ensures HoldsFile(StoreLedger(led, caller, f, content), user, filename, i)
       <==> AccessUUID(user.username, filename) != AccessUUID(caller.username, f)
            && AccessUUID(user.username, filename) != UserUUID(caller.username)
  {
    var led', s := StoreLedger(led, caller, f, content), AccessUUID(user.username, filename);
    StoreParts(led, caller, f, content, led',
               FileInfo(led.next, FreshIds(led.next + 4, |Chunks(content)|), Chunks(content)),
               MailInfo(led.next + 3, led.next + 1, led.next, Stored(caller.username)));
    if s != AccessUUID(caller.username, f) && s != UserUUID(caller.username) {
      GrownHolder(led, led', user, filename, i);
    }
  }

  lemma AppendKeepsHolder(led: Ledger, caller: UserData, f: string, content: seq<byte>, user: UserData,
                          filename: string, i: nat)
    requires HoldsFile(led, user, filename, i)
    ensures HoldsFile(AppendLedger(led, caller, f, content), user, filename, i)
  {
    GrownHolder(led, AppendLedger(led, caller, f, content), user, filename, i);
  }

  lemma InviteKeepsHolder(led: Ledger, caller: UserData, f: string, r: string, user: UserData, filename: string, i: nat)
    requires Below(led) && HoldsFile(led, user, filename, i)
    ensures HoldsFile(InviteLedger(led, caller, f, r), user, filename, i)
  {
    GrownHolder(led, InviteLedger(led, caller, f, r), user, filename, i);
  }

  /** Exactly when a successful AcceptInvitation leaves a holder its file. */
  lemma AcceptHolderIff(led: Ledger, caller: UserData, sender: string, ptr: UUID, f: string, user: UserData,
                        filename: string, i: nat)
    requires HoldsFile(led, user, filename, i) && Acceptable(led, caller, sender, ptr)
    ensures HoldsFile(AcceptLedger(led, caller, sender, ptr, f), user, filename, i)
       <==> && AccessUUID(user.username, filename) != UserUUID(caller.username)
            && (AccessUUID(user.username, filename) == AccessUUID(caller.username, f) ==>
                  && user.master == caller.master && filename == f
                  && Live(led, led.invs[ptr.n].mailbox) && led.mails[led.invs[ptr.n].mailbox].file == i)
  {
    if AccessUUID(user.username, filename) != AccessUUID(caller.username, f)
       && AccessUUID(user.username, filename) != UserUUID(caller.username) {
      GrownHolder(led, AcceptLedger(led, caller, sender, ptr, f), user, filename, i);
    }
  }

  lemma RevokedLive(led: Ledger, caller: UserData, f: string, r: string, m: nat)
    requires Below(led) && MailsOK(led) && RecsOK(led) && CanOpen(led, caller, f)
    requires m in RevokeLedger(led, caller, f, r).mails
    requires RevokeLedger(led, caller, f, r).mails[m].file == FileOf(led, caller, f)
    ensures Live(RevokeLedger(led, caller, f, r), m) <==>
            m == led.next + 2 || Kept(led.recs[AccessUUID(caller.username, f)], r, m)
  {
    if m in led.mails {
      assert MailOK(led, m, led.mails[m]);
    }
    assert RecOK(led, AccessUUID(caller.username, f), led.recs[AccessUUID(caller.username, f)]);
  }

  /** Another holder's record after a revocation. */
  lemma OtherRecord(led: Ledger, led': Ledger, caller: UserData, f: string, r: string, user: UserData,
                    filename: string, i: nat, s: UUID, rec: RecInfo)
    requires CanOpen(led, caller, f) && i == FileOf(led, caller, f) && s == AccessUUID(caller.username, f)
    requires rec == led.recs[s]
    requires led' == RevokeLedger(led, caller, f, r) && Holds(led, user, filename)
    requires AccessUUID(user.username, filename) != s
    requires AccessUUID(user.username, filename) != UserUUID(caller.username)
    ensures Holds(led', user, filename)
    ensures led'.recs[AccessUUID(user.username, filename)] == led.recs[AccessUUID(user.username, filename)]
    ensures i in led'.files && led'.files[i].chunks == led.files[i].chunks
    ensures forall m | m in led.mails && m != led.next + 2 :: m in led'.mails && led'.mails[m].file == led.mails[m].file
  {
    RevokeShape(led, caller, f, r, led', i, s, rec);
  }

  /** Another record's mailbox of the same file, exactly when it is kept. */
  lemma RevokedHolderIff(led: Ledger, caller: UserData, f: string, r: string, user: UserData, filename: string, i: nat)
    requires Below(led) && MailsOK(led) && RecsOK(led) && HoldsFile(led, user, filename, i)
    requires HoldsFile(led, caller, f, i)
    requires AccessUUID(user.username, filename) != AccessUUID(caller.username, f)
    requires AccessUUID(user.username, filename) != UserUUID(caller.username)
    ensures HoldsFile(RevokeLedger(led, caller, f, r), user, filename, i)
       <==> Kept(led.recs[AccessUUID(caller.username, f)], r, led.recs[AccessUUID(user.username, filename)].mailbox)
  {
    var s, m := AccessUUID(caller.username, f), led.recs[AccessUUID(user.username, filename)].mailbox;
    OtherRecord(led, RevokeLedger(led, caller, f, r), caller, f, r, user, filename, i, s, led.recs[s]);
    RevokedLive(led, caller, f, r, m);
  }

  /** Exactly when a successful RevokeAccess leaves a holder its file. */
  lemma RevokeHolderIff(led: Ledger, caller: UserData, f: string, r: string, user: UserData, filename: string, i: nat)
    requires Below(led) && MailsOK(led) && RecsOK(led) && HoldsFile(led, user, filename, i) && CanOpen(led, caller, f)
    ensures HoldsFile(RevokeLedger(led, caller, f, r), user, filename, i)
       <==> && AccessUUID(user.username, filename) != UserUUID(caller.username)
            && (FileOf(led, caller, f) == i && AccessUUID(user.username, filename) != AccessUUID(caller.username, f) ==>
                  Kept(led.recs[AccessUUID(caller.username, f)], r,
                       led.recs[AccessUUID(user.username, filename)].mailbox))
  {
    if AccessUUID(user.username, filename) == UserUUID(caller.username) {
      RevokeShape(led, caller, f, r, RevokeLedger(led, caller, f, r), FileOf(led, caller, f),
                  AccessUUID(caller.username, f), led.recs[AccessUUID(caller.username, f)]);
    } else if FileOf(led, caller, f) == i && AccessUUID(user.username, filename) != AccessUUID(caller.username, f) {
      RevokedHolderIff(led, caller, f, r, user, filename, i);
    } else {
      RevokeKeepsHolder(led, caller, f, r, user, filename, i);
    }
  }

  // ---------- the same on the store ----------

  lemma InodeReached(led: Ledger, st: State, m: nat)
    requires MailsOK(led) && FilesStored(led, st) && m in led.mails
    ensures OpenInode(st, MailboxNode(led.mails[m].fileKey, Random(led.mails[m].file))).Success? <==> Live(led, m)
  {
    if Live(led, m) {
      LiveMailboxOpensInode(led, st, m);
    } else {
      StaleMailboxFails(led, st, m);
    }
  }

  lemma MailboxOpensAt(led: Ledger, st: State, m: nat, access: Access)
    requires MailsStored(led, st) && m in led.mails && access.mailbox == Random(m) && access.key == led.mails[m].key
    ensures OpenMailbox(st, access) == Success(MailboxNode(led.mails[m].fileKey, Random(led.mails[m].file)))
  {
    assert StoredAs(st, Random(m), NodeOf(led.mails[m]));
  }

  lemma MailboxReaches(led: Ledger, st: State, m: nat, access: Access)
    requires MailsOK(led) && MailsStored(led, st) && FilesStored(led, st) && m in led.mails
    requires access.mailbox == Random(m) && access.key == led.mails[m].key
    ensures OpenMailbox(st, access) == Success(MailboxNode(led.mails[m].fileKey, Random(led.mails[m].file)))
    ensures OpenInode(st, MailboxNode(led.mails[m].fileKey, Random(led.mails[m].file))).Success? <==> Live(led, m)
  {
    MailboxOpensAt(led, st, m, access);
    InodeReached(led, st, m);
  }

  lemma InvitationStored(led: Ledger, st: State, n: nat)
    requires InvsOK(led) && InvsStored(led, st) && n in led.invs
    ensures led.invs[n].mailbox in led.mails && Random(n) in st.store && st.store[Random(n)].Signed?
    ensures st.store[Random(n)].invitation
            == Invitation(Random(led.invs[n].mailbox), led.mails[led.invs[n].mailbox].key)
  {
    assert InvOK(led, n, led.invs[n]) && StoredAs(st, Random(n), InvitationOf(led, led.invs[n]));
  }

  lemma InvitationLeads(led: Ledger, st: State, ptr: UUID, i: nat)
    requires MailsOK(led) && MailsStored(led, st) && FilesStored(led, st) && InvsOK(led) && InvsStored(led, st)
    requires ptr.Random? && ptr.n in led.invs
    ensures LeadsTo(st, ptr, Random(i))
            <==> Live(led, led.invs[ptr.n].mailbox) && led.mails[led.invs[ptr.n].mailbox].file == i
  {
    InvitationStored(led, st, ptr.n);
    var m := led.invs[ptr.n].mailbox;
    MailboxReaches(led, st, m, Access(Random(m), led.mails[m].key, map[]));
  }

  lemma KeptMailboxAgrees(led: Ledger, st: State, caller: UserData, f: string, r: string, user: UserData,
                          filename: string)
    requires RecsOK(led) && RecsStored(led, st) && Holds(led, caller, f) && Holds(led, user, filename)
    ensures KeptMailbox(st, caller, f, r, user, filename)
       <==> Kept(led.recs[AccessUUID(caller.username, f)], r, led.recs[AccessUUID(user.username, filename)].mailbox)
  {
    HolderOpensAccess(led, st, caller, f);
    HolderOpensAccess(led, st, user, filename);
    KeptChildAgrees(led, led.recs[AccessUUID(caller.username, f)], r,
                    led.recs[AccessUUID(user.username, filename)].mailbox);
  }

  lemma StoreStepIff(w: World, op: Op, user: UserData, filename: string, i: nat)
    requires op.Store? && HasSession(w, op) && Below(w.led) && HoldsFile(w.led, user, filename, i)
    ensures HoldsFile(LedgerAfter(w, op), user, filename, i) <==> Spares(w, op, user, filename, Random(i))
  {
    StoreHolderIff(w.led, Caller(w, op), op.filename, op.content, user, filename, i);
  }

  lemma AcceptIff(led: Ledger, st: State, caller: UserData, sender: string, ptr: UUID, f: string, user: UserData,
                  filename: string, i: nat)
    requires MailsOK(led) && MailsStored(led, st) && FilesStored(led, st) && InvsOK(led) && InvsStored(led, st)
    requires HoldsFile(led, user, filename, i) && Acceptable(led, caller, sender, ptr)
    ensures HoldsFile(AcceptLedger(led, caller, sender, ptr, f), user, filename, i)
       <==> && AccessUUID(user.username, filename) != UserUUID(caller.username)
            && (AccessUUID(user.username, filename) == AccessUUID(caller.username, f) ==>
                  user.master == caller.master && filename == f && LeadsTo(st, ptr, Random(i)))
  {
    AcceptHolderIff(led, caller, sender, ptr, f, user, filename, i);
    InvitationLeads(led, st, ptr, i);
  }

  /** What an acceptance spares, once it is known to succeed; and the same for a revocation. */
  lemma AcceptSpares(w: World, op: Op, user: UserData, filename: string, i: nat, caller: UserData)
    requires op.Accept? && HasSession(w, op) && caller == Caller(w, op) && Succeeds(w, op)
    ensures Spares(w, op, user, filename, Random(i))
       <==> && AccessUUID(user.username, filename) != UserUUID(caller.username)
            && (AccessUUID(user.username, filename) == AccessUUID(caller.username, op.filename) ==>
                  user.master == caller.master && filename == op.filename && LeadsTo(w.st, op.ptr, Random(i)))
  {
  }

  lemma RevokeSpares(w: World, op: Op, user: UserData, filename: string, i: nat, caller: UserData)
    requires op.Revoke? && HasSession(w, op) && caller == Caller(w, op) && Succeeds(w, op)
    ensures Spares(w, op, user, filename, Random(i))
       <==> && AccessUUID(user.username, filename) != UserUUID(caller.username)
            && (Opened(w.st, caller, op.filename) == Some(Random(i))
                && AccessUUID(user.username, filename) != AccessUUID(caller.username, op.filename) ==>
                  KeptMailbox(w.st, caller, op.filename, op.recipient, user, filename))
  {
  }

  lemma FailureSpares(w: World, op: Op, user: UserData, filename: string, inode: UUID)
    requires !Succeeds(w, op)
    ensures Spares(w, op, user, filename, inode)
  {
  }

  lemma AcceptStepIff(w: World, op: Op, user: UserData, filename: string, i: nat)
    requires Inv(w) && op.Accept? && HasSession(w, op) && HoldsFile(w.led, user, filename, i)
    ensures HoldsFile(LedgerAfter(w, op), user, filename, i) <==> Spares(w, op, user, filename, Random(i))
  {
    AcceptInv(w, op);
    if Succeeds(w, op) {
      AcceptSpares(w, op, user, filename, i, Caller(w, op));
      AcceptIff(w.led, w.st, Caller(w, op), op.sender, op.ptr, op.filename, user, filename, i);
    } else {
      FailureSpares(w, op, user, filename, Random(i));
    }
  }

  lemma RevokeIff(led: Ledger, st: State, caller: UserData, f: string, r: string, user: UserData, filename: string,
                  i: nat)
    requires Below(led) && MailsOK(led) && RecsOK(led) && RecsStored(led, st)
    requires HoldsFile(led, user, filename, i) && CanOpen(led, caller, f)
    requires Opened(st, caller, f) == Some(Random(FileOf(led, caller, f)))
    ensures HoldsFile(RevokeLedger(led, caller, f, r), user, filename, i)
       <==> && AccessUUID(user.username, filename) != UserUUID(caller.username)
            && (Opened(st, caller, f) == Some(Random(i))
                && AccessUUID(user.username, filename) != AccessUUID(caller.username, f) ==>
                  KeptMailbox(st, caller, f, r, user, filename))
  {
    RevokeHolderIff(led, caller, f, r, user, filename, i);
    KeptMailboxAgrees(led, st, caller, f, r, user, filename);
  }

  lemma RevokeStepIff(w: World, op: Op, user: UserData, filename: string, i: nat)
    requires Inv(w) && op.Revoke? && HasSession(w, op) && HoldsFile(w.led, user, filename, i)
    ensures HoldsFile(LedgerAfter(w, op), user, filename, i) <==> Spares(w, op, user, filename, Random(i))
  {
    InvBelow(w);
    RevokeInv(w, op);
    OpenedAgrees(w.led, w.st, Caller(w, op), op.filename);
    if Succeeds(w, op) {
      RevokeSpares(w, op, user, filename, i, Caller(w, op));
      RevokeIff(w.led, w.st, Caller(w, op), op.filename, op.recipient, user, filename, i);
    } else {
      FailureSpares(w, op, user, filename, Random(i));
      RevokeStaleHolder(w.led, Caller(w, op), op.filename, op.recipient, user, filename, i);
    }
  }

  lemma RevokeStaleHolder(led: Ledger, caller: UserData, f: string, r: string, user: UserData, filename: string, i: nat)
    requires RecsOK(led) && HoldsFile(led, user, filename, i) && !CanOpen(led, caller, f)
    ensures HoldsFile(RevokeLedger(led, caller, f, r), user, filename, i)
  {
    RevokeStaleParts(led, caller, f, r, RevokeLedger(led, caller, f, r));
  }

  lemma OtherCallKeeps(w: World, op: Op, user: UserData, filename: string, i: nat)
    requires (op.Append? || op.Invite?) && HasSession(w, op) && Below(w.led) && HoldsFile(w.led, user, filename, i)
    ensures HoldsFile(LedgerAfter(w, op), user, filename, i)
  {
    if op.Invite? {
      InviteKeepsHolder(w.led, Caller(w, op), op.filename, op.recipient, user, filename, i);
    } else if op.data.Some? {
      AppendKeepsHolder(w.led, Caller(w, op), op.filename, op.data.value, user, filename, i);
    }
  }

  lemma OtherSpares(w: World, op: Op, user: UserData, filename: string, inode: UUID)
    requires op.Append? || op.Invite? || !IsCall(op) || !HasSession(w, op)
    ensures Spares(w, op, user, filename, inode)
  {
  }

  /** Registration, login and interleavings. */
  lemma NonCallKeeps(w: World, op: Op, user: UserData, filename: string, i: nat)
    requires Inv(w) && !IsCall(op) && HoldsFile(w.led, user, filename, i)
    ensures HoldsFile(Step(w, op).led, user, filename, i)
  {
    if op.Interleave? {
      InterleaveInv(w, op);
      GrownHolder(w.led, Step(w, op).led, user, filename, i);
    } else {
      UserKeepsHolder(w, op, user, filename, i);
    }
  }

  lemma UserKeepsHolder(w: World, op: Op, user: UserData, filename: string, i: nat)
    requires (op.Register? || op.Login?) && HoldsFile(w.led, user, filename, i)
    ensures HoldsFile(Step(w, op).led, user, filename, i)
  {
  }

  lemma CallIff(w: World, op: Op, user: UserData, filename: string, i: nat)
    requires Inv(w) && HasSession(w, op) && IsCall(op) && HoldsFile(w.led, user, filename, i)
    ensures HoldsFile(LedgerAfter(w, op), user, filename, i) <==> Spares(w, op, user, filename, Random(i))
  {
    InvBelow(w);
    if op.Store? {
      StoreStepIff(w, op, user, filename, i);
    } else if op.Accept? {
      AcceptStepIff(w, op, user, filename, i);
    } else if op.Revoke? {
      RevokeStepIff(w, op, user, filename, i);
    } else {
      OtherCallKeeps(w, op, user, filename, i);
      OtherSpares(w, op, user, filename, Random(i));
    }
  }

  lemma HolderIff(w: World, op: Op, user: UserData, filename: string, i: nat)
    requires Inv(w) && HoldsFile(w.led, user, filename, i)
    ensures HoldsFile(Step(w, op).led, user, filename, i) <==> Spares(w, op, user, filename, Random(i))
  {
    if IsCall(op) && HasSession(w, op) {
      CallIff(w, op, user, filename, i);
      CallStep(w, op);
    } else {
      OtherSpares(w, op, user, filename, Random(i));
      if !IsCall(op) {
        NonCallKeeps(w, op, user, filename, i);
      }
    }
  }

  lemma OpenedIsHeld(led: Ledger, st: State, user: UserData, filename: string, i: nat)
    requires WellFormed(led) && Represents(led, st)
    ensures Opened(st, user, filename) == Some(Random(i)) <==> HoldsFile(led, user, filename, i)
  {
    OpenedAgrees(led, st, user, filename);
  }

  /** A user who reaches an inode reaches it after a step if and only if the step spares it. */
  lemma KeepsAccessIff(w: World, op: Op, user: UserData, filename: string, inode: UUID)
    requires Inv(w) && Opened(w.st, user, filename) == Some(inode)
    ensures Opened(Step(w, op).st, user, filename) == Some(inode) <==> Spares(w, op, user, filename, inode)
  {
    OpenedAgrees(w.led, w.st, user, filename);
    StepInv(w, op);
    OpenedIsHeld(w.led, w.st, user, filename, inode.n);
    OpenedIsHeld(Step(w, op).led, Step(w, op).st, user, filename, inode.n);
    HolderIff(w, op, user, filename, inode.n);
  }

  lemma {:induction false} RunKeepsHolder(w: World, ops: seq<Op>, user: UserData, filename: string, inode: UUID)
    requires Inv(w) && Opened(w.st, user, filename) == Some(inode) && AllSpare(w, ops, user, filename, inode)
    ensures Opened(Run(w, ops).st, user, filename) == Some(inode)
    decreases |ops|
  {
    if ops != [] {
      StepInv(w, ops[0]);
      KeepsAccessIff(w, ops[0], user, filename, inode);
      RunKeepsHolder(Step(w, ops[0]), ops[1..], user, filename, inode);
    }
  }

  /**
   A user who can load a file keeps loading it, with every append included, through any run that spares its
   access: through appends, loads and invitations of anybody, and through every revocation on the file that
   keeps the user as a direct child.
   */
  lemma HolderKeepsAccess(w: World, user: UserData, filename: string, before: seq<byte>, inode: UUID, later: seq<Op>)
    requires Inv(w) && LoadFile(w.st, user, filename) == Success(before) && Opened(w.st, user, filename) == Some(inode)
    requires AllSpare(w, later, user, filename, inode)
    ensures Opened(Run(w, later).st, user, filename) == Some(inode)
    ensures LoadFile(Run(w, later).st, user, filename) == Success(before + Added(w, later, inode))
  {
    RunKeepsHolder(w, later, user, filename, inode);
    SharedFileLaw(w, user, filename, before, later, user, filename);
  }

  /** The one file name whose record shares its UUID with the user record itself. */
  lemma CollidesWithSelf(username: string, filename: string)
    ensures AccessUUID(username, filename) == UserUUID(username) <==> filename == "userStruct"
  {
    var s, t := username + filename, username + "userStruct";
    if s == t {
      assert s[|username|..] == filename && t[|username|..] == "userStruct";
    }
  }

  lemma StoredIsHeld(led: Ledger, user: UserData, filename: string, content: seq<byte>, led': Ledger)
    requires led' == StoreLedger(led, user, filename, content)
    ensures CanOpen(led', user, filename) <==> filename != "userStruct"
    ensures CanOpen(led', user, filename) ==> Flatten(led'.files[FileOf(led', user, filename)].chunks) == content
  {
    CollidesWithSelf(user.username, filename);
    FlattenChunks(content);
  }

  /** StoreFile then LoadFile gives the content back, for every file name but that one. */
  lemma StoreThenLoad(w: World, op: Op)
    requires Inv(w)
    requires op.Store? && HasSession(w, op)
    ensures if op.filename != "userStruct" then
              LoadFile(Step(w, op).st, Caller(w, op), op.filename) == Success(op.content)
            else LoadFile(Step(w, op).st, Caller(w, op), op.filename).Failure?
  {
    StepInv(w, op);
    StoredIsHeld(w.led, Caller(w, op), op.filename, op.content, Step(w, op).led);
    LoadFileReads(Step(w, op).led, Step(w, op).st, Caller(w, op), op.filename);
  }

  /** The storer's guarantee: its file is its content plus every append, through any run that spares its access. */
  lemma StorerKeepsReading(w: World, op: Op, caller: UserData, inode: UUID, later: seq<Op>)
    requires Inv(w) && op.Store? && HasSession(w, op) && op.filename != "userStruct" && caller == Caller(w, op)
    requires Opened(Step(w, op).st, caller, op.filename) == Some(inode)
    requires AllSpare(Step(w, op), later, caller, op.filename, inode)
    ensures LoadFile(Run(Step(w, op), later).st, caller, op.filename)
         == Success(op.content + Added(Step(w, op), later, inode))
  {
    StepInv(w, op);
    StoreThenLoad(w, op);
    HolderKeepsAccess(Step(w, op), caller, op.filename, op.content, inode, later);
  }

  // ---------- accounting ----------

  /** The recorded size is the length of what is loaded, and every block holds 1 to 512 bytes. */
  lemma InodeAccounting(w: World, user: UserData, filename: string, data: seq<byte>)
    requires Inv(w)
    requires LoadFile(w.st, user, filename) == Success(data)
    ensures var st := w.st;
            && OpenNode(st, user, filename).Success?
            && OpenInode(st, OpenNode(st, user, filename).value).Success?
            && var node := OpenNode(st, user, filename).value;
               var inode := OpenInode(st, node).value;
               && inode.size == |data|
               && (forall j, k :: 0 <= j < k < |inode.blocks| ==> inode.blocks[j] != inode.blocks[k])
               && forall j :: 0 <= j < |inode.blocks| ==>
                    inode.blocks[j] in st.store && st.store[inode.blocks[j]].Sealed?
                      && st.store[inode.blocks[j]].plain.BlockRec?
                    && 1 <= |st.store[inode.blocks[j]].plain.data| <= 512
  {
    LoadFileReads(w.led, w.st, user, filename);
    LiveHolderOpens(w.led, w.st, user, filename);
    BlocksAccounted(w.led, w.st, FileOf(w.led, user, filename));
  }

  lemma BlocksAccounted(led: Ledger, st: State, i: nat)
    requires FilesOK(led) && BlocksStored(led, st) && i in led.files
    ensures Distinct(led.files[i].blocks)
    ensures forall j :: 0 <= j < |led.files[i].blocks| ==>
              var u := led.files[i].blocks[j];
              u in st.store && st.store[u].Sealed? && st.store[u].plain.BlockRec?
                && 1 <= |st.store[u].plain.data| <= BLOCK_SIZE
  {
    var file := led.files[i];
    BlocksDistinct(led, i);
    assert FileOK(led, i, file) && FileBlocksStored(st, file);
    forall j | 0 <= j < |file.blocks|
      ensures file.blocks[j] in st.store && st.store[file.blocks[j]].Sealed? && st.store[file.blocks[j]].plain.BlockRec?
      ensures 1 <= |st.store[file.blocks[j]].plain.data| <= BLOCK_SIZE
    {
      assert StoredAs(st, file.blocks[j], Sealed(FileKey(file.key), BlockRec(file.chunks[j])));
    }
  }

  // ---------- views ----------

  /** What a user can load under a name. */
  function View(st: State, user: UserData, filename: string): Option<seq<byte>> {
    var r := LoadFile(st, user, filename);
    if r.Success? then Some(r.value) else None
  }

  ghost function LedgerView(led: Ledger, user: UserData, filename: string): Option<seq<byte>> {
    if CanOpen(led, user, filename) then Some(Flatten(led.files[FileOf(led, user, filename)].chunks)) else None
  }

  lemma ViewAgrees(led: Ledger, st: State, user: UserData, filename: string)
    requires WellFormed(led) && Represents(led, st)
    ensures View(st, user, filename) == LedgerView(led, user, filename)
  {
    LoadFileReads(led, st, user, filename);
  }

  /** The payload under `ptr` is an invitation signed by the sender and encrypted to the user. */
  predicate Addressed(st: State, user: UserData, sender: string, ptr: UUID) {
    && ptr in st.store && st.store[ptr].Signed? && st.store[ptr].to == user.pke
    && SigName(sender) in st.keys && st.keys[SigName(sender)] == DSPublic(st.store[ptr].signer)
  }

  /** Why an operation fails, in terms of what can be opened in the store. */
  predicate Refused(w: World, op: Op)
    requires HasSession(w, op) && IsCall(op)
  {
    var user := Caller(w, op);
    match op
    case Store(_, _, _) => false
    case Append(_, f, data) => data.None? || Opened(w.st, user, f).None?
    case Invite(_, f, r) => OpenAccess(w.st, user, f).Failure? || EncName(r) !in w.st.keys
    case Accept(_, sender, ptr, _) => !Addressed(w.st, user, sender, ptr)
    case Revoke(_, f, _) => Opened(w.st, user, f).None?
  }

  /** The same in terms of the ledger. */
  ghost predicate RefusedInLedger(w: World, op: Op)
    requires HasSession(w, op) && IsCall(op)
  {
    var user := Caller(w, op);
    match op
    case Store(_, _, _) => false
    case Append(_, f, data) => data.None? || !CanOpen(w.led, user, f)
    case Invite(_, f, r) => !Holds(w.led, user, f) || r !in w.led.accounts
    case Accept(_, sender, ptr, _) => !Acceptable(w.led, user, sender, ptr)
    case Revoke(_, f, _) => !CanOpen(w.led, user, f)
  }

  lemma FailsIffRefusedInLedger(w: World, op: Op)
    requires Inv(w) && HasSession(w, op) && IsCall(op)
    ensures !Succeeds(w, op) <==> RefusedInLedger(w, op)
  {
    match op
    case Store(_, _, _) => StoreInv(w, op);
    case Append(_, _, _) => AppendInv(w, op);
    case Invite(_, _, _) => InviteInv(w, op);
    case Accept(_, _, _, _) => AcceptInv(w, op);
    case Revoke(_, _, _) => RevokeInv(w, op);
  }

  lemma OpensIffHolds(led: Ledger, st: State, user: UserData, filename: string)
    requires RecsOK(led) && RecsStored(led, st) && NamedStored(led, st)
    ensures OpenAccess(st, user, filename).Success? <==> Holds(led, user, filename)
  {
    if Holds(led, user, filename) {
      HolderOpensAccess(led, st, user, filename);
    } else {
      NonHolderFails(led, st, user, filename);
    }
  }

  lemma AcceptsIffAddressed(st: State, user: UserData, sender: string, ptr: UUID, filename: string)
    ensures AcceptInvitation(st, user, sender, ptr, filename).res.Success? <==> Addressed(st, user, sender, ptr)
  {
  }

  /**
   An operation fails for exactly these reasons: a chain of the caller's that does not open, a name that is
   not registered, or a payload that is not an invitation of that sender to the caller.
   */
  lemma FailsIffRefused(w: World, op: Op)
    requires Inv(w) && HasSession(w, op) && IsCall(op)
    ensures !Succeeds(w, op) <==> Refused(w, op)
  {
    FailsIffRefusedInLedger(w, op);
    match op
    case Store(_, _, _) =>
    case Append(_, f, _) => OpenedAgrees(w.led, w.st, Caller(w, op), f);
    case Invite(_, f, _) => OpensIffHolds(w.led, w.st, Caller(w, op), f);
    case Accept(_, sender, ptr, f) => AcceptsIffAddressed(w.st, Caller(w, op), sender, ptr, f);
    case Revoke(_, f, _) => OpenedAgrees(w.led, w.st, Caller(w, op), f);
  }

  /** The ledger after a failed operation: at most an unused mailbox more. */
  lemma RefusedLedger(w: World, op: Op)
    requires Below(w.led) && HasSession(w, op) && IsCall(op) && RefusedInLedger(w, op)
    ensures LedgerAfter(w, op).recs == w.led.recs && LedgerAfter(w, op).files == w.led.files
    ensures forall m | m in w.led.mails ::
              m in LedgerAfter(w, op).mails && LedgerAfter(w, op).mails[m] == w.led.mails[m]
  {
  }

  lemma SameView(led: Ledger, led': Ledger, user: UserData, filename: string)
    requires RecsOK(led) && led'.recs == led.recs && led'.files == led.files
    requires forall m | m in led.mails :: m in led'.mails && led'.mails[m] == led.mails[m]
    ensures LedgerView(led', user, filename) == LedgerView(led, user, filename)
  {
    var s := AccessUUID(user.username, filename);
    if s in led.recs {
      assert RecOK(led, s, led.recs[s]);
    }
  }

  /** No partial failure: an operation that returns an error changes nobody's view of any file. */
  lemma FailureChangesNoView(w: World, op: Op, user: UserData, filename: string)
    requires Inv(w)
    requires !Succeeds(w, op)
    ensures View(Step(w, op).st, user, filename) == View(w.st, user, filename)
  {
    StepInv(w, op);
    if HasSession(w, op) && IsCall(op) {
      FailsIffRefusedInLedger(w, op);
      InvBelow(w);
      RefusedLedger(w, op);
      SameView(w.led, LedgerAfter(w, op), user, filename);
    }
    ViewAgrees(w.led, w.st, user, filename);
    ViewAgrees(Step(w, op).led, Step(w, op).st, user, filename);
  }

  lemma FailedAppendSame(led: Ledger, st: State, user: UserData, filename: string, data: Option<seq<byte>>)
    requires WellFormed(led) && Represents(led, st) && (data.None? || !CanOpen(led, user, filename))
    ensures AppendToFile(st, user, filename, data).st.store == st.store
  {
    AppendFails(led, st, user, filename, data);
  }

  lemma FailedRevokeSame(led: Ledger, st: State, user: UserData, filename: string, recipient: string)
    requires WellFormed(led) && Represents(led, st) && !CanOpen(led, user, filename)
    ensures RevokeAccess(st, user, filename, recipient).st.store == st.store
  {
    if Holds(led, user, filename) {
      RevokeStale(led, st, user, filename, recipient, RevokeAccess(st, user, filename, recipient));
    } else {
      RevokeNonHolder(led, st, user, filename, recipient, RevokeAccess(st, user, filename, recipient));
    }
  }

  /** A failed append writes nothing at all; a failed revocation writes nothing either. */
  lemma FailureWritesNothing(w: World, op: Op)
    requires Inv(w) && (op.Append? || op.Revoke?) && !Succeeds(w, op)
    ensures Step(w, op).st.store == w.st.store
  {
    if HasSession(w, op) {
      FailsIffRefusedInLedger(w, op);
      CallStep(w, op);
      if op.Append? {
        FailedAppendSame(w.led, w.st, Caller(w, op), op.filename, op.data);
      } else {
        FailedRevokeSame(w.led, w.st, Caller(w, op), op.filename, op.recipient);
      }
    }
  }
}
