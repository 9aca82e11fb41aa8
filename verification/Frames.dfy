/** What an operation can change for others, and exactly whom a revocation leaves on the file. */
module Frames {
  import opened Wrappers
  import opened Blocks
  import opened Records
  import opened Protocol
  import opened Ledgers
  import opened LedgerSteps
  import opened Refinement
  import opened RefineUsers
  import opened RefineRevoke
  import opened Sharing
  import opened Simulation
  import opened Runs
  import opened Guarantees
  import opened Stability

  /** The hashed UUIDs an operation may give to another record. */
  predicate Overwrites(w: World, op: Op, s: UUID)
    requires HasSession(w, op) && IsCall(op)
  {
    !op.Append? && !op.Invite? &&
    (s == AccessUUID(Caller(w, op).username, op.filename) || s == UserUUID(Caller(w, op).username))
  }

  /** The inode a user's mailbox names, whether or not its key is current. */
  function InodeNamed(st: State, user: UserData, filename: string): Option<UUID> {
    var node := OpenNode(st, user, filename);
    if node.Success? then Some(node.value.inode) else None
  }

  ghost function FileNamed(led: Ledger, user: UserData, filename: string): Option<nat> {
    var s := AccessUUID(user.username, filename);
    if Holds(led, user, filename) && led.recs[s].mailbox in led.mails then Some(led.mails[led.recs[s].mailbox].file)
      else None
  }

  lemma NamedAgrees(led: Ledger, st: State, user: UserData, filename: string)
    requires WellFormed(led) && Represents(led, st)
    ensures InodeNamed(st, user, filename)
         == if FileNamed(led, user, filename).Some? then Some(Random(FileNamed(led, user, filename).value)) else None
  {
    if Holds(led, user, filename) {
      HolderOpensAccess(led, st, user, filename);
      RecordOpensMailbox(led, st, led.recs[AccessUUID(user.username, filename)]);
    } else {
      NonHolderFails(led, st, user, filename);
    }
  }

  ghost predicate Bystands(w: World, op: Op, user: UserData, filename: string)
    requires HasSession(w, op) && IsCall(op)
  {
    && !Overwrites(w, op, AccessUUID(user.username, filename))
    && (op.Append? || op.Revoke? ==>
          Opened(w.st, Caller(w, op), op.filename).Some? ==>
            InodeNamed(w.st, user, filename) != Opened(w.st, Caller(w, op), op.filename))
  }

  lemma RevokeHolderFrame(led: Ledger, caller: UserData, f: string, r: string, user: UserData, filename: string,
                          led': Ledger, i: nat, s: UUID, rec: RecInfo, s': UUID, m: nat)
    requires Below(led) && MailsOK(led) && RecsOK(led) && CanOpen(led, caller, f) && Holds(led, user, filename)
    requires led' == RevokeLedger(led, caller, f, r) && i == FileOf(led, caller, f)
    requires FileNamed(led, user, filename) != Some(i)
    requires s == AccessUUID(caller.username, f) && rec == led.recs[s] && s' == AccessUUID(user.username, filename)
    requires s' != s && s' != UserUUID(caller.username) && m == led.recs[s'].mailbox
    ensures LedgerView(led', user, filename) == LedgerView(led, user, filename)
  {
    MailsAreBelow(led);
    RecordMailboxKnown(led, s');
    RevokeShape(led, caller, f, r, led', i, s, rec);
    NotKept(led, s, r, m);
    RevokedHolding(led, led', i, s, rec, r, NewMail(rec, i, led.next, caller.username),
                   rec.(mailbox := led.next + 2, children := rec.children - {r}), UserUUID(caller.username), s', m);
    HoldingKept(led, led', user, filename);
  }

  lemma RevokeFrame(led: Ledger, caller: UserData, f: string, r: string, user: UserData, filename: string)
    requires Below(led) && MailsOK(led) && RecsOK(led)
    requires AccessUUID(user.username, filename) != AccessUUID(caller.username, f)
    requires AccessUUID(user.username, filename) != UserUUID(caller.username)
    requires CanOpen(led, caller, f) ==> FileNamed(led, user, filename) != Some(FileOf(led, caller, f))
    ensures LedgerView(RevokeLedger(led, caller, f, r), user, filename) == LedgerView(led, user, filename)
  {
    var s, s', led' :=
      AccessUUID(caller.username, f), AccessUUID(user.username, filename), RevokeLedger(led, caller, f, r);
    if !CanOpen(led, caller, f) {
      RevokeStaleParts(led, caller, f, r, led');
      StaleView(led, led', user, filename);
    } else if Holds(led, user, filename) {
      RevokeHolderFrame(led, caller, f, r, user, filename, led', FileOf(led, caller, f), s, led.recs[s], s',
                        led.recs[s'].mailbox);
    } else {
      RevokeLeavesRecord(led, caller, f, r, led', s');
      NonHolderStays(led, led', user, filename);
    }
  }

  lemma RevokeLeavesRecord(led: Ledger, caller: UserData, f: string, r: string, led': Ledger, s: UUID)
    requires CanOpen(led, caller, f) && led' == RevokeLedger(led, caller, f, r)
    requires s != AccessUUID(caller.username, f) && s != UserUUID(caller.username)
    ensures (s in led'.recs <==> s in led.recs) && (s in led.recs ==> led'.recs[s] == led.recs[s])
  {
    var s0 := AccessUUID(caller.username, f);
    RevokeShape(led, caller, f, r, led', FileOf(led, caller, f), s0, led.recs[s0]);
  }

  lemma NonHolderStays(led: Ledger, led': Ledger, user: UserData, filename: string)
    requires !Holds(led, user, filename)
    requires var s := AccessUUID(user.username, filename);
             (s in led'.recs <==> s in led.recs) && (s in led.recs ==> led'.recs[s] == led.recs[s])
    ensures LedgerView(led', user, filename) == LedgerView(led, user, filename)
  {
  }

  lemma StaleView(led: Ledger, led': Ledger, user: UserData, filename: string)
    requires led'.files == led.files && led'.mails == led.mails && led'.recs == led.recs
    ensures LedgerView(led', user, filename) == LedgerView(led, user, filename)
  {
  }

  lemma AppendFrame(led: Ledger, caller: UserData, f: string, content: seq<byte>, user: UserData, filename: string)
    requires MailsOK(led) && RecsOK(led)
    requires CanOpen(led, caller, f) ==> FileNamed(led, user, filename) != Some(FileOf(led, caller, f))
    ensures LedgerView(AppendLedger(led, caller, f, content), user, filename) == LedgerView(led, user, filename)
  {
    if CanOpen(led, caller, f) {
      var led', i := AppendLedger(led, caller, f, content), FileOf(led, caller, f);
      var info := FileInfo(led.files[i].key, led.files[i].blocks + FreshIds(led.next, |Chunks(content)|),
                           led.files[i].chunks + Chunks(content));
      AppendParts(led, caller, f, content, led', i, info);
      if Holds(led, user, filename) {
        RecordMailboxKnown(led, AccessUUID(user.username, filename));
        HoldingKept(led, led', user, filename);
      } else {
        NonHolderStays(led, led', user, filename);
      }
    }
  }

  /** The record is as it was, but for its children. */
  ghost predicate SameRecord(led: Ledger, led': Ledger, s: UUID) {
    && (s in led'.recs <==> s in led.recs)
    && (s in led.recs ==> led'.recs[s].(children := led.recs[s].children) == led.recs[s])
  }

  /** Every mailbox and every file is as it was. */
  ghost predicate OnlyMore(led: Ledger, led': Ledger) {
    && (forall m | m in led.mails :: m in led'.mails && led'.mails[m] == led.mails[m])
    && forall i | i in led.files :: i in led'.files && led'.files[i] == led.files[i]
  }

  /** A new mailbox or a new file disturbs nobody. */
  lemma GrownHolding(led: Ledger, led': Ledger, user: UserData, filename: string)
    requires MailsOK(led) && RecsOK(led)
    requires OnlyMore(led, led') && SameRecord(led, led', AccessUUID(user.username, filename))
    ensures LedgerView(led', user, filename) == LedgerView(led, user, filename)
  {
    var s := AccessUUID(user.username, filename);
    if s in led.recs {
      RecordMailboxKnown(led, s);
    }
  }

  lemma StoreSameRecord(led: Ledger, caller: UserData, f: string, content: seq<byte>, s: UUID)
    requires s != AccessUUID(caller.username, f) && s != UserUUID(caller.username)
    ensures SameRecord(led, StoreLedger(led, caller, f, content), s)
  {
  }

  lemma StoreOnlyMore(led: Ledger, caller: UserData, f: string, content: seq<byte>)
    requires Below(led)
    ensures OnlyMore(led, StoreLedger(led, caller, f, content))
  {
  }

  lemma StoreFrame(led: Ledger, caller: UserData, f: string, content: seq<byte>, user: UserData, filename: string)
    requires Below(led) && MailsOK(led) && RecsOK(led)
    requires AccessUUID(user.username, filename) != AccessUUID(caller.username, f)
    requires AccessUUID(user.username, filename) != UserUUID(caller.username)
    ensures LedgerView(StoreLedger(led, caller, f, content), user, filename) == LedgerView(led, user, filename)
  {
    StoreSameRecord(led, caller, f, content, AccessUUID(user.username, filename));
    StoreOnlyMore(led, caller, f, content);
    GrownHolding(led, StoreLedger(led, caller, f, content), user, filename);
  }

  lemma InviteOnlyMore(led: Ledger, caller: UserData, f: string, r: string, s: UUID)
    requires Below(led)
    ensures SameRecord(led, InviteLedger(led, caller, f, r), s) && OnlyMore(led, InviteLedger(led, caller, f, r))
  {
  }

  lemma InviteFrame(led: Ledger, caller: UserData, f: string, r: string, user: UserData, filename: string)
    requires Below(led) && MailsOK(led) && RecsOK(led)
    ensures LedgerView(InviteLedger(led, caller, f, r), user, filename) == LedgerView(led, user, filename)
  {
    InviteOnlyMore(led, caller, f, r, AccessUUID(user.username, filename));
    GrownHolding(led, InviteLedger(led, caller, f, r), user, filename);
  }

  lemma AcceptedOthers(led: Ledger, caller: UserData, sender: string, ptr: UUID, f: string, led': Ledger, s: UUID)
    requires led' == AcceptLedger(led, caller, sender, ptr, f) && s != AccessUUID(caller.username, f)
    requires s != UserUUID(caller.username)
    ensures SameRecord(led, led', s) && OnlyMore(led, led')
  {
  }

  lemma AcceptFrame(led: Ledger, caller: UserData, sender: string, ptr: UUID, f: string, user: UserData,
                    filename: string)
    requires MailsOK(led) && RecsOK(led)
    requires AccessUUID(user.username, filename) != AccessUUID(caller.username, f)
    requires AccessUUID(user.username, filename) != UserUUID(caller.username)
    ensures LedgerView(AcceptLedger(led, caller, sender, ptr, f), user, filename) == LedgerView(led, user, filename)
  {
    AcceptedOthers(led, caller, sender, ptr, f, AcceptLedger(led, caller, sender, ptr, f),
                   AccessUUID(user.username, filename));
    GrownHolding(led, AcceptLedger(led, caller, sender, ptr, f), user, filename);
  }

  lemma OtherFrames(w: World, op: Op, user: UserData, filename: string)
    requires HasSession(w, op) && (op.Store? || op.Accept? || op.Invite?)
    requires Below(w.led) && MailsOK(w.led) && RecsOK(w.led)
    requires !Overwrites(w, op, AccessUUID(user.username, filename))
    ensures LedgerView(LedgerAfter(w, op), user, filename) == LedgerView(w.led, user, filename)
  {
    match op
    case Store(_, f, content) => StoreFrame(w.led, Caller(w, op), f, content, user, filename);
    case Invite(_, f, r) => InviteFrame(w.led, Caller(w, op), f, r, user, filename);
    case Accept(_, sender, ptr, f) => AcceptFrame(w.led, Caller(w, op), sender, ptr, f, user, filename);
  }

  lemma LedgerFrame(w: World, op: Op, user: UserData, filename: string)
    requires Inv(w) && HasSession(w, op) && IsCall(op) && Bystands(w, op, user, filename)
    ensures LedgerView(LedgerAfter(w, op), user, filename) == LedgerView(w.led, user, filename)
  {
    InvBelow(w);
    if op.Append? || op.Revoke? {
      NamedAgrees(w.led, w.st, user, filename);
      OpenedAgrees(w.led, w.st, Caller(w, op), op.filename);
      if op.Append? && op.data.Some? {
        AppendFrame(w.led, Caller(w, op), op.filename, op.data.value, user, filename);
      } else if op.Revoke? {
        RevokeFrame(w.led, Caller(w, op), op.filename, op.recipient, user, filename);
      }
    } else {
      OtherFrames(w, op, user, filename);
    }
  }

  /**
   Frame: an operation changes what another (user, file) pair can load only by overwriting that pair's
   record or by working on the file its mailbox names.  In particular a StoreFile over a shared name leaves
   all former sharees with the old content.
   */
  lemma BystandersUnaffected(w: World, op: Op, user: UserData, filename: string)
    requires Inv(w)
    requires HasSession(w, op) && IsCall(op)
    requires Bystands(w, op, user, filename)
    ensures View(Step(w, op).st, user, filename) == View(w.st, user, filename)
  {
    StepInv(w, op);
    LedgerFrame(w, op, user, filename);
    ViewAgrees(w.led, w.st, user, filename);
    ViewAgrees(Step(w, op).led, Step(w, op).st, user, filename);
  }

  lemma OverwrittenIsLost(led: Ledger, caller: UserData, f: string, content: seq<byte>, user: UserData,
                          filename: string)
    requires AccessUUID(user.username, filename) == AccessUUID(caller.username, f)
          || AccessUUID(user.username, filename) == UserUUID(caller.username)
    requires user.master != caller.master || filename != f
    ensures LedgerView(StoreLedger(led, caller, f, content), user, filename) == None
  {
  }

  /**
   Exactly when a StoreFile spares another pair that can load its file: when the concatenation of that
   pair's names is neither the caller's user and file name nor the caller's user name and "userStruct".
   */
  lemma StoreSparesIff(w: World, op: Op, user: UserData, filename: string)
    requires Inv(w)
    requires op.Store? && HasSession(w, op)
    requires View(w.st, user, filename).Some?
    requires user.master != Caller(w, op).master || filename != op.filename
    ensures View(Step(w, op).st, user, filename) == View(w.st, user, filename)
       <==> user.username + filename != Caller(w, op).username + op.filename
            && user.username + filename != Caller(w, op).username + "userStruct"
  {
    if Overwrites(w, op, AccessUUID(user.username, filename)) {
      StepInv(w, op);
      OverwrittenIsLost(w.led, Caller(w, op), op.filename, op.content, user, filename);
      ViewAgrees(Step(w, op).led, Step(w, op).st, user, filename);
    } else {
      BystandersUnaffected(w, op, user, filename);
    }
  }

  /** Two users, two file names, one UUID. */
  lemma CollisionExists()
    ensures AccessUUID("al", "icenotes") == AccessUUID("alice", "notes")
    ensures AccessUUID("al", "iceuserStruct") == UserUUID("alice")
  {
    assert "al" + "icenotes" == "alice" + "notes";
    assert "al" + "iceuserStruct" == "alice" + "userStruct";
  }

  // ---------- logging in ----------

  /** The user's UUID holds a user record. */
  predicate HomeIsOwn(st: State, username: string) {
    UserUUID(username) in st.store && st.store[UserUUID(username)].Sealed?
      && st.store[UserUUID(username)].plain.UserRec?
  }

  lemma HomeIsOwnIff(led: Ledger, st: State, username: string)
    requires AccountsOK(led) && RecsStored(led, st) && NamedStored(led, st) && username in led.accounts
    ensures HomeIsOwn(st, username) <==> UserUUID(username) !in led.recs
  {
    var u := UserUUID(username);
    if u in led.recs {
      assert StoredAs(st, u, Sealed(PersonalKey(led.recs[u].master, led.recs[u].filename),
                                    AccessRec(AccessOf(led, led.recs[u]))));
    } else {
      HomeHolds(led, st, username);
    }
  }

  lemma RegisteredAccount(w: World, op: Op)
    requires Inv(w) && op.Register? && Succeeds(w, op)
    ensures op.username in Step(w, op).led.accounts
    ensures Step(w, op).led.accounts[op.username].master == Master(op.username, op.password)
  {
  }

  lemma AccountLogsIn(led: Ledger, st: State, username: string, password: string)
    requires AccountsOK(led) && RecsStored(led, st) && NamedStored(led, st) && username in led.accounts
    ensures GetUser(st, username, password).Success?
       <==> led.accounts[username].master == Master(username, password) && HomeIsOwn(st, username)
  {
    GetUserRefines(led, st, username, password);
    HomeIsOwnIff(led, st, username);
  }

  lemma LoginSucceeds(w: World, username: string, password: string)
    ensures Succeeds(w, Login(username, password)) <==> GetUser(w.st, username, password).Success?
  {
  }

  /**
   When a login succeeds.  After any run a registered user logs in with exactly the password of the registration,
   and only while the user's UUID holds a user record.
   */
  lemma LoginIff(w: World, op: Op, later: seq<Op>, password: string, w': World)
    requires Inv(w) && op.Register? && Succeeds(w, op) && w' == Run(Step(w, op), later)
    ensures Succeeds(w', Login(op.username, password)) <==> password == op.password && HomeIsOwn(w'.st, op.username)
  {
    RegisteredAccount(w, op);
    StepInv(w, op);
    RunInv(Step(w, op), later);
    RunGrows(Step(w, op), later);
    AccountLogsIn(w'.led, w'.st, op.username, password);
    LoginSucceeds(w', op.username, password);
  }

  lemma StoreTakesHome(led: Ledger, user: UserData, filename: string, content: seq<byte>, username: string)
    requires user.username != username && AccessUUID(user.username, filename) == UserUUID(username)
    ensures UserUUID(username) in StoreLedger(led, user, filename, content).recs
  {
    HomesApart(user.username, username);
  }

  lemma TakenHomeIsShut(w: World, username: string, password: string)
    requires Inv(w) && UserUUID(username) in w.led.recs
    ensures !Succeeds(w, Login(username, password))
  {
    GetUserRefines(w.led, w.st, username, password);
  }

  /** A StoreFile whose two names together are another user's name and "userStruct" locks that user out. */
  lemma StoreLocksOut(w: World, op: Op, username: string, password: string)
    requires Inv(w) && op.Store? && HasSession(w, op) && Caller(w, op).username != username
    requires Caller(w, op).username + op.filename == username + "userStruct"
    ensures !Succeeds(Step(w, op), Login(username, password))
  {
    StepInv(w, op);
    CallStep(w, op);
    StoreTakesHome(w.led, Caller(w, op), op.filename, op.content, username);
    TakenHomeIsShut(Step(w, op), username, password);
  }

  // ---------- exactly who is left after a revocation ----------

  /** Does this mailbox, opened with its own key, lead to an inode it can open? */
  ghost predicate Reaches(st: State, m: nat, inode: UUID) {
    exists key: nat ::
      && OpenMailbox(st, Access(Random(m), key, map[])).Success?
      && OpenMailbox(st, Access(Random(m), key, map[])).value.inode == inode
      && OpenInode(st, OpenMailbox(st, Access(Random(m), key, map[])).value).Success?
  }

  lemma MailboxKeyOpens(led: Ledger, st: State, m: nat, key: nat)
    requires MailsStored(led, st) && m in led.mails
    ensures OpenMailbox(st, Access(Random(m), key, map[])).Success? <==> key == led.mails[m].key
    ensures OpenMailbox(st, Access(Random(m), led.mails[m].key, map[]))
         == Success(MailboxNode(led.mails[m].fileKey, Random(led.mails[m].file)))
  {
    assert StoredAs(st, Random(m), NodeOf(led.mails[m]));
  }

  lemma ReachesIffLive(led: Ledger, st: State, m: nat)
    requires MailsOK(led) && MailsStored(led, st) && FilesStored(led, st) && m in led.mails
    ensures Reaches(st, m, Random(led.mails[m].file)) <==> Live(led, m)
  {
    forall key: nat
      ensures OpenMailbox(st, Access(Random(m), key, map[])).Success? <==> key == led.mails[m].key
    {
      MailboxKeyOpens(led, st, m, key);
    }
    MailboxKeyOpens(led, st, m, led.mails[m].key);
    if Live(led, m) {
      LiveMailboxOpensInode(led, st, m);
    } else {
      StaleMailboxFails(led, st, m);
    }
  }

  /**
   The exact post-state of a revocation: of all mailboxes of the file, the new one of the revoker and the
   mailboxes of its other direct children reach the inode, and no other mailbox does: not the recipient's,
   not the storer's if somebody else revokes, and not those handed out by a child that stays.
   */
  lemma RevocationLeavesExactly(w: World, op: Op, access: Access, inode: UUID, m: nat)
    requires Inv(w)
    requires op.Revoke? && Succeeds(w, op)
    requires OpenAccess(w.st, Caller(w, op), op.filename) == Success(access)
    requires Opened(w.st, Caller(w, op), op.filename) == Some(inode)
    requires m in Step(w, op).led.mails && Random(Step(w, op).led.mails[m].file) == inode
    ensures Reaches(Step(w, op).st, m, inode) <==>
            m == w.st.next + 2 || KeptChild(access, op.recipient, Random(m))
  {
    var caller := Caller(w, op);
    InvBelow(w);
    RevokeInv(w, op);
    OpenedAgrees(w.led, w.st, caller, op.filename);
    HolderOpensAccess(w.led, w.st, caller, op.filename);
    RevokedLive(w.led, caller, op.filename, op.recipient, m);
    KeptChildAgrees(w.led, w.led.recs[AccessUUID(caller.username, op.filename)], op.recipient, m);
    ReachesIffLive(Step(w, op).led, Step(w, op).st, m);
  }

  lemma ViewOfMailbox(led: Ledger, user: UserData, filename: string, m: nat, i: nat)
    requires Holds(led, user, filename) && led.recs[AccessUUID(user.username, filename)].mailbox == m && m in led.mails
    requires led.mails[m].file == i && i in led.files
    ensures LedgerView(led, user, filename) == if Live(led, m) then Some(Flatten(led.files[i].chunks)) else None
  {
  }

  lemma RevokeOthersLedger(led: Ledger, caller: UserData, f: string, r: string, user: UserData, filename: string)
    requires Below(led) && MailsOK(led) && RecsOK(led) && CanOpen(led, caller, f) && Holds(led, user, filename)
    requires AccessUUID(user.username, filename) != AccessUUID(caller.username, f)
    requires AccessUUID(user.username, filename) != UserUUID(caller.username)
    requires FileNamed(led, user, filename) == Some(FileOf(led, caller, f))
    ensures LedgerView(RevokeLedger(led, caller, f, r), user, filename)
         == if Kept(led.recs[AccessUUID(caller.username, f)], r, led.recs[AccessUUID(user.username, filename)].mailbox)
            then Some(Flatten(led.files[FileOf(led, caller, f)].chunks)) else None
  {
    var s, i, m :=
      AccessUUID(caller.username, f), FileOf(led, caller, f), led.recs[AccessUUID(user.username, filename)].mailbox;
    OtherRecord(led, RevokeLedger(led, caller, f, r), caller, f, r, user, filename, i, s, led.recs[s]);
    RevokedLive(led, caller, f, r, m);
    ViewOfMailbox(RevokeLedger(led, caller, f, r), user, filename, m, i);
  }

  /**
   For every other holder of the file: it loads the file after the revocation, unchanged, if its mailbox is
   that of a remaining direct child of the revoker, and otherwise it loads nothing.
   */
  lemma RevocationForOthers(w: World, op: Op, access: Access, inode: UUID, user: UserData, filename: string,
                            theirs: Access)
    requires Inv(w)
    requires op.Revoke? && Succeeds(w, op)
    requires OpenAccess(w.st, Caller(w, op), op.filename) == Success(access)
    requires Opened(w.st, Caller(w, op), op.filename) == Some(inode)
    requires OpenAccess(w.st, user, filename) == Success(theirs)
    requires InodeNamed(w.st, user, filename) == Some(inode)
    requires !Overwrites(w, op, AccessUUID(user.username, filename))
    ensures View(Step(w, op).st, user, filename)
         == if KeptChild(access, op.recipient, theirs.mailbox)
            then View(w.st, Caller(w, op), op.filename) else None
  {
    var caller := Caller(w, op);
    InvBelow(w);
    RevokeInv(w, op);
    OpenedAgrees(w.led, w.st, caller, op.filename);
    NamedAgrees(w.led, w.st, user, filename);
    HolderOpensAccess(w.led, w.st, caller, op.filename);
    HolderOpensAccess(w.led, w.st, user, filename);
    RevokeOthersLedger(w.led, caller, op.filename, op.recipient, user, filename);
    KeptChildAgrees(w.led, w.led.recs[AccessUUID(caller.username, op.filename)], op.recipient,
                    w.led.recs[AccessUUID(user.username, filename)].mailbox);
    ViewAgrees(w.led, w.st, caller, op.filename);
    ViewAgrees(Step(w, op).led, Step(w, op).st, user, filename);
  }

  // ---------- who is not a direct child ----------

  /** A mailbox in the Children list of one record is in no other record's list. */
  lemma ChildOfOne(led: Ledger, s: UUID, s': UUID, c: string, recipient: string)
    requires ChildrenUnique(Alpha(led)) && s in led.recs && s' in led.recs && s != s' && c in led.recs[s'].children
    ensures !Kept(led.recs[s], recipient, led.recs[s'].children[c])
  {
    var m := led.recs[s'].children[c];
    forall c' | c' in led.recs[s].children
      ensures led.recs[s].children[c'] != m
    {
      assert Alpha(led).recs == led.recs;
    }
  }

  lemma HeldMailbox(led: Ledger, st: State, user: UserData, filename: string, access: Access)
    requires WellFormed(led) && Represents(led, st) && OpenAccess(st, user, filename) == Success(access)
    ensures Holds(led, user, filename) && access == AccessOf(led, led.recs[AccessUUID(user.username, filename)])
  {
    if Holds(led, user, filename) {
      HolderOpensAccess(led, st, user, filename);
    } else {
      NonHolderFails(led, st, user, filename);
    }
  }

  /**
   "Remaining sharees" are the direct children only.  Whoever got the file from anybody other than the
   revoker loses it at every revocation, even when the one it got the file from stays.
   */
  lemma SubShareesGoStale(op: Op, access: Access, inode: UUID, user: UserData, filename: string, theirs: Access,
                          parent: UserData, parentFile: string, parents: Access, name: string, w: World)
    requires Inv(w) && op.Revoke? && Succeeds(w, op)
    requires OpenAccess(w.st, Caller(w, op), op.filename) == Success(access)
    requires Opened(w.st, Caller(w, op), op.filename) == Some(inode)
    requires OpenAccess(w.st, user, filename) == Success(theirs) && InodeNamed(w.st, user, filename) == Some(inode)
    requires !Overwrites(w, op, AccessUUID(user.username, filename))
    requires OpenAccess(w.st, parent, parentFile) == Success(parents)
    requires name in parents.children && parents.children[name].mailbox == theirs.mailbox
    requires AccessUUID(parent.username, parentFile) != AccessUUID(Caller(w, op).username, op.filename)
    ensures View(Step(w, op).st, user, filename) == None
  {
    var caller := Caller(w, op);
    var s := AccessUUID(caller.username, op.filename);
    HeldMailbox(w.led, w.st, caller, op.filename, access);
    HeldMailbox(w.led, w.st, parent, parentFile, parents);
    HeldMailbox(w.led, w.st, user, filename, theirs);
    ChildOfOne(w.led, s, AccessUUID(parent.username, parentFile), name, op.recipient);
    KeptChildAgrees(w.led, w.led.recs[s], op.recipient, w.led.recs[AccessUUID(user.username, filename)].mailbox);
    RevocationForOthers(w, op, access, inode, user, filename, theirs);
  }

  // ---------- the sharing forest, on the store ----------

  lemma ChildOpens(led: Ledger, st: State, rec: RecInfo, s: UUID, c: string)
    requires RecOK(led, s, rec) && MailsStored(led, st) && c in rec.children
    ensures var child := AccessOf(led, rec).children[c];
            OpenMailbox(st, Access(child.mailbox, child.key, map[])).Success?
            && OpenMailbox(st, AccessOf(led, rec)).Success?
            && OpenMailbox(st, Access(child.mailbox, child.key, map[])).value.inode
               == OpenMailbox(st, AccessOf(led, rec)).value.inode
  {
    assert StoredAs(st, Random(rec.children[c]), NodeOf(led.mails[rec.children[c]]));
    RecordOpensMailbox(led, st, rec);
  }

  /** Every Children entry names a mailbox that is there, opens under its recorded key and leads to the same inode. */
  lemma ChildrenShareTheInode(user: UserData, filename: string, access: Access, c: string, w: World)
    requires Inv(w) && OpenAccess(w.st, user, filename) == Success(access) && c in access.children
    ensures OpenMailbox(w.st, access).Success?
    ensures OpenMailbox(w.st, Access(access.children[c].mailbox, access.children[c].key, map[])).Success?
    ensures OpenMailbox(w.st, Access(access.children[c].mailbox, access.children[c].key, map[])).value.inode
         == OpenMailbox(w.st, access).value.inode
  {
    var s := AccessUUID(user.username, filename);
    HeldMailbox(w.led, w.st, user, filename, access);
    assert RecOK(w.led, s, w.led.recs[s]);
    ChildOpens(w.led, w.st, w.led.recs[s], s, c);
  }

  /** No mailbox is in two Children entries, whoever's records they are in. */
  lemma ChildrenNeverShared(user: UserData, filename: string, access: Access, c: string,
                            user': UserData, filename': string, access': Access, c': string, w: World)
    requires Inv(w)
    requires OpenAccess(w.st, user, filename) == Success(access) && c in access.children
    requires OpenAccess(w.st, user', filename') == Success(access') && c' in access'.children
    requires access.children[c].mailbox == access'.children[c'].mailbox
    ensures c == c' && access == access' && user.master == user'.master && filename == filename'
  {
    HeldMailbox(w.led, w.st, user, filename, access);
    HeldMailbox(w.led, w.st, user', filename', access');
    assert Alpha(w.led).recs == w.led.recs;
  }

  // ---------- sharing and revoking is possible ----------

  /**
   In every reachable world a logged-in user can store a file, share it with any registered user and revoke
   it again: all three operations succeed, and the revocation finds its recipient among the children.
   */
  lemma StoreShareRevoke(sid: nat, filename: string, content: seq<byte>, recipient: string, w: World, w1: World,
                         w2: World)
    requires Inv(w) && sid < |w.sessions| && filename != "userStruct" && EncName(recipient) in w.st.keys
    requires w1 == Step(w, Store(sid, filename, content)) && w2 == Step(w1, Invite(sid, filename, recipient))
    ensures Succeeds(w, Store(sid, filename, content)) && Succeeds(w1, Invite(sid, filename, recipient))
    ensures Succeeds(w2, Revoke(sid, filename, recipient))
    ensures OpenAccess(w2.st, Caller(w2, Revoke(sid, filename, recipient)), filename).Success?
    ensures recipient in OpenAccess(w2.st, Caller(w2, Revoke(sid, filename, recipient)), filename).value.children
  {
    var user := w.sessions[sid];
    StoreInv(w, Store(sid, filename, content));
    StoredIsHeld(w.led, user, filename, content, w1.led);
    InviteFromHolder(w1, sid, filename, recipient, w2);
  }

  lemma InviteKeepsUser(st: State, user: UserData, filename: string, recipient: string)
    ensures CreateInvitation(st, user, filename, recipient).user == user
  {
  }

  lemma InviteStep(w1: World, op: Op, user: UserData, w2: World)
    requires op.Invite? && HasSession(w1, op) && user == Caller(w1, op) && w2 == Step(w1, op)
    ensures w2.led == InviteLedger(w1.led, user, op.filename, op.recipient)
    ensures |w2.sessions| == |w1.sessions| && w2.sessions[op.sid] == user
  {
    InviteKeepsUser(w1.st, user, op.filename, op.recipient);
  }

  lemma InvitedOpens(led: Ledger, user: UserData, filename: string, recipient: string)
    requires Below(led) && CanOpen(led, user, filename)
    ensures CanOpen(InviteLedger(led, user, filename, recipient), user, filename)
  {
    InviteKeepsHolder(led, user, filename, recipient, user, filename, FileOf(led, user, filename));
  }

  lemma InvitedStillOpens(w1: World, op: Op, user: UserData, w2: World)
    requires Inv(w1) && op.Invite? && HasSession(w1, op) && user == Caller(w1, op) && w2 == Step(w1, op)
    requires CanOpen(w1.led, user, op.filename) && op.recipient in w1.led.accounts
    ensures Succeeds(w1, op) && Inv(w2) && w2.led == InviteLedger(w1.led, user, op.filename, op.recipient)
    ensures |w2.sessions| == |w1.sessions| && w2.sessions[op.sid] == user && CanOpen(w2.led, user, op.filename)
  {
    InviteInv(w1, op);
    InvBelow(w1);
    InviteStep(w1, op, user, w2);
    InvitedOpens(w1.led, user, op.filename, op.recipient);
  }

  lemma InvitedHasChild(led: Ledger, st: State, user: UserData, filename: string, recipient: string, led': Ledger,
                        st': State)
    requires Below(led) && RecsOK(led) && Holds(led, user, filename) && recipient in led.accounts
    requires led' == InviteLedger(led, user, filename, recipient) && Holds(led', user, filename)
    requires RecsOK(led') && RecsStored(led', st')
    ensures OpenAccess(st', user, filename).Success? && recipient in OpenAccess(st', user, filename).value.children
  {
    InviteLineage(led, user, filename, recipient, led', AccessUUID(user.username, filename));
    HolderOpensAccess(led', st', user, filename);
  }

  lemma InviteFromHolder(w1: World, sid: nat, filename: string, recipient: string, w2: World)
    requires Inv(w1) && sid < |w1.sessions| && CanOpen(w1.led, w1.sessions[sid], filename)
    requires recipient in w1.led.accounts
    requires w2 == Step(w1, Invite(sid, filename, recipient))
    ensures Succeeds(w1, Invite(sid, filename, recipient)) && Succeeds(w2, Revoke(sid, filename, recipient))
    ensures OpenAccess(w2.st, Caller(w2, Revoke(sid, filename, recipient)), filename).Success?
    ensures recipient in OpenAccess(w2.st, Caller(w2, Revoke(sid, filename, recipient)), filename).value.children
  {
    var user := w1.sessions[sid];
    InvBelow(w1);
    InvitedStillOpens(w1, Invite(sid, filename, recipient), user, w2);
    InvitedHasChild(w1.led, w1.st, user, filename, recipient, w2.led, w2.st);
    RevokeInv(w2, Revoke(sid, filename, recipient));
  }
}
