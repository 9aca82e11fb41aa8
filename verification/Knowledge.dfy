/** The guarded log over whole runs, and who can ever find out a file key. */
module Knowledge {
  import opened Wrappers
  import opened Blocks
  import opened Records
  import opened Protocol
  import opened Ledgers
  import opened LedgerSteps
  import opened Refinement
  import opened RefineFiles
  import opened RefineSharing
  import opened RefineRevoke
  import opened RefineUsers
  import opened Concurrency
  import opened Interleaving
  import opened Runs
  import opened Guarantees
  import opened Secrecy

  ghost predicate Confidential(w: World) {
    Inv(w) && Guarded(w.led, w.st.log)
  }

  lemma StoredGuarded(led: Ledger, user: UserData, filename: string, led': Ledger, log: set<Payload>,
                      log': set<Payload>)
    requires AccountsOK(led) && RecsOK(led) && Registered(led, user) && Guarded(led, log) && Grows(led, led')
    requires StoreShape(led, user, filename, led') && OnlyThese(log, log', StoredPayloads(led.next, user, filename))
    ensures Guarded(led', log')
  {
    StorePayloads(led, led.next, user, filename, led');
    StoreGuarded(led, user, filename, led', log, log', StoredPayloads(led.next, user, filename),
                 RecInfo(user.master, filename, led.next + 2, map[]));
  }

  lemma StoreStepGuarded(led: Ledger, st: State, user: UserData, filename: string, content: seq<byte>)
    requires WellFormed(led) && led.next == st.next && Registered(led, user) && Guarded(led, st.log)
    ensures Guarded(StoreLedger(led, user, filename, content), StoreFile(st, user, filename, content).st.log)
  {
    var led' := StoreLedger(led, user, filename, content);
    StoreKeeps(led, user, filename, content);
    StoreLog(st, user, filename, content);
    StoreHasShape(led, user, filename, content);
    StoredGuarded(led, user, filename, led', st.log, StoreFile(st, user, filename, content).st.log);
  }

  lemma AppendLiveGuarded(led: Ledger, st: State, user: UserData, filename: string, content: seq<byte>, i: nat,
                          led': Ledger)
    requires WellFormed(led) && Represents(led, st) && Guarded(led, st.log) && CanOpen(led, user, filename)
    requires i == FileOf(led, user, filename) && led' == AppendLedger(led, user, filename, content) && Grows(led, led')
    ensures Guarded(led', AppendToFile(st, user, filename, Some(content)).st.log)
  {
    LiveHolderOpens(led, st, user, filename);
    AppendSucceeds(st, user, filename, content, i, led.files[i]);
    AppendGuarded(led, st, i, content, led', AppendedState(st, i, led.files[i], content));
  }

  lemma AppendStepGuarded(led: Ledger, st: State, user: UserData, filename: string, content: seq<byte>)
    requires WellFormed(led) && Represents(led, st) && Guarded(led, st.log)
    ensures Guarded(AppendLedger(led, user, filename, content), AppendToFile(st, user, filename, Some(content)).st.log)
  {
    if CanOpen(led, user, filename) {
      AppendKeeps(led, user, filename, content);
      AppendLiveGuarded(led, st, user, filename, content, FileOf(led, user, filename),
                        AppendLedger(led, user, filename, content));
    } else {
      AppendFails(led, st, user, filename, Some(content));
    }
  }

  lemma LinkedLog(led: Ledger, st: State, user: UserData, recipient: string, s: UUID, m: nat, led': Ledger,
                  rec: RecInfo)
    requires Registered(led, user) && recipient in led.accounts && s in led.recs && led'.mails == led.mails
    requires rec == led.recs[s].(children := led.recs[s].children[recipient := m])
    ensures LinkedState(led, st, s, m, user, recipient).log
         == st.log + {InvitationOf(led, InvInfo(user.username, recipient, m))} + {AccessPayload(led', rec)}
  {
    assert AccessOf(led', rec) == AccessOf(led, rec);
  }

  lemma LinkedFacts(led: Ledger, user: UserData, recipient: string, s: UUID, m: nat, led': Ledger, rec: RecInfo)
    requires s in led.recs && led' == LinkLedger(led, s, m, user.username, recipient)
    requires rec == led.recs[s].(children := led.recs[s].children[recipient := m])
    ensures led'.mails == led.mails && led'.recs == led.recs[s := rec] - {} && Sent(led', m)
  {
    assert led.next in led'.invs && led'.invs[led.next].mailbox == m;
  }

  /** The second half of an invitation, on the state that already holds the new mailbox. */
  lemma InviteLinked(led: Ledger, st: State, user: UserData, recipient: string, s: UUID, m: nat, led': Ledger,
                     st': State, rec: RecInfo)
    requires RecsOK(led) && AccountsOK(led) && MailsOK(led) && MailsOK(led') && Registered(led, user)
    requires Guarded(led, st.log)
    requires Linkable(led, s, m, user.username, recipient) && led.recs[s].master == user.master
    requires led'.mails == led.mails && led'.recs == led.recs[s := rec] - {} && Grows(led, led') && Sent(led', m)
    requires rec == led.recs[s].(children := led.recs[s].children[recipient := m])
    requires st'.log == st.log + {InvitationOf(led, InvInfo(user.username, recipient, m))} + {AccessPayload(led', rec)}
    ensures Guarded(led', st'.log)
  {
    LinkedGuarded(led, st, s, m, user, recipient, led', st', rec);
  }

  lemma InviteSuccess(led: Ledger, st: State, user: UserData, filename: string, recipient: string,
                      s: UUID, m: nat, node: MailboxNode, led1: Ledger, led': Ledger, st': State)
    requires WellFormed(led) && WellFormed(led1) && Grows(led, led1) && led.next == st.next && Registered(led, user)
    requires Holds(led, user, filename) && s == AccessUUID(user.username, filename) && recipient in led.accounts
    requires m == led.recs[s].mailbox && m in led.mails && led1 == MailLedger(led, m, user.username, recipient)
    requires led' == LinkLedger(led1, s, led.next, user.username, recipient) && Guarded(led1, Mailed(st, node).log)
    requires st' == InvitedState(st, node, user, filename, AccessOf(led, led.recs[s]), recipient,
                                 led.accounts[recipient].pke)
    ensures Guarded(led', st'.log)
  {
    NextIsFresh(led);
    assert RecOK(led, s, led.recs[s]);
    MailedIsLinkable(led, user, s, recipient);
    InvitedIsLinked(led, st, user, filename, recipient, s, node, led1);
    var rec := led1.recs[s].(children := led1.recs[s].children[recipient := led.next]);
    LinkKeepsAll(led1, s, led.next, user.username, recipient);
    LinkedFacts(led1, user, recipient, s, led.next, led', rec);
    LinkedLog(led1, Mailed(st, node), user, recipient, s, led.next, led', rec);
    InviteLinked(led1, Mailed(st, node), user, recipient, s, led.next, led', st', rec);
  }

  lemma InviteHolderGuarded(led: Ledger, st: State, user: UserData, filename: string, recipient: string,
                            s: UUID, m: nat, node: MailboxNode, led1: Ledger, out: Outcome<UUID>)
    requires WellFormed(led) && Represents(led, st) && Registered(led, user)
    requires s == AccessUUID(user.username, filename) && Holds(led, user, filename)
    requires m == led.recs[s].mailbox && m in led.mails
    requires node == MailboxNode(led.mails[m].fileKey, Random(led.mails[m].file))
    requires led1 == MailLedger(led, m, user.username, recipient) && WellFormed(led1) && Grows(led, led1)
    requires Guarded(led1, Mailed(st, node).log) && out == CreateInvitation(st, user, filename, recipient)
    ensures recipient !in led.accounts ==> Guarded(led1, out.st.log)
    ensures recipient in led.accounts ==> Guarded(LinkLedger(led1, s, led.next, user.username, recipient), out.st.log)
  {
    HolderInvites(led, st, user, filename, recipient, led.recs[s], led.mails[m], out);
    if recipient in led.accounts {
      InviteSuccess(led, st, user, filename, recipient, s, m, node, led1,
                    LinkLedger(led1, s, led.next, user.username, recipient), out.st);
    }
  }

  lemma InviteGuarded(led: Ledger, st: State, user: UserData, filename: string, recipient: string)
    requires WellFormed(led) && Represents(led, st) && Registered(led, user) && Guarded(led, st.log)
    ensures Guarded(InviteLedger(led, user, filename, recipient),
                    CreateInvitation(st, user, filename, recipient).st.log)
  {
    var s := AccessUUID(user.username, filename);
    if Holds(led, user, filename) {
      HolderOpensAccess(led, st, user, filename);
      var m := led.recs[s].mailbox;
      var node, led1 :=
        MailboxNode(led.mails[m].fileKey, Random(led.mails[m].file)), MailLedger(led, m, user.username, recipient);
      MailKeepsAll(led, m, user.username, recipient);
      MailedGuarded(led, st, m, user.username, recipient, node, led1);
      InviteHolderGuarded(led, st, user, filename, recipient, s, m, node, led1,
                          CreateInvitation(st, user, filename, recipient));
    } else {
      InviteNonHolder(led, st, user, filename, recipient);
    }
  }

  lemma AcceptedLog(led: Ledger, st: State, user: UserData, sender: string, ptr: UUID, filename: string, rec: RecInfo,
                    led': Ledger)
    requires InvsOK(led) && InvsStored(led, st) && KeysPublished(led, st) && Registered(led, user)
    requires Acceptable(led, user, sender, ptr) && rec == RecInfo(user.master, filename, led.invs[ptr.n].mailbox, map[])
    requires led'.mails == led.mails
    ensures AcceptInvitation(st, user, sender, ptr, filename).st.log
         == st.log + {AccessPayload(led', rec)} + {Sealed(UserKey(user.master), UserRec(WithFile(user, filename)))}
  {
    AcceptSucceeds(led, st, user, sender, ptr, filename);
    assert AccessOf(led', rec) == Access(Random(rec.mailbox), MailKeyOf(led, rec.mailbox), map[]);
  }

  lemma AcceptableGuarded(led: Ledger, st: State, user: UserData, sender: string, ptr: UUID, filename: string,
                          led': Ledger, st': State, rec: RecInfo)
    requires MailsOK(led) && RecsOK(led) && InvsOK(led) && AccountsOK(led) && Registered(led, user)
    requires Guarded(led, st.log)
    requires Acceptable(led, user, sender, ptr) && Grows(led, led') && MailsOK(led')
    requires rec == RecInfo(user.master, filename, led.invs[ptr.n].mailbox, map[])
    requires led'.recs == WithRec(led, user, filename, rec)
    requires st'.log == st.log + {AccessPayload(led', rec)}
             + {Sealed(UserKey(user.master), UserRec(WithFile(user, filename)))}
    ensures Guarded(led', st'.log)
  {
    assert InvOK(led, ptr.n, led.invs[ptr.n]);
    assert ptr.n in led.invs && led.invs[ptr.n].mailbox == rec.mailbox;
    AcceptGuarded(led, st, user, filename, rec.mailbox, rec, led', st');
  }

  lemma AcceptStepGuarded(led: Ledger, st: State, user: UserData, sender: string, ptr: UUID, filename: string)
    requires WellFormed(led) && Represents(led, st) && Registered(led, user) && Guarded(led, st.log)
    ensures Guarded(AcceptLedger(led, user, sender, ptr, filename),
                    AcceptInvitation(st, user, sender, ptr, filename).st.log)
  {
    if Acceptable(led, user, sender, ptr) {
      var led', rec :=
        AcceptLedger(led, user, sender, ptr, filename), RecInfo(user.master, filename, led.invs[ptr.n].mailbox, map[]);
      AcceptKeeps(led, user, sender, ptr, filename);
      AcceptedLog(led, st, user, sender, ptr, filename, rec, led');
      AcceptableGuarded(led, st, user, sender, ptr, filename, led',
                        AcceptInvitation(st, user, sender, ptr, filename).st, rec);
    } else {
      AcceptFails(led, st, user, sender, ptr, filename);
    }
  }

  lemma RevokeKeyFacts(led: Ledger, user: UserData, filename: string, recipient: string, led': Ledger)
    requires CanOpen(led, user, filename) && led' == RevokeLedger(led, user, filename, recipient)
    requires user.master.username == user.username
    ensures Has(led', led.next, FileKeyRole)
    ensures MailKeyOf(led', led.next + 2) == led.next + 1 && led.next + 2 in led'.mails
    ensures MayRead(led', user.master.username, led.next + 1)
  {
  }

  /** The log after a live holder's revocation. */
  lemma RevokeLog(led: Ledger, st: State, user: UserData, filename: string, recipient: string, out: Outcome<()>,
                  i: nat, s: UUID, rec: RecInfo, mail: MailInfo, rec': RecInfo, led': Ledger) returns (st3: State)
    requires WellFormed(led) && Represents(led, st) && CanOpen(led, user, filename)
    requires out == RevokeAccess(st, user, filename, recipient)
    requires i == FileOf(led, user, filename) && s == AccessUUID(user.username, filename) && rec == led.recs[s]
    requires mail == NewMail(rec, i, led.next, user.username)
    requires rec' == rec.(mailbox := led.next + 2, children := rec.children - {recipient})
    requires Grows(led, led') && led.next + 2 in led'.mails && led'.mails[led.next + 2].key == led.next + 1
    ensures LogWrites(led, st, st3, i, rec, recipient, mail)
    ensures out.st.log == st3.log + {AccessPayload(led', rec')}
            + {Sealed(UserKey(user.master), UserRec(WithFile(user, filename)))}
  {
    assert RecOK(led, s, rec);
    RevokedPayload(led, led', st, user, filename, s, rec, recipient, rec');
    st3 := RevokeRuns(led, st, user, filename, recipient, out, i, s, rec, mail, AccessOf(led, rec));
  }

  lemma RevokeLiveGuarded(led: Ledger, st: State, user: UserData, filename: string, recipient: string, led': Ledger,
                          out: Outcome<()>, i: nat, s: UUID, rec: RecInfo, mail: MailInfo, rec': RecInfo)
    requires WellFormed(led) && Represents(led, st) && Registered(led, user) && Guarded(led, st.log)
    requires CanOpen(led, user, filename) && out == RevokeAccess(st, user, filename, recipient)
    requires led' == RevokeLedger(led, user, filename, recipient) && Grows(led, led') && MailsOK(led')
    requires i == FileOf(led, user, filename) && s == AccessUUID(user.username, filename) && rec == led.recs[s]
    requires mail == NewMail(rec, i, led.next, user.username)
    requires rec' == rec.(mailbox := led.next + 2, children := rec.children - {recipient})
    ensures Guarded(led', out.st.log)
  {
    assert user.master.username == user.username;
    RevokeKeyFacts(led, user, filename, recipient, led');
    RevokeShape(led, user, filename, recipient, led', i, s, rec);
    var st3 := RevokeLog(led, st, user, filename, recipient, out, i, s, rec, mail, rec', led');
    RevokedGuarded(led, st, user, filename, recipient, i, s, rec, mail, rec', led', st3, out.st.log,
                   AccessPayload(led', rec'), Sealed(UserKey(user.master), UserRec(WithFile(user, filename))));
  }

  lemma RevokeStepGuarded(led: Ledger, st: State, user: UserData, filename: string, recipient: string)
    requires WellFormed(led) && Represents(led, st) && Registered(led, user) && Guarded(led, st.log)
    ensures Guarded(RevokeLedger(led, user, filename, recipient), RevokeAccess(st, user, filename, recipient).st.log)
  {
    var led', out, s := RevokeLedger(led, user, filename, recipient), RevokeAccess(st, user, filename, recipient),
                        AccessUUID(user.username, filename);
    RevokeKeeps(led, user, filename, recipient);
    if CanOpen(led, user, filename) {
      var i, rec := FileOf(led, user, filename), led.recs[s];
      RevokeLiveGuarded(led, st, user, filename, recipient, led', out, i, s, rec,
                        NewMail(rec, i, led.next, user.username),
                        rec.(mailbox := led.next + 2, children := rec.children - {recipient}));
    } else if Holds(led, user, filename) {
      RevokeStale(led, st, user, filename, recipient, out);
      RevokeStaleSame(led, user, filename, recipient, led', st.log);
    } else {
      RevokeNonHolder(led, st, user, filename, recipient, out);
    }
  }

  lemma RevokeStaleSame(led: Ledger, user: UserData, filename: string, recipient: string, led': Ledger,
                        log: set<Payload>)
    requires RecsOK(led) && Guarded(led, log) && !CanOpen(led, user, filename)
    requires led' == RevokeLedger(led, user, filename, recipient) && Grows(led, led')
    ensures Guarded(led', log)
  {
    LogWith(led, led', log, log);
    EntriesSame(led, led', log, log);
  }

  lemma RegisterParts(led: Ledger, username: string, password: string, led': Ledger, n: nat)
    requires n == led.next && led' == RegisterLedger(led, username, password)
    ensures led'.recs == led.recs
    ensures PayloadOK(led', Sealed(UserKey(Master(username, password)),
                                   UserRec(UserData(username, n, n + 1, Master(username, password), map[]))))
  {
  }

  lemma RegisterLog(st: State, username: string, password: string)
    requires UserUUID(username) !in st.store
    ensures InitUser(st, username, password).0.log
         == st.log + {Sealed(UserKey(Master(username, password)),
                             UserRec(UserData(username, st.next, st.next + 1, Master(username, password), map[])))}
  {
  }

  lemma RegisterStepGuarded(led: Ledger, st: State, username: string, password: string)
    requires WellFormed(led) && Represents(led, st) && Guarded(led, st.log) && UserUUID(username) !in st.store
    ensures Guarded(RegisterLedger(led, username, password), InitUser(st, username, password).0.log)
  {
    AbsentIsUnregistered(led, st, username);
    RegisterKeeps(led, username, password);
    RegisterParts(led, username, password, RegisterLedger(led, username, password), st.next);
    RegisterLog(st, username, password);
    OneMoreGuarded(led, RegisterLedger(led, username, password), st.log, InitUser(st, username, password).0.log,
                   Sealed(UserKey(Master(username, password)),
                          UserRec(UserData(username, st.next, st.next + 1, Master(username, password), map[]))));
  }

  // ---------- over runs ----------

  /** Interleaved appends write only blocks and inodes. */
  lemma InterleaveGuarded(led: Ledger, led': Ledger, log: set<Payload>, log': set<Payload>)
    requires RecsOK(led) && Guarded(led, log) && Grows(led, led') && led'.recs == led.recs
    requires OnlyFilePayloads(log, log')
    ensures Guarded(led', log')
  {
    LogWith(led, led', log, log');
    EntriesSame(led, led', log, log');
  }

  lemma InterleaveLog(w: World, op: Op)
    requires op.Interleave?
    ensures OnlyFilePayloads(w.st.log, Step(w, op).st.log)
  {
    MovesLog(Launch(w.st, w.led, op.tasks), op.schedule);
    InterleaveStep(w, op, Interleaved(w, op.tasks, op.schedule));
  }

  lemma InterleaveConfidential(w: World, op: Op)
    requires Confidential(w) && op.Interleave?
    ensures Confidential(Step(w, op))
  {
    InterleaveInv(w, op);
    InterleaveLog(w, op);
    InterleaveGuarded(w.led, Step(w, op).led, w.st.log, Step(w, op).st.log);
  }

  lemma UserConfidential(w: World, op: Op)
    requires Confidential(w) && (op.Register? || op.Login?)
    ensures Confidential(Step(w, op))
  {
    UserInv(w, op);
    if op.Register? && UserUUID(op.username) !in w.st.store {
      RegisterStepGuarded(w.led, w.st, op.username, op.password);
    }
  }

  lemma CallGuarded(w: World, op: Op)
    requires Confidential(w) && HasSession(w, op) && IsCall(op)
    ensures Guarded(LedgerAfter(w, op), Performed(w, op).0.log)
  {
    match op
    case Store(_, f, content) => StoreStepGuarded(w.led, w.st, Caller(w, op), f, content);
    case Append(_, f, data) =>
      if data.Some? {
        AppendStepGuarded(w.led, w.st, Caller(w, op), f, data.value);
      }
    case Invite(_, f, r) => InviteGuarded(w.led, w.st, Caller(w, op), f, r);
    case Accept(_, sender, ptr, f) => AcceptStepGuarded(w.led, w.st, Caller(w, op), sender, ptr, f);
    case Revoke(_, f, r) => RevokeStepGuarded(w.led, w.st, Caller(w, op), f, r);
  }

  lemma StepConfidential(w: World, op: Op)
    requires Confidential(w)
    ensures Confidential(Step(w, op))
  {
    if op.Interleave? {
      InterleaveConfidential(w, op);
    } else if op.Register? || op.Login? {
      UserConfidential(w, op);
    } else if HasSession(w, op) {
      StepInv(w, op);
      CallGuarded(w, op);
      CallStep(w, op);
    }
  }

  lemma {:induction false} RunConfidential(w: World, ops: seq<Op>)
    requires Confidential(w)
    ensures Confidential(Run(w, ops))
    decreases |ops|
  {
    if ops != [] {
      StepConfidential(w, ops[0]);
      RunConfidential(Step(w, ops[0]), ops[1..]);
    }
  }

  /** In every reachable world each payload ever written gives its keys only to their rightful readers. */
  lemma ReachableConfidential(ops: seq<Op>)
    ensures Confidential(Run(Start(), ops))
  {
    StartInv();
    RunConfidential(Start(), ops);
  }

  // ---------- who knows the new file key ----------

  /** All a user outside the file can reach: its own keys, mailbox keys meant for it, and other file keys. */
  ghost predicate Safe(led: Ledger, x: string, n: nat, y: Secret) {
    match y
    case MasterSecret(m) => x in led.accounts && m == led.accounts[x].master
    case PkeSecret(p) => x in led.accounts && p == led.accounts[x].pke
    case MailSecret(k) => MayRead(led, x, k)
    case FileSecret(k) => k != n
  }

  /** The new file key is written only for the revoker and for the kept children. */
  ghost predicate KeyConfined(led: Ledger, log: set<Payload>, x: string, n: nat) {
    forall p | p in log && p.Sealed? && p.lock.MailKey? && p.plain.MailboxRec? && p.plain.node.fileKey == n ::
      !MayRead(led, x, p.lock.n)
  }

  lemma OwnIsSafe(led: Ledger, x: string, n: nat, y: Secret)
    requires MailsOK(led) && Own(led, x, y)
    ensures Safe(led, x, n, y)
  {
    if y.MailSecret? {
      var m :| m in led.mails && led.mails[m].key == y.n && led.mails[m].origin.maker == x;
      assert MailOK(led, m, led.mails[m]);
    }
  }

  lemma SignedIsSafe(led: Ledger, x: string, n: nat, p: Payload, z: Secret)
    requires AccountsOK(led) && PayloadOK(led, p) && p.Signed? && Safe(led, x, n, PkeSecret(p.to))
    requires z == MailSecret(p.invitation.key)
    ensures Safe(led, x, n, z)
  {
    assert Has(led, p.to, PkeRole(x));
  }

  lemma SealedIsSafe(led: Ledger, log: set<Payload>, x: string, n: nat, p: Payload, z: Secret)
    requires AccountsOK(led) && PayloadOK(led, p) && KeyConfined(led, log, x, n) && p in log && p.Sealed?
    requires Safe(led, x, n, Opener(p)) && Reveals(p, z)
    ensures Safe(led, x, n, z)
  {
    match p
    case Sealed(UserKey(m), UserRec(user)) => assert user.username == m.username == x;
    case Sealed(PersonalKey(m, _), AccessRec(_)) => assert m.username == x;
    case Sealed(MailKey(k), MailboxRec(node)) => assert MayRead(led, x, k);
    case _ =>
  }

  lemma LeadsIsSafe(led: Ledger, log: set<Payload>, x: string, n: nat, y: Secret, z: Secret)
    requires AccountsOK(led) && LogOK(led, log) && KeyConfined(led, log, x, n)
    requires Safe(led, x, n, y) && Leads(log, y, z)
    ensures Safe(led, x, n, z)
  {
    var p :| p in log && Opener(p) == y && Reveals(p, z);
    assert PayloadOK(led, p);
    if p.Signed? {
      SignedIsSafe(led, x, n, p, z);
    } else {
      SealedIsSafe(led, log, x, n, p, z);
    }
  }

  lemma OutsidersStayOut(led: Ledger, log: set<Payload>, x: string, n: nat)
    requires MailsOK(led) && AccountsOK(led) && LogOK(led, log) && KeyConfined(led, log, x, n)
    ensures !Knows(led, log, x, FileSecret(n))
  {
    var safe := y => Safe(led, x, n, y);
    forall y | Own(led, x, y)
      ensures safe(y)
    {
      OwnIsSafe(led, x, n, y);
    }
    forall y, z | safe(y) && Leads(log, y, z)
      ensures safe(z)
    {
      LeadsIsSafe(led, log, x, n, y, z);
    }
    forall trail: seq<Secret> | |trail| > 0 && Own(led, x, trail[0]) && Trail(log, trail)
      ensures trail[|trail| - 1] != FileSecret(n)
    {
      TrailStaysSafe(led, log, x, safe, trail, |trail| - 1);
    }
  }

  lemma NotForOthers(led': Ledger, m: nat, key: nat, maker: string, x: string)
    requires Has(led', key, MailKeyRole(m)) && m in led'.mails && led'.mails[m].origin.maker == maker && x != maker
    requires led'.mails[m].origin.Invited? ==> led'.mails[m].origin.to != x
    ensures !MayRead(led', x, key)
  {
  }

  /** A kept child's mailbox is for the child and the revoker only. */
  lemma KeptNotFor(led: Ledger, log: set<Payload>, s: UUID, rec: RecInfo, recipient: string, m: nat, led': Ledger,
                   x: string)
    requires MailsOK(led) && EntriesOK(led, log) && Grows(led, led') && s in led.recs && rec == led.recs[s]
    requires m in led.mails && Kept(rec, recipient, m)
    requires x != rec.master.username && !(x in rec.children && x != recipient)
    ensures !MayRead(led', x, led.mails[m].key)
  {
    var c :| c in rec.children && c != recipient && rec.children[c] == m;
    assert EntryOK(led, log, rec, c) && MailOK(led, m, led.mails[m]);
    NotForOthers(led', m, led.mails[m].key, rec.master.username, x);
  }

  lemma OlderNodes(led: Ledger, log: set<Payload>)
    requires RolesOK(led) && LogOK(led, log)
    ensures forall q | q in log && q.Sealed? && q.lock.MailKey? && q.plain.MailboxRec? ::
              q.plain.node.fileKey < led.next
  {
    forall q | q in log && q.Sealed? && q.lock.MailKey? && q.plain.MailboxRec?
      ensures q.plain.node.fileKey < led.next
    {
      assert PayloadOK(led, q);
    }
  }

  /** The log after a revocation confines the new key, for anybody but the revoker and the kept children. */
  lemma RevocationConfines(led: Ledger, st: State, i: nat, s: UUID, rec: RecInfo, recipient: string, mail: MailInfo,
                           led': Ledger, st3: State, log': set<Payload>, access: Payload, home: Payload, user: UserData,
                             x: string)
    requires RolesOK(led) && MailsOK(led) && LogOK(led, st.log) && Grows(led, led') && EntriesOK(led, st.log)
    requires LogWrites(led, st, st3, i, rec, recipient, mail)
    requires s in led.recs && rec == led.recs[s] && rec.master.username == user.username
    requires mail == NewMail(rec, i, led.next, user.username) && led.next + 2 in led'.mails
    requires led'.mails[led.next + 2] == mail
    requires Has(led', led.next + 1, MailKeyRole(led.next + 2))
    requires log' == st3.log + {access} + {home} && access.Sealed? && access.plain.AccessRec? && home.Sealed?
    requires home.plain.UserRec?
    requires x != user.username && !(x in rec.children && x != recipient)
    ensures KeyConfined(led', log', x, led.next)
  {
    OlderNodes(led, st.log);
    NotForOthers(led', led.next + 2, led.next + 1, user.username, x);
    forall p | p in log' && p.Sealed? && p.lock.MailKey? && p.plain.MailboxRec? && p.plain.node.fileKey == led.next
      ensures !MayRead(led', x, p.lock.n)
    {
      assert p in st3.log && p !in st.log;
      if RekeyedNode(led, rec, recipient, p) {
        var m :| m in led.mails && Kept(rec, recipient, m) && p == NodeOf(led.mails[m].(fileKey := led.next));
        KeptNotFor(led, st.log, s, rec, recipient, m, led', x);
      }
    }
  }

  lemma ThreeSteps(led: Ledger, log: set<Payload>, x: string, a: Secret, b: Secret, c: Secret)
    requires Own(led, x, a) && Leads(log, a, b) && Leads(log, b, c)
    ensures Knows(led, log, x, c)
  {
    var trail := [a, b, c];
    assert Trail(log, trail) && trail[|trail| - 1] == c;
  }

  lemma KeptChildKnows(led: Ledger, st: State, i: nat, s: UUID, rec: RecInfo, recipient: string, mail: MailInfo,
                       led': Ledger, st3: State, log': set<Payload>, c: string)
    requires Grows(led, led') && EntriesOK(led, st.log) && LogWrites(led, st, st3, i, rec, recipient, mail)
    requires st3.log <= log'
    requires s in led.recs && rec == led.recs[s] && c in rec.children && c != recipient
    ensures Knows(led', log', c, FileSecret(led.next))
  {
    assert EntryOK(led, st.log, rec, c);
    var m := rec.children[c];
    var invitation := InvitationOf(led, InvInfo(rec.master.username, c, m));
    var node := NodeOf(led.mails[m].(fileKey := led.next));
    assert Kept(rec, recipient, m);
    assert Opener(invitation) == PkeSecret(led.accounts[c].pke) && Reveals(invitation, MailSecret(led.mails[m].key));
    assert Opener(node) == MailSecret(led.mails[m].key) && Reveals(node, FileSecret(led.next));
    ThreeSteps(led', log', c, PkeSecret(led.accounts[c].pke), MailSecret(led.mails[m].key), FileSecret(led.next));
  }

  lemma RevokerKnows(led': Ledger, log': set<Payload>, user: UserData, access: Payload, mail: MailInfo, n: nat)
    requires Registered(led', user) && access in log' && NodeOf(mail) in log' && mail.fileKey == n
    requires access.Sealed? && access.plain.AccessRec? && access.plain.access.key == mail.key
    requires access.lock.PersonalKey? && access.lock.master == user.master
    ensures Knows(led', log', user.username, FileSecret(n))
  {
    assert Opener(access) == MasterSecret(user.master) && Reveals(access, MailSecret(mail.key));
    assert Opener(NodeOf(mail)) == MailSecret(mail.key) && Reveals(NodeOf(mail), FileSecret(n));
    ThreeSteps(led', log', user.username, MasterSecret(user.master), MailSecret(mail.key), FileSecret(n));
  }

  /** The revoker and the kept children, or somebody else, by what the revocation wrote. */
  lemma RevokedKnown(led: Ledger, st: State, user: UserData, recipient: string, led': Ledger, st3: State,
                     log': set<Payload>, i: nat, s: UUID, rec: RecInfo, mail: MailInfo, access: Payload, home: Payload,
                     x: string)
    requires RolesOK(led) && MailsOK(led) && Guarded(led, st.log) && Grows(led, led') && Registered(led', user)
    requires LogWrites(led, st, st3, i, rec, recipient, mail) && log' == st3.log + {access} + {home}
    requires s in led.recs && rec == led.recs[s] && rec.master.username == user.username
    requires mail == NewMail(rec, i, led.next, user.username) && led.next + 2 in led'.mails
    requires led'.mails[led.next + 2] == mail
    requires Has(led', led.next + 1, MailKeyRole(led.next + 2))
    requires access.Sealed? && access.plain.AccessRec? && access.plain.access.key == mail.key
    requires access.lock.PersonalKey? && access.lock.master == user.master && home.Sealed? && home.plain.UserRec?
    ensures x == user.username || (x in rec.children && x != recipient) ==> Knows(led', log', x, FileSecret(led.next))
    ensures !(x == user.username || (x in rec.children && x != recipient)) ==> KeyConfined(led', log', x, led.next)
  {
    if x == user.username {
      RevokerKnows(led', log', user, access, mail, led.next);
    } else if x in rec.children && x != recipient {
      KeptChildKnows(led, st, i, s, rec, recipient, mail, led', st3, log', x);
    } else {
      RevocationConfines(led, st, i, s, rec, recipient, mail, led', st3, log', access, home, user, x);
    }
  }

  /** What a live holder's revocation leaves for the secrecy argument. */
  lemma RevokedFacts(led: Ledger, user: UserData, filename: string, recipient: string, led': Ledger, i: nat, s: UUID,
                     rec: RecInfo, mail: MailInfo, rec': RecInfo)
    requires Registered(led, user) && user.master.username == user.username
    requires CanOpen(led, user, filename) && led' == RevokeLedger(led, user, filename, recipient)
    requires i == FileOf(led, user, filename) && s == AccessUUID(user.username, filename) && rec == led.recs[s]
    requires mail == NewMail(rec, i, led.next, user.username)
    requires rec' == rec.(mailbox := led.next + 2, children := rec.children - {recipient})
    ensures led.next + 2 in led'.mails && led'.mails[led.next + 2] == mail
    ensures Has(led', led.next + 1, MailKeyRole(led.next + 2))
    ensures Registered(led', user) && AccessOf(led', rec').key == mail.key && rec.master == user.master
    ensures rec'.master == user.master
  {
    RevokeShape(led, user, filename, recipient, led', i, s, rec);
  }

  /** After a live holder's revocation, on the ledger. */
  lemma RevokeKnown(led: Ledger, st: State, user: UserData, filename: string, recipient: string, led': Ledger,
                    out: Outcome<()>, i: nat, s: UUID, rec: RecInfo, mail: MailInfo, rec': RecInfo, x: string)
    requires WellFormed(led) && Represents(led, st) && Registered(led, user) && Guarded(led, st.log)
    requires CanOpen(led, user, filename) && out == RevokeAccess(st, user, filename, recipient)
    requires led' == RevokeLedger(led, user, filename, recipient) && Grows(led, led')
    requires i == FileOf(led, user, filename) && s == AccessUUID(user.username, filename) && rec == led.recs[s]
    requires mail == NewMail(rec, i, led.next, user.username)
    requires rec' == rec.(mailbox := led.next + 2, children := rec.children - {recipient})
    ensures x == user.username || (x in rec.children && x != recipient) ==>
              Knows(led', out.st.log, x, FileSecret(led.next))
    ensures !(x == user.username || (x in rec.children && x != recipient)) ==>
              KeyConfined(led', out.st.log, x, led.next)
  {
    assert user.master.username == user.username;
    RevokedFacts(led, user, filename, recipient, led', i, s, rec, mail, rec');
    var st3 := RevokeLog(led, st, user, filename, recipient, out, i, s, rec, mail, rec', led');
    RevokedKnown(led, st, user, recipient, led', st3, out.st.log, i, s, rec, mail, AccessPayload(led', rec'),
                 Sealed(UserKey(user.master), UserRec(WithFile(user, filename))), x);
  }

  /** Whoever the revoker did not keep. */
  ghost predicate LeftOut(led: Ledger, user: UserData, filename: string, recipient: string, x: string) {
    var s := AccessUUID(user.username, filename);
    s in led.recs && x != user.username && !(x in led.recs[s].children && x != recipient)
  }

  lemma RevokeStepKnown(led: Ledger, st: State, user: UserData, filename: string, recipient: string, x: string)
    requires WellFormed(led) && Represents(led, st) && Registered(led, user) && Guarded(led, st.log)
    requires CanOpen(led, user, filename)
    ensures LeftOut(led, user, filename, recipient, x) ==>
              KeyConfined(RevokeLedger(led, user, filename, recipient),
                          RevokeAccess(st, user, filename, recipient).st.log, x, led.next)
    ensures Knows(RevokeLedger(led, user, filename, recipient), RevokeAccess(st, user, filename, recipient).st.log, x,
                  FileSecret(led.next))
       <==> !LeftOut(led, user, filename, recipient, x)
  {
    var led', out, s := RevokeLedger(led, user, filename, recipient), RevokeAccess(st, user, filename, recipient),
                        AccessUUID(user.username, filename);
    RevokeKeeps(led, user, filename, recipient);
    RevokeStepGuarded(led, st, user, filename, recipient);
    var i, rec := FileOf(led, user, filename), led.recs[s];
    RevokeKnown(led, st, user, filename, recipient, led', out, i, s, rec, NewMail(rec, i, led.next, user.username),
                rec.(mailbox := led.next + 2, children := rec.children - {recipient}), x);
    if LeftOut(led, user, filename, recipient, x) {
      OutsidersStayOut(led', out.st.log, x, led.next);
    }
  }

  predicate SealedUnder(st: State, u: UUID, key: Key) {
    u in st.store && st.store[u].Sealed? && st.store[u].lock == key
  }

  /** The inode after a revocation is sealed under the key that was drawn first. */
  lemma RevokedInode(led: Ledger, user: UserData, filename: string, recipient: string, led': Ledger, st': State)
    requires CanOpen(led, user, filename) && led' == RevokeLedger(led, user, filename, recipient)
    requires FilesStored(led', st')
    ensures SealedUnder(st', Random(FileOf(led, user, filename)), FileKey(led.next))
  {
    var i := FileOf(led, user, filename);
    assert StoredAs(st', Random(i), InodeOf(led'.files[i]));
  }

  /**
   Who can know the new file key.  After a successful revocation in any reachable world, take every payload
   the store was ever given, overwritten ones included, and every user's own keys.  The key that now seals
   the file can be worked out by the revoker and by the direct children that were kept, and by no one else:
   not by the revoked recipient, nor by anybody the recipient or a kept child ever shared the file with.
   */
  lemma NewKeyKnownExactly(op: Op, access: Access, x: string, w: World, w': World)
    requires Confidential(w) && w' == Step(w, op)
    requires op.Revoke? && Succeeds(w, op) && OpenAccess(w.st, Caller(w, op), op.filename) == Success(access)
    ensures Opened(w.st, Caller(w, op), op.filename).Some?
    ensures SealedUnder(w'.st, Opened(w.st, Caller(w, op), op.filename).value, FileKey(w.st.next))
    ensures Knows(w'.led, w'.st.log, x, FileSecret(w.st.next))
       <==> x == Caller(w, op).username || (x in access.children && x != op.recipient)
  {
    var user := Caller(w, op);
    RevokeInv(w, op);
    HolderOpensAccess(w.led, w.st, user, op.filename);
    OpenedAgrees(w.led, w.st, user, op.filename);
    RevokeStepKnown(w.led, w.st, user, op.filename, op.recipient, x);
    RevokedInode(w.led, user, op.filename, op.recipient, w'.led, w'.st);
  }
}
