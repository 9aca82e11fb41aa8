/**
 What a user could ever find out.

 A user knows its private keys and the mailbox keys it drew itself, sees everything the store was ever
 given, opens any payload whose key it knows and learns the keys inside.  After a revocation the new file
 key is known to exactly the revoker and its remaining direct children.
 */
module Secrecy {
  import opened Blocks
  import opened Records
  import opened Protocol
  import opened Ledgers
  import opened LedgerSteps
  import opened Refinement
  import opened RefineFiles
  import opened RefineSharing
  import opened RefineRevoke

  // ---------- knowledge ----------

  datatype Secret = MasterSecret(master: Master) | PkeSecret(n: nat) | FileSecret(n: nat) | MailSecret(n: nat)

  /** The key material that opens a payload; a master key derives the user and personal keys. */
  function Opener(p: Payload): Secret {
    match p
    case Signed(to, _, _) => PkeSecret(to)
    case Sealed(UserKey(m), _) => MasterSecret(m)
    case Sealed(PersonalKey(m, _), _) => MasterSecret(m)
    case Sealed(FileKey(n), _) => FileSecret(n)
    case Sealed(MailKey(n), _) => MailSecret(n)
  }

  ghost predicate Reveals(p: Payload, x: Secret) {
    match p
    case Signed(_, _, invitation) => x == MailSecret(invitation.key)
    case Sealed(_, UserRec(user)) => x == MasterSecret(user.master) || x == PkeSecret(user.pke)
    case Sealed(_, AccessRec(access)) =>
      x == MailSecret(access.key) || exists c :: c in access.children && x == MailSecret(access.children[c].key)
    case Sealed(_, MailboxRec(node)) => x == FileSecret(node.fileKey)
    case Sealed(_, InodeRec(_)) => false
    case Sealed(_, BlockRec(_)) => false
  }

  /** One payload of the log leads from one secret to the next. */
  ghost predicate Leads(log: set<Payload>, x: Secret, y: Secret) {
    exists p :: p in log && Opener(p) == x && Reveals(p, y)
  }

  ghost predicate Trail(log: set<Payload>, trail: seq<Secret>) {
    forall i :: 0 < i < |trail| ==> Leads(log, trail[i - 1], trail[i])
  }

  /** What user `x` starts from: its private keys, and every mailbox key that was drawn in its sessions. */
  ghost predicate Own(led: Ledger, x: string, y: Secret) {
    match y
    case MasterSecret(m) => x in led.accounts && m == led.accounts[x].master
    case PkeSecret(n) => x in led.accounts && n == led.accounts[x].pke
    case MailSecret(n) => exists m :: m in led.mails && led.mails[m].key == n && led.mails[m].origin.maker == x
    case FileSecret(_) => false
  }

  /** The least set that contains the user's own secrets and is closed under opening payloads. */
  ghost predicate Knows(led: Ledger, log: set<Payload>, x: string, y: Secret) {
    exists trail: seq<Secret> :: |trail| > 0 && Own(led, x, trail[0]) && trail[|trail| - 1] == y && Trail(log, trail)
  }

  /** A set of secrets that contains the user's own and that no payload leads out of. */
  ghost predicate ClosedUnder(led: Ledger, log: set<Payload>, x: string, safe: Secret -> bool) {
    && (forall y | Own(led, x, y) :: safe(y))
    && forall y, z | safe(y) && Leads(log, y, z) :: safe(z)
  }

  lemma {:induction false} TrailStaysSafe(led: Ledger, log: set<Payload>, x: string, safe: Secret -> bool,
                                          trail: seq<Secret>, k: nat)
    requires ClosedUnder(led, log, x, safe) && |trail| > 0 && Own(led, x, trail[0]) && Trail(log, trail) && k < |trail|
    ensures safe(trail[k])
  {
    if k > 0 {
      TrailStaysSafe(led, log, x, safe, trail, k - 1);
      assert Leads(log, trail[k - 1], trail[k]);
    }
  }

  // ---------- who may read which mailbox key ----------

  ghost predicate KeyInUse(led: Ledger, key: nat) {
    key in led.roles && led.roles[key].MailKeyRole? && led.roles[key].mailbox in led.mails
  }

  /** A signed invitation to the mailbox was written.  It is not when the recipient turns out to be unknown. */
  ghost predicate Sent(led: Ledger, m: nat) {
    exists n :: n in led.invs && led.invs[n].mailbox == m
  }

  ghost predicate MayRead(led: Ledger, x: string, key: nat) {
    && KeyInUse(led, key)
    && var m := led.roles[key].mailbox;
       led.mails[m].origin.maker == x || (led.mails[m].origin.Invited? && led.mails[m].origin.to == x && Sent(led, m))
  }

  /** Every payload ever written gives mailbox keys only to their two readers. */
  ghost predicate PayloadOK(led: Ledger, p: Payload) {
    match p
    case Signed(to, _, invitation) =>
      to in led.roles && led.roles[to].PkeRole? && MayRead(led, led.roles[to].username, invitation.key)
    case Sealed(UserKey(m), UserRec(user)) => Registered(led, user) && m == user.master
    case Sealed(PersonalKey(m, _), AccessRec(access)) =>
      MayRead(led, m.username, access.key) && forall c | c in access.children ::
        MayRead(led, m.username, access.children[c].key)
    case Sealed(MailKey(k), MailboxRec(node)) => KeyInUse(led, k) && Has(led, node.fileKey, FileKeyRole)
    case Sealed(FileKey(_), InodeRec(_)) => true
    case Sealed(FileKey(_), BlockRec(_)) => true
    case _ => false
  }

  ghost predicate LogOK(led: Ledger, log: set<Payload>) {
    forall p | p in log :: PayloadOK(led, p)
  }

  /** A Children entry was made by the record's user for the user it names, with an invitation to prove it. */
  ghost predicate EntryOK(led: Ledger, log: set<Payload>, rec: RecInfo, c: string)
    requires c in rec.children
  {
    var m, maker := rec.children[c], rec.master.username;
    && m in led.mails && led.mails[m].origin.Invited? && led.mails[m].origin.maker == maker
       && led.mails[m].origin.to == c
    && maker in led.accounts && c in led.accounts
    && InvitationOf(led, InvInfo(maker, c, m)) in log
  }

  ghost predicate EntriesOK(led: Ledger, log: set<Payload>) {
    forall s, c | s in led.recs && c in led.recs[s].children :: EntryOK(led, log, led.recs[s], c)
  }

  /** A record's own mailbox may be read by the record's user. */
  ghost predicate OwnMailOK(led: Ledger) {
    forall s | s in led.recs :: MayRead(led, led.recs[s].master.username, MailKeyOf(led, led.recs[s].mailbox))
  }

  ghost predicate Guarded(led: Ledger, log: set<Payload>) {
    LogOK(led, log) && EntriesOK(led, log) && OwnMailOK(led)
  }

  // ---------- growth ----------

  lemma MayReadKept(led: Ledger, led': Ledger, x: string, key: nat)
    requires Grows(led, led') && MayRead(led, x, key)
    ensures MayRead(led', x, key)
  {
  }

  lemma PayloadKept(led: Ledger, led': Ledger, p: Payload)
    requires Grows(led, led') && PayloadOK(led, p)
    ensures PayloadOK(led', p)
  {
  }

  lemma LogWith(led: Ledger, led': Ledger, log: set<Payload>, log': set<Payload>)
    requires Grows(led, led') && LogOK(led, log)
    requires forall p | p in log' :: p in log || PayloadOK(led', p)
    ensures LogOK(led', log')
  {
    forall p | p in log'
      ensures PayloadOK(led', p)
    {
      if p in log {
        PayloadKept(led, led', p);
      }
    }
  }

  lemma EntryKept(led: Ledger, led': Ledger, log: set<Payload>, log': set<Payload>, rec: RecInfo, c: string)
    requires Grows(led, led') && log <= log' && c in rec.children && EntryOK(led, log, rec, c)
    ensures EntryOK(led', log', rec, c)
  {
  }

  lemma EntriesWith(led: Ledger, led': Ledger, log: set<Payload>, log': set<Payload>, s: UUID, rec: RecInfo,
                    gone: set<UUID>)
    requires Grows(led, led') && log <= log' && EntriesOK(led, log) && OwnMailOK(led) && RecsOK(led)
    requires led'.recs == led.recs[s := rec] - gone
    requires forall c | c in rec.children :: EntryOK(led', log', rec, c)
    requires MayRead(led', rec.master.username, MailKeyOf(led', rec.mailbox))
    ensures EntriesOK(led', log') && OwnMailOK(led')
  {
    forall k, c | k in led'.recs && c in led'.recs[k].children
      ensures EntryOK(led', log', led'.recs[k], c)
    {
      if k != s {
        EntryKept(led, led', log, log', led.recs[k], c);
      }
    }
    forall k | k in led'.recs
      ensures MayRead(led', led'.recs[k].master.username, MailKeyOf(led', led'.recs[k].mailbox))
    {
      if k != s {
        assert RecOK(led, k, led.recs[k]);
        MayReadKept(led, led', led.recs[k].master.username, MailKeyOf(led, led.recs[k].mailbox));
      }
    }
  }

  lemma EntriesSame(led: Ledger, led': Ledger, log: set<Payload>, log': set<Payload>)
    requires Grows(led, led') && log <= log' && EntriesOK(led, log) && OwnMailOK(led) && RecsOK(led)
    requires led'.recs == led.recs
    ensures EntriesOK(led', log') && OwnMailOK(led')
  {
    forall k, c | k in led.recs && c in led.recs[k].children
      ensures EntryOK(led', log', led'.recs[k], c)
    {
      EntryKept(led, led', log, log', led.recs[k], c);
    }
    forall k | k in led.recs
      ensures MayRead(led', led'.recs[k].master.username, MailKeyOf(led', led'.recs[k].mailbox))
    {
      assert RecOK(led, k, led.recs[k]);
      MayReadKept(led, led', led.recs[k].master.username, MailKeyOf(led, led.recs[k].mailbox));
    }
  }

  // ---------- every operation writes only guarded payloads ----------

  /** A record's sealed form is guarded when its own mailbox and its entries are. */
  lemma AccessPayloadOK(led: Ledger, log: set<Payload>, rec: RecInfo)
    requires MailsOK(led) && MayRead(led, rec.master.username, MailKeyOf(led, rec.mailbox))
    requires forall c | c in rec.children :: EntryOK(led, log, rec, c)
    ensures PayloadOK(led, AccessPayload(led, rec))
  {
    var access := AccessOf(led, rec);
    forall c | c in access.children
      ensures MayRead(led, rec.master.username, access.children[c].key)
    {
      assert EntryOK(led, log, rec, c);
      assert MailOK(led, rec.children[c], led.mails[rec.children[c]]);
    }
  }

  /** Besides blocks and inodes, only the payloads `ps` are new in the log. */
  ghost predicate OnlyThese(log: set<Payload>, log': set<Payload>, ps: set<Payload>) {
    && log <= log'
    && forall p | p in log' ::
         p in log || p in ps || (p.Sealed? && p.lock.FileKey? && (p.plain.BlockRec? || p.plain.InodeRec?))
  }

  lemma LogFrom(led: Ledger, led': Ledger, log: set<Payload>, log': set<Payload>, ps: set<Payload>)
    requires Grows(led, led') && LogOK(led, log) && OnlyThese(log, log', ps)
    requires forall p | p in ps :: PayloadOK(led', p)
    ensures LogOK(led', log')
  {
    LogWith(led, led', log, log');
  }

  function StoredNode(n: nat): Payload {
    Sealed(MailKey(n + 3), MailboxRec(MailboxNode(n, Random(n + 1))))
  }

  function StoredAccess(n: nat, user: UserData, filename: string): Payload {
    Sealed(PersonalKey(user.master, filename), AccessRec(Access(Random(n + 2), n + 3, map[])))
  }

  function StoredUser(user: UserData, filename: string): Payload {
    Sealed(UserKey(user.master), UserRec(WithFile(user, filename)))
  }

  /** The mailbox, the access record and the user record that StoreFile writes besides blocks and the inode. */
  function StoredPayloads(n: nat, user: UserData, filename: string): set<Payload> {
    {StoredNode(n), StoredAccess(n, user, filename), StoredUser(user, filename)}
  }

  lemma StoreLogParts(st: State, user: UserData, filename: string, content: seq<byte>, st2: State, inode: Payload)
    requires st2 == BeforeBlocks(st, user, filename)
    requires inode == Sealed(FileKey(st.next), InodeRec(Inode(|content|, FreshIds(st2.next, |Chunks(content)|))))
    ensures st2.log == st.log + {StoredNode(st.next)} + {StoredAccess(st.next, user, filename)}
    ensures StoreFile(st, user, filename, content).st.log
         == PutBlocks(st2, Chunks(content), st.next).log + {inode} + {StoredUser(user, filename)}
  {
  }

  lemma StoreLog(st: State, user: UserData, filename: string, content: seq<byte>)
    ensures OnlyThese(st.log, StoreFile(st, user, filename, content).st.log, StoredPayloads(st.next, user, filename))
  {
    var st2, chunks := BeforeBlocks(st, user, filename), Chunks(content);
    var inode := Sealed(FileKey(st.next), InodeRec(Inode(|content|, FreshIds(st2.next, |chunks|))));
    StoreLogParts(st, user, filename, content, st2, inode);
    PutBlocksWrites(st2, chunks, st.next);
    var st3 := PutBlocks(st2, chunks, st.next);
    assert forall p | p in st3.log :: p in st2.log || p in st3.log - st2.log;
  }

  lemma StoreGuarded(led: Ledger, user: UserData, filename: string, led': Ledger, log: set<Payload>, log': set<Payload>,
                     ps: set<Payload>, rec: RecInfo)
    requires RecsOK(led) && Guarded(led, log) && Grows(led, led') && OnlyThese(log, log', ps)
    requires forall p | p in ps :: PayloadOK(led', p)
    requires led'.recs == WithRec(led, user, filename, rec) && rec.children == map[]
    requires MayRead(led', rec.master.username, MailKeyOf(led', rec.mailbox))
    ensures Guarded(led', log')
  {
    LogFrom(led, led', log, log', ps);
    FreshRecordEntries(led, user, filename, led', log, log', rec);
  }

  /** A rewritten record without children. */
  lemma FreshRecordEntries(led: Ledger, user: UserData, filename: string, led': Ledger,
                           log: set<Payload>, log': set<Payload>, rec: RecInfo)
    requires Grows(led, led') && log <= log' && EntriesOK(led, log) && OwnMailOK(led) && RecsOK(led)
    requires led'.recs == WithRec(led, user, filename, rec) && rec.children == map[]
    requires MayRead(led', rec.master.username, MailKeyOf(led', rec.mailbox))
    ensures EntriesOK(led', log') && OwnMailOK(led')
  {
    EntriesWith(led, led', log, log', AccessUUID(user.username, filename), rec, {UserUUID(user.username)});
  }

  /** What a StoreFile leaves on the ledger for the secrecy argument. */
  ghost predicate StoreShape(led: Ledger, user: UserData, filename: string, led': Ledger) {
    && Has(led', led.next, FileKeyRole) && Has(led', led.next + 3, MailKeyRole(led.next + 2))
       && led'.accounts == led.accounts
    && led.next + 2 in led'.mails && led'.mails[led.next + 2].key == led.next + 3
    && led'.mails[led.next + 2].origin == Stored(user.username)
    && led'.recs == WithRec(led, user, filename, RecInfo(user.master, filename, led.next + 2, map[]))
  }

  lemma StoreHasShape(led: Ledger, user: UserData, filename: string, content: seq<byte>)
    ensures StoreShape(led, user, filename, StoreLedger(led, user, filename, content))
  {
  }

  lemma StorePayloads(led: Ledger, n: nat, user: UserData, filename: string, led': Ledger)
    requires AccountsOK(led) && Registered(led, user) && led'.accounts == led.accounts
    requires Has(led', n, FileKeyRole) && Has(led', n + 3, MailKeyRole(n + 2))
    requires n + 2 in led'.mails && led'.mails[n + 2].key == n + 3 && led'.mails[n + 2].origin == Stored(user.username)
    ensures MayRead(led', user.master.username, n + 3)
    ensures forall p | p in StoredPayloads(n, user, filename) :: PayloadOK(led', p)
  {
    assert user.master.username == user.username;
  }

  lemma AppendGuarded(led: Ledger, st: State, i: nat, content: seq<byte>, led': Ledger, st': State)
    requires RecsOK(led) && Guarded(led, st.log) && Grows(led, led') && i in led.files && led'.recs == led.recs
    requires st' == AppendedState(st, i, led.files[i], content)
    ensures Guarded(led', st'.log)
  {
    var file, chunks := led.files[i], Chunks(content);
    PutBlocksWrites(st, chunks, file.key);
    var st1 := PutBlocks(st, chunks, file.key);
    assert forall p | p in st1.log :: p in st.log || p in st1.log - st.log;
    LogWith(led, led', st.log, st'.log);
    EntriesSame(led, led', st.log, st'.log);
  }

  lemma MailedPayloadOK(led: Ledger, m: nat, maker: string, recipient: string, node: MailboxNode, led1: Ledger)
    requires MailsOK(led) && m in led.mails && led1 == MailLedger(led, m, maker, recipient) && Grows(led, led1)
    requires node.fileKey == led.mails[m].fileKey
    ensures PayloadOK(led1, Sealed(MailKey(led.next + 1), MailboxRec(node))) && led1.recs == led.recs
  {
    assert MailOK(led, m, led.mails[m]);
  }

  /** One guarded payload more, and no record changed. */
  lemma OneMoreGuarded(led: Ledger, led': Ledger, log: set<Payload>, log': set<Payload>, p: Payload)
    requires RecsOK(led) && Guarded(led, log) && Grows(led, led') && led'.recs == led.recs
    requires log' == log + {p} && PayloadOK(led', p)
    ensures Guarded(led', log')
  {
    LogWith(led, led', log, log');
    EntriesSame(led, led', log, log');
  }

  lemma MailedGuarded(led: Ledger, st: State, m: nat, maker: string, recipient: string, node: MailboxNode, led1: Ledger)
    requires RecsOK(led) && MailsOK(led) && Guarded(led, st.log) && m in led.mails
    requires led1 == MailLedger(led, m, maker, recipient) && Grows(led, led1) && node.fileKey == led.mails[m].fileKey
    requires led.next == st.next
    ensures Guarded(led1, Mailed(st, node).log)
  {
    MailedPayloadOK(led, m, maker, recipient, node, led1);
    OneMoreGuarded(led, led1, st.log, Mailed(st, node).log, Sealed(MailKey(led.next + 1), MailboxRec(node)));
  }

  /** The new Children entry is the linked mailbox; the others were there before. */
  lemma LinkedEntries(led: Ledger, log: set<Payload>, s: UUID, m: nat, user: UserData, recipient: string, led': Ledger,
                      log': set<Payload>, rec: RecInfo)
    requires RecsOK(led) && EntriesOK(led, log) && OwnMailOK(led) && Registered(led, user) && Grows(led, led')
    requires log <= log'
    requires Linkable(led, s, m, user.username, recipient) && led.recs[s].master == user.master
    requires user.master.username == user.username
    requires rec == led.recs[s].(children := led.recs[s].children[recipient := m])
    requires led'.recs == led.recs[s := rec] - {}
    requires InvitationOf(led, InvInfo(user.username, recipient, m)) in log'
    ensures forall c | c in rec.children :: EntryOK(led', log', rec, c)
    ensures EntriesOK(led', log') && OwnMailOK(led') && MayRead(led', rec.master.username, MailKeyOf(led', rec.mailbox))
  {
    assert InvitationOf(led', InvInfo(user.username, recipient, m))
           == InvitationOf(led, InvInfo(user.username, recipient, m));
    forall c | c in rec.children
      ensures EntryOK(led', log', rec, c)
    {
      if c != recipient {
        EntryKept(led, led', log, log', led.recs[s], c);
      }
    }
    MayReadKept(led, led', user.username, MailKeyOf(led, rec.mailbox));
    EntriesWith(led, led', log, log', s, rec, {});
  }

  lemma InvitationPayloadOK(led: Ledger, m: nat, user: UserData, recipient: string, led': Ledger)
    requires MailsOK(led) && AccountsOK(led) && Registered(led, user) && m in led.mails && recipient in led.accounts
    requires led.mails[m].origin.Invited? && led.mails[m].origin.to == recipient && Grows(led, led') && Sent(led', m)
    ensures PayloadOK(led', InvitationOf(led, InvInfo(user.username, recipient, m)))
  {
    assert MailOK(led, m, led.mails[m]);
    assert Has(led, led.accounts[recipient].pke, PkeRole(recipient));
  }

  lemma LogWithTwo(led: Ledger, led': Ledger, log: set<Payload>, log': set<Payload>, p: Payload, q: Payload)
    requires Grows(led, led') && LogOK(led, log) && PayloadOK(led', p) && PayloadOK(led', q) && log' == log + {p} + {q}
    ensures LogOK(led', log')
  {
    LogWith(led, led', log, log');
  }

  lemma LinkedLogOK(led: Ledger, log: set<Payload>, m: nat, user: UserData, recipient: string, led': Ledger,
                    log': set<Payload>, rec: RecInfo, access: Payload)
    requires MailsOK(led) && MailsOK(led') && AccountsOK(led) && LogOK(led, log) && Registered(led, user)
    requires Grows(led, led')
    requires m in led.mails && recipient in led.accounts && Sent(led', m)
    requires led.mails[m].origin.Invited? && led.mails[m].origin.to == recipient
    requires forall c | c in rec.children :: EntryOK(led', log', rec, c)
    requires MayRead(led', rec.master.username, MailKeyOf(led', rec.mailbox)) && access == AccessPayload(led', rec)
    requires log' == log + {InvitationOf(led, InvInfo(user.username, recipient, m))} + {access}
    ensures LogOK(led', log')
  {
    InvitationPayloadOK(led, m, user, recipient, led');
    AccessPayloadOK(led', log', rec);
    LogWithTwo(led, led', log, log', InvitationOf(led, InvInfo(user.username, recipient, m)), access);
  }

  lemma LinkedGuarded(led: Ledger, st: State, s: UUID, m: nat, user: UserData, recipient: string, led': Ledger,
                      st': State, rec: RecInfo)
    requires MailsOK(led) && RecsOK(led) && AccountsOK(led) && Guarded(led, st.log) && Registered(led, user)
    requires Linkable(led, s, m, user.username, recipient) && led.recs[s].master == user.master
    requires user.master.username == user.username
    requires rec == led.recs[s].(children := led.recs[s].children[recipient := m])
    requires led'.recs == led.recs[s := rec] - {} && Grows(led, led') && MailsOK(led') && Sent(led', m)
    requires st'.log == st.log + {InvitationOf(led, InvInfo(user.username, recipient, m))} + {AccessPayload(led', rec)}
    ensures Guarded(led', st'.log)
  {
    LinkedEntries(led, st.log, s, m, user, recipient, led', st'.log, rec);
    LinkedLogOK(led, st.log, m, user, recipient, led', st'.log, rec, AccessPayload(led', rec));
  }

  lemma AcceptGuarded(led: Ledger, st: State, user: UserData, filename: string, m: nat, rec: RecInfo, led': Ledger,
                      st': State)
    requires MailsOK(led) && RecsOK(led) && AccountsOK(led) && Guarded(led, st.log) && Registered(led, user)
    requires Grows(led, led')
    requires m in led.mails && led.mails[m].origin.Invited? && led.mails[m].origin.to == user.username && Sent(led, m)
    requires rec == RecInfo(user.master, filename, m, map[]) && MailsOK(led')
    requires led'.recs == WithRec(led, user, filename, rec)
    requires st'.log == st.log + {AccessPayload(led', rec)}
             + {Sealed(UserKey(user.master), UserRec(WithFile(user, filename)))}
    ensures Guarded(led', st'.log)
  {
    assert MailOK(led, m, led.mails[m]);
    assert user.master.username == user.username;
    MayReadKept(led, led', user.username, MailKeyOf(led, m));
    AccessPayloadOK(led', st'.log, rec);
    LogWithTwo(led, led', st.log, st'.log, AccessPayload(led', rec),
               Sealed(UserKey(user.master), UserRec(WithFile(user, filename))));
    FreshRecordEntries(led, user, filename, led', st.log, st'.log, rec);
  }

  /** The revoked record: fewer children, a new mailbox of the revoker's. */
  lemma RevokedEntries(led: Ledger, log: set<Payload>, s: UUID, rec: RecInfo, recipient: string, led': Ledger,
                       log': set<Payload>, rec': RecInfo, home: UUID)
    requires RecsOK(led) && EntriesOK(led, log) && OwnMailOK(led) && Grows(led, led') && log <= log'
    requires s in led.recs && rec == led.recs[s] && rec'.children == rec.children - {recipient}
    requires rec'.master == rec.master
    requires led'.recs == led.recs[s := rec'] - {home}
    requires MayRead(led', rec'.master.username, MailKeyOf(led', rec'.mailbox))
    ensures forall c | c in rec'.children :: EntryOK(led', log', rec', c)
    ensures EntriesOK(led', log') && OwnMailOK(led')
  {
    forall c | c in rec'.children
      ensures EntryOK(led', log', rec', c)
    {
      EntryKept(led, led', log, log', rec, c);
    }
    EntriesWith(led, led', log, log', s, rec', {home});
  }

  lemma RekeyedNodeOK(led: Ledger, led': Ledger, rec: RecInfo, recipient: string, p: Payload)
    requires MailsOK(led) && Grows(led, led') && RekeyedNode(led, rec, recipient, p) && Has(led', led.next, FileKeyRole)
    ensures PayloadOK(led', p)
  {
    var m :| m in led.mails && Kept(rec, recipient, m) && p == NodeOf(led.mails[m].(fileKey := led.next));
    assert MailOK(led, m, led.mails[m]);
  }

  lemma StagesLogOK(led: Ledger, st: State, recipient: string, i: nat, rec: RecInfo, mail: MailInfo, led': Ledger,
                    st3: State)
    requires MailsOK(led) && LogOK(led, st.log) && Grows(led, led') && LogWrites(led, st, st3, i, rec, recipient, mail)
    requires Has(led', led.next, FileKeyRole) && mail.fileKey == led.next && KeyInUse(led', mail.key)
    ensures LogOK(led', st3.log)
  {
    forall p | p in st3.log
      ensures p in st.log || PayloadOK(led', p)
    {
      if RekeyedNode(led, rec, recipient, p) {
        RekeyedNodeOK(led, led', rec, recipient, p);
      }
    }
    LogWith(led, led', st.log, st3.log);
  }

  lemma TwoMore(led: Ledger, log: set<Payload>, p: Payload, q: Payload)
    requires LogOK(led, log) && PayloadOK(led, p) && PayloadOK(led, q)
    ensures LogOK(led, log + {p} + {q})
  {
  }

  lemma RevokedGuarded(led: Ledger, st: State, user: UserData, filename: string, recipient: string, i: nat, s: UUID,
                       rec: RecInfo, mail: MailInfo, rec': RecInfo, led': Ledger, st3: State, log': set<Payload>,
                       access: Payload, home: Payload)
    requires MailsOK(led) && RecsOK(led) && Guarded(led, st.log) && Grows(led, led') && MailsOK(led')
    requires LogWrites(led, st, st3, i, rec, recipient, mail)
    requires s in led.recs && rec == led.recs[s] && rec'.children == rec.children - {recipient}
    requires rec'.master == rec.master
    requires led'.recs == led.recs[s := rec'] - {UserUUID(user.username)}
    requires Has(led', led.next, FileKeyRole) && mail.fileKey == led.next && KeyInUse(led', mail.key)
    requires MayRead(led', rec'.master.username, MailKeyOf(led', rec'.mailbox))
    requires access == AccessPayload(led', rec') && PayloadOK(led', home) && log' == st3.log + {access} + {home}
    ensures Guarded(led', log')
  {
    StagesLogOK(led, st, recipient, i, rec, mail, led', st3);
    RevokedEntries(led, st.log, s, rec, recipient, led', log', rec', UserUUID(user.username));
    AccessPayloadOK(led', log', rec');
    TwoMore(led', st3.log, access, home);
  }
}
