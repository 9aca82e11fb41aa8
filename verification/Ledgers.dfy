/**
 The ledger: what the sealed store means, with every key and every role written out.

 `Represents(led, st)` says that the store holds exactly the sealed form of the ledger.  The operations
 of module Protocol are shown to act on a represented store as the ledger operations below act on the
 ledger, so that everything about who can read what can be argued without any sealing.
 */
module Ledgers {
  import opened Blocks
  import opened Records
  import opened Protocol

  /** What each drawn name is used for.  Being a map, it keeps all uses apart. */
  datatype Role =
    | FileRole
    | BlockRole(file: nat, index: nat)
    | FileKeyRole
    | MailRole
    | MailKeyRole(mailbox: nat)
    | InvitationRole
    | PkeRole(username: string)
    | DsRole(username: string)

  /** How a mailbox came to be. */
  datatype Origin =
    | Stored(maker: string)
    | Invited(from: nat, maker: string, to: string)
    | Rotated(from: nat, maker: string)

  datatype FileInfo = FileInfo(key: nat, blocks: seq<UUID>, chunks: seq<seq<byte>>)
  datatype MailInfo = MailInfo(key: nat, file: nat, fileKey: nat, origin: Origin)
  datatype RecInfo = RecInfo(master: Master, filename: string, mailbox: nat, children: map<string, nat>)
  datatype InvInfo = InvInfo(maker: string, to: string, mailbox: nat)
  datatype Account = Account(master: Master, pke: nat, ds: nat)

  datatype Ledger = Ledger(
    next: nat,
    roles: map<nat, Role>,
    files: map<nat, FileInfo>,
    mails: map<nat, MailInfo>,
    recs: map<UUID, RecInfo>,
    invs: map<nat, InvInfo>,
    accounts: map<string, Account>)

  // ---------- well-formed ledgers ----------

  ghost predicate Has(led: Ledger, n: nat, role: Role) {
    n in led.roles && led.roles[n] == role
  }

  ghost predicate FilesOK(led: Ledger) {
    forall i | i in led.files :: FileOK(led, i, led.files[i])
  }

  ghost predicate FileOK(led: Ledger, i: nat, file: FileInfo) {
    && Has(led, i, FileRole)
    && Has(led, file.key, FileKeyRole)
    && |file.blocks| == |file.chunks|
    && WellSized(file.chunks)
    && forall j :: 0 <= j < |file.blocks| ==> file.blocks[j].Random? && Has(led, file.blocks[j].n, BlockRole(i, j))
  }

  ghost predicate MailsOK(led: Ledger) {
    forall m | m in led.mails :: MailOK(led, m, led.mails[m])
  }

  ghost predicate MailOK(led: Ledger, m: nat, mail: MailInfo) {
    && Has(led, m, MailRole)
    && Has(led, mail.key, MailKeyRole(m))
    && Has(led, mail.fileKey, FileKeyRole)
    && mail.file in led.files
  }

  ghost predicate RecsOK(led: Ledger) {
    forall s | s in led.recs :: RecOK(led, s, led.recs[s])
  }

  ghost predicate RecOK(led: Ledger, s: UUID, rec: RecInfo) {
    && s == AccessUUID(rec.master.username, rec.filename)
    && rec.master.username in led.accounts && led.accounts[rec.master.username].master == rec.master
    && rec.mailbox in led.mails
    && forall c | c in rec.children ::
         rec.children[c] in led.mails && led.mails[rec.children[c]].file == led.mails[rec.mailbox].file
  }

  ghost predicate InvsOK(led: Ledger) {
    forall n | n in led.invs :: InvOK(led, n, led.invs[n])
  }

  ghost predicate InvOK(led: Ledger, n: nat, inv: InvInfo) {
    && Has(led, n, InvitationRole)
    && inv.maker in led.accounts && inv.to in led.accounts
    && inv.mailbox in led.mails
    && led.mails[inv.mailbox].origin.Invited?
    && led.mails[inv.mailbox].origin.maker == inv.maker && led.mails[inv.mailbox].origin.to == inv.to
  }

  ghost predicate AccountsOK(led: Ledger) {
    forall u | u in led.accounts ::
      && led.accounts[u].master.username == u
      && Has(led, led.accounts[u].pke, PkeRole(u))
      && Has(led, led.accounts[u].ds, DsRole(u))
  }

  ghost predicate RolesOK(led: Ledger) {
    forall n | n in led.roles :: n < led.next
  }

  ghost predicate WellFormed(led: Ledger) {
    && RolesOK(led) && FilesOK(led) && MailsOK(led) && RecsOK(led) && InvsOK(led) && AccountsOK(led)
  }

  /** The in-memory user of a session belongs to a registered account. */
  ghost predicate Registered(led: Ledger, user: UserData) {
    user.username in led.accounts && led.accounts[user.username] == Account(user.master, user.pke, user.ds)
  }

  // ---------- the sealed form of a ledger ----------

  function MailKeyOf(led: Ledger, m: nat): nat {
    if m in led.mails then led.mails[m].key else 0
  }

  ghost predicate StoredAs(st: State, u: UUID, p: Payload) {
    u in st.store && st.store[u] == p
  }

  function InodeOf(file: FileInfo): Payload {
    Sealed(FileKey(file.key), InodeRec(Inode(|Flatten(file.chunks)|, file.blocks)))
  }

  function NodeOf(mail: MailInfo): Payload {
    Sealed(MailKey(mail.key), MailboxRec(MailboxNode(mail.fileKey, Random(mail.file))))
  }

  function AccessOf(led: Ledger, rec: RecInfo): Access {
    Access(Random(rec.mailbox), MailKeyOf(led, rec.mailbox),
           map c | c in rec.children :: ChildInfo(Random(rec.children[c]), MailKeyOf(led, rec.children[c])))
  }

  ghost predicate FilesStored(led: Ledger, st: State) {
    forall i | i in led.files :: StoredAs(st, Random(i), InodeOf(led.files[i]))
  }

  ghost predicate BlocksStored(led: Ledger, st: State) {
    forall i | i in led.files :: FileBlocksStored(st, led.files[i])
  }

  ghost predicate FileBlocksStored(st: State, file: FileInfo) {
    |file.blocks| == |file.chunks| &&
    forall j :: 0 <= j < |file.blocks| ==>
      StoredAs(st, file.blocks[j], Sealed(FileKey(file.key), BlockRec(file.chunks[j])))
  }

  ghost predicate MailsStored(led: Ledger, st: State) {
    forall m | m in led.mails :: StoredAs(st, Random(m), NodeOf(led.mails[m]))
  }

  ghost predicate RecsStored(led: Ledger, st: State) {
    forall s | s in led.recs ::
      StoredAs(st, s,
               Sealed(PersonalKey(led.recs[s].master, led.recs[s].filename), AccessRec(AccessOf(led, led.recs[s]))))
  }

  function InvitationOf(led: Ledger, inv: InvInfo): Payload
    requires inv.maker in led.accounts && inv.to in led.accounts
  {
    Signed(led.accounts[inv.to].pke, led.accounts[inv.maker].ds,
           Invitation(Random(inv.mailbox), MailKeyOf(led, inv.mailbox)))
  }

  ghost predicate InvsStored(led: Ledger, st: State) {
    && (forall n | n in led.invs ::
      && led.invs[n].maker in led.accounts && led.invs[n].to in led.accounts
      && StoredAs(st, Random(n), InvitationOf(led, led.invs[n])))
    && forall u | u in st.store && st.store[u].Signed? :: u.Random? && u.n in led.invs
  }

  /** Under a hashed UUID there is either an access record of the ledger or a user record. */
  ghost predicate NamedStored(led: Ledger, st: State) {
    && (forall s | s in st.store && s.Named? && s !in led.recs :: UserStored(led, s, st.store[s]))
    && forall u | u in led.accounts :: UserUUID(u) in st.store
  }

  ghost predicate UserStored(led: Ledger, s: UUID, p: Payload) {
    && p.Sealed? && p.plain.UserRec?
    && s == UserUUID(p.plain.user.username)
    && Registered(led, p.plain.user)
    && p.lock == UserKey(p.plain.user.master)
  }

  ghost predicate KeysPublished(led: Ledger, st: State) {
    && (forall u: string ::
          (EncName(u) in st.keys <==> u in led.accounts) && (SigName(u) in st.keys <==> u in led.accounts))
    && forall u | u in led.accounts :: st.keys[EncName(u)] == PKEPublic(led.accounts[u].pke)
                                        && st.keys[SigName(u)] == DSPublic(led.accounts[u].ds)
  }

  ghost predicate Represents(led: Ledger, st: State) {
    && led.next == st.next
    && FilesStored(led, st) && BlocksStored(led, st) && MailsStored(led, st)
    && RecsStored(led, st) && InvsStored(led, st) && NamedStored(led, st) && KeysPublished(led, st)
  }

  // ---------- the operations on ledgers ----------

  ghost predicate Holds(led: Ledger, user: UserData, filename: string) {
    var s := AccessUUID(user.username, filename);
    s in led.recs && led.recs[s].master == user.master && led.recs[s].filename == filename
  }

  ghost predicate Live(led: Ledger, m: nat) {
    m in led.mails && led.mails[m].file in led.files && led.mails[m].fileKey == led.files[led.mails[m].file].key
  }

  /** The file a live holder works on. */
  ghost predicate CanOpen(led: Ledger, user: UserData, filename: string) {
    Holds(led, user, filename) && Live(led, led.recs[AccessUUID(user.username, filename)].mailbox)
  }

  ghost function FileOf(led: Ledger, user: UserData, filename: string): nat
    requires CanOpen(led, user, filename)
  {
    led.mails[led.recs[AccessUUID(user.username, filename)].mailbox].file
  }

  predicate Drawn(first: nat, count: nat, n: nat) {
    first <= n < first + count
  }

  function BlockRoles(first: nat, count: nat, file: nat, index: nat): map<nat, Role> {
    map n | first <= n < first + count && Drawn(first, count, n) :: BlockRole(file, index + n - first)
  }

  /** The hashed UUID of the user record is written last, so it wins if a file name collides with it. */
  function WithRec(led: Ledger, user: UserData, filename: string, rec: RecInfo): map<UUID, RecInfo> {
    led.recs[AccessUUID(user.username, filename) := rec] - {UserUUID(user.username)}
  }

  function StoreLedger(led: Ledger, user: UserData, filename: string, content: seq<byte>): Ledger {
    var n, chunks := led.next, Chunks(content);
    led.(next := n + 4 + |chunks|,
         roles := led.roles[n := FileKeyRole][n + 1 := FileRole][n + 2 := MailRole][n + 3 := MailKeyRole(n + 2)]
                  + BlockRoles(n + 4, |chunks|, n + 1, 0),
         files := led.files[n + 1 := FileInfo(n, FreshIds(n + 4, |chunks|), chunks)],
         mails := led.mails[n + 2 := MailInfo(n + 3, n + 1, n, Stored(user.username))],
         recs := WithRec(led, user, filename, RecInfo(user.master, filename, n + 2, map[])))
  }

  ghost function AppendLedger(led: Ledger, user: UserData, filename: string, content: seq<byte>): Ledger {
    if !CanOpen(led, user, filename) then led
    else
      var i, chunks := FileOf(led, user, filename), Chunks(content);
      var file := led.files[i];
      led.(next := led.next + |chunks|,
           roles := led.roles + BlockRoles(led.next, |chunks|, i, |file.blocks|),
           files :=
             led.files[i := FileInfo(file.key, file.blocks + FreshIds(led.next, |chunks|), file.chunks + chunks)])
  }

  /** The recipient's mailbox copies the inviter's mailbox `m`, stale key included. */
  function CopyOf(led: Ledger, m: nat, maker: string, recipient: string): MailInfo
    requires m in led.mails
  {
    led.mails[m].(key := led.next + 1, origin := Invited(m, maker, recipient))
  }

  function MailLedger(led: Ledger, m: nat, maker: string, recipient: string): Ledger
    requires m in led.mails
  {
    led.(next := led.next + 2,
         roles := led.roles[led.next := MailRole][led.next + 1 := MailKeyRole(led.next)],
         mails := led.mails[led.next := CopyOf(led, m, maker, recipient)])
  }

  /** The signed invitation to mailbox `m`, and the entry for it in the record `s`. */
  function LinkLedger(led: Ledger, s: UUID, m: nat, maker: string, recipient: string): Ledger
    requires s in led.recs
  {
    led.(next := led.next + 1,
         roles := led.roles[led.next := InvitationRole],
         invs := led.invs[led.next := InvInfo(maker, recipient, m)],
         recs := led.recs[s := led.recs[s].(children := led.recs[s].children[recipient := m])] - {})
  }

  ghost function InviteLedger(led: Ledger, user: UserData, filename: string, recipient: string): Ledger {
    var s := AccessUUID(user.username, filename);
    if !Holds(led, user, filename) || led.recs[s].mailbox !in led.mails then led
    else
      var led1 := MailLedger(led, led.recs[s].mailbox, user.username, recipient);
      if recipient !in led.accounts then led1 else LinkLedger(led1, s, led.next, user.username, recipient)
  }

  /** An acceptance succeeds exactly on an invitation from that sender to this user. */
  ghost predicate Acceptable(led: Ledger, user: UserData, sender: string, ptr: UUID) {
    ptr.Random? && ptr.n in led.invs && led.invs[ptr.n].maker == sender && led.invs[ptr.n].to == user.username
  }

  ghost function AcceptLedger(led: Ledger, user: UserData, sender: string, ptr: UUID, filename: string): Ledger {
    if !Acceptable(led, user, sender, ptr) then led
    else led.(recs := WithRec(led, user, filename, RecInfo(user.master, filename, led.invs[ptr.n].mailbox, map[])))
  }

  /** The children's mailboxes that a revocation re-keys. */
  ghost predicate Kept(rec: RecInfo, recipient: string, m: nat) {
    exists c :: c in rec.children && c != recipient && rec.children[c] == m
  }

  ghost function RevokeLedger(led: Ledger, user: UserData, filename: string, recipient: string): Ledger {
    if !Holds(led, user, filename) || led.recs[AccessUUID(user.username, filename)].mailbox !in led.mails then led
    else
      var n, s := led.next, AccessUUID(user.username, filename);
      var led1 := led.(next := n + 1, roles := led.roles[n := FileKeyRole]);
      if !CanOpen(led, user, filename) then led1
      else
        var i, rec := FileOf(led, user, filename), led.recs[s];
        var kept := map m | m in led.mails :: if Kept(rec, recipient, m) then led.mails[m].(fileKey := n)
                    else led.mails[m];
        led1.(next := n + 3,
              roles := led1.roles[n + 1 := MailKeyRole(n + 2)][n + 2 := MailRole],
              files := led.files[i := led.files[i].(key := n)],
              mails := kept[n + 2 := MailInfo(n + 1, i, n, Rotated(rec.mailbox, user.username))],
              recs := WithRec(led, user, filename, rec.(mailbox := n + 2, children := rec.children - {recipient})))
  }

  function RegisterLedger(led: Ledger, username: string, password: string): Ledger {
    var n := led.next;
    led.(next := n + 2,
         roles := led.roles[n := PkeRole(username)][n + 1 := DsRole(username)],
         accounts := led.accounts[username := Account(Master(username, password), n, n + 1)])
  }
}
