/** Every ledger operation keeps the ledger well-formed. */
module LedgerSteps {
  import opened Blocks
  import opened Records
  import opened Ledgers

  ghost predicate Extends(roles: map<nat, Role>, roles': map<nat, Role>) {
    forall n | n in roles :: n in roles' && roles'[n] == roles[n]
  }

  /** What every operation keeps: roles, files, accounts, and everything about a mailbox but its file key. */
  ghost predicate Grows(led: Ledger, led': Ledger) {
    && led.next <= led'.next
    && Extends(led.roles, led'.roles)
    && (forall i | i in led.files :: i in led'.files)
    && (forall m | m in led.mails :: m in led'.mails && led'.mails[m].(fileKey := led.mails[m].fileKey) == led.mails[m])
    && (forall n | n in led.invs :: n in led'.invs && led'.invs[n] == led.invs[n])
    && (forall u | u in led.accounts :: u in led'.accounts && led'.accounts[u] == led.accounts[u])
  }

  lemma FileKeeps(led: Ledger, led': Ledger, i: nat, file: FileInfo)
    requires FileOK(led, i, file) && Extends(led.roles, led'.roles)
    ensures FileOK(led', i, file)
  {
    forall j | 0 <= j < |file.blocks|
      ensures Has(led', file.blocks[j].n, BlockRole(i, j))
    {
      assert Has(led, file.blocks[j].n, BlockRole(i, j));
    }
  }

  lemma MailKeeps(led: Ledger, led': Ledger, m: nat, mail: MailInfo)
    requires MailOK(led, m, mail) && Grows(led, led')
    ensures MailOK(led', m, mail)
  {
  }

  lemma RecKeeps(led: Ledger, led': Ledger, s: UUID, rec: RecInfo)
    requires RecOK(led, s, rec) && Grows(led, led')
    ensures RecOK(led', s, rec)
  {
  }

  lemma InvKeeps(led: Ledger, led': Ledger, n: nat, inv: InvInfo)
    requires InvOK(led, n, inv) && Grows(led, led')
    ensures InvOK(led', n, inv)
  {
  }

  lemma FilesWith(led: Ledger, led': Ledger, i: nat, file: FileInfo)
    requires FilesOK(led) && Grows(led, led')
    requires led'.files == led.files[i := file] && FileOK(led', i, file)
    ensures FilesOK(led')
  {
    forall k | k in led'.files
      ensures FileOK(led', k, led'.files[k])
    {
      if k != i {
        FileKeeps(led, led', k, led.files[k]);
      }
    }
  }

  /** One mailbox more, and a well-formed one. */
  ghost predicate MailAdded(led: Ledger, led': Ledger, m: nat, mail: MailInfo) {
    led'.mails == led.mails[m := mail] && MailOK(led', m, mail)
  }

  /** One record written, and a well-formed one; the records in `gone` are lost. */
  ghost predicate RecWritten(led: Ledger, led': Ledger, s: UUID, rec: RecInfo, gone: set<UUID>) {
    led'.recs == led.recs[s := rec] - gone && RecOK(led', s, rec)
  }

  lemma MailsWith(led: Ledger, led': Ledger, m: nat, mail: MailInfo)
    requires MailsOK(led) && Grows(led, led') && MailAdded(led, led', m, mail)
    ensures MailsOK(led')
  {
    forall k | k in led'.mails
      ensures MailOK(led', k, led'.mails[k])
    {
      if k != m {
        MailKeeps(led, led', k, led.mails[k]);
      }
    }
  }

  lemma RecsWith(led: Ledger, led': Ledger, s: UUID, rec: RecInfo, gone: set<UUID>)
    requires RecsOK(led) && Grows(led, led') && RecWritten(led, led', s, rec, gone)
    ensures RecsOK(led')
  {
    forall k | k in led'.recs
      ensures RecOK(led', k, led'.recs[k])
    {
      if k != s {
        RecKeeps(led, led', k, led.recs[k]);
      }
    }
  }

  lemma InvsWith(led: Ledger, led': Ledger, n: nat, inv: InvInfo)
    requires InvsOK(led) && Grows(led, led')
    requires led'.invs == led.invs[n := inv] && InvOK(led', n, inv)
    ensures InvsOK(led')
  {
    forall k | k in led'.invs
      ensures InvOK(led', k, led'.invs[k])
    {
      if k != n {
        InvKeeps(led, led', k, led.invs[k]);
      }
    }
  }

  /** The parts an operation leaves alone stay well-formed while the ledger grows. */
  lemma UntouchedKeep(led: Ledger, led': Ledger)
    requires Grows(led, led')
    ensures FilesOK(led) && led'.files == led.files ==> FilesOK(led')
    ensures MailsOK(led) && led'.mails == led.mails ==> MailsOK(led')
    ensures RecsOK(led) && led'.recs == led.recs ==> RecsOK(led')
    ensures InvsOK(led) && led'.invs == led.invs ==> InvsOK(led')
    ensures AccountsOK(led) && led'.accounts == led.accounts ==> AccountsOK(led')
  {
    FilesUntouched(led, led');
    MailsUntouched(led, led');
    RecsUntouched(led, led');
    InvsUntouched(led, led');
  }

  lemma FilesUntouched(led: Ledger, led': Ledger)
    requires Extends(led.roles, led'.roles)
    ensures FilesOK(led) && led'.files == led.files ==> FilesOK(led')
  {
    if FilesOK(led) && led'.files == led.files {
      forall i | i in led.files
        ensures FileOK(led', i, led'.files[i])
      {
        FileKeeps(led, led', i, led.files[i]);
      }
    }
  }

  lemma MailsUntouched(led: Ledger, led': Ledger)
    requires Grows(led, led')
    ensures MailsOK(led) && led'.mails == led.mails ==> MailsOK(led')
  {
    if MailsOK(led) && led'.mails == led.mails {
      forall m | m in led.mails
        ensures MailOK(led', m, led'.mails[m])
      {
        MailKeeps(led, led', m, led.mails[m]);
      }
    }
  }

  lemma RecsUntouched(led: Ledger, led': Ledger)
    requires Grows(led, led')
    ensures RecsOK(led) && led'.recs == led.recs ==> RecsOK(led')
  {
    if RecsOK(led) && led'.recs == led.recs {
      forall s | s in led.recs
        ensures RecOK(led', s, led'.recs[s])
      {
        RecKeeps(led, led', s, led.recs[s]);
      }
    }
  }

  lemma InvsUntouched(led: Ledger, led': Ledger)
    requires Grows(led, led')
    ensures InvsOK(led) && led'.invs == led.invs ==> InvsOK(led')
  {
    if InvsOK(led) && led'.invs == led.invs {
      forall n | n in led.invs
        ensures InvOK(led', n, led'.invs[n])
      {
        InvKeeps(led, led', n, led.invs[n]);
      }
    }
  }

  /** No drawn name is in use yet. */
  lemma NextIsFresh(led: Ledger)
    requires WellFormed(led)
    ensures forall m | m in led.mails :: m < led.next
    ensures forall i | i in led.files :: i < led.next
    ensures forall n | n in led.invs :: n < led.next
  {
    forall m | m in led.mails
      ensures m < led.next
    {
      assert MailOK(led, m, led.mails[m]);
    }
    forall i | i in led.files
      ensures i < led.next
    {
      assert FileOK(led, i, led.files[i]);
    }
    forall n | n in led.invs
      ensures n < led.next
    {
      assert InvOK(led, n, led.invs[n]);
    }
  }

  /** All names in use are below the supply. */
  ghost predicate Below(led: Ledger) {
    && RolesOK(led)
    && (forall m | m in led.mails :: m < led.next)
    && (forall i | i in led.files :: i < led.next)
    && (forall n | n in led.invs :: n < led.next)
  }

  // ---------- StoreFile ----------

  lemma StoreGrows(led: Ledger, user: UserData, filename: string, content: seq<byte>)
    requires Below(led)
    ensures Grows(led, StoreLedger(led, user, filename, content)) && RolesOK(StoreLedger(led, user, filename, content))
  {
  }

  lemma StoreNewFile(led: Ledger, user: UserData, filename: string, content: seq<byte>)
    ensures var led' := StoreLedger(led, user, filename, content);
            led.next + 1 in led'.files && FileOK(led', led.next + 1, led'.files[led.next + 1])
  {
    FlattenChunks(content);
    var led' := StoreLedger(led, user, filename, content);
    var file := led'.files[led.next + 1];
    forall j | 0 <= j < |file.blocks|
      ensures file.blocks[j].Random? && Has(led', file.blocks[j].n, BlockRole(led.next + 1, j))
    {
      assert Drawn(led.next + 4, |file.blocks|, led.next + 4 + j);
    }
  }

  /** The mailbox a StoreFile makes. */
  function FirstMail(n: nat, user: UserData): MailInfo {
    MailInfo(n + 3, n + 1, n, Stored(user.username))
  }

  lemma StoreNewMail(led: Ledger, user: UserData, filename: string, content: seq<byte>)
    ensures MailAdded(led, StoreLedger(led, user, filename, content), led.next + 2,
                      FirstMail(led.next, user))
  {
  }

  lemma StoreFiles(led: Ledger, user: UserData, filename: string, content: seq<byte>)
    requires FilesOK(led) && Grows(led, StoreLedger(led, user, filename, content))
    ensures FilesOK(StoreLedger(led, user, filename, content))
  {
    var led' := StoreLedger(led, user, filename, content);
    StoreNewFile(led, user, filename, content);
    FilesWith(led, led', led.next + 1, led'.files[led.next + 1]);
  }

  lemma StoreMails(led: Ledger, user: UserData, filename: string, content: seq<byte>)
    requires MailsOK(led) && Grows(led, StoreLedger(led, user, filename, content))
    ensures MailsOK(StoreLedger(led, user, filename, content))
  {
    StoreNewMail(led, user, filename, content);
    MailsWith(led, StoreLedger(led, user, filename, content), led.next + 2, FirstMail(led.next, user));
  }

  lemma StoreNewRec(led: Ledger, user: UserData, filename: string, content: seq<byte>)
    requires AccountsOK(led) && Registered(led, user)
    ensures RecWritten(led, StoreLedger(led, user, filename, content), AccessUUID(user.username, filename),
                       RecInfo(user.master, filename, led.next + 2, map[]), {UserUUID(user.username)})
  {
  }

  lemma StoreRecs(led: Ledger, user: UserData, filename: string, content: seq<byte>)
    requires RecsOK(led) && AccountsOK(led) && Registered(led, user)
    requires Grows(led, StoreLedger(led, user, filename, content))
    ensures RecsOK(StoreLedger(led, user, filename, content))
  {
    StoreNewRec(led, user, filename, content);
    RecsWith(led, StoreLedger(led, user, filename, content), AccessUUID(user.username, filename),
             RecInfo(user.master, filename, led.next + 2, map[]), {UserUUID(user.username)});
  }

  lemma StoreKeeps(led: Ledger, user: UserData, filename: string, content: seq<byte>)
    requires WellFormed(led) && Registered(led, user)
    ensures Grows(led, StoreLedger(led, user, filename, content))
    ensures WellFormed(StoreLedger(led, user, filename, content))
  {
    NextIsFresh(led);
    StoreGrows(led, user, filename, content);
    StoreFiles(led, user, filename, content);
    StoreMails(led, user, filename, content);
    StoreRecs(led, user, filename, content);
    UntouchedKeep(led, StoreLedger(led, user, filename, content));
  }

  // ---------- AppendToFile ----------

  lemma AppendFile(led: Ledger, user: UserData, filename: string, content: seq<byte>)
    requires Below(led) && FilesOK(led) && CanOpen(led, user, filename)
    ensures var led', i := AppendLedger(led, user, filename, content), FileOf(led, user, filename);
            i in led'.files && FileOK(led', i, led'.files[i])
  {
    FlattenChunks(content);
    var led', i := AppendLedger(led, user, filename, content), FileOf(led, user, filename);
    var file, file' := led.files[i], led'.files[i];
    assert FileOK(led, i, file);
    forall j | 0 <= j < |file'.blocks|
      ensures file'.blocks[j].Random? && Has(led', file'.blocks[j].n, BlockRole(i, j))
    {
      if j < |file.blocks| {
        assert Has(led, file.blocks[j].n, BlockRole(i, j));
      } else {
        assert Drawn(led.next, |Chunks(content)|, led.next + (j - |file.blocks|));
      }
    }
  }

  lemma AppendGrows(led: Ledger, user: UserData, filename: string, content: seq<byte>)
    requires Below(led)
    ensures Grows(led, AppendLedger(led, user, filename, content))
    ensures RolesOK(AppendLedger(led, user, filename, content))
  {
  }

  lemma AppendKeeps(led: Ledger, user: UserData, filename: string, content: seq<byte>)
    requires WellFormed(led)
    ensures Grows(led, AppendLedger(led, user, filename, content))
    ensures WellFormed(AppendLedger(led, user, filename, content))
  {
    if CanOpen(led, user, filename) {
      var led', i := AppendLedger(led, user, filename, content), FileOf(led, user, filename);
      NextIsFresh(led);
      AppendGrows(led, user, filename, content);
      AppendFile(led, user, filename, content);
      FilesWith(led, led', i, led'.files[i]);
      UntouchedKeep(led, led');
    }
  }

  // ---------- CreateInvitation ----------

  lemma MailGrows(led: Ledger, m: nat, maker: string, recipient: string)
    requires Below(led) && m in led.mails && MailOK(led, m, led.mails[m])
    ensures Grows(led, MailLedger(led, m, maker, recipient)) && RolesOK(MailLedger(led, m, maker, recipient))
    ensures MailAdded(led, MailLedger(led, m, maker, recipient), led.next, CopyOf(led, m, maker, recipient))
  {
  }

  lemma MailKeepsAll(led: Ledger, m: nat, maker: string, recipient: string)
    requires WellFormed(led) && m in led.mails
    ensures Grows(led, MailLedger(led, m, maker, recipient))
    ensures WellFormed(MailLedger(led, m, maker, recipient))
  {
    var led' := MailLedger(led, m, maker, recipient);
    assert MailOK(led, m, led.mails[m]);
    NextIsFresh(led);
    MailGrows(led, m, maker, recipient);
    MailsWith(led, led', led.next, CopyOf(led, m, maker, recipient));
    UntouchedKeep(led, led');
  }

  /** Linking needs a mailbox of the same file that was made for this recipient. */
  ghost predicate Linkable(led: Ledger, s: UUID, m: nat, maker: string, recipient: string) {
    && s in led.recs && m in led.mails && led.recs[s].mailbox in led.mails
    && led.mails[m].file == led.mails[led.recs[s].mailbox].file
    && led.mails[m].origin == Invited(led.recs[s].mailbox, maker, recipient)
    && maker in led.accounts && recipient in led.accounts
  }

  lemma LinkRecord(led: Ledger, s: UUID, m: nat, maker: string, recipient: string)
    requires RecsOK(led) && Linkable(led, s, m, maker, recipient)
    ensures RecWritten(led, LinkLedger(led, s, m, maker, recipient), s,
                       led.recs[s].(children := led.recs[s].children[recipient := m]), {})
  {
    assert RecOK(led, s, led.recs[s]);
  }

  lemma LinkGrows(led: Ledger, s: UUID, m: nat, maker: string, recipient: string)
    requires Below(led) && s in led.recs
    ensures Grows(led, LinkLedger(led, s, m, maker, recipient)) && RolesOK(LinkLedger(led, s, m, maker, recipient))
  {
  }

  lemma LinkRecs(led: Ledger, s: UUID, m: nat, maker: string, recipient: string, led': Ledger)
    requires RecsOK(led) && Linkable(led, s, m, maker, recipient)
    requires led' == LinkLedger(led, s, m, maker, recipient) && Grows(led, led')
    ensures RecsOK(led')
  {
    LinkRecord(led, s, m, maker, recipient);
    RecsWith(led, led', s, led.recs[s].(children := led.recs[s].children[recipient := m]), {});
  }

  lemma LinkInvs(led: Ledger, s: UUID, m: nat, maker: string, recipient: string, led': Ledger)
    requires InvsOK(led) && Linkable(led, s, m, maker, recipient)
    requires led' == LinkLedger(led, s, m, maker, recipient) && Grows(led, led')
    ensures InvsOK(led')
  {
    InvsWith(led, led', led.next, InvInfo(maker, recipient, m));
  }

  lemma LinkKeepsAll(led: Ledger, s: UUID, m: nat, maker: string, recipient: string)
    requires WellFormed(led) && Linkable(led, s, m, maker, recipient)
    ensures Grows(led, LinkLedger(led, s, m, maker, recipient))
    ensures WellFormed(LinkLedger(led, s, m, maker, recipient))
  {
    var led' := LinkLedger(led, s, m, maker, recipient);
    NextIsFresh(led);
    LinkGrows(led, s, m, maker, recipient);
    LinkRecs(led, s, m, maker, recipient, led');
    LinkInvs(led, s, m, maker, recipient, led');
    UntouchedKeep(led, led');
  }

  lemma GrowsTransitive(a: Ledger, b: Ledger, c: Ledger)
    requires Grows(a, b) && Grows(b, c)
    ensures Grows(a, c)
  {
    forall m | m in a.mails
      ensures m in c.mails && c.mails[m].(fileKey := a.mails[m].fileKey) == a.mails[m]
    {
      assert m in b.mails;
    }
  }

  lemma InviteKeeps(led: Ledger, user: UserData, filename: string, recipient: string)
    requires WellFormed(led) && Registered(led, user)
    ensures Grows(led, InviteLedger(led, user, filename, recipient))
    ensures WellFormed(InviteLedger(led, user, filename, recipient))
  {
    var s := AccessUUID(user.username, filename);
    if Holds(led, user, filename) && led.recs[s].mailbox in led.mails {
      NextIsFresh(led);
      MailKeepsAll(led, led.recs[s].mailbox, user.username, recipient);
      if recipient in led.accounts {
        var led1 := MailLedger(led, led.recs[s].mailbox, user.username, recipient);
        LinkKeepsAll(led1, s, led.next, user.username, recipient);
        GrowsTransitive(led, led1, LinkLedger(led1, s, led.next, user.username, recipient));
      }
    }
  }

  // ---------- AcceptInvitation ----------

  lemma AcceptRecord(led: Ledger, user: UserData, sender: string, ptr: UUID, filename: string)
    requires InvsOK(led) && AccountsOK(led) && Registered(led, user) && Acceptable(led, user, sender, ptr)
    ensures RecWritten(led, AcceptLedger(led, user, sender, ptr, filename), AccessUUID(user.username, filename),
                       RecInfo(user.master, filename, led.invs[ptr.n].mailbox, map[]), {UserUUID(user.username)})
  {
    assert InvOK(led, ptr.n, led.invs[ptr.n]);
  }

  lemma AcceptKeeps(led: Ledger, user: UserData, sender: string, ptr: UUID, filename: string)
    requires WellFormed(led) && Registered(led, user)
    ensures Grows(led, AcceptLedger(led, user, sender, ptr, filename))
    ensures WellFormed(AcceptLedger(led, user, sender, ptr, filename))
  {
    if Acceptable(led, user, sender, ptr) {
      var led' := AcceptLedger(led, user, sender, ptr, filename);
      AcceptRecord(led, user, sender, ptr, filename);
      RecsWith(led, led', AccessUUID(user.username, filename),
               RecInfo(user.master, filename, led.invs[ptr.n].mailbox, map[]), {UserUUID(user.username)});
      UntouchedKeep(led, led');
    }
  }

  // ---------- RevokeAccess ----------

  lemma RevokeGrows(led: Ledger, user: UserData, filename: string, recipient: string)
    requires Below(led)
    ensures Grows(led, RevokeLedger(led, user, filename, recipient))
    ensures RolesOK(RevokeLedger(led, user, filename, recipient))
  {
  }

  lemma RevokeFile(led: Ledger, user: UserData, filename: string, recipient: string)
    requires Below(led) && FilesOK(led) && CanOpen(led, user, filename)
    ensures var led', i := RevokeLedger(led, user, filename, recipient), FileOf(led, user, filename);
            led'.files == led.files[i := led.files[i].(key := led.next)]
              && FileOK(led', i, led.files[i].(key := led.next))
  {
    var led', i := RevokeLedger(led, user, filename, recipient), FileOf(led, user, filename);
    assert FileOK(led, i, led.files[i]);
    forall j | 0 <= j < |led.files[i].blocks|
      ensures Has(led', led.files[i].blocks[j].n, BlockRole(i, j))
    {
      assert Has(led, led.files[i].blocks[j].n, BlockRole(i, j));
    }
  }

  lemma RevokeOldMail(led: Ledger, user: UserData, filename: string, recipient: string, m: nat)
    requires Below(led) && CanOpen(led, user, filename) && m in led.mails && MailOK(led, m, led.mails[m])
    ensures var led' := RevokeLedger(led, user, filename, recipient); m in led'.mails && MailOK(led', m, led'.mails[m])
  {
  }

  lemma RevokeNewMail(led: Ledger, user: UserData, filename: string, recipient: string)
    requires CanOpen(led, user, filename)
    ensures var led' := RevokeLedger(led, user, filename, recipient);
            && led.next + 2 in led'.mails && MailOK(led', led.next + 2, led'.mails[led.next + 2])
            && led'.mails.Keys == led.mails.Keys + {led.next + 2}
  {
  }

  lemma RevokeMails(led: Ledger, user: UserData, filename: string, recipient: string)
    requires Below(led) && MailsOK(led) && CanOpen(led, user, filename)
    ensures MailsOK(RevokeLedger(led, user, filename, recipient))
  {
    var led' := RevokeLedger(led, user, filename, recipient);
    RevokeNewMail(led, user, filename, recipient);
    forall m | m in led'.mails
      ensures MailOK(led', m, led'.mails[m])
    {
      if m in led.mails {
        RevokeOldMail(led, user, filename, recipient, m);
      }
    }
  }

  lemma RevokedRecordOK(led: Ledger, user: UserData, filename: string, recipient: string)
    requires Below(led) && RecsOK(led) && CanOpen(led, user, filename)
    ensures var s := AccessUUID(user.username, filename);
            var rec := led.recs[s].(mailbox := led.next + 2, children := led.recs[s].children - {recipient});
            RecWritten(led, RevokeLedger(led, user, filename, recipient), s, rec, {UserUUID(user.username)})
  {
    var s := AccessUUID(user.username, filename);
    assert RecOK(led, s, led.recs[s]);
  }

  lemma RevokeRecords(led: Ledger, user: UserData, filename: string, recipient: string)
    requires Below(led) && RecsOK(led) && CanOpen(led, user, filename)
    requires Grows(led, RevokeLedger(led, user, filename, recipient))
    ensures RecsOK(RevokeLedger(led, user, filename, recipient))
  {
    var s := AccessUUID(user.username, filename);
    RevokedRecordOK(led, user, filename, recipient);
    RecsWith(led, RevokeLedger(led, user, filename, recipient), s,
             led.recs[s].(mailbox := led.next + 2, children := led.recs[s].children - {recipient}),
               {UserUUID(user.username)});
  }

  lemma RevokeLiveKeeps(led: Ledger, user: UserData, filename: string, recipient: string, led': Ledger)
    requires Below(led) && FilesOK(led) && MailsOK(led) && RecsOK(led) && CanOpen(led, user, filename)
    requires led' == RevokeLedger(led, user, filename, recipient) && Grows(led, led')
    ensures FilesOK(led') && MailsOK(led') && RecsOK(led')
  {
    RevokeFile(led, user, filename, recipient);
    FilesWith(led, led', FileOf(led, user, filename), led.files[FileOf(led, user, filename)].(key := led.next));
    RevokeMails(led, user, filename, recipient);
    RevokeRecords(led, user, filename, recipient);
  }

  lemma RevokeKeeps(led: Ledger, user: UserData, filename: string, recipient: string)
    requires WellFormed(led)
    ensures Grows(led, RevokeLedger(led, user, filename, recipient))
    ensures WellFormed(RevokeLedger(led, user, filename, recipient))
  {
    var led' := RevokeLedger(led, user, filename, recipient);
    NextIsFresh(led);
    RevokeGrows(led, user, filename, recipient);
    if CanOpen(led, user, filename) {
      RevokeLiveKeeps(led, user, filename, recipient, led');
    }
    UntouchedKeep(led, led');
  }

  // ---------- InitUser ----------

  lemma RegisterGrows(led: Ledger, username: string, password: string)
    requires Below(led) && username !in led.accounts
    ensures Grows(led, RegisterLedger(led, username, password)) && RolesOK(RegisterLedger(led, username, password))
  {
  }

  lemma RegisterAccounts(led: Ledger, username: string, password: string)
    requires RolesOK(led) && AccountsOK(led)
    ensures AccountsOK(RegisterLedger(led, username, password))
  {
  }

  lemma RegisterKeeps(led: Ledger, username: string, password: string)
    requires WellFormed(led) && username !in led.accounts
    ensures Grows(led, RegisterLedger(led, username, password))
    ensures WellFormed(RegisterLedger(led, username, password))
  {
    NextIsFresh(led);
    RegisterGrows(led, username, password);
    RegisterAccounts(led, username, password);
    UntouchedKeep(led, RegisterLedger(led, username, password));
  }
}
