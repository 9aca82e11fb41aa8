/** CreateInvitation and AcceptInvitation on the sealed store act as their ledger operations. */
module RefineSharing {
  import opened Wrappers
  import opened Records
  import opened Protocol
  import opened Ledgers
  import opened LedgerSteps
  import opened Refinement
  import opened RefineFiles

  // ---------- CreateInvitation ----------

  /** The recipient's mailbox is in the store, whether or not the recipient turns out to exist. */
  function Mailed(st: State, node: MailboxNode): State {
    st.Draw(2).Put(Random(st.next), Sealed(MailKey(st.next + 1), MailboxRec(node)))
  }

  function InvitedState(st: State, node: MailboxNode, user: UserData, filename: string,
                        access: Access, recipient: string, pke: nat): State {
    var child := ChildInfo(Random(st.next), st.next + 1);
    Mailed(st, node).Draw(1)
    .Put(Random(st.next + 2), Signed(pke, user.ds, Invitation(Random(st.next), st.next + 1)))
    .Put(AccessUUID(user.username, filename),
         Sealed(PersonalKey(user.master, filename),
                AccessRec(access.(children := access.children[recipient := child]))))
  }

  lemma InviteOutcome(st: State, user: UserData, filename: string, recipient: string, access: Access, node: MailboxNode)
    requires OpenAccess(st, user, filename) == Success(access) && OpenMailbox(st, access) == Success(node)
    ensures EncName(recipient) !in st.keys ==>
              CreateInvitation(st, user, filename, recipient) == Outcome(Mailed(st, node), user, Failure(NoRecipient))
    ensures EncName(recipient) in st.keys && st.keys[EncName(recipient)].PKEPublic? ==>
              (CreateInvitation(st, user, filename, recipient)
               == Outcome(InvitedState(st, node, user, filename, access, recipient, st.keys[EncName(recipient)].n),
                          user, Success(Random(st.next + 2))))
  {
  }

  /** Only `w` and hashed UUIDs differ between the two states. */
  ghost predicate OnlyFresh(st: State, st': State, w: nat) {
    forall u: UUID | u != Random(w) && u.Random? :: Same(st, st', u)
  }

  /** Block UUIDs were drawn before now. */
  lemma OldBlocks(led: Ledger)
    requires FilesOK(led) && RolesOK(led)
    ensures forall k, j | k in led.files && 0 <= j < |led.files[k].blocks| ::
              led.files[k].blocks[j].Random? && led.files[k].blocks[j].n < led.next
  {
    forall k, j | k in led.files && 0 <= j < |led.files[k].blocks|
      ensures led.files[k].blocks[j].Random? && led.files[k].blocks[j].n < led.next
    {
      assert FileOK(led, k, led.files[k]);
      assert Has(led, led.files[k].blocks[j].n, BlockRole(k, j));
    }
  }

  lemma FreshLeavesFiles(led: Ledger, led': Ledger, st: State, st': State, w: nat)
    requires Below(led) && FilesOK(led) && FilesStored(led, st) && BlocksStored(led, st)
    requires led'.files == led.files && w >= led.next && OnlyFresh(st, st', w)
    ensures FilesStored(led', st') && BlocksStored(led', st')
  {
    forall k, j | k in led.files && 0 <= j < |led.files[k].blocks|
      ensures Same(st, st', led.files[k].blocks[j])
    {
      assert FileOK(led, k, led.files[k]);
      assert Has(led, led.files[k].blocks[j].n, BlockRole(k, j));
    }
    FilesStoredSame(led, led', st, st');
  }

  lemma FreshLeavesMails(led: Ledger, led': Ledger, st: State, st': State, w: nat)
    requires Below(led) && MailsStored(led, st)
    requires led'.mails == led.mails && w >= led.next && OnlyFresh(st, st', w)
    ensures MailsStored(led', st')
  {
    MailsStoredSame(led, led', st, st');
  }

  lemma FreshLeavesInvs(led: Ledger, led': Ledger, st: State, st': State, w: nat)
    requires Below(led) && InvsOK(led) && Grows(led, led') && InvsStored(led, st)
    requires led'.invs == led.invs && w >= led.next && OnlyFresh(st, st', w)
    requires forall u | u in st'.store && (u == Random(w) || u.Named?) :: st'.store[u].Sealed? || Same(st, st', u)
    ensures InvsStored(led', st')
  {
    InvsStoredWith(led, led', st, st');
  }

  // ---------- CreateInvitation, first half ----------

  lemma MailedMails(led: Ledger, st: State, led': Ledger, mail: MailInfo)
    requires Below(led) && MailsStored(led, st) && led.next == st.next
    requires led'.mails == led.mails[led.next := mail] && mail.key == led.next + 1
    ensures MailsStored(led', Mailed(st, MailboxNode(mail.fileKey, Random(mail.file))))
  {
    MailsStoredWith(led, led', st, Mailed(st, MailboxNode(mail.fileKey, Random(mail.file))), led.next, mail);
  }

  lemma MailedRecs(led: Ledger, st: State, led': Ledger, node: MailboxNode)
    requires RecsOK(led) && Grows(led, led') && RecsStored(led, st) && NamedStored(led, st)
    requires led'.recs == led.recs && led'.accounts == led.accounts
    ensures RecsStored(led', Mailed(st, node)) && NamedStored(led', Mailed(st, node))
  {
    RecsAreNamed(led);
    RecsStoredSame(led, led', st, Mailed(st, node));
    NamedStoredSame(led, led', st, Mailed(st, node), Random(0));
  }

  lemma MailedRepresents(led: Ledger, st: State, led': Ledger, mail: MailInfo)
    requires WellFormed(led) && Represents(led, st) && Grows(led, led')
    requires led'.mails == led.mails[led.next := mail] && mail.key == led.next + 1
    requires led'.files == led.files && led'.recs == led.recs && led'.invs == led.invs && led'.accounts == led.accounts
    requires led'.next == led.next + 2
    ensures Represents(led', Mailed(st, MailboxNode(mail.fileKey, Random(mail.file))))
  {
    var node := MailboxNode(mail.fileKey, Random(mail.file));
    NextIsFresh(led);
    FreshLeavesFiles(led, led', st, Mailed(st, node), led.next);
    FreshLeavesInvs(led, led', st, Mailed(st, node), led.next);
    MailedMails(led, st, led', mail);
    MailedRecs(led, st, led', node);
  }

  // ---------- CreateInvitation, second half: the signed invitation and the Children entry ----------

  /** Exactly `Random(w)` and the record `s` are written. */
  ghost predicate Linked(st: State, st': State, w: nat, invitation: Payload, s: UUID, access: Payload) {
    && (forall u | u != Random(w) && u != s :: Same(st, st', u))
    && StoredAs(st', Random(w), invitation) && StoredAs(st', s, access)
  }

  lemma LinkedRecs(led: Ledger, st: State, led': Ledger, st': State, w: nat, invitation: Payload, s: UUID,
                   rec: RecInfo, access: Payload)
    requires RecsOK(led) && Grows(led, led') && RecsStored(led, st)
    requires s.Named? && led'.recs == led.recs[s := rec] - {} && access == AccessPayload(led', rec)
    requires Linked(st, st', w, invitation, s, access)
    ensures RecsStored(led', st')
  {
    RecsAreNamed(led);
    RecsStoredWith(led, led', st, st', s, rec, {});
  }

  lemma LinkedNamed(led: Ledger, st: State, led': Ledger, st': State, w: nat, invitation: Payload, s: UUID,
                    rec: RecInfo, access: Payload)
    requires NamedStored(led, st)
    requires s.Named? && led'.recs == led.recs[s := rec] - {} && s in led.recs && led'.accounts == led.accounts
    requires Linked(st, st', w, invitation, s, access)
    ensures NamedStored(led', st')
  {
    NamedStoredSame(led, led', st, st', s);
  }

  lemma LinkedInvs(led: Ledger, st: State, led': Ledger, st': State, inv: InvInfo, invitation: Payload, s: UUID,
                   access: Payload)
    requires Below(led) && InvsOK(led) && Grows(led, led') && InvsStored(led, st)
    requires s.Named? && access.Sealed? && led'.invs == led.invs[led.next := inv]
    requires inv.maker in led'.accounts && inv.to in led'.accounts && invitation == InvitationOf(led', inv)
    requires Linked(st, st', led.next, invitation, s, access)
    ensures InvsStored(led', st')
  {
    InvsStoredWith(led, led', st, st');
  }

  lemma LinkedRest(led: Ledger, st: State, led': Ledger, st': State, w: nat, invitation: Payload, s: UUID,
                   access: Payload)
    requires Below(led) && FilesOK(led) && FilesStored(led, st) && BlocksStored(led, st) && MailsStored(led, st)
    requires s.Named? && led'.files == led.files && led'.mails == led.mails && w >= led.next
    requires Linked(st, st', w, invitation, s, access)
    ensures FilesStored(led', st') && BlocksStored(led', st') && MailsStored(led', st')
  {
    FreshLeavesFiles(led, led', st, st', w);
    FreshLeavesMails(led, led', st, st', w);
  }

  lemma LinkedRepresents(led: Ledger, st: State, led': Ledger, st': State,
                         s: UUID, rec: RecInfo, access: Payload, inv: InvInfo, invitation: Payload)
    requires WellFormed(led) && Represents(led, st) && Grows(led, led')
    requires s in led.recs && s.Named? && led'.recs == led.recs[s := rec] - {} && access == AccessPayload(led', rec)
    requires inv.maker in led'.accounts && inv.to in led'.accounts && invitation == InvitationOf(led', inv)
    requires led'.invs == led.invs[led.next := inv]
    requires led'.files == led.files && led'.mails == led.mails && led'.accounts == led.accounts
    requires led'.next == st'.next && st'.keys == st.keys
    requires Linked(st, st', led.next, invitation, s, access)
    ensures Represents(led', st')
  {
    NextIsFresh(led);
    LinkedRest(led, st, led', st', led.next, invitation, s, access);
    LinkedRecs(led, st, led', st', led.next, invitation, s, rec, access);
    LinkedNamed(led, st, led', st', led.next, invitation, s, rec, access);
    LinkedInvs(led, st, led', st', inv, invitation, s, access);
  }

  lemma InviteNonHolder(led: Ledger, st: State, user: UserData, filename: string, recipient: string)
    requires WellFormed(led) && Represents(led, st) && !Holds(led, user, filename)
    ensures CreateInvitation(st, user, filename, recipient).res.Failure?
    ensures CreateInvitation(st, user, filename, recipient).st == st
    ensures CreateInvitation(st, user, filename, recipient).user == user
  {
    NonHolderFails(led, st, user, filename);
  }

  /** The chain up to the mailbox is all an inviter needs: a stale mailbox is copied like any other. */
  lemma HolderInvites(led: Ledger, st: State, user: UserData, filename: string, recipient: string,
                      rec: RecInfo, mail: MailInfo, out: Outcome<UUID>)
    requires WellFormed(led) && Represents(led, st) && Holds(led, user, filename)
    requires rec == led.recs[AccessUUID(user.username, filename)] && rec.mailbox in led.mails
    requires mail == led.mails[rec.mailbox]
    requires out == CreateInvitation(st, user, filename, recipient)
    ensures recipient !in led.accounts ==>
              out == Outcome(Mailed(st, MailboxNode(mail.fileKey, Random(mail.file))), user, Failure(NoRecipient))
    ensures recipient in led.accounts ==>
              out == Outcome(InvitedState(st, MailboxNode(mail.fileKey, Random(mail.file)), user, filename,
                                          AccessOf(led, rec), recipient, led.accounts[recipient].pke),
                             user, Success(Random(st.next + 2)))
  {
    HolderOpensAccess(led, st, user, filename);
    RecordOpensMailbox(led, st, rec);
    InviteOutcome(st, user, filename, recipient, AccessOf(led, rec), MailboxNode(mail.fileKey, Random(mail.file)));
  }

  /** The second half of an invitation, as it acts on the state that already holds mailbox `m`. */
  function LinkedState(led: Ledger, st: State, s: UUID, m: nat, user: UserData, recipient: string): State
    requires recipient in led.accounts && s in led.recs
  {
    var rec := led.recs[s].(children := led.recs[s].children[recipient := m]);
    st.Draw(1).Put(Random(st.next),
                   Signed(led.accounts[recipient].pke, user.ds, Invitation(Random(m), MailKeyOf(led, m))))
    .Put(s, AccessPayload(led, rec))
  }

  lemma LinkedStateLinks(led: Ledger, st: State, st': State, s: UUID, m: nat, user: UserData, recipient: string,
                         led': Ledger)
    requires Registered(led, user) && Linkable(led, s, m, user.username, recipient) && s.Named?
    requires led' == LinkLedger(led, s, m, user.username, recipient)
    requires st' == LinkedState(led, st, s, m, user, recipient)
    ensures var rec, inv :=
            led.recs[s].(children := led.recs[s].children[recipient := m]), InvInfo(user.username, recipient, m);
            Linked(st, st', st.next, InvitationOf(led', inv), s, AccessPayload(led', rec))
  {
    var rec := led.recs[s].(children := led.recs[s].children[recipient := m]);
    assert AccessOf(led', rec) == AccessOf(led, rec);
  }

  lemma LinkRefines(led: Ledger, st: State, st': State, s: UUID, m: nat, user: UserData, recipient: string,
                    led': Ledger)
    requires WellFormed(led) && Represents(led, st) && Registered(led, user)
    requires Linkable(led, s, m, user.username, recipient) && s.Named?
    requires led' == LinkLedger(led, s, m, user.username, recipient) && Grows(led, led')
    requires st' == LinkedState(led, st, s, m, user, recipient)
    ensures Represents(led', st')
  {
    var rec, inv :=
      led.recs[s].(children := led.recs[s].children[recipient := m]), InvInfo(user.username, recipient, m);
    LinkedStateLinks(led, st, st', s, m, user, recipient, led');
    LinkedRepresents(led, st, led', st', s, rec, AccessPayload(led', rec), inv, InvitationOf(led', inv));
  }

  lemma AccessWithChild(led: Ledger, led1: Ledger, s: UUID, rec: RecInfo, recipient: string, m: nat, key: nat)
    requires RecOK(led, s, rec) && Grows(led, led1) && m in led1.mails && led1.mails[m].key == key
    ensures AccessOf(led1, rec.(children := rec.children[recipient := m]))
         == AccessOf(led, rec).(children := AccessOf(led, rec).children[recipient := ChildInfo(Random(m), key)])
  {
    AccessKeeps(led, led1, s, rec);
  }

  lemma MailedIsLinkable(led: Ledger, user: UserData, s: UUID, recipient: string)
    requires Registered(led, user) && recipient in led.accounts && s in led.recs && led.recs[s].mailbox in led.mails
    requires Below(led)
    ensures Linkable(MailLedger(led, led.recs[s].mailbox, user.username, recipient), s, led.next, user.username,
                     recipient)
  {
  }

  lemma InvitedIsLinked(led: Ledger, st: State, user: UserData, filename: string, recipient: string,
                        s: UUID, node: MailboxNode, led1: Ledger)
    requires s in led.recs && RecOK(led, s, led.recs[s]) && Grows(led, led1) && led1.recs == led.recs
    requires s == AccessUUID(user.username, filename)
    requires led.recs[s].master == user.master && led.recs[s].filename == filename
    requires recipient in led.accounts && led.next == st.next && led.next in led1.mails
    requires led1.mails[led.next].key == led.next + 1
    ensures InvitedState(st, node, user, filename, AccessOf(led, led.recs[s]), recipient, led.accounts[recipient].pke)
         == LinkedState(led1, Mailed(st, node), s, led.next, user, recipient)
  {
    AccessWithChild(led, led1, s, led.recs[s], recipient, led.next, led.next + 1);
  }

  lemma InviteLinks(led: Ledger, st: State, user: UserData, filename: string, recipient: string,
                    s: UUID, node: MailboxNode, led1: Ledger, led': Ledger, st': State)
    requires WellFormed(led) && led.next == st.next && Registered(led, user) && Holds(led, user, filename)
    requires s == AccessUUID(user.username, filename) && recipient in led.accounts && led.recs[s].mailbox in led.mails
    requires led1 == MailLedger(led, led.recs[s].mailbox, user.username, recipient)
    requires led' == LinkLedger(led1, s, led.next, user.username, recipient)
    requires Represents(led1, Mailed(st, node))
    requires st' == InvitedState(st, node, user, filename, AccessOf(led, led.recs[s]), recipient,
                                 led.accounts[recipient].pke)
    ensures Represents(led', st')
  {
    NextIsFresh(led);
    assert RecOK(led, s, led.recs[s]);
    MailKeepsAll(led, led.recs[s].mailbox, user.username, recipient);
    MailedIsLinkable(led, user, s, recipient);
    InvitedIsLinked(led, st, user, filename, recipient, s, node, led1);
    LinkKeepsAll(led1, s, led.next, user.username, recipient);
    LinkRefines(led1, Mailed(st, node), st', s, led.next, user, recipient, led');
  }

  lemma InviteMailed(led: Ledger, st: State, user: UserData, recipient: string, m: nat, node: MailboxNode, led1: Ledger)
    requires WellFormed(led) && Represents(led, st) && m in led.mails
    requires led1 == MailLedger(led, m, user.username, recipient)
    requires node == MailboxNode(led.mails[m].fileKey, Random(led.mails[m].file))
    ensures Represents(led1, Mailed(st, node))
  {
    MailKeepsAll(led, m, user.username, recipient);
    MailedRepresents(led, st, led1, CopyOf(led, m, user.username, recipient));
  }

  lemma InviteHolder(led: Ledger, st: State, user: UserData, filename: string, recipient: string,
                     s: UUID, m: nat, led1: Ledger, out: Outcome<UUID>)
    requires WellFormed(led) && Represents(led, st) && Registered(led, user) && Holds(led, user, filename)
    requires s == AccessUUID(user.username, filename) && m == led.recs[s].mailbox && m in led.mails
    requires led1 == MailLedger(led, m, user.username, recipient)
    requires out == CreateInvitation(st, user, filename, recipient)
    ensures recipient !in led.accounts ==> Represents(led1, out.st) && out.res.Failure?
    ensures recipient in led.accounts ==>
              Represents(LinkLedger(led1, s, led.next, user.username, recipient), out.st) && out.res.Success?
    ensures out.user == user
  {
    var node := MailboxNode(led.mails[m].fileKey, Random(led.mails[m].file));
    HolderInvites(led, st, user, filename, recipient, led.recs[s], led.mails[m], out);
    InviteMailed(led, st, user, recipient, m, node, led1);
    if recipient in led.accounts {
      InviteLinks(led, st, user, filename, recipient, s, node, led1,
                  LinkLedger(led1, s, led.next, user.username, recipient), out.st);
    }
  }

  /**
   An invitation succeeds exactly for a holder (live or stale) and a registered recipient.  A failed one
   may leave a mailbox behind, but no record or invitation that mentions it.
   */
  lemma InviteRefines(led: Ledger, st: State, user: UserData, filename: string, recipient: string)
    requires WellFormed(led) && Represents(led, st) && Registered(led, user)
    ensures Represents(InviteLedger(led, user, filename, recipient), CreateInvitation(st, user, filename, recipient).st)
    ensures CreateInvitation(st, user, filename, recipient).user == user
    ensures CreateInvitation(st, user, filename, recipient).res.Success? <==>
            Holds(led, user, filename) && recipient in led.accounts
  {
    if Holds(led, user, filename) {
      HolderOpensAccess(led, st, user, filename);
      var s := AccessUUID(user.username, filename);
      InviteHolder(led, st, user, filename, recipient, s, led.recs[s].mailbox,
                   MailLedger(led, led.recs[s].mailbox, user.username, recipient),
                   CreateInvitation(st, user, filename, recipient));
    } else {
      InviteNonHolder(led, st, user, filename, recipient);
    }
  }

  // ---------- AcceptInvitation ----------

  /** An invitation of that sender to this user passes the signature check and decrypts. */
  lemma AcceptSucceeds(led: Ledger, st: State, user: UserData, sender: string, ptr: UUID, filename: string)
    requires InvsOK(led) && InvsStored(led, st) && KeysPublished(led, st) && Registered(led, user)
    requires Acceptable(led, user, sender, ptr)
    ensures ptr in st.store && st.store[ptr] == InvitationOf(led, led.invs[ptr.n])
    ensures AcceptInvitation(st, user, sender, ptr, filename).res.Success?
  {
    assert InvOK(led, ptr.n, led.invs[ptr.n]);
    assert StoredAs(st, ptr, InvitationOf(led, led.invs[ptr.n]));
  }

  lemma SameSigner(led: Ledger, u: string, v: string)
    requires AccountsOK(led) && u in led.accounts && v in led.accounts
    ensures led.accounts[u].ds == led.accounts[v].ds ==> u == v
    ensures led.accounts[u].pke == led.accounts[v].pke ==> u == v
  {
    assert Has(led, led.accounts[u].ds, DsRole(u)) && Has(led, led.accounts[v].ds, DsRole(v));
    assert Has(led, led.accounts[u].pke, PkeRole(u)) && Has(led, led.accounts[v].pke, PkeRole(v));
  }

  /** Nothing else does: no other payload, no other sender's invitation, no invitation to somebody else. */
  lemma AcceptFails(led: Ledger, st: State, user: UserData, sender: string, ptr: UUID, filename: string)
    requires InvsOK(led) && AccountsOK(led) && InvsStored(led, st) && KeysPublished(led, st) && Registered(led, user)
    requires !Acceptable(led, user, sender, ptr)
    ensures AcceptInvitation(st, user, sender, ptr, filename).res.Failure?
    ensures AcceptInvitation(st, user, sender, ptr, filename).st == st
    ensures AcceptInvitation(st, user, sender, ptr, filename).user == user
  {
    if ptr in st.store && st.store[ptr].Signed? && SigName(sender) in st.keys {
      var inv := led.invs[ptr.n];
      assert StoredAs(st, Random(ptr.n), InvitationOf(led, inv));
      SameSigner(led, inv.maker, sender);
      SameSigner(led, inv.to, user.username);
    }
  }

  /** Under hashed UUIDs, the record `s` is written first and the user record `home` last. */
  ghost predicate Rewritten(st: State, st': State, s: UUID, access: Payload, home: UUID, user: Payload) {
    && (forall u: UUID | u.Named? && u != s && u != home :: Same(st, st', u))
    && StoredAs(st', home, user)
    && s in st'.store && (s != home ==> st'.store[s] == access)
  }

  lemma NamedLeaves(led: Ledger, led': Ledger, st: State, st': State)
    requires Below(led) && FilesOK(led) && FilesStored(led, st) && BlocksStored(led, st) && MailsStored(led, st)
    requires led'.files == led.files && led'.mails == led.mails
    requires forall u: UUID | u.Random? :: Same(st, st', u)
    ensures FilesStored(led', st') && BlocksStored(led', st') && MailsStored(led', st')
  {
    OldBlocks(led);
    FilesStoredSame(led, led', st, st');
    MailsStoredSame(led, led', st, st');
  }

  lemma RewrittenRecs(led: Ledger, led': Ledger, st: State, st': State, s: UUID, rec: RecInfo, access: Payload,
                      home: UUID, user: Payload)
    requires RecsOK(led) && Grows(led, led') && RecsStored(led, st)
    requires led'.recs == led.recs[s := rec] - {home} && access == AccessPayload(led', rec)
    requires Rewritten(st, st', s, access, home, user)
    ensures RecsStored(led', st')
  {
    RecsAreNamed(led);
    RecsStoredWith(led, led', st, st', s, rec, {home});
  }

  lemma RewrittenNamed(led: Ledger, led': Ledger, st: State, st': State, s: UUID, rec: RecInfo, access: Payload,
                       home: UUID, user: UserData)
    requires Grows(led, led') && led'.accounts == led.accounts && NamedStored(led, st) && Registered(led, user)
    requires home == UserUUID(user.username) && led'.recs == led.recs[s := rec] - {home}
    requires Rewritten(st, st', s, access, home, Sealed(UserKey(user.master), UserRec(user)))
    ensures NamedStored(led', st')
  {
    NamedStoredWith(led, led', st, st', s, user);
  }

  lemma RewrittenInvs(led: Ledger, led': Ledger, st: State, st': State, s: UUID, access: Payload, home: UUID,
                      user: Payload)
    requires InvsOK(led) && Grows(led, led') && InvsStored(led, st) && led'.invs == led.invs
    requires s.Named? && home.Named? && access.Sealed? && user.Sealed?
    requires Rewritten(st, st', s, access, home, user)
    requires forall u: UUID | u.Random? :: Same(st, st', u)
    ensures InvsStored(led', st')
  {
    InvsStoredWith(led, led', st, st');
  }

  lemma AcceptedRepresents(led: Ledger, led': Ledger, st: State, st': State,
                           s: UUID, rec: RecInfo, access: Payload, home: UUID, user: UserData)
    requires WellFormed(led) && Represents(led, st) && Registered(led, user) && Grows(led, led')
    requires s.Named? && home == UserUUID(user.username) && led'.recs == led.recs[s := rec] - {home}
    requires led'.files == led.files && led'.mails == led.mails && led'.invs == led.invs
    requires led'.accounts == led.accounts
    requires led'.next == st'.next && st'.keys == st.keys && access == AccessPayload(led', rec)
    requires Rewritten(st, st', s, access, home, Sealed(UserKey(user.master), UserRec(user)))
    requires forall u: UUID | u.Random? :: Same(st, st', u)
    ensures Represents(led', st')
  {
    NextIsFresh(led);
    NamedLeaves(led, led', st, st');
    RewrittenRecs(led, led', st, st', s, rec, access, home, Sealed(UserKey(user.master), UserRec(user)));
    RewrittenNamed(led, led', st, st', s, rec, access, home, user);
    RewrittenInvs(led, led', st, st', s, access, home, Sealed(UserKey(user.master), UserRec(user)));
  }

  lemma AcceptDone(led: Ledger, st: State, user: UserData, sender: string, ptr: UUID, filename: string, rec: RecInfo,
                   led': Ledger, out: Outcome<()>)
    requires InvsOK(led) && InvsStored(led, st) && KeysPublished(led, st) && Registered(led, user)
    requires Acceptable(led, user, sender, ptr) && out == AcceptInvitation(st, user, sender, ptr, filename)
    requires rec == RecInfo(user.master, filename, led.invs[ptr.n].mailbox, map[]) && led'.mails == led.mails
    ensures Rewritten(st, out.st, AccessUUID(user.username, filename), AccessPayload(led', rec),
                      UserUUID(user.username),
                      Sealed(UserKey(user.master), UserRec(WithFile(user, filename))))
    ensures forall u: UUID | u.Random? :: Same(st, out.st, u)
    ensures out.st.next == st.next && out.st.keys == st.keys
    ensures out.user == WithFile(user, filename)
  {
    AcceptSucceeds(led, st, user, sender, ptr, filename);
    assert AccessOf(led', rec) == Access(Random(rec.mailbox), MailKeyOf(led, rec.mailbox), map[]);
  }

  /**
   An acceptance succeeds exactly on an invitation that this sender made for this user.  It creates one
   record with no children, and changes nobody's mailbox.
   */
  lemma AcceptRefines(led: Ledger, st: State, user: UserData, sender: string, ptr: UUID, filename: string)
    requires WellFormed(led) && Represents(led, st) && Registered(led, user)
    ensures Represents(AcceptLedger(led, user, sender, ptr, filename),
                       AcceptInvitation(st, user, sender, ptr, filename).st)
    ensures AcceptInvitation(st, user, sender, ptr, filename).res.Success? <==> Acceptable(led, user, sender, ptr)
    ensures AcceptInvitation(st, user, sender, ptr, filename).user
         == if Acceptable(led, user, sender, ptr) then WithFile(user, filename) else user
  {
    var led', out := AcceptLedger(led, user, sender, ptr, filename), AcceptInvitation(st, user, sender, ptr, filename);
    if Acceptable(led, user, sender, ptr) {
      var rec := RecInfo(user.master, filename, led.invs[ptr.n].mailbox, map[]);
      AcceptKeeps(led, user, sender, ptr, filename);
      AcceptSucceeds(led, st, user, sender, ptr, filename);
      AcceptDone(led, st, user, sender, ptr, filename, rec, led', out);
      AcceptedRepresents(led, led', st, out.st, AccessUUID(user.username, filename), rec, AccessPayload(led', rec),
                         UserUUID(user.username), WithFile(user, filename));
    } else {
      AcceptFails(led, st, user, sender, ptr, filename);
    }
  }
}
