/** RevokeAccess on the sealed store acts as the ledger operation: re-key one file, keep the direct children. */
module RefineRevoke {
  import opened Wrappers
  import opened Blocks
  import opened Records
  import opened Protocol
  import opened Ledgers
  import opened LedgerSteps
  import opened Refinement
  import opened RefineFiles
  import opened RefineSharing

  /** Everything a successful revocation of `recipient` on file `i` writes; `n` is the new file key. */
  ghost predicate FileRekeyed(st': State, i: nat, file: FileInfo, n: nat) {
    && StoredAs(st', Random(i), InodeOf(file.(key := n)))
    && FileBlocksStored(st', file.(key := n))
  }

  ghost predicate MailsRekeyed(led: Ledger, st': State, rec: RecInfo, recipient: string, n: nat) {
    forall m | m in led.mails && Kept(rec, recipient, m) ::
      StoredAs(st', Random(m), NodeOf(led.mails[m].(fileKey := n)))
  }

  ghost predicate Touched(u: UUID, i: nat, file: FileInfo, rec: RecInfo, recipient: string, n: nat) {
    u == Random(i) || u in file.blocks || u == Random(n + 2) || (u.Random? && Kept(rec, recipient, u.n))
  }

  ghost predicate OthersSame(st: State, st': State, i: nat, file: FileInfo, rec: RecInfo, recipient: string, n: nat) {
    forall u: UUID | u.Random? && !Touched(u, i, file, rec, recipient, n) :: Same(st, st', u)
  }

  function NewMail(rec: RecInfo, i: nat, n: nat, maker: string): MailInfo {
    MailInfo(n + 1, i, n, Rotated(rec.mailbox, maker))
  }

  // ---------- what the roles keep apart ----------

  lemma BlocksDistinct(led: Ledger, i: nat)
    requires FilesOK(led) && i in led.files
    ensures Distinct(led.files[i].blocks)
  {
    assert FileOK(led, i, led.files[i]);
    var us := led.files[i].blocks;
    forall a, b | 0 <= a < b < |us|
      ensures us[a] != us[b]
    {
      assert Has(led, us[a].n, BlockRole(i, a)) && Has(led, us[b].n, BlockRole(i, b));
    }
  }

  /** A name with another role than file `i`, its blocks and the kept mailboxes is not touched. */
  lemma RoleUntouched(led: Ledger, s: UUID, rec: RecInfo, recipient: string, i: nat, u: nat, role: Role)
    requires RolesOK(led) && MailsOK(led) && FilesOK(led) && RecOK(led, s, rec) && i in led.files
    requires Has(led, u, role)
    requires role != FileRole || u != i
    requires !role.BlockRole? || role.file != i
    requires !role.MailRole? || !Kept(rec, recipient, u)
    ensures !Touched(Random(u), i, led.files[i], rec, recipient, led.next)
  {
    assert FileOK(led, i, led.files[i]);
    assert forall j :: 0 <= j < |led.files[i].blocks| ==> Has(led, led.files[i].blocks[j].n, BlockRole(i, j));
    forall m | Kept(rec, recipient, m)
      ensures Has(led, m, MailRole)
    {
      assert MailOK(led, m, led.mails[m]);
    }
  }

  // ---------- from the writes to the representation ----------

  lemma RevokeFilesRefine(led: Ledger, st: State, led': Ledger, st': State, i: nat, s: UUID, rec: RecInfo,
                          recipient: string)
    requires RolesOK(led) && MailsOK(led) && FilesOK(led) && RecOK(led, s, rec) && i in led.files
    requires FilesStored(led, st) && led'.files == led.files[i := led.files[i].(key := led.next)]
    requires FileRekeyed(st', i, led.files[i], led.next)
    requires OthersSame(st, st', i, led.files[i], rec, recipient, led.next)
    ensures FilesStored(led', st')
  {
    forall k | k in led.files && k != i
      ensures Same(st, st', Random(k))
    {
      assert FileOK(led, k, led.files[k]);
      RoleUntouched(led, s, rec, recipient, i, k, FileRole);
    }
    FilesStoredWith(led, led', st, st', i, led.files[i].(key := led.next));
  }

  lemma RevokeBlocksRefine(led: Ledger, st: State, led': Ledger, st': State, i: nat, s: UUID, rec: RecInfo,
                           recipient: string)
    requires RolesOK(led) && MailsOK(led) && FilesOK(led) && RecOK(led, s, rec) && i in led.files
    requires BlocksStored(led, st) && led'.files == led.files[i := led.files[i].(key := led.next)]
    requires FileRekeyed(st', i, led.files[i], led.next)
    requires OthersSame(st, st', i, led.files[i], rec, recipient, led.next)
    ensures BlocksStored(led', st')
  {
    forall k, j | k in led.files && k != i && 0 <= j < |led.files[k].blocks|
      ensures Same(st, st', led.files[k].blocks[j])
    {
      assert FileOK(led, k, led.files[k]);
      assert Has(led, led.files[k].blocks[j].n, BlockRole(k, j));
      RoleUntouched(led, s, rec, recipient, i, led.files[k].blocks[j].n, BlockRole(k, j));
    }
    BlocksStoredWith(led, led', st, st', i, led.files[i].(key := led.next));
  }

  lemma RevokeMailsRefine(led: Ledger, st: State, led': Ledger, st': State, i: nat, s: UUID, rec: RecInfo,
                          recipient: string, mail: MailInfo, kept: map<nat, MailInfo>)
    requires RolesOK(led) && MailsOK(led) && FilesOK(led) && RecOK(led, s, rec) && i in led.files
    requires MailsStored(led, st)
    requires kept == map m | m in led.mails :: if Kept(rec, recipient, m) then led.mails[m].(fileKey := led.next)
             else led.mails[m]
    requires led'.mails == kept[led.next + 2 := mail]
    requires MailsRekeyed(led, st', rec, recipient, led.next) && StoredAs(st', Random(led.next + 2), NodeOf(mail))
    requires OthersSame(st, st', i, led.files[i], rec, recipient, led.next)
    ensures MailsStored(led', st')
  {
    forall m | m in led'.mails
      ensures StoredAs(st', Random(m), NodeOf(led'.mails[m]))
    {
      if m != led.next + 2 && !Kept(rec, recipient, m) {
        assert MailOK(led, m, led.mails[m]) && StoredAs(st, Random(m), NodeOf(led.mails[m]));
        RoleUntouched(led, s, rec, recipient, i, m, MailRole);
        assert Same(st, st', Random(m));
      }
    }
  }

  lemma RevokeInvsRefine(led: Ledger, st: State, led': Ledger, st': State, i: nat, s: UUID, rec: RecInfo,
                         recipient: string, mail: MailInfo, access: Payload, home: UUID, user: Payload)
    requires RolesOK(led) && MailsOK(led) && FilesOK(led) && RecOK(led, s, rec) && i in led.files
    requires InvsOK(led) && Grows(led, led') && InvsStored(led, st) && led'.invs == led.invs
    requires FileRekeyed(st', i, led.files[i], led.next) && MailsRekeyed(led, st', rec, recipient, led.next)
    requires StoredAs(st', Random(led.next + 2), NodeOf(mail))
    requires OthersSame(st, st', i, led.files[i], rec, recipient, led.next)
    requires s.Named? && home.Named? && access.Sealed? && user.Sealed? && Rewritten(st, st', s, access, home, user)
    ensures InvsStored(led', st')
  {
    forall n | n in led.invs
      ensures Same(st, st', Random(n))
    {
      assert InvOK(led, n, led.invs[n]);
      RoleUntouched(led, s, rec, recipient, i, n, InvitationRole);
    }
    forall u | u in st'.store && st'.store[u].Signed?
      ensures Same(st, st', u)
    {
      SignedIsSame(led, st, st', i, s, rec, recipient, mail, access, home, user, u);
    }
    InvsStoredWith(led, led', st, st');
  }

  lemma SignedIsSame(led: Ledger, st: State, st': State, i: nat, s: UUID, rec: RecInfo, recipient: string,
                     mail: MailInfo, access: Payload, home: UUID, user: Payload, u: UUID)
    requires RecOK(led, s, rec) && i in led.files && u in st'.store && st'.store[u].Signed?
    requires FileRekeyed(st', i, led.files[i], led.next) && MailsRekeyed(led, st', rec, recipient, led.next)
    requires StoredAs(st', Random(led.next + 2), NodeOf(mail))
    requires OthersSame(st, st', i, led.files[i], rec, recipient, led.next)
    requires s.Named? && home.Named? && access.Sealed? && user.Sealed? && Rewritten(st, st', s, access, home, user)
    ensures Same(st, st', u)
  {
    if u.Random? && Touched(u, i, led.files[i], rec, recipient, led.next) {
      TouchedIsSealed(led, st', i, s, rec, recipient, mail, u);
    }
  }

  lemma TouchedIsSealed(led: Ledger, st': State, i: nat, s: UUID, rec: RecInfo, recipient: string, mail: MailInfo,
                        u: UUID)
    requires RecOK(led, s, rec) && i in led.files && u in st'.store
    requires FileRekeyed(st', i, led.files[i], led.next) && MailsRekeyed(led, st', rec, recipient, led.next)
    requires StoredAs(st', Random(led.next + 2), NodeOf(mail))
    requires Touched(u, i, led.files[i], rec, recipient, led.next)
    ensures st'.store[u].Sealed?
  {
    if u in led.files[i].blocks {
      var j :| 0 <= j < |led.files[i].blocks| && led.files[i].blocks[j] == u;
      var file := led.files[i].(key := led.next);
      assert StoredAs(st', file.blocks[j], Sealed(FileKey(file.key), BlockRec(file.chunks[j])));
    } else if u.Random? && Kept(rec, recipient, u.n) {
      assert StoredAs(st', Random(u.n), NodeOf(led.mails[u.n].(fileKey := led.next)));
    }
  }

  ghost function KeptMails(led: Ledger, rec: RecInfo, recipient: string): map<nat, MailInfo> {
    map m | m in led.mails :: if Kept(rec, recipient, m) then led.mails[m].(fileKey := led.next) else led.mails[m]
  }

  lemma RevokedRepresents(led: Ledger, st: State, led': Ledger, st': State, i: nat, s: UUID, rec: RecInfo,
                          recipient: string, mail: MailInfo, rec': RecInfo, access: Payload, home: UUID,
                          user: UserData)
    requires WellFormed(led) && Represents(led, st) && Registered(led, user) && Grows(led, led')
    requires i in led.files && s in led.recs && rec == led.recs[s] && s.Named? && home == UserUUID(user.username)
    requires led'.files == led.files[i := led.files[i].(key := led.next)]
    requires led'.mails == KeptMails(led, rec, recipient)[led.next + 2 := mail]
    requires led'.recs == led.recs[s := rec'] - {home} && access == AccessPayload(led', rec')
    requires led'.invs == led.invs && led'.accounts == led.accounts && led'.next == st'.next && st'.keys == st.keys
    requires FileRekeyed(st', i, led.files[i], led.next) && MailsRekeyed(led, st', rec, recipient, led.next)
    requires StoredAs(st', Random(led.next + 2), NodeOf(mail))
    requires OthersSame(st, st', i, led.files[i], rec, recipient, led.next)
    requires Rewritten(st, st', s, access, home, Sealed(UserKey(user.master), UserRec(user)))
    ensures Represents(led', st')
  {
    assert RecOK(led, s, rec);
    RevokeFilesRefine(led, st, led', st', i, s, rec, recipient);
    RevokeBlocksRefine(led, st, led', st', i, s, rec, recipient);
    RevokeMailsRefine(led, st, led', st', i, s, rec, recipient, mail, KeptMails(led, rec, recipient));
    RevokeInvsRefine(led, st, led', st', i, s, rec, recipient, mail, access, home,
                     Sealed(UserKey(user.master), UserRec(user)));
    RewrittenRecs(led, led', st, st', s, rec', access, home, Sealed(UserKey(user.master), UserRec(user)));
    RewrittenNamed(led, led', st, st', s, rec', access, home, user);
  }

  // ---------- from the code to the writes ----------

  /** The child mailboxes the code patches are exactly the kept ones: none is missing or unreadable. */
  lemma PatchableIsKept(led: Ledger, st: State, s: UUID, rec: RecInfo, recipient: string, u: UUID)
    requires RecOK(led, s, rec) && MailsStored(led, st)
    ensures var children := AccessOf(led, rec).children;
            Patchable(st, children, children.Keys - {recipient}, u) <==> u.Random? && Kept(rec, recipient, u.n)
  {
    var children := AccessOf(led, rec).children;
    if u.Random? && Kept(rec, recipient, u.n) {
      var c :| c in rec.children && c != recipient && rec.children[c] == u.n;
      assert StoredAs(st, Random(u.n), NodeOf(led.mails[u.n]));
      assert c in children.Keys - {recipient} && children[c] == ChildInfo(u, led.mails[u.n].key);
    }
    if Patchable(st, children, children.Keys - {recipient}, u) {
      var c :| c in children.Keys - {recipient} && c in children && children[c].mailbox == u
               && st.Open(u, MailKey(children[c].key), MailboxKind).Success?;
      assert c in rec.children && c != recipient && Random(rec.children[c]) == u;
    }
  }

  lemma PatchWrites(led: Ledger, st: State, s: UUID, rec: RecInfo, recipient: string, n: nat, u: UUID, st': State)
    requires RecOK(led, s, rec) && MailsStored(led, st)
    requires var children := AccessOf(led, rec).children;
             st' == PatchChildren(st, children, children.Keys - {recipient}, n)
    ensures u.Random? && Kept(rec, recipient, u.n) ==> StoredAs(st', u, NodeOf(led.mails[u.n].(fileKey := n)))
    ensures !(u.Random? && Kept(rec, recipient, u.n)) ==> Same(st, st', u)
  {
    PatchableIsKept(led, st, s, rec, recipient, u);
    if u.Random? && Kept(rec, recipient, u.n) {
      assert StoredAs(st, Random(u.n), NodeOf(led.mails[u.n]));
    }
  }

  /** After the block loop. */
  lemma LoopWrites(led: Ledger, st: State, i: nat, file: FileInfo, n: nat, st': State)
    requires FilesOK(led) && BlocksStored(led, st) && i in led.files && file == led.files[i]
    requires st' == RekeyBlocks(st.Draw(1), file.blocks, file.key, n).0
    ensures RekeyBlocks(st.Draw(1), file.blocks, file.key, n).1.Success?
    ensures FileBlocksStored(st', file.(key := n))
    ensures forall u: UUID | u !in file.blocks :: Same(st, st', u)
    ensures st'.next == st.next + 1 && st'.keys == st.keys
  {
    BlocksDistinct(led, i);
    assert FileBlocksStored(st, file);
    RekeyBlocksWrites(st.Draw(1), file.blocks, file.chunks, file.key, n);
    var (st2, res) := RekeyBlocks(st.Draw(1), file.blocks, file.key, n);
    forall j | 0 <= j < |file.blocks|
      ensures StoredAs(st', file.blocks[j], Sealed(FileKey(n), BlockRec(file.chunks[j])))
    {
    }
  }

  /** After the inode and the revoker's new mailbox are written. */
  function Headed(st: State, i: nat, file: FileInfo, n: nat, mail: MailInfo): State {
    st.Draw(2).Put(Random(i), InodeOf(file.(key := n))).Put(Random(n + 2), NodeOf(mail))
  }

  ghost predicate HeadWrites(st: State, st': State, i: nat, file: FileInfo, n: nat, mail: MailInfo) {
    && FileRekeyed(st', i, file, n)
    && StoredAs(st', Random(n + 2), NodeOf(mail))
    && forall u: UUID | u != Random(i) && u !in file.blocks && u != Random(n + 2) :: Same(st, st', u)
  }

  lemma HeadedWrites(led: Ledger, st: State, st1: State, i: nat, file: FileInfo, mail: MailInfo, st': State)
    requires RolesOK(led) && FilesOK(led) && i in led.files && file == led.files[i]
    requires FileBlocksStored(st1, file.(key := led.next)) && forall u: UUID | u !in file.blocks :: Same(st, st1, u)
    requires st' == Headed(st1, i, file, led.next, mail)
    ensures HeadWrites(st, st', i, file, led.next, mail)
  {
    assert FileOK(led, i, file);
    var file' := file.(key := led.next);
    forall j | 0 <= j < |file'.blocks|
      ensures StoredAs(st', file'.blocks[j], Sealed(FileKey(file'.key), BlockRec(file'.chunks[j])))
    {
      assert Has(led, file.blocks[j].n, BlockRole(i, j)) && Has(led, i, FileRole);
      assert StoredAs(st1, file'.blocks[j], Sealed(FileKey(file'.key), BlockRec(file'.chunks[j])));
    }
  }

  lemma HeadLeavesMail(led: Ledger, st: State, st': State, i: nat, file: FileInfo, mail: MailInfo, m: nat)
    requires RolesOK(led) && FilesOK(led) && i in led.files && file == led.files[i] && Has(led, m, MailRole)
    requires HeadWrites(st, st', i, file, led.next, mail)
    ensures Same(st, st', Random(m))
  {
    assert FileOK(led, i, file);
  }

  lemma HeadKeepsMails(led: Ledger, st: State, st': State, i: nat, file: FileInfo, mail: MailInfo)
    requires RolesOK(led) && FilesOK(led) && MailsOK(led) && MailsStored(led, st) && i in led.files
    requires file == led.files[i]
    requires HeadWrites(st, st', i, file, led.next, mail)
    ensures MailsStored(led, st')
  {
    forall m | m in led.mails
      ensures StoredAs(st', Random(m), NodeOf(led.mails[m]))
    {
      assert MailOK(led, m, led.mails[m]) && StoredAs(st, Random(m), NodeOf(led.mails[m]));
      HeadLeavesMail(led, st, st', i, file, mail, m);
    }
  }

  /** After the children are patched, everything under random UUIDs is in place. */
  ghost predicate AllWrites(led: Ledger, st: State, st': State, i: nat, rec: RecInfo, recipient: string,
                            mail: MailInfo)
  {
    && i in led.files
    && FileRekeyed(st', i, led.files[i], led.next)
    && MailsRekeyed(led, st', rec, recipient, led.next)
    && StoredAs(st', Random(led.next + 2), NodeOf(mail))
    && OthersSame(st, st', i, led.files[i], rec, recipient, led.next)
    && forall u: UUID | u.Named? :: Same(st, st', u)
  }

  /** What patching the children does to one name. */
  ghost predicate PatchedAt(led: Ledger, st1: State, st': State, rec: RecInfo, recipient: string, u: UUID) {
    if u.Random? && Kept(rec, recipient, u.n) then
      u.n in led.mails && StoredAs(st', u, NodeOf(led.mails[u.n].(fileKey := led.next)))
    else Same(st1, st', u)
  }

  lemma KeptAreMails(led: Ledger, s: UUID, rec: RecInfo, recipient: string)
    requires MailsOK(led) && RecOK(led, s, rec)
    ensures forall m | Kept(rec, recipient, m) :: m in led.mails && Has(led, m, MailRole)
  {
    forall m | Kept(rec, recipient, m)
      ensures m in led.mails && Has(led, m, MailRole)
    {
      assert MailOK(led, m, led.mails[m]);
    }
  }

  lemma PatchedPoints(led: Ledger, st1: State, s: UUID, rec: RecInfo, recipient: string, st': State)
    requires MailsOK(led) && RecOK(led, s, rec) && MailsStored(led, st1)
    requires var children := AccessOf(led, rec).children;
             st' == PatchChildren(st1, children, children.Keys - {recipient}, led.next)
    ensures forall u: UUID :: PatchedAt(led, st1, st', rec, recipient, u)
  {
    KeptAreMails(led, s, rec, recipient);
    forall u: UUID
      ensures PatchedAt(led, st1, st', rec, recipient, u)
    {
      PatchWrites(led, st1, s, rec, recipient, led.next, u, st');
    }
  }

  lemma PatchedFile(led: Ledger, st: State, st1: State, st': State, i: nat, rec: RecInfo, recipient: string,
                    mail: MailInfo)
    requires RolesOK(led) && FilesOK(led) && i in led.files && HeadWrites(st, st1, i, led.files[i], led.next, mail)
    requires forall m | Kept(rec, recipient, m) :: m in led.mails && Has(led, m, MailRole)
    requires forall u: UUID :: PatchedAt(led, st1, st', rec, recipient, u)
    ensures FileRekeyed(st', i, led.files[i], led.next) && StoredAs(st', Random(led.next + 2), NodeOf(mail))
  {
    var file' := led.files[i].(key := led.next);
    assert FileOK(led, i, led.files[i]);
    forall j | 0 <= j < |file'.blocks|
      ensures StoredAs(st', file'.blocks[j], Sealed(FileKey(file'.key), BlockRec(file'.chunks[j])))
    {
      assert Has(led, file'.blocks[j].n, BlockRole(i, j));
      assert StoredAs(st1, file'.blocks[j], Sealed(FileKey(file'.key), BlockRec(file'.chunks[j])));
      assert PatchedAt(led, st1, st', rec, recipient, file'.blocks[j]);
    }
    assert PatchedAt(led, st1, st', rec, recipient, Random(i))
           && PatchedAt(led, st1, st', rec, recipient, Random(led.next + 2));
  }

  lemma PatchedOthers(led: Ledger, st: State, st1: State, st': State, i: nat, rec: RecInfo, recipient: string,
                      mail: MailInfo)
    requires i in led.files && HeadWrites(st, st1, i, led.files[i], led.next, mail)
    requires forall u: UUID :: PatchedAt(led, st1, st', rec, recipient, u)
    requires forall j :: 0 <= j < |led.files[i].blocks| ==> led.files[i].blocks[j].Random?
    ensures OthersSame(st, st', i, led.files[i], rec, recipient, led.next)
    ensures forall u: UUID | u.Named? :: Same(st, st', u)
  {
    forall u: UUID | (u.Random? && !Touched(u, i, led.files[i], rec, recipient, led.next)) || u.Named?
      ensures Same(st, st', u)
    {
      assert PatchedAt(led, st1, st', rec, recipient, u) && Same(st, st1, u);
    }
  }

  lemma PatchedMails(led: Ledger, st1: State, st': State, rec: RecInfo, recipient: string)
    requires forall u: UUID :: PatchedAt(led, st1, st', rec, recipient, u)
    ensures MailsRekeyed(led, st', rec, recipient, led.next)
  {
    forall m | m in led.mails && Kept(rec, recipient, m)
      ensures StoredAs(st', Random(m), NodeOf(led.mails[m].(fileKey := led.next)))
    {
      assert PatchedAt(led, st1, st', rec, recipient, Random(m));
    }
  }

  lemma PatchedWrites(led: Ledger, st: State, st1: State, i: nat, s: UUID, rec: RecInfo, recipient: string,
                      mail: MailInfo, st': State)
    requires RolesOK(led) && FilesOK(led) && MailsOK(led) && RecOK(led, s, rec) && MailsStored(led, st)
    requires i in led.files
    requires HeadWrites(st, st1, i, led.files[i], led.next, mail)
    requires var children := AccessOf(led, rec).children;
             st' == PatchChildren(st1, children, children.Keys - {recipient}, led.next)
    ensures AllWrites(led, st, st', i, rec, recipient, mail)
  {
    HeadKeepsMails(led, st, st1, i, led.files[i], mail);
    KeptAreMails(led, s, rec, recipient);
    PatchedPoints(led, st1, s, rec, recipient, st');
    assert FileOK(led, i, led.files[i]);
    PatchedFile(led, st, st1, st', i, rec, recipient, mail);
    PatchedOthers(led, st, st1, st', i, rec, recipient, mail);
    PatchedMails(led, st1, st', rec, recipient);
  }

  /** The final rewrite of the access record and of the user record. */
  function Closed(st: State, s: UUID, access: Payload, home: UUID, user: Payload): State {
    st.Put(s, access).Put(home, user)
  }

  lemma ClosedWrites(led: Ledger, st: State, st1: State, i: nat, rec: RecInfo, recipient: string, mail: MailInfo,
                     s: UUID, access: Payload, home: UUID, user: Payload, st': State)
    requires FilesOK(led) && AllWrites(led, st, st1, i, rec, recipient, mail)
    requires s.Named? && home.Named? && st' == Closed(st1, s, access, home, user)
    ensures FileRekeyed(st', i, led.files[i], led.next) && MailsRekeyed(led, st', rec, recipient, led.next)
    ensures StoredAs(st', Random(led.next + 2), NodeOf(mail))
    ensures OthersSame(st, st', i, led.files[i], rec, recipient, led.next)
    ensures Rewritten(st, st', s, access, home, user)
  {
    assert FileOK(led, i, led.files[i]);
    var file' := led.files[i].(key := led.next);
    forall j | 0 <= j < |file'.blocks|
      ensures StoredAs(st', file'.blocks[j], Sealed(FileKey(file'.key), BlockRec(file'.chunks[j])))
    {
      assert StoredAs(st1, file'.blocks[j], Sealed(FileKey(file'.key), BlockRec(file'.chunks[j])));
    }
    forall u: UUID | u.Random? && !Touched(u, i, led.files[i], rec, recipient, led.next)
      ensures Same(st, st', u)
    {
      assert Same(st, st1, u);
    }
    forall u: UUID | u.Named? && u != s && u != home
      ensures Same(st, st', u)
    {
      assert Same(st, st1, u);
    }
  }

  /** The record a revocation leaves behind, in sealed form. */
  lemma RevokedAccess(led: Ledger, led': Ledger, s: UUID, rec: RecInfo, recipient: string, rec': RecInfo)
    requires RecOK(led, s, rec) && Grows(led, led')
    requires rec' == rec.(mailbox := led.next + 2, children := rec.children - {recipient})
    requires led.next + 2 in led'.mails && led'.mails[led.next + 2].key == led.next + 1
    ensures AccessOf(led', rec')
            == Access(Random(led.next + 2), led.next + 1, AccessOf(led, rec).children - {recipient})
  {
    AccessKeeps(led, led', s, rec);
  }

  /** Unfolding the code for a live holder, step by step. */
  lemma RevokeUnfolds(st: State, user: UserData, filename: string, recipient: string, access: Access, i: nat,
                      file: FileInfo, mail: MailInfo, st1: State, st2: State, st3: State, out: Outcome<()>)
    requires mail.key == st.next + 1 && mail.file == i && mail.fileKey == st.next
    requires OpenAccess(st, user, filename) == Success(access)
    requires OpenMailbox(st, access) == Success(MailboxNode(file.key, Random(i)))
    requires OpenInode(st, MailboxNode(file.key, Random(i))) == Success(Inode(|Flatten(file.chunks)|, file.blocks))
    requires st1 == RekeyBlocks(st.Draw(1), file.blocks, file.key, st.next).0
    requires RekeyBlocks(st.Draw(1), file.blocks, file.key, st.next).1.Success? && st1.next == st.next + 1
    requires st2 == Headed(st1, i, file, st.next, mail)
    requires st3 == PatchChildren(st2, access.children, access.children.Keys - {recipient}, st.next)
    requires out == RevokeAccess(st, user, filename, recipient)
    ensures var access' := Access(Random(st.next + 2), st.next + 1, access.children - {recipient});
            && out.st == Closed(st3, AccessUUID(user.username, filename),
                                Sealed(PersonalKey(user.master, filename), AccessRec(access')), UserUUID(user.username),
                                Sealed(UserKey(user.master), UserRec(WithFile(user, filename))))
            && out.user == WithFile(user, filename) && out.res.Success?
            && out.st.next == st.next + 3 && (st1.keys == st.keys ==> out.st.keys == st.keys)
  {
    assert OpenInode(st.Draw(1), MailboxNode(file.key, Random(i))) == OpenInode(st, MailboxNode(file.key, Random(i)));
  }

  /** A mailbox node as a revocation re-seals it. */
  ghost predicate RekeyedNode(led: Ledger, rec: RecInfo, recipient: string, p: Payload) {
    exists m :: m in led.mails && Kept(rec, recipient, m) && p == NodeOf(led.mails[m].(fileKey := led.next))
  }

  /** Everything the three stages hand to the store: blocks, the inode, the new mailbox, the kept mailboxes. */
  ghost predicate LogWrites(led: Ledger, st: State, st': State, i: nat, rec: RecInfo, recipient: string,
                            mail: MailInfo)
  {
    && i in led.files && st.log <= st'.log
    && NodeOf(mail) in st'.log
    && (forall m | m in led.mails && Kept(rec, recipient, m) :: NodeOf(led.mails[m].(fileKey := led.next)) in st'.log)
    && forall p | p in st'.log ::
         || p in st.log || p == NodeOf(mail) || p == InodeOf(led.files[i].(key := led.next))
         || (p.Sealed? && p.lock == FileKey(led.next) && p.plain.BlockRec?)
         || RekeyedNode(led, rec, recipient, p)
  }

  lemma PatchedLog(led: Ledger, st: State, s: UUID, rec: RecInfo, recipient: string, st': State)
    requires RecOK(led, s, rec) && MailsStored(led, st)
    requires var children := AccessOf(led, rec).children;
             st' == PatchChildren(st, children, children.Keys - {recipient}, led.next)
    ensures st.log <= st'.log
    ensures forall m | m in led.mails && Kept(rec, recipient, m) ::
              NodeOf(led.mails[m].(fileKey := led.next)) in st'.log
    ensures forall p | p in st'.log :: p in st.log || RekeyedNode(led, rec, recipient, p)
  {
    var children := AccessOf(led, rec).children;
    var patched := Patched(st, children, children.Keys - {recipient}, led.next);
    forall m | m in led.mails && Kept(rec, recipient, m)
      ensures NodeOf(led.mails[m].(fileKey := led.next)) in patched.Values
    {
      PatchableIsKept(led, st, s, rec, recipient, Random(m));
      assert StoredAs(st, Random(m), NodeOf(led.mails[m]));
      assert patched[Random(m)] == NodeOf(led.mails[m].(fileKey := led.next));
    }
    forall p | p in patched.Values
      ensures RekeyedNode(led, rec, recipient, p)
    {
      PatchedIsNode(led, st, s, rec, recipient, patched, p);
    }
  }

  lemma PatchedIsNode(led: Ledger, st: State, s: UUID, rec: RecInfo, recipient: string, patched: map<UUID, Payload>,
                      p: Payload)
    requires RecOK(led, s, rec) && MailsStored(led, st) && p in patched.Values
    requires var children := AccessOf(led, rec).children;
             patched == Patched(st, children, children.Keys - {recipient}, led.next)
    ensures RekeyedNode(led, rec, recipient, p)
  {
    var u :| u in patched && patched[u] == p;
    PatchableIsKept(led, st, s, rec, recipient, u);
    assert StoredAs(st, Random(u.n), NodeOf(led.mails[u.n]));
    assert p == NodeOf(led.mails[u.n].(fileKey := led.next));
  }

  lemma LoopLog(led: Ledger, st: State, i: nat, file: FileInfo, st1: State)
    requires FilesOK(led) && BlocksStored(led, st) && i in led.files && file == led.files[i]
    requires st1 == RekeyBlocks(st.Draw(1), file.blocks, file.key, led.next).0
    ensures st.log <= st1.log
    ensures forall p | p in st1.log :: p in st.log || (p.Sealed? && p.lock == FileKey(led.next) && p.plain.BlockRec?)
  {
    BlocksDistinct(led, i);
    assert FileBlocksStored(st, file);
    RekeyBlocksWrites(st.Draw(1), file.blocks, file.chunks, file.key, led.next);
    assert forall p | p in st1.log - st.log :: p.Sealed? && p.lock == FileKey(led.next) && p.plain.BlockRec?;
  }

  lemma StagesJoin(led: Ledger, st: State, i: nat, rec: RecInfo, recipient: string, mail: MailInfo, log1: set<Payload>,
                   log2: set<Payload>, st3: State)
    requires i in led.files && st.log <= log1
    requires log2 == log1 + {InodeOf(led.files[i].(key := led.next))} + {NodeOf(mail)} && log2 <= st3.log
    requires forall p | p in log1 :: p in st.log || (p.Sealed? && p.lock == FileKey(led.next) && p.plain.BlockRec?)
    requires forall m | m in led.mails && Kept(rec, recipient, m) ::
               NodeOf(led.mails[m].(fileKey := led.next)) in st3.log
    requires forall p | p in st3.log :: p in log2 || RekeyedNode(led, rec, recipient, p)
    ensures LogWrites(led, st, st3, i, rec, recipient, mail)
  {
  }

  lemma StagesLog(led: Ledger, st: State, i: nat, s: UUID, rec: RecInfo, recipient: string, mail: MailInfo,
                  st1: State, st2: State, st3: State)
    requires RolesOK(led) && FilesOK(led) && MailsOK(led) && RecOK(led, s, rec) && i in led.files
    requires BlocksStored(led, st) && MailsStored(led, st)
    requires st1 == RekeyBlocks(st.Draw(1), led.files[i].blocks, led.files[i].key, led.next).0
    requires st2 == Headed(st1, i, led.files[i], led.next, mail)
    requires var children := AccessOf(led, rec).children;
             st3 == PatchChildren(st2, children, children.Keys - {recipient}, led.next)
    ensures LogWrites(led, st, st3, i, rec, recipient, mail)
  {
    LoopLog(led, st, i, led.files[i], st1);
    LoopWrites(led, st, i, led.files[i], led.next, st1);
    HeadedWrites(led, st, st1, i, led.files[i], mail, st2);
    HeadKeepsMails(led, st, st2, i, led.files[i], mail);
    PatchedLog(led, st2, s, rec, recipient, st3);
    StagesJoin(led, st, i, rec, recipient, mail, st1.log, st2.log, st3);
  }

  /** The three stages under random UUIDs: block loop, inode and new mailbox, children. */
  lemma StagesWrite(led: Ledger, st: State, i: nat, s: UUID, rec: RecInfo, recipient: string, mail: MailInfo,
                    st1: State, st2: State, st3: State)
    requires RolesOK(led) && FilesOK(led) && MailsOK(led) && RecOK(led, s, rec) && i in led.files
    requires BlocksStored(led, st) && MailsStored(led, st)
    requires st1 == RekeyBlocks(st.Draw(1), led.files[i].blocks, led.files[i].key, led.next).0
    requires st2 == Headed(st1, i, led.files[i], led.next, mail)
    requires var children := AccessOf(led, rec).children;
             st3 == PatchChildren(st2, children, children.Keys - {recipient}, led.next)
    ensures AllWrites(led, st, st3, i, rec, recipient, mail)
    ensures RekeyBlocks(st.Draw(1), led.files[i].blocks, led.files[i].key, led.next).1.Success?
    ensures st1.next == st.next + 1 && st1.keys == st.keys
  {
    LoopWrites(led, st, i, led.files[i], led.next, st1);
    HeadedWrites(led, st, st1, i, led.files[i], mail, st2);
    PatchedWrites(led, st, st2, i, s, rec, recipient, mail, st3);
  }

  /** A live holder's revocation never stops early, and ends with the access and user records rewritten. */
  lemma RevokeLiveRuns(led: Ledger, st: State, user: UserData, filename: string, recipient: string,
                       i: nat, file: FileInfo, s: UUID, rec: RecInfo, mail: MailInfo, access: Access, out: Outcome<()>)
      returns (st3: State)
    requires RolesOK(led) && FilesOK(led) && MailsOK(led) && RecOK(led, s, rec) && i in led.files
    requires file == led.files[i]
    requires BlocksStored(led, st) && MailsStored(led, st) && led.next == st.next
    requires mail.key == st.next + 1 && mail.file == i && mail.fileKey == st.next && access == AccessOf(led, rec)
    requires OpenAccess(st, user, filename) == Success(access)
    requires OpenMailbox(st, access) == Success(MailboxNode(file.key, Random(i)))
    requires OpenInode(st, MailboxNode(file.key, Random(i))) == Success(Inode(|Flatten(file.chunks)|, file.blocks))
    requires out == RevokeAccess(st, user, filename, recipient)
    ensures AllWrites(led, st, st3, i, rec, recipient, mail) && LogWrites(led, st, st3, i, rec, recipient, mail)
    ensures out.st == Closed(st3, AccessUUID(user.username, filename),
                             Sealed(PersonalKey(user.master, filename),
                                    AccessRec(Access(Random(st.next + 2), st.next + 1, access.children - {recipient}))),
                             UserUUID(user.username), Sealed(UserKey(user.master), UserRec(WithFile(user, filename))))
    ensures out.user == WithFile(user, filename) && out.res.Success?
    ensures out.st.next == st.next + 3 && out.st.keys == st.keys
  {
    var st1 := RekeyBlocks(st.Draw(1), file.blocks, file.key, st.next).0;
    var st2 := Headed(st1, i, file, st.next, mail);
    st3 := PatchChildren(st2, access.children, access.children.Keys - {recipient}, st.next);
    StagesWrite(led, st, i, s, rec, recipient, mail, st1, st2, st3);
    StagesLog(led, st, i, s, rec, recipient, mail, st1, st2, st3);
    RevokeUnfolds(st, user, filename, recipient, access, i, file, mail, st1, st2, st3, out);
  }

  lemma RevokeShape(led: Ledger, user: UserData, filename: string, recipient: string, led': Ledger, i: nat, s: UUID,
                    rec: RecInfo)
    requires CanOpen(led, user, filename) && led' == RevokeLedger(led, user, filename, recipient)
    requires i == FileOf(led, user, filename) && s == AccessUUID(user.username, filename) && rec == led.recs[s]
    ensures led'.files == led.files[i := led.files[i].(key := led.next)]
    ensures led'.mails == KeptMails(led, rec, recipient)[led.next + 2 := NewMail(rec, i, led.next, user.username)]
    ensures led'.recs == led.recs[s := rec.(mailbox := led.next + 2, children :=
                                            rec.children - {recipient})] - {UserUUID(user.username)}
    ensures led'.invs == led.invs && led'.accounts == led.accounts && led'.next == led.next + 3
  {
  }

  /** From the final state of the code to the ledger with the file re-keyed. */
  lemma RevokeCloses(led: Ledger, st: State, user: UserData, recipient: string, led': Ledger, i: nat, s: UUID,
                     rec: RecInfo, mail: MailInfo, rec': RecInfo, st3: State, access: Payload, st': State)
    requires WellFormed(led) && Represents(led, st) && Registered(led, user) && Grows(led, led')
    requires AllWrites(led, st, st3, i, rec, recipient, mail)
    requires st' == Closed(st3, s, access, UserUUID(user.username), Sealed(UserKey(user.master), UserRec(user)))
    requires s in led.recs && rec == led.recs[s] && s.Named? && access == AccessPayload(led', rec')
    requires led'.files == led.files[i := led.files[i].(key := led.next)]
    requires led'.mails == KeptMails(led, rec, recipient)[led.next + 2 := mail]
    requires led'.recs == led.recs[s := rec'] - {UserUUID(user.username)}
    requires led'.invs == led.invs && led'.accounts == led.accounts && led'.next == st'.next && st'.keys == st.keys
    ensures Represents(led', st')
  {
    var home := UserUUID(user.username);
    ClosedWrites(led, st, st3, i, rec, recipient, mail, s, access, home, Sealed(UserKey(user.master), UserRec(user)),
                 st');
    RevokedRepresents(led, st, led', st', i, s, rec, recipient, mail, rec', access, home, user);
  }

  lemma LiveHolderOpensAt(led: Ledger, st: State, user: UserData, filename: string, i: nat, file: FileInfo,
                          access: Access)
    requires RecsOK(led) && RecsStored(led, st) && MailsStored(led, st) && FilesStored(led, st)
    requires CanOpen(led, user, filename)
    requires i == FileOf(led, user, filename) && file == led.files[i]
    requires access == AccessOf(led, led.recs[AccessUUID(user.username, filename)])
    ensures OpenAccess(st, user, filename) == Success(access)
    ensures OpenMailbox(st, access) == Success(MailboxNode(file.key, Random(i)))
    ensures OpenInode(st, MailboxNode(file.key, Random(i))) == Success(Inode(|Flatten(file.chunks)|, file.blocks))
  {
    LiveHolderOpens(led, st, user, filename);
  }

  lemma RevokeRuns(led: Ledger, st: State, user: UserData, filename: string, recipient: string, out: Outcome<()>,
                   i: nat, s: UUID, rec: RecInfo, mail: MailInfo, access: Access) returns (st3: State)
    requires RolesOK(led) && FilesOK(led) && MailsOK(led) && RecsOK(led) && led.next == st.next
    requires FilesStored(led, st) && BlocksStored(led, st) && MailsStored(led, st) && RecsStored(led, st)
    requires CanOpen(led, user, filename)
    requires out == RevokeAccess(st, user, filename, recipient)
    requires i == FileOf(led, user, filename) && s == AccessUUID(user.username, filename) && rec == led.recs[s]
    requires mail.key == st.next + 1 && mail.file == i && mail.fileKey == st.next && access == AccessOf(led, rec)
    ensures AllWrites(led, st, st3, i, rec, recipient, mail) && LogWrites(led, st, st3, i, rec, recipient, mail)
    ensures out.st == Closed(st3, AccessUUID(user.username, filename),
                             Sealed(PersonalKey(user.master, filename),
                                    AccessRec(Access(Random(st.next + 2), st.next + 1, access.children - {recipient}))),
                             UserUUID(user.username), Sealed(UserKey(user.master), UserRec(WithFile(user, filename))))
    ensures out.user == WithFile(user, filename) && out.res.Success?
    ensures out.st.next == st.next + 3 && out.st.keys == st.keys
  {
    assert RecOK(led, s, rec);
    LiveHolderOpensAt(led, st, user, filename, i, led.files[i], access);
    st3 := RevokeLiveRuns(led, st, user, filename, recipient, i, led.files[i], s, rec, mail, access, out);
  }

  lemma RevokedPayload(led: Ledger, led': Ledger, st: State, user: UserData, filename: string, s: UUID, rec: RecInfo,
                       recipient: string, rec': RecInfo)
    requires RecOK(led, s, rec) && Grows(led, led') && led.next == st.next
    requires rec.master == user.master && rec.filename == filename
    requires rec' == rec.(mailbox := led.next + 2, children := rec.children - {recipient})
    requires led.next + 2 in led'.mails && led'.mails[led.next + 2].key == led.next + 1
    ensures AccessPayload(led', rec')
         == Sealed(PersonalKey(user.master, filename),
                   AccessRec(Access(Random(st.next + 2), st.next + 1, AccessOf(led, rec).children - {recipient})))
  {
    RevokedAccess(led, led', s, rec, recipient, rec');
  }

  lemma RevokeLive(led: Ledger, st: State, user: UserData, filename: string, recipient: string, led': Ledger,
                   out: Outcome<()>, i: nat, s: UUID, rec: RecInfo, mail: MailInfo, rec': RecInfo)
    requires WellFormed(led) && Represents(led, st) && Registered(led, user) && CanOpen(led, user, filename)
    requires led' == RevokeLedger(led, user, filename, recipient) && Grows(led, led')
    requires out == RevokeAccess(st, user, filename, recipient)
    requires i == FileOf(led, user, filename) && s == AccessUUID(user.username, filename) && rec == led.recs[s]
    requires mail == NewMail(rec, i, led.next, user.username)
    requires rec' == rec.(mailbox := led.next + 2, children := rec.children - {recipient})
    ensures Represents(led', out.st) && out.res.Success? && out.user == WithFile(user, filename)
  {
    assert RecOK(led, s, rec);
    RevokeShape(led, user, filename, recipient, led', i, s, rec);
    RevokedPayload(led, led', st, user, filename, s, rec, recipient, rec');
    var st3 := RevokeRuns(led, st, user, filename, recipient, out, i, s, rec, mail, AccessOf(led, rec));
    RevokeCloses(led, st, WithFile(user, filename), recipient, led', i, s, rec, mail, rec', st3,
                 AccessPayload(led', rec'), out.st);
  }

  /** A stale holder's revocation only draws a key; nothing is written. */
  lemma RevokeStale(led: Ledger, st: State, user: UserData, filename: string, recipient: string, out: Outcome<()>)
    requires WellFormed(led) && Represents(led, st) && Holds(led, user, filename) && !CanOpen(led, user, filename)
    requires out == RevokeAccess(st, user, filename, recipient)
    ensures out == Outcome(st.Draw(1), user, Failure(Unreadable(InodeKind)))
  {
    var rec := led.recs[AccessUUID(user.username, filename)];
    HolderOpensAccess(led, st, user, filename);
    RecordOpensMailbox(led, st, rec);
    StaleMailboxFails(led, st, rec.mailbox);
    var node := MailboxNode(led.mails[rec.mailbox].fileKey, Random(led.mails[rec.mailbox].file));
    assert OpenInode(st.Draw(1), node) == OpenInode(st, node);
  }

  lemma RevokeNonHolder(led: Ledger, st: State, user: UserData, filename: string, recipient: string, out: Outcome<()>)
    requires WellFormed(led) && Represents(led, st) && !Holds(led, user, filename)
    requires out == RevokeAccess(st, user, filename, recipient)
    ensures out.st == st && out.user == user && out.res.Failure?
  {
    NonHolderFails(led, st, user, filename);
  }

  /**
   A revocation succeeds exactly for live holders (of any kind, not only the storer), re-keys the file
   without changing a byte of it, and keeps exactly the holder's other direct children.
   */
  lemma RevokeRefines(led: Ledger, st: State, user: UserData, filename: string, recipient: string)
    requires WellFormed(led) && Represents(led, st) && Registered(led, user)
    ensures Represents(RevokeLedger(led, user, filename, recipient), RevokeAccess(st, user, filename, recipient).st)
    ensures RevokeAccess(st, user, filename, recipient).res.Success? <==> CanOpen(led, user, filename)
    ensures RevokeAccess(st, user, filename, recipient).user
         == if CanOpen(led, user, filename) then WithFile(user, filename) else user
  {
    var led', out, s := RevokeLedger(led, user, filename, recipient), RevokeAccess(st, user, filename, recipient),
                        AccessUUID(user.username, filename);
    RevokeKeeps(led, user, filename, recipient);
    if CanOpen(led, user, filename) {
      var i, rec := FileOf(led, user, filename), led.recs[s];
      RevokeLive(led, st, user, filename, recipient, led', out, i, s, rec, NewMail(rec, i, led.next, user.username),
                 rec.(mailbox := led.next + 2, children := rec.children - {recipient}));
    } else if Holds(led, user, filename) {
      RevokeStale(led, st, user, filename, recipient, out);
      RevokeStaleRefines(led, st, user, filename, recipient);
    } else {
      RevokeNonHolder(led, st, user, filename, recipient, out);
    }
  }

  lemma RevokeStaleRefines(led: Ledger, st: State, user: UserData, filename: string, recipient: string)
    requires WellFormed(led) && Represents(led, st) && Holds(led, user, filename) && !CanOpen(led, user, filename)
    ensures Represents(RevokeLedger(led, user, filename, recipient), st.Draw(1))
  {
    var led', s := RevokeLedger(led, user, filename, recipient), AccessUUID(user.username, filename);
    assert RecOK(led, s, led.recs[s]);
    DrawRepresents(led, st, led');
  }

  lemma DrawRepresents(led: Ledger, st: State, led': Ledger)
    requires Represents(led, st)
    requires led'.files == led.files && led'.mails == led.mails && led'.recs == led.recs && led'.invs == led.invs
    requires led'.accounts == led.accounts && led'.next == led.next + 1
    ensures Represents(led', st.Draw(1))
  {
    forall rec: RecInfo
      ensures AccessOf(led', rec) == AccessOf(led, rec)
    {
    }
  }
}
