/** StoreFile and AppendToFile on the sealed store act as their ledger operations. */
module RefineFiles {
  import opened Wrappers
  import opened Blocks
  import opened Records
  import opened Protocol
  import opened Ledgers
  import opened LedgerSteps
  import opened Refinement

  /** The user record as a session saves it. */
  function WithFile(user: UserData, filename: string): UserData {
    user.(files := user.files[filename := AccessUUID(user.username, filename)])
  }

  // ---------- StoreFile ----------

  /** The state StoreFile hands to the block loop. */
  function BeforeBlocks(st: State, user: UserData, filename: string): State {
    st.Draw(4).Put(Random(st.next + 2),
                   Sealed(MailKey(st.next + 3), MailboxRec(MailboxNode(st.next, Random(st.next + 1)))))
    .Put(AccessUUID(user.username, filename),
         Sealed(PersonalKey(user.master, filename), AccessRec(Access(Random(st.next + 2), st.next + 3, map[]))))
  }

  lemma StoreWritesFresh(st: State, user: UserData, filename: string, content: seq<byte>)
    ensures var st', chunks := StoreFile(st, user, filename, content).st, Chunks(content);
            && st'.next == st.next + 4 + |chunks| && st'.keys == st.keys
            && StoredAs(st', Random(st.next + 1),
                        Sealed(FileKey(st.next), InodeRec(Inode(|content|, FreshIds(st.next + 4, |chunks|)))))
            && StoredAs(st', Random(st.next + 2),
                        Sealed(MailKey(st.next + 3), MailboxRec(MailboxNode(st.next, Random(st.next + 1)))))
            && forall j :: 0 <= j < |chunks| ==>
                 StoredAs(st', FreshIds(st.next + 4, |chunks|)[j], Sealed(FileKey(st.next), BlockRec(chunks[j])))
  {
    var st2, chunks := BeforeBlocks(st, user, filename), Chunks(content);
    PutBlocksWrites(st2, chunks, st.next);
    var st3 := PutBlocks(st2, chunks, st.next);
    assert StoredAs(st2, Random(st.next + 2),
                    Sealed(MailKey(st.next + 3), MailboxRec(MailboxNode(st.next, Random(st.next + 1)))));
    forall j | 0 <= j < |chunks|
      ensures StoredAs(StoreFile(st, user, filename, content).st, FreshIds(st.next + 4, |chunks|)[j],
                       Sealed(FileKey(st.next), BlockRec(chunks[j])))
    {
      assert StoredAs(st3, FreshIds(st.next + 4, |chunks|)[j], Sealed(FileKey(st.next), BlockRec(chunks[j])));
    }
  }

  lemma StoreWritesNamed(st: State, user: UserData, filename: string, content: seq<byte>)
    ensures var st', s := StoreFile(st, user, filename, content).st, AccessUUID(user.username, filename);
            && StoredAs(st', UserUUID(user.username), Sealed(UserKey(user.master), UserRec(WithFile(user, filename))))
            && (s != UserUUID(user.username) ==>
                  StoredAs(st', s, Sealed(PersonalKey(user.master, filename),
                                          AccessRec(Access(Random(st.next + 2), st.next + 3, map[])))))
  {
    var st2 := BeforeBlocks(st, user, filename);
    PutBlocksWrites(st2, Chunks(content), st.next);
  }

  lemma StoreLeaves(st: State, user: UserData, filename: string, content: seq<byte>, u: UUID)
    requires u != UserUUID(user.username) && u != AccessUUID(user.username, filename)
    requires u.Random? ==> u.n < st.next
    ensures Same(st, StoreFile(st, user, filename, content).st, u)
  {
    PutBlocksWrites(BeforeBlocks(st, user, filename), Chunks(content), st.next);
  }

  /** Nothing but envelopes is written. */
  lemma StoreSeals(st: State, user: UserData, filename: string, content: seq<byte>, u: UUID)
    requires var st' := StoreFile(st, user, filename, content).st; u in st'.store && st'.store[u].Signed?
    ensures Same(st, StoreFile(st, user, filename, content).st, u)
  {
    PutBlocksWrites(BeforeBlocks(st, user, filename), Chunks(content), st.next);
  }

  /** Every older entry but the caller's two records is left alone. */
  ghost predicate LeavesOlder(st: State, st': State, user: UserData, filename: string) {
    forall u: UUID | u != UserUUID(user.username) && u != AccessUUID(user.username, filename)
      && (u.Random? ==> u.n < st.next) ::
      Same(st, st', u)
  }

  lemma StoreLeavesOlder(st: State, user: UserData, filename: string, content: seq<byte>)
    ensures LeavesOlder(st, StoreFile(st, user, filename, content).st, user, filename)
  {
    forall u: UUID | u != UserUUID(user.username) && u != AccessUUID(user.username, filename)
      && (u.Random? ==> u.n < st.next)
      ensures Same(st, StoreFile(st, user, filename, content).st, u)
    {
      StoreLeaves(st, user, filename, content, u);
    }
  }

  function NewFile(n: nat, content: seq<byte>): FileInfo {
    FileInfo(n, FreshIds(n + 4, |Chunks(content)|), Chunks(content))
  }

  lemma StoreLedgerParts(led: Ledger, user: UserData, filename: string, content: seq<byte>)
    ensures StoreLedger(led, user, filename, content).files == led.files[led.next + 1 := NewFile(led.next, content)]
    ensures StoreLedger(led, user, filename, content).invs == led.invs
    ensures StoreLedger(led, user, filename, content).accounts == led.accounts
    ensures StoreLedger(led, user, filename, content).next == led.next + 4 + |Chunks(content)|
  {
  }

  lemma StoreWritesInode(st: State, user: UserData, filename: string, content: seq<byte>, n: nat)
    requires n == st.next
    ensures StoredAs(StoreFile(st, user, filename, content).st, Random(n + 1), InodeOf(NewFile(n, content)))
  {
    FlattenChunks(content);
    StoreWritesFresh(st, user, filename, content);
  }

  lemma StoreInodesRefine(led: Ledger, st: State, user: UserData, filename: string, content: seq<byte>)
    requires Below(led) && led.next == st.next && FilesStored(led, st)
    ensures FilesStored(StoreLedger(led, user, filename, content), StoreFile(st, user, filename, content).st)
  {
    StoreLedgerParts(led, user, filename, content);
    StoreWritesInode(st, user, filename, content, led.next);
    StoreLeavesOlder(st, user, filename, content);
    NewInode(led, st, user, filename, StoreLedger(led, user, filename, content),
             StoreFile(st, user, filename, content).st, led.next + 1, NewFile(led.next, content));
  }

  lemma NewInode(led: Ledger, st: State, user: UserData, filename: string, led': Ledger, st': State, i: nat,
                 file: FileInfo)
    requires Below(led) && led.next == st.next && FilesStored(led, st) && LeavesOlder(st, st', user, filename)
    requires led'.files == led.files[i := file] && StoredAs(st', Random(i), InodeOf(file))
    ensures FilesStored(led', st')
  {
    FilesStoredWith(led, led', st, st', i, file);
  }

  lemma StoreWritesMailbox(st: State, user: UserData, filename: string, content: seq<byte>, n: nat)
    requires n == st.next
    ensures StoredAs(StoreFile(st, user, filename, content).st, Random(n + 2), NodeOf(FirstMail(n, user)))
  {
    StoreWritesFresh(st, user, filename, content);
  }

  lemma StoreMailsRefine(led: Ledger, st: State, user: UserData, filename: string, content: seq<byte>)
    requires Below(led) && led.next == st.next && MailsStored(led, st)
    ensures MailsStored(StoreLedger(led, user, filename, content), StoreFile(st, user, filename, content).st)
  {
    StoreNewMail(led, user, filename, content);
    StoreWritesMailbox(st, user, filename, content, led.next);
    StoreLeavesOlder(st, user, filename, content);
    NewMailbox(led, st, user, filename, StoreLedger(led, user, filename, content),
               StoreFile(st, user, filename, content).st, led.next + 2, FirstMail(led.next, user));
  }

  lemma NewMailbox(led: Ledger, st: State, user: UserData, filename: string, led': Ledger, st': State, m: nat,
                   mail: MailInfo)
    requires Below(led) && led.next == st.next && MailsStored(led, st) && LeavesOlder(st, st', user, filename)
    requires MailAdded(led, led', m, mail) && StoredAs(st', Random(m), NodeOf(mail))
    ensures MailsStored(led', st')
  {
    MailsStoredWith(led, led', st, st', m, mail);
  }

  lemma StoreLeavesBlocks(led: Ledger, st: State, user: UserData, filename: string, content: seq<byte>)
    requires RolesOK(led) && FilesOK(led) && led.next == st.next
    ensures forall k, j | k in led.files && 0 <= j < |led.files[k].blocks| ::
              Same(st, StoreFile(st, user, filename, content).st, led.files[k].blocks[j])
  {
    forall k, j | k in led.files && 0 <= j < |led.files[k].blocks|
      ensures Same(st, StoreFile(st, user, filename, content).st, led.files[k].blocks[j])
    {
      assert FileOK(led, k, led.files[k]);
      assert Has(led, led.files[k].blocks[j].n, BlockRole(k, j));
      StoreLeaves(st, user, filename, content, led.files[k].blocks[j]);
    }
  }

  lemma StoreBlocksRefine(led: Ledger, st: State, user: UserData, filename: string, content: seq<byte>)
    requires RolesOK(led) && FilesOK(led) && led.next == st.next && BlocksStored(led, st)
    ensures BlocksStored(StoreLedger(led, user, filename, content), StoreFile(st, user, filename, content).st)
  {
    StoreWritesFresh(st, user, filename, content);
    StoreLeavesBlocks(led, st, user, filename, content);
    BlocksStoredWith(led, StoreLedger(led, user, filename, content), st, StoreFile(st, user, filename, content).st,
                     st.next + 1, FileInfo(st.next, FreshIds(st.next + 4, |Chunks(content)|), Chunks(content)));
  }

  lemma StoreRecsRefine(led: Ledger, st: State, user: UserData, filename: string, content: seq<byte>)
    requires RecsOK(led) && led.next == st.next && RecsStored(led, st)
    requires Grows(led, StoreLedger(led, user, filename, content))
    ensures RecsStored(StoreLedger(led, user, filename, content), StoreFile(st, user, filename, content).st)
  {
    var led', st' := StoreLedger(led, user, filename, content), StoreFile(st, user, filename, content).st;
    var s, rec := AccessUUID(user.username, filename), RecInfo(user.master, filename, st.next + 2, map[]);
    StoreWritesNamed(st, user, filename, content);
    assert AccessOf(led', rec) == Access(Random(st.next + 2), st.next + 3, map[]);
    forall k | k in led.recs && k != s && k != UserUUID(user.username)
      ensures Same(st, st', k)
    {
      assert RecOK(led, k, led.recs[k]);
      StoreLeaves(st, user, filename, content, k);
    }
    RecsStoredWith(led, led', st, st', s, rec, {UserUUID(user.username)});
  }

  lemma StoreSealsAll(st: State, user: UserData, filename: string, content: seq<byte>, st': State)
    requires st' == StoreFile(st, user, filename, content).st
    ensures forall u | u in st'.store && st'.store[u].Signed? :: Same(st, st', u)
  {
    forall u | u in st'.store && st'.store[u].Signed?
      ensures Same(st, st', u)
    {
      StoreSeals(st, user, filename, content, u);
    }
  }

  lemma OlderInvs(led: Ledger, st: State, user: UserData, filename: string, led': Ledger, st': State)
    requires Below(led) && InvsOK(led) && led.next == st.next && InvsStored(led, st) && Grows(led, led')
    requires led'.invs == led.invs
    requires LeavesOlder(st, st', user, filename)
    requires forall u | u in st'.store && st'.store[u].Signed? :: Same(st, st', u)
    ensures InvsStored(led', st')
  {
    InvsStoredWith(led, led', st, st');
  }

  lemma StoreInvsRefine(led: Ledger, st: State, user: UserData, filename: string, content: seq<byte>)
    requires Below(led) && InvsOK(led) && led.next == st.next && InvsStored(led, st)
    requires Grows(led, StoreLedger(led, user, filename, content))
    ensures InvsStored(StoreLedger(led, user, filename, content), StoreFile(st, user, filename, content).st)
  {
    StoreLedgerParts(led, user, filename, content);
    StoreLeavesOlder(st, user, filename, content);
    StoreSealsAll(st, user, filename, content, StoreFile(st, user, filename, content).st);
    OlderInvs(led, st, user, filename, StoreLedger(led, user, filename, content),
              StoreFile(st, user, filename, content).st);
  }

  /** The caller's two records are written, and every other record stays on the ledger. */
  ghost predicate HomeWritten(led: Ledger, led': Ledger, st': State, user: UserData, s: UUID, user': UserData) {
    && led'.accounts == led.accounts && s in st'.store && (s == UserUUID(user.username) || s in led'.recs)
    && StoredAs(st', UserUUID(user.username), Sealed(UserKey(user.master), UserRec(user')))
    && forall k | k in led.recs && k != s && k != UserUUID(user.username) :: k in led'.recs
  }

  lemma StoreWritesHome(led: Ledger, st: State, user: UserData, filename: string, content: seq<byte>)
    ensures HomeWritten(led, StoreLedger(led, user, filename, content), StoreFile(st, user, filename, content).st, user,
                        AccessUUID(user.username, filename), WithFile(user, filename))
  {
    StoreWritesNamed(st, user, filename, content);
  }

  lemma HomeRefines(led: Ledger, st: State, user: UserData, filename: string, led': Ledger, st': State)
    requires NamedStored(led, st) && Registered(led, user) && Grows(led, led') && LeavesOlder(st, st', user, filename)
    requires HomeWritten(led, led', st', user, AccessUUID(user.username, filename), WithFile(user, filename))
    ensures NamedStored(led', st')
  {
    NamedStoredWith(led, led', st, st', AccessUUID(user.username, filename), WithFile(user, filename));
  }

  lemma StoreNamedRefine(led: Ledger, st: State, user: UserData, filename: string, content: seq<byte>)
    requires NamedStored(led, st) && Registered(led, user) && Grows(led, StoreLedger(led, user, filename, content))
    ensures NamedStored(StoreLedger(led, user, filename, content), StoreFile(st, user, filename, content).st)
  {
    StoreLeavesOlder(st, user, filename, content);
    StoreWritesHome(led, st, user, filename, content);
    HomeRefines(led, st, user, filename, StoreLedger(led, user, filename, content),
                StoreFile(st, user, filename, content).st);
  }

  /** StoreFile always makes a new file with a fresh mailbox; every older file, mailbox and invitation is left alone. */
  lemma StoreRefines(led: Ledger, st: State, user: UserData, filename: string, content: seq<byte>)
    requires WellFormed(led) && Represents(led, st) && Registered(led, user)
    ensures Represents(StoreLedger(led, user, filename, content), StoreFile(st, user, filename, content).st)
    ensures StoreFile(st, user, filename, content).user == WithFile(user, filename)
  {
    NextIsFresh(led);
    StoreKeeps(led, user, filename, content);
    StoreWritesFresh(st, user, filename, content);
    StoreInodesRefine(led, st, user, filename, content);
    StoreBlocksRefine(led, st, user, filename, content);
    StoreMailsRefine(led, st, user, filename, content);
    StoreRecsRefine(led, st, user, filename, content);
    StoreInvsRefine(led, st, user, filename, content);
    StoreNamedRefine(led, st, user, filename, content);
  }

  // ---------- AppendToFile ----------

  function AppendedState(st: State, i: nat, file: FileInfo, content: seq<byte>): State {
    var blocks := file.blocks + FreshIds(st.next, |Chunks(content)|);
    PutBlocks(st, Chunks(content), file.key)
    .Put(Random(i), Sealed(FileKey(file.key), InodeRec(Inode(|Flatten(file.chunks)| + |content|, blocks))))
  }

  /** A holder without the current file key is turned away before anything is written or drawn. */
  lemma AppendFails(led: Ledger, st: State, user: UserData, filename: string, content: Option<seq<byte>>)
    requires WellFormed(led) && Represents(led, st)
    requires content.None? || !CanOpen(led, user, filename)
    ensures AppendToFile(st, user, filename, content).res.Failure?
    ensures AppendToFile(st, user, filename, content).st == st
    ensures AppendToFile(st, user, filename, content).user == user
  {
    if content.Some? {
      if Holds(led, user, filename) {
        var rec := led.recs[AccessUUID(user.username, filename)];
        HolderOpensAccess(led, st, user, filename);
        RecordOpensMailbox(led, st, rec);
        StaleMailboxFails(led, st, rec.mailbox);
      } else {
        NonHolderFails(led, st, user, filename);
      }
    }
  }

  lemma AppendSucceeds(st: State, user: UserData, filename: string, content: seq<byte>, i: nat, file: FileInfo)
    requires OpenNode(st, user, filename) == Success(MailboxNode(file.key, Random(i)))
    requires OpenInode(st, MailboxNode(file.key, Random(i))) == Success(Inode(|Flatten(file.chunks)|, file.blocks))
    ensures AppendToFile(st, user, filename, Some(content))
            == Outcome(AppendedState(st, i, file, content), user, Success(()))
  {
  }

  lemma AppendedLeaves(st: State, i: nat, file: FileInfo, content: seq<byte>, u: UUID)
    requires u.Random? ==> u.n < st.next && u.n != i
    ensures Same(st, AppendedState(st, i, file, content), u)
  {
    PutBlocksWrites(st, Chunks(content), file.key);
  }

  lemma AppendedWrites(st: State, i: nat, file: FileInfo, content: seq<byte>)
    requires i < st.next
    ensures var st', chunks := AppendedState(st, i, file, content), Chunks(content);
            && st'.next == st.next + |chunks| && st'.keys == st.keys
            && (forall j :: 0 <= j < |chunks| ==>
                  StoredAs(st', FreshIds(st.next, |chunks|)[j], Sealed(FileKey(file.key), BlockRec(chunks[j]))))
            && StoredAs(st', Random(i),
                        InodeOf(FileInfo(file.key, file.blocks + FreshIds(st.next, |chunks|), file.chunks + chunks)))
            && forall u | u in st'.store && st'.store[u].Signed? :: Same(st, st', u)
  {
    var chunks := Chunks(content);
    PutBlocksWrites(st, chunks, file.key);
    FlattenAppend(file.chunks, chunks);
    FlattenChunks(content);
    var st1 := PutBlocks(st, chunks, file.key);
    forall j | 0 <= j < |chunks|
      ensures StoredAs(AppendedState(st, i, file, content), FreshIds(st.next, |chunks|)[j],
                       Sealed(FileKey(file.key), BlockRec(chunks[j])))
    {
      assert StoredAs(st1, FreshIds(st.next, |chunks|)[j], Sealed(FileKey(file.key), BlockRec(chunks[j])));
    }
  }

  function GrownFile(st: State, file: FileInfo, content: seq<byte>): FileInfo {
    FileInfo(file.key, file.blocks + FreshIds(st.next, |Chunks(content)|), file.chunks + Chunks(content))
  }

  lemma AppendInodesRefine(led: Ledger, st: State, i: nat, led': Ledger, content: seq<byte>)
    requires Below(led) && led.next == st.next && FilesStored(led, st) && i in led.files
    requires led'.files == led.files[i := GrownFile(st, led.files[i], content)]
    ensures FilesStored(led', AppendedState(st, i, led.files[i], content))
  {
    var st' := AppendedState(st, i, led.files[i], content);
    AppendedWrites(st, i, led.files[i], content);
    forall k | k in led.files && k != i
      ensures Same(st, st', Random(k))
    {
      AppendedLeaves(st, i, led.files[i], content, Random(k));
    }
    FilesStoredWith(led, led', st, st', i, GrownFile(st, led.files[i], content));
  }

  /** Existing blocks are never written again, whatever their size. */
  lemma AppendLeavesBlocks(led: Ledger, st: State, i: nat, content: seq<byte>)
    requires RolesOK(led) && FilesOK(led) && led.next == st.next && i in led.files
    ensures forall k, j | k in led.files && 0 <= j < |led.files[k].blocks| ::
              Same(st, AppendedState(st, i, led.files[i], content), led.files[k].blocks[j])
  {
    assert FileOK(led, i, led.files[i]);
    forall k, j | k in led.files && 0 <= j < |led.files[k].blocks|
      ensures Same(st, AppendedState(st, i, led.files[i], content), led.files[k].blocks[j])
    {
      assert FileOK(led, k, led.files[k]);
      assert Has(led, led.files[k].blocks[j].n, BlockRole(k, j)) && Has(led, i, FileRole);
      AppendedLeaves(st, i, led.files[i], content, led.files[k].blocks[j]);
    }
  }

  lemma AppendBlocksRefine(led: Ledger, st: State, i: nat, led': Ledger, content: seq<byte>)
    requires Below(led) && FilesOK(led) && led.next == st.next && BlocksStored(led, st) && i in led.files
    requires led'.files == led.files[i := GrownFile(st, led.files[i], content)]
    ensures BlocksStored(led', AppendedState(st, i, led.files[i], content))
  {
    var st', file, file' :=
      AppendedState(st, i, led.files[i], content), led.files[i], GrownFile(st, led.files[i], content);
    AppendedWrites(st, i, file, content);
    AppendLeavesBlocks(led, st, i, content);
    assert FileBlocksStored(st, file);
    forall j | 0 <= j < |file'.blocks|
      ensures StoredAs(st', file'.blocks[j], Sealed(FileKey(file'.key), BlockRec(file'.chunks[j])))
    {
      if j < |file.blocks| {
        assert StoredAs(st, file.blocks[j], Sealed(FileKey(file.key), BlockRec(file.chunks[j])));
        assert Same(st, st', file.blocks[j]);
      } else {
        assert StoredAs(st', FreshIds(st.next, |Chunks(content)|)[j - |file.blocks|],
                        Sealed(FileKey(file.key), BlockRec(Chunks(content)[j - |file.blocks|])));
      }
    }
    BlocksStoredWith(led, led', st, st', i, file');
  }

  lemma AppendOthersRefine(led: Ledger, st: State, i: nat, led': Ledger, content: seq<byte>)
    requires Below(led) && led.next == st.next && Grows(led, led') && i in led.files && Has(led, i, FileRole)
    requires MailsOK(led) && RecsOK(led) && InvsOK(led)
    requires MailsStored(led, st) && RecsStored(led, st) && InvsStored(led, st)
    requires led'.mails == led.mails && led'.recs == led.recs && led'.invs == led.invs
    ensures MailsStored(led', AppendedState(st, i, led.files[i], content))
    ensures RecsStored(led', AppendedState(st, i, led.files[i], content))
    ensures InvsStored(led', AppendedState(st, i, led.files[i], content))
  {
    var st' := AppendedState(st, i, led.files[i], content);
    AppendedWrites(st, i, led.files[i], content);
    forall m | m in led.mails
      ensures Same(st, st', Random(m))
    {
      assert MailOK(led, m, led.mails[m]);
      AppendedLeaves(st, i, led.files[i], content, Random(m));
    }
    MailsStoredSame(led, led', st, st');
    forall s | s in led.recs
      ensures Same(st, st', s)
    {
      assert RecOK(led, s, led.recs[s]);
      AppendedLeaves(st, i, led.files[i], content, s);
    }
    RecsStoredSame(led, led', st, st');
    forall n | n in led.invs
      ensures Same(st, st', Random(n))
    {
      assert InvOK(led, n, led.invs[n]);
      AppendedLeaves(st, i, led.files[i], content, Random(n));
    }
    InvsStoredWith(led, led', st, st');
  }

  lemma AppendNamedRefine(led: Ledger, st: State, i: nat, led': Ledger, content: seq<byte>)
    requires led'.accounts == led.accounts && led'.recs == led.recs && NamedStored(led, st) && RecsStored(led, st)
    requires i in led.files && RecsOK(led)
    ensures NamedStored(led', AppendedState(st, i, led.files[i], content))
  {
    RecsAreNamed(led);
    var st' := AppendedState(st, i, led.files[i], content);
    forall k: UUID | k.Named?
      ensures Same(st, st', k)
    {
      AppendedLeaves(st, i, led.files[i], content, k);
    }
    NamedStoredSame(led, led', st, st', Random(0));
  }

  lemma AppendedRepresents(led: Ledger, st: State, i: nat, led': Ledger, content: seq<byte>)
    requires WellFormed(led) && Represents(led, st) && Grows(led, led') && i in led.files
    requires led'.files == led.files[i := GrownFile(st, led.files[i], content)]
    requires led'.mails == led.mails && led'.recs == led.recs && led'.invs == led.invs && led'.accounts == led.accounts
    requires led'.next == led.next + |Chunks(content)|
    ensures Represents(led', AppendedState(st, i, led.files[i], content))
  {
    NextIsFresh(led);
    assert FileOK(led, i, led.files[i]);
    AppendedWrites(st, i, led.files[i], content);
    AppendInodesRefine(led, st, i, led', content);
    AppendBlocksRefine(led, st, i, led', content);
    AppendOthersRefine(led, st, i, led', content);
    AppendNamedRefine(led, st, i, led', content);
  }

  lemma AppendShape(led: Ledger, st: State, user: UserData, filename: string, content: seq<byte>)
    requires CanOpen(led, user, filename) && led.next == st.next
    ensures var led', i := AppendLedger(led, user, filename, content), FileOf(led, user, filename);
            && i in led.files && led'.files == led.files[i := GrownFile(st, led.files[i], content)]
            && led'.mails == led.mails && led'.recs == led.recs && led'.invs == led.invs
               && led'.accounts == led.accounts
            && led'.next == led.next + |Chunks(content)|
  {
  }

  lemma AppendLive(led: Ledger, st: State, user: UserData, filename: string, content: seq<byte>, led': Ledger,
                   out: Outcome<()>)
    requires WellFormed(led) && Represents(led, st) && CanOpen(led, user, filename)
    requires led' == AppendLedger(led, user, filename, content) && Grows(led, led')
    requires out == AppendToFile(st, user, filename, Some(content))
    ensures Represents(led', out.st) && out.res.Success? && out.user == user
  {
    var i := FileOf(led, user, filename);
    LiveHolderOpens(led, st, user, filename);
    AppendSucceeds(st, user, filename, content, i, led.files[i]);
    AppendShape(led, st, user, filename, content);
    AppendedRepresents(led, st, i, led', content);
  }

  /** A live holder's append extends the one shared file; it is visible through every live mailbox. */
  lemma AppendRefines(led: Ledger, st: State, user: UserData, filename: string, content: seq<byte>)
    requires WellFormed(led) && Represents(led, st)
    ensures Represents(AppendLedger(led, user, filename, content), AppendToFile(st, user, filename, Some(content)).st)
    ensures AppendToFile(st, user, filename, Some(content)).res.Success? <==> CanOpen(led, user, filename)
    ensures AppendToFile(st, user, filename, Some(content)).user == user
  {
    AppendKeeps(led, user, filename, content);
    if CanOpen(led, user, filename) {
      AppendLive(led, st, user, filename, content, AppendLedger(led, user, filename, content),
                 AppendToFile(st, user, filename, Some(content)));
    } else {
      AppendFails(led, st, user, filename, Some(content));
    }
  }
}
