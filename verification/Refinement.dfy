/** The operations on the sealed store act as the ledger operations, one lemma group per operation. */
module Refinement {
  import opened Wrappers
  import opened Blocks
  import opened Records
  import opened Protocol
  import opened Ledgers
  import opened LedgerSteps

  // ---------- closed forms of the loops ----------

  ghost predicate SameExcept(st: State, st': State, first: nat, count: nat) {
    forall u: UUID | !(u.Random? && first <= u.n < first + count) ::
      (u in st'.store <==> u in st.store) && (u in st.store ==> st'.store[u] == st.store[u])
  }

  /** Writing the blocks touches fresh UUIDs only, and block j lands under the j-th of them. */
  lemma {:induction false} PutBlocksWrites(st: State, chunks: seq<seq<byte>>, key: nat)
    ensures var st' := PutBlocks(st, chunks, key);
            && st'.next == st.next + |chunks| && st'.keys == st.keys
            && SameExcept(st, st', st.next, |chunks|)
            && (forall j :: 0 <= j < |chunks| ==>
                  StoredAs(st', FreshIds(st.next, |chunks|)[j], Sealed(FileKey(key), BlockRec(chunks[j]))))
            && st.log <= st'.log
            && (forall p | p in st'.log - st.log :: p.Sealed? && p.lock == FileKey(key) && p.plain.BlockRec?)
            && (forall u | u in st'.store && st'.store[u].Signed? :: u in st.store && st.store[u] == st'.store[u])
    decreases |chunks|
  {
    if chunks != [] {
      var p := Sealed(FileKey(key), BlockRec(chunks[0]));
      var st1 := st.Draw(1).Put(Random(st.next), p);
      PutBlocksWrites(st1, chunks[1..], key);
      var st' := PutBlocks(st, chunks, key);
      assert st' == PutBlocks(st1, chunks[1..], key);
      forall j | 0 <= j < |chunks|
        ensures StoredAs(st', FreshIds(st.next, |chunks|)[j], Sealed(FileKey(key), BlockRec(chunks[j])))
      {
        if j > 0 {
          assert FreshIds(st1.next, |chunks| - 1)[j - 1] == FreshIds(st.next, |chunks|)[j];
        } else {
          assert StoredAs(st1, Random(st.next), p);
        }
      }
    }
  }

  ghost predicate Distinct(us: seq<UUID>) {
    forall i, j :: 0 <= i < j < |us| ==> us[i] != us[j]
  }

  ghost predicate BlocksUnder(st: State, us: seq<UUID>, chunks: seq<seq<byte>>, key: nat) {
    |us| == |chunks| &&
    forall j :: 0 <= j < |us| ==> StoredAs(st, us[j], Sealed(FileKey(key), BlockRec(chunks[j])))
  }

  /**
   The in-place loop of a revocation: after any number of rounds the blocks behind are under the new
   key, the blocks ahead are still under the old one, and no plaintext has changed.  It never stops early.
   */
  lemma {:induction false} RekeyBlocksWrites(st: State, us: seq<UUID>, chunks: seq<seq<byte>>, oldKey: nat, newKey: nat)
    requires Distinct(us) && BlocksUnder(st, us, chunks, oldKey)
    ensures var (st', res) := RekeyBlocks(st, us, oldKey, newKey);
            && res.Success?
            && st'.next == st.next && st'.keys == st.keys
            && BlocksUnder(st', us, chunks, newKey)
            && (forall u: UUID | u !in us ::
                  (u in st'.store <==> u in st.store) && (u in st.store ==> st'.store[u] == st.store[u]))
            && st.log <= st'.log
            && (forall p | p in st'.log - st.log :: p.Sealed? && p.lock == FileKey(newKey) && p.plain.BlockRec?)
    decreases |us|
  {
    if us != [] {
      assert StoredAs(st, us[0], Sealed(FileKey(oldKey), BlockRec(chunks[0])));
      var st1 := st.Put(us[0], Sealed(FileKey(newKey), BlockRec(chunks[0])));
      assert BlocksUnder(st1, us[1..], chunks[1..], oldKey) by {
        forall j | 0 <= j < |us| - 1
          ensures StoredAs(st1, us[1..][j], Sealed(FileKey(oldKey), BlockRec(chunks[1..][j])))
        {
          assert StoredAs(st, us[j + 1], Sealed(FileKey(oldKey), BlockRec(chunks[j + 1])));
        }
      }
      RekeyBlocksWrites(st1, us[1..], chunks[1..], oldKey, newKey);
      var (st', res) := RekeyBlocks(st, us, oldKey, newKey);
      assert (st', res) == RekeyBlocks(st1, us[1..], oldKey, newKey);
      forall j | 0 <= j < |us|
        ensures StoredAs(st', us[j], Sealed(FileKey(newKey), BlockRec(chunks[j])))
      {
        if j > 0 {
          assert StoredAs(st', us[1..][j - 1], Sealed(FileKey(newKey), BlockRec(chunks[1..][j - 1])));
        } else {
          assert us[0] !in us[1..];
        }
      }
    }
  }

  /** Reading back blocks stored under one key yields their concatenation. */
  lemma {:induction false} LoadBlocksReads(st: State, us: seq<UUID>, chunks: seq<seq<byte>>, key: nat)
    requires BlocksUnder(st, us, chunks, key)
    ensures LoadBlocks(st, us, key) == Success(Flatten(chunks))
    decreases |us|
  {
    if us != [] {
      assert StoredAs(st, us[0], Sealed(FileKey(key), BlockRec(chunks[0])));
      assert BlocksUnder(st, us[1..], chunks[1..], key) by {
        forall j | 0 <= j < |us| - 1
          ensures StoredAs(st, us[1..][j], Sealed(FileKey(key), BlockRec(chunks[1..][j])))
        {
          assert StoredAs(st, us[j + 1], Sealed(FileKey(key), BlockRec(chunks[j + 1])));
        }
      }
      LoadBlocksReads(st, us[1..], chunks[1..], key);
    }
  }

  // ---------- reading ----------

  lemma HolderOpensAccess(led: Ledger, st: State, user: UserData, filename: string)
    requires RecsOK(led) && RecsStored(led, st)
    requires Holds(led, user, filename)
    ensures led.recs[AccessUUID(user.username, filename)].mailbox in led.mails
    ensures OpenAccess(st, user, filename) == Success(AccessOf(led, led.recs[AccessUUID(user.username, filename)]))
  {
    var s := AccessUUID(user.username, filename);
    assert StoredAs(st, s, Sealed(PersonalKey(led.recs[s].master, led.recs[s].filename),
                                  AccessRec(AccessOf(led, led.recs[s]))));
    assert RecOK(led, s, led.recs[s]);
  }

  lemma RecordOpensMailbox(led: Ledger, st: State, rec: RecInfo)
    requires MailsStored(led, st) && rec.mailbox in led.mails
    ensures OpenMailbox(st, AccessOf(led, rec))
         == Success(MailboxNode(led.mails[rec.mailbox].fileKey, Random(led.mails[rec.mailbox].file)))
  {
    assert StoredAs(st, Random(rec.mailbox), NodeOf(led.mails[rec.mailbox]));
  }

  lemma HolderOpensNode(led: Ledger, st: State, user: UserData, filename: string, m: nat)
    requires RecsOK(led) && RecsStored(led, st) && MailsStored(led, st) && Holds(led, user, filename)
    requires m == led.recs[AccessUUID(user.username, filename)].mailbox
    ensures m in led.mails
    ensures OpenNode(st, user, filename) == Success(MailboxNode(led.mails[m].fileKey, Random(led.mails[m].file)))
  {
    HolderOpensAccess(led, st, user, filename);
    RecordOpensMailbox(led, st, led.recs[AccessUUID(user.username, filename)]);
  }

  lemma NonHolderFails(led: Ledger, st: State, user: UserData, filename: string)
    requires RecsStored(led, st) && NamedStored(led, st)
    requires !Holds(led, user, filename)
    ensures OpenAccess(st, user, filename).Failure?
  {
    var s := AccessUUID(user.username, filename);
    if s in led.recs {
      assert StoredAs(st, s, Sealed(PersonalKey(led.recs[s].master, led.recs[s].filename),
                                    AccessRec(AccessOf(led, led.recs[s]))));
    } else if s in st.store {
      assert UserStored(led, s, st.store[s]);
    }
  }

  lemma LiveMailboxOpensInode(led: Ledger, st: State, m: nat)
    requires FilesStored(led, st) && Live(led, m)
    ensures OpenInode(st, MailboxNode(led.mails[m].fileKey, Random(led.mails[m].file)))
         == Success(Inode(|Flatten(led.files[led.mails[m].file].chunks)|, led.files[led.mails[m].file].blocks))
  {
    assert StoredAs(st, Random(led.mails[m].file), InodeOf(led.files[led.mails[m].file]));
  }

  lemma StaleMailboxFails(led: Ledger, st: State, m: nat)
    requires MailsOK(led) && FilesStored(led, st) && m in led.mails && !Live(led, m)
    ensures OpenInode(st, MailboxNode(led.mails[m].fileKey, Random(led.mails[m].file)))
            == Failure(Unreadable(InodeKind))
  {
    assert MailOK(led, m, led.mails[m]);
    assert StoredAs(st, Random(led.mails[m].file), InodeOf(led.files[led.mails[m].file]));
  }

  /** A live holder walks the whole chain: access record, mailbox, inode. */
  lemma LiveHolderOpens(led: Ledger, st: State, user: UserData, filename: string)
    requires RecsOK(led) && RecsStored(led, st) && MailsStored(led, st) && FilesStored(led, st)
    requires CanOpen(led, user, filename)
    ensures OpenAccess(st, user, filename) == Success(AccessOf(led, led.recs[AccessUUID(user.username, filename)]))
    ensures OpenMailbox(st, AccessOf(led, led.recs[AccessUUID(user.username, filename)]))
         == Success(MailboxNode(led.files[FileOf(led, user, filename)].key, Random(FileOf(led, user, filename))))
    ensures OpenNode(st, user, filename)
         == Success(MailboxNode(led.files[FileOf(led, user, filename)].key, Random(FileOf(led, user, filename))))
    ensures OpenInode(st, MailboxNode(led.files[FileOf(led, user, filename)].key, Random(FileOf(led, user, filename))))
         == Success(Inode(|Flatten(led.files[FileOf(led, user, filename)].chunks)|,
                          led.files[FileOf(led, user, filename)].blocks))
  {
    var rec := led.recs[AccessUUID(user.username, filename)];
    HolderOpensAccess(led, st, user, filename);
    RecordOpensMailbox(led, st, rec);
    LiveMailboxOpensInode(led, st, rec.mailbox);
  }

  /** LoadFile on the sealed store succeeds exactly for live holders, with the bytes of the ledger's file. */
  lemma LoadFileReads(led: Ledger, st: State, user: UserData, filename: string)
    requires WellFormed(led) && Represents(led, st)
    ensures LoadFile(st, user, filename).Success? <==> CanOpen(led, user, filename)
    ensures CanOpen(led, user, filename) ==>
              LoadFile(st, user, filename) == Success(Flatten(led.files[FileOf(led, user, filename)].chunks))
  {
    if !Holds(led, user, filename) {
      NonHolderFails(led, st, user, filename);
    } else {
      var rec := led.recs[AccessUUID(user.username, filename)];
      HolderOpensAccess(led, st, user, filename);
      RecordOpensMailbox(led, st, rec);
      if Live(led, rec.mailbox) {
        LiveMailboxOpensInode(led, st, rec.mailbox);
        var file := led.files[led.mails[rec.mailbox].file];
        assert FileBlocksStored(st, file);
        LoadBlocksReads(st, file.blocks, file.chunks, file.key);
      } else {
        StaleMailboxFails(led, st, rec.mailbox);
      }
    }
  }

  // ---------- framing ----------

  ghost predicate Same(st: State, st': State, u: UUID) {
    (u in st'.store <==> u in st.store) && (u in st.store ==> st'.store[u] == st.store[u])
  }

  lemma FilesStoredWith(led: Ledger, led': Ledger, st: State, st': State, i: nat, file: FileInfo)
    requires FilesStored(led, st) && led'.files == led.files[i := file]
    requires StoredAs(st', Random(i), InodeOf(file))
    requires forall k | k in led.files && k != i :: Same(st, st', Random(k))
    ensures FilesStored(led', st')
  {
    forall k | k in led'.files
      ensures StoredAs(st', Random(k), InodeOf(led'.files[k]))
    {
      if k != i {
        assert StoredAs(st, Random(k), InodeOf(led.files[k])) && Same(st, st', Random(k));
      }
    }
  }

  lemma BlocksStoredWith(led: Ledger, led': Ledger, st: State, st': State, i: nat, file: FileInfo)
    requires BlocksStored(led, st) && led'.files == led.files[i := file]
    requires FileBlocksStored(st', file)
    requires forall k, j | k in led.files && k != i && 0 <= j < |led.files[k].blocks| ::
               Same(st, st', led.files[k].blocks[j])
    ensures BlocksStored(led', st')
  {
    forall k | k in led'.files
      ensures FileBlocksStored(st', led'.files[k])
    {
      if k != i {
        assert FileBlocksStored(st, led.files[k]);
        forall j | 0 <= j < |led.files[k].blocks|
          ensures StoredAs(st', led.files[k].blocks[j],
                           Sealed(FileKey(led.files[k].key), BlockRec(led.files[k].chunks[j])))
        {
          assert Same(st, st', led.files[k].blocks[j]);
          assert StoredAs(st, led.files[k].blocks[j],
                          Sealed(FileKey(led.files[k].key), BlockRec(led.files[k].chunks[j])));
        }
      }
    }
  }

  lemma MailsStoredWith(led: Ledger, led': Ledger, st: State, st': State, m: nat, mail: MailInfo)
    requires MailsStored(led, st) && led'.mails == led.mails[m := mail]
    requires StoredAs(st', Random(m), NodeOf(mail))
    requires forall k | k in led.mails && k != m :: Same(st, st', Random(k))
    ensures MailsStored(led', st')
  {
    forall k | k in led'.mails
      ensures StoredAs(st', Random(k), NodeOf(led'.mails[k]))
    {
      if k != m {
        assert StoredAs(st, Random(k), NodeOf(led.mails[k])) && Same(st, st', Random(k));
      }
    }
  }

  function AccessPayload(led: Ledger, rec: RecInfo): Payload {
    Sealed(PersonalKey(rec.master, rec.filename), AccessRec(AccessOf(led, rec)))
  }

  /** Mailbox keys never change, so neither does the sealed form of a record. */
  lemma AccessKeeps(led: Ledger, led': Ledger, s: UUID, rec: RecInfo)
    requires RecOK(led, s, rec) && Grows(led, led')
    ensures AccessOf(led', rec) == AccessOf(led, rec)
  {
    assert forall m | m in led.mails :: MailKeyOf(led', m) == MailKeyOf(led, m);
  }

  lemma RecsStoredWith(led: Ledger, led': Ledger, st: State, st': State, s: UUID, rec: RecInfo, gone: set<UUID>)
    requires RecsOK(led) && Grows(led, led') && RecsStored(led, st)
    requires led'.recs == led.recs[s := rec] - gone
    requires s !in gone ==> StoredAs(st', s, AccessPayload(led', rec))
    requires forall k | k in led.recs && k != s && k !in gone :: Same(st, st', k)
    ensures RecsStored(led', st')
  {
    forall k | k in led'.recs
      ensures StoredAs(st', k, AccessPayload(led', led'.recs[k]))
    {
      if k != s {
        assert RecOK(led, k, led.recs[k]);
        AccessKeeps(led, led', k, led.recs[k]);
        assert StoredAs(st, k, AccessPayload(led, led.recs[k])) && Same(st, st', k);
      }
    }
  }

  lemma MailsStoredSame(led: Ledger, led': Ledger, st: State, st': State)
    requires MailsStored(led, st) && led'.mails == led.mails
    requires forall k | k in led.mails :: Same(st, st', Random(k))
    ensures MailsStored(led', st')
  {
    forall k | k in led'.mails
      ensures StoredAs(st', Random(k), NodeOf(led'.mails[k]))
    {
      assert StoredAs(st, Random(k), NodeOf(led.mails[k])) && Same(st, st', Random(k));
    }
  }

  lemma RecsStoredSame(led: Ledger, led': Ledger, st: State, st': State)
    requires RecsOK(led) && Grows(led, led') && RecsStored(led, st) && led'.recs == led.recs
    requires forall k | k in led.recs :: Same(st, st', k)
    ensures RecsStored(led', st')
  {
    forall k | k in led'.recs
      ensures StoredAs(st', k, AccessPayload(led', led'.recs[k]))
    {
      assert RecOK(led, k, led.recs[k]);
      AccessKeeps(led, led', k, led.recs[k]);
      assert StoredAs(st, k, AccessPayload(led, led.recs[k])) && Same(st, st', k);
    }
  }

  lemma FilesStoredSame(led: Ledger, led': Ledger, st: State, st': State)
    requires FilesStored(led, st) && BlocksStored(led, st) && led'.files == led.files
    requires forall k | k in led.files :: Same(st, st', Random(k))
    requires forall k, j | k in led.files && 0 <= j < |led.files[k].blocks| :: Same(st, st', led.files[k].blocks[j])
    ensures FilesStored(led', st') && BlocksStored(led', st')
  {
    forall k | k in led.files
      ensures StoredAs(st', Random(k), InodeOf(led'.files[k])) && FileBlocksStored(st', led'.files[k])
    {
      assert StoredAs(st, Random(k), InodeOf(led.files[k])) && Same(st, st', Random(k));
      assert FileBlocksStored(st, led.files[k]);
      forall j | 0 <= j < |led.files[k].blocks|
        ensures StoredAs(st', led.files[k].blocks[j],
                         Sealed(FileKey(led.files[k].key), BlockRec(led.files[k].chunks[j])))
      {
        assert Same(st, st', led.files[k].blocks[j]);
        assert StoredAs(st, led.files[k].blocks[j],
                        Sealed(FileKey(led.files[k].key), BlockRec(led.files[k].chunks[j])));
      }
    }
  }

  lemma RecsAreNamed(led: Ledger)
    requires RecsOK(led)
    ensures forall s | s in led.recs :: s.Named?
  {
    forall s | s in led.recs
      ensures s.Named?
    {
      assert RecOK(led, s, led.recs[s]);
    }
  }

  lemma InvsStoredWith(led: Ledger, led': Ledger, st: State, st': State)
    requires InvsOK(led) && Grows(led, led') && InvsStored(led, st)
    requires forall n | n in led'.invs ::
               n in led.invs || (led'.invs[n].maker in led'.accounts && led'.invs[n].to in led'.accounts
                                                             && StoredAs(st', Random(n),
                                                                         InvitationOf(led', led'.invs[n])))
    requires forall n | n in led.invs :: Same(st, st', Random(n))
    requires forall u | u in st'.store && st'.store[u].Signed? :: Same(st, st', u) || (u.Random? && u.n in led'.invs)
    ensures InvsStored(led', st')
  {
    forall n | n in led'.invs && n in led.invs
      ensures led'.invs[n].maker in led'.accounts && led'.invs[n].to in led'.accounts
      ensures StoredAs(st', Random(n), InvitationOf(led', led'.invs[n]))
    {
      assert InvOK(led, n, led.invs[n]);
      assert StoredAs(st, Random(n), InvitationOf(led, led.invs[n])) && Same(st, st', Random(n));
    }
    forall u | u in st'.store && st'.store[u].Signed?
      ensures u.Random? && u.n in led'.invs
    {
      if Same(st, st', u) {
        assert u in st.store && st.store[u].Signed?;
      }
    }
  }

  /** Under hashed UUIDs only the caller's access record and user record are written. */
  lemma NamedStoredWith(led: Ledger, led': Ledger, st: State, st': State, s: UUID, user: UserData)
    requires Grows(led, led') && led'.accounts == led.accounts && NamedStored(led, st)
    requires Registered(led, user)
    requires StoredAs(st', UserUUID(user.username), Sealed(UserKey(user.master), UserRec(user)))
    requires s == UserUUID(user.username) || s in led'.recs
    requires forall k: UUID | k.Named? && k != s && k != UserUUID(user.username) ::
               Same(st, st', k) && (k in led.recs ==> k in led'.recs)
    requires s in st'.store
    ensures NamedStored(led', st')
  {
    forall k | k in st'.store && k.Named? && k !in led'.recs
      ensures UserStored(led', k, st'.store[k])
    {
      if k != UserUUID(user.username) {
        assert Same(st, st', k) && UserStored(led, k, st.store[k]);
      }
    }
    forall u | u in led'.accounts
      ensures UserUUID(u) in st'.store
    {
      assert UserUUID(u) in st.store;
      if UserUUID(u) != s && UserUUID(u) != UserUUID(user.username) {
        assert Same(st, st', UserUUID(u));
      }
    }
  }

  /** When no hashed UUID is written except possibly one record of the ledger. */
  lemma NamedStoredSame(led: Ledger, led': Ledger, st: State, st': State, s: UUID)
    requires led'.accounts == led.accounts && NamedStored(led, st)
    requires forall k | k in led.recs :: k in led'.recs
    requires s in led'.recs ==> s in st'.store
    requires forall k: UUID | k.Named? :: Same(st, st', k) || (k == s && s in led'.recs)
    ensures NamedStored(led', st')
  {
    forall k | k in st'.store && k.Named? && k !in led'.recs
      ensures UserStored(led', k, st'.store[k])
    {
      assert Same(st, st', k) && UserStored(led, k, st.store[k]);
    }
    forall u | u in led'.accounts
      ensures UserUUID(u) in st'.store
    {
      assert UserUUID(u) in st.store && (Same(st, st', UserUUID(u)) || UserUUID(u) == s);
    }
  }
}
