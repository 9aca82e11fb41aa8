/** Forgetting keys: every ledger operation is the key-free operation of module Sharing. */
module Simulation {
  import opened Blocks
  import opened Records
  import opened Protocol
  import opened Ledgers
  import opened LedgerSteps
  import opened RefineRevoke
  import opened Sharing

  ghost function BytesOf(led: Ledger): map<nat, seq<byte>> {
    map i | i in led.files :: Flatten(led.files[i].chunks)
  }

  ghost function LiveOf(led: Ledger): set<nat> {
    set m | m in led.mails && Live(led, m)
  }

  ghost function MetasOf(led: Ledger): map<nat, Meta> {
    map m | m in led.mails :: Meta(led.mails[m].file, led.mails[m].origin)
  }

  /** What is left of a ledger without its keys: a mailbox is live when it holds the current file key. */
  ghost function Alpha(led: Ledger): Graph {
    Graph(led.next, BytesOf(led), LiveOf(led), MetasOf(led), led.recs, led.invs, led.accounts.Keys)
  }

  lemma CanOpenAgrees(led: Ledger, user: UserData, filename: string)
    requires MailsOK(led)
    ensures GHolds(Alpha(led), user, filename) <==> Holds(led, user, filename)
    ensures GCanOpen(Alpha(led), user, filename) <==> CanOpen(led, user, filename)
  {
  }

  // ---------- one file or one mailbox at a time ----------

  lemma BytesWith(led: Ledger, led': Ledger, i: nat, info: FileInfo)
    requires led'.files == led.files[i := info]
    ensures BytesOf(led') == BytesOf(led)[i := Flatten(info.chunks)]
  {
  }

  lemma MetasWith(led: Ledger, led': Ledger, m: nat, mail: MailInfo)
    requires led'.mails == led.mails[m := mail]
    ensures MetasOf(led') == MetasOf(led)[m := Meta(mail.file, mail.origin)]
  {
  }

  lemma LiveSame(led: Ledger, led': Ledger)
    requires led'.mails == led.mails && led'.files.Keys == led.files.Keys
    requires forall i | i in led.files :: led'.files[i].key == led.files[i].key
    ensures LiveOf(led') == LiveOf(led)
  {
    forall m
      ensures m in LiveOf(led') <==> m in LiveOf(led)
    {
      assert Live(led', m) <==> Live(led, m);
    }
  }

  /** A new mailbox; files keep their keys. */
  lemma LiveWith(led: Ledger, led': Ledger, n: nat, mail: MailInfo)
    requires n !in led.mails && led'.mails == led.mails[n := mail]
    requires forall m | m in led.mails :: led.mails[m].file in led.files
    requires forall i | i in led.files :: i in led'.files && led'.files[i].key == led.files[i].key
    ensures LiveOf(led') == if Live(led', n) then LiveOf(led) + {n} else LiveOf(led)
  {
    forall m | m in led.mails
      ensures Live(led', m) <==> Live(led, m)
    {
    }
  }

  /** Names and keys in use are below the supply. */
  ghost predicate MailsBelow(led: Ledger) {
    forall m | m in led.mails :: m < led.next && led.mails[m].fileKey < led.next && led.mails[m].file in led.files
  }

  lemma MailsAreBelow(led: Ledger)
    requires Below(led) && MailsOK(led)
    ensures MailsBelow(led)
  {
    forall m | m in led.mails
      ensures led.mails[m].fileKey < led.next && led.mails[m].file in led.files
    {
      assert MailOK(led, m, led.mails[m]);
    }
  }

  // ---------- the operations ----------

  lemma StoreParts(led: Ledger, user: UserData, filename: string, content: seq<byte>, led': Ledger, info: FileInfo,
                   mail: MailInfo)
    requires led' == StoreLedger(led, user, filename, content)
    requires info == FileInfo(led.next, FreshIds(led.next + 4, |Chunks(content)|), Chunks(content))
    requires mail == MailInfo(led.next + 3, led.next + 1, led.next, Stored(user.username))
    ensures led'.files == led.files[led.next + 1 := info] && led'.mails == led.mails[led.next + 2 := mail]
    ensures led'.next == led.next + 4 + |Chunks(content)| && led'.invs == led.invs && led'.accounts == led.accounts
    ensures led'.recs == WithRec(led, user, filename, RecInfo(user.master, filename, led.next + 2, map[]))
  {
  }

  lemma StoreSimulates(led: Ledger, user: UserData, filename: string, content: seq<byte>, led': Ledger)
    requires Below(led) && MailsOK(led) && led' == StoreLedger(led, user, filename, content)
    ensures Alpha(led') == GStore(Alpha(led), user, filename, content)
  {
    var info := FileInfo(led.next, FreshIds(led.next + 4, |Chunks(content)|), Chunks(content));
    var mail := MailInfo(led.next + 3, led.next + 1, led.next, Stored(user.username));
    MailsAreBelow(led);
    StoreParts(led, user, filename, content, led', info, mail);
    StoreAlpha(led, user, filename, content, led', info, mail);
  }

  lemma StoreAlpha(led: Ledger, user: UserData, filename: string, content: seq<byte>, led': Ledger, info: FileInfo,
                   mail: MailInfo)
    requires led.next + 1 !in led.files && MailsBelow(led) && info.chunks == Chunks(content) && info.key == led.next
    requires mail == MailInfo(led.next + 3, led.next + 1, led.next, Stored(user.username))
    requires led'.files == led.files[led.next + 1 := info] && led'.mails == led.mails[led.next + 2 := mail]
    requires led'.next == led.next + 4 + |Chunks(content)| && led'.invs == led.invs && led'.accounts == led.accounts
    requires led'.recs == WithRec(led, user, filename, RecInfo(user.master, filename, led.next + 2, map[]))
    ensures Alpha(led') == GStore(Alpha(led), user, filename, content)
  {
    FlattenChunks(content);
    BytesWith(led, led', led.next + 1, info);
    MetasWith(led, led', led.next + 2, mail);
    LiveWith(led, led', led.next + 2, mail);
    assert Live(led', led.next + 2);
  }

  lemma AppendParts(led: Ledger, user: UserData, filename: string, content: seq<byte>, led': Ledger, i: nat,
                    info: FileInfo)
    requires CanOpen(led, user, filename) && i == FileOf(led, user, filename)
    requires led' == AppendLedger(led, user, filename, content)
    requires info == FileInfo(led.files[i].key, led.files[i].blocks + FreshIds(led.next, |Chunks(content)|),
                              led.files[i].chunks + Chunks(content))
    ensures led'.files == led.files[i := info] && led'.mails == led.mails && led'.recs == led.recs
    ensures led'.invs == led.invs
    ensures led'.accounts == led.accounts && led'.next == led.next + |Chunks(content)|
  {
  }

  lemma AppendAlpha(led: Ledger, user: UserData, filename: string, content: seq<byte>, led': Ledger, i: nat,
                    info: FileInfo)
    requires CanOpen(led, user, filename) && i == FileOf(led, user, filename)
    requires GCanOpen(Alpha(led), user, filename)
    requires info.key == led.files[i].key && info.chunks == led.files[i].chunks + Chunks(content)
    requires led'.files == led.files[i := info] && led'.mails == led.mails && led'.recs == led.recs
    requires led'.invs == led.invs
    requires led'.accounts == led.accounts && led'.next == led.next + |Chunks(content)|
    ensures Alpha(led') == GAppend(Alpha(led), user, filename, content)
  {
    FlattenAppend(led.files[i].chunks, Chunks(content));
    FlattenChunks(content);
    BytesWith(led, led', i, info);
    LiveSame(led, led');
    assert MetasOf(led') == MetasOf(led);
  }

  lemma AppendSimulates(led: Ledger, user: UserData, filename: string, content: seq<byte>, led': Ledger)
    requires MailsOK(led) && led' == AppendLedger(led, user, filename, content)
    ensures Alpha(led') == GAppend(Alpha(led), user, filename, content)
  {
    CanOpenAgrees(led, user, filename);
    if CanOpen(led, user, filename) {
      var i := FileOf(led, user, filename);
      var info := FileInfo(led.files[i].key, led.files[i].blocks + FreshIds(led.next, |Chunks(content)|),
                           led.files[i].chunks + Chunks(content));
      AppendParts(led, user, filename, content, led', i, info);
      AppendAlpha(led, user, filename, content, led', i, info);
    }
  }

  lemma InviteParts(led: Ledger, user: UserData, filename: string, recipient: string, led': Ledger, s: UUID, m: nat)
    requires Holds(led, user, filename) && s == AccessUUID(user.username, filename) && m == led.recs[s].mailbox
    requires m in led.mails
    requires led' == InviteLedger(led, user, filename, recipient)
    ensures led'.mails == led.mails[led.next := CopyOf(led, m, user.username, recipient)]
    ensures led'.files == led.files && led'.accounts == led.accounts
    ensures recipient !in led.accounts ==> led'.next == led.next + 2 && led'.recs == led.recs && led'.invs == led.invs
    ensures recipient in led.accounts ==>
              && led'.next == led.next + 3
                 && led'.invs == led.invs[led.next + 2 := InvInfo(user.username, recipient, led.next)]
              && led'.recs == led.recs[s := led.recs[s].(children := led.recs[s].children[recipient := led.next])]
  {
  }

  lemma InviteAlpha(led: Ledger, user: UserData, filename: string, recipient: string, led': Ledger, s: UUID, m: nat)
    requires MailsBelow(led) && GHolds(Alpha(led), user, filename)
    requires Holds(led, user, filename) && s == AccessUUID(user.username, filename) && m == led.recs[s].mailbox
    requires m in led.mails
    requires led'.mails == led.mails[led.next := CopyOf(led, m, user.username, recipient)]
    requires led'.files == led.files && led'.accounts == led.accounts
    requires recipient !in led.accounts ==> led'.next == led.next + 2 && led'.recs == led.recs && led'.invs == led.invs
    requires recipient in led.accounts ==>
               && led'.next == led.next + 3
                  && led'.invs == led.invs[led.next + 2 := InvInfo(user.username, recipient, led.next)]
               && led'.recs == led.recs[s := led.recs[s].(children := led.recs[s].children[recipient := led.next])]
    ensures Alpha(led') == GInvite(Alpha(led), user, filename, recipient)
  {
    MetasWith(led, led', led.next, CopyOf(led, m, user.username, recipient));
    InviteLive(led, user, recipient, led', m);
    assert BytesOf(led') == BytesOf(led);
    InvitedGraph(Alpha(led), user, filename, recipient, s, m, Alpha(led'));
  }

  lemma InvitedGraph(g: Graph, user: UserData, filename: string, recipient: string, s: UUID, m: nat, g': Graph)
    requires GHolds(g, user, filename) && s == AccessUUID(user.username, filename) && m == g.recs[s].mailbox
    requires m in g.mails
    requires g'.mails == g.mails[g.next := Meta(g.mails[m].file, Invited(m, user.username, recipient))]
    requires g'.live == (if m in g.live then g.live + {g.next} else g.live) && g'.bytes == g.bytes
    requires g'.users == g.users
    requires recipient !in g.users ==> g'.next == g.next + 2 && g'.recs == g.recs && g'.invs == g.invs
    requires recipient in g.users ==>
               && g'.next == g.next + 3 && g'.invs == g.invs[g.next + 2 := InvInfo(user.username, recipient, g.next)]
               && g'.recs == g.recs[s := g.recs[s].(children := g.recs[s].children[recipient := g.next])]
    ensures g' == GInvite(g, user, filename, recipient)
  {
  }

  lemma InviteLive(led: Ledger, user: UserData, recipient: string, led': Ledger, m: nat)
    requires MailsBelow(led) && m in led.mails && led'.files == led.files
    requires led'.mails == led.mails[led.next := CopyOf(led, m, user.username, recipient)]
    ensures LiveOf(led') == if m in LiveOf(led) then LiveOf(led) + {led.next} else LiveOf(led)
  {
    LiveWith(led, led', led.next, CopyOf(led, m, user.username, recipient));
    assert Live(led', led.next) <==> m in LiveOf(led);
  }

  lemma InviteSimulates(led: Ledger, user: UserData, filename: string, recipient: string, led': Ledger)
    requires Below(led) && MailsOK(led) && RecsOK(led) && led' == InviteLedger(led, user, filename, recipient)
    ensures Alpha(led') == GInvite(Alpha(led), user, filename, recipient)
  {
    CanOpenAgrees(led, user, filename);
    var s := AccessUUID(user.username, filename);
    if Holds(led, user, filename) {
      assert RecOK(led, s, led.recs[s]);
      MailsAreBelow(led);
      InviteParts(led, user, filename, recipient, led', s, led.recs[s].mailbox);
      InviteAlpha(led, user, filename, recipient, led', s, led.recs[s].mailbox);
    }
  }

  lemma AcceptSimulates(led: Ledger, user: UserData, sender: string, ptr: UUID, filename: string, led': Ledger)
    requires led' == AcceptLedger(led, user, sender, ptr, filename)
    ensures Alpha(led') == GAccept(Alpha(led), user, sender, ptr, filename)
  {
    assert LiveOf(led') == LiveOf(led);
  }

  lemma RevokeStaleParts(led: Ledger, user: UserData, filename: string, recipient: string, led': Ledger)
    requires RecsOK(led) && !CanOpen(led, user, filename) && led' == RevokeLedger(led, user, filename, recipient)
    ensures led'.next == (if Holds(led, user, filename) then led.next + 1 else led.next)
    ensures led'.files == led.files && led'.mails == led.mails && led'.recs == led.recs && led'.invs == led.invs
    ensures led'.accounts == led.accounts
    ensures Holds(led, user, filename) ==> led.recs[AccessUUID(user.username, filename)].mailbox in led.mails
  {
    var s := AccessUUID(user.username, filename);
    if Holds(led, user, filename) {
      assert RecOK(led, s, led.recs[s]);
    }
  }

  lemma RevokeStaleSimulates(led: Ledger, user: UserData, filename: string, recipient: string, led': Ledger)
    requires MailsOK(led) && RecsOK(led) && !CanOpen(led, user, filename)
    requires led' == RevokeLedger(led, user, filename, recipient)
    ensures Alpha(led') == GRevoke(Alpha(led), user, filename, recipient)
  {
    CanOpenAgrees(led, user, filename);
    RevokeStaleParts(led, user, filename, recipient, led');
    RevokeStaleAlpha(led, user, filename, recipient, led');
  }

  lemma RevokeStaleAlpha(led: Ledger, user: UserData, filename: string, recipient: string, led': Ledger)
    requires led'.next == (if Holds(led, user, filename) then led.next + 1 else led.next)
    requires led'.files == led.files && led'.mails == led.mails && led'.recs == led.recs && led'.invs == led.invs
    requires led'.accounts == led.accounts && !GCanOpen(Alpha(led), user, filename)
    requires Holds(led, user, filename) ==> led.recs[AccessUUID(user.username, filename)].mailbox in led.mails
    ensures Alpha(led') == GRevoke(Alpha(led), user, filename, recipient)
  {
    LiveSame(led, led');
    assert BytesOf(led') == BytesOf(led) && MetasOf(led') == MetasOf(led);
  }

  /** Which mailboxes hold the current key once the kept ones and the new one have been given it. */
  lemma RekeyedLive(led: Ledger, led': Ledger, rec: RecInfo, recipient: string, i: nat, mail: MailInfo, m: nat)
    requires MailsBelow(led) && i in led.files && mail.file == i && mail.fileKey == led.next && m in led.mails
    requires led'.files == led.files[i := led.files[i].(key := led.next)]
    requires led'.mails == KeptMails(led, rec, recipient)[led.next + 2 := mail]
    requires Kept(rec, recipient, m) ==> led.mails[m].file == i
    ensures Live(led', m) <==> if led.mails[m].file == i then Kept(rec, recipient, m) else Live(led, m)
  {
  }

  lemma RekeyedLivePoint(led: Ledger, led': Ledger, rec: RecInfo, recipient: string, i: nat, mail: MailInfo,
                         mails: map<nat, Meta>, m: nat)
    requires MailsBelow(led) && i in led.files && mail.file == i && mail.fileKey == led.next
    requires led'.files == led.files[i := led.files[i].(key := led.next)]
    requires led'.mails == KeptMails(led, rec, recipient)[led.next + 2 := mail]
    requires forall c | c in rec.children :: rec.children[c] in led.mails && led.mails[rec.children[c]].file == i
    requires mails == MetasOf(led)[led.next + 2 := Meta(i, mail.origin)]
    ensures m in LiveOf(led') <==> m in LiveAfter(mails, LiveOf(led), i, led.next + 2, rec, recipient)
  {
    if m in led.mails {
      RekeyedLive(led, led', rec, recipient, i, mail, m);
      assert mails[m].file == led.mails[m].file;
    }
  }

  lemma RekeyedLiveSet(led: Ledger, led': Ledger, rec: RecInfo, recipient: string, i: nat, mail: MailInfo,
                       mails: map<nat, Meta>)
    requires MailsBelow(led) && i in led.files && mail.file == i && mail.fileKey == led.next
    requires led'.files == led.files[i := led.files[i].(key := led.next)]
    requires led'.mails == KeptMails(led, rec, recipient)[led.next + 2 := mail]
    requires forall c | c in rec.children :: rec.children[c] in led.mails && led.mails[rec.children[c]].file == i
    requires mails == MetasOf(led)[led.next + 2 := Meta(i, mail.origin)]
    ensures LiveOf(led') == LiveAfter(mails, LiveOf(led), i, led.next + 2, rec, recipient)
  {
    forall m
      ensures m in LiveOf(led') <==> m in LiveAfter(mails, LiveOf(led), i, led.next + 2, rec, recipient)
    {
      RekeyedLivePoint(led, led', rec, recipient, i, mail, mails, m);
    }
  }

  lemma RekeyedRest(led: Ledger, led': Ledger, rec: RecInfo, recipient: string, i: nat, mail: MailInfo)
    requires i in led.files && led.next + 2 !in led.mails && mail.file == i
    requires led'.files == led.files[i := led.files[i].(key := led.next)]
    requires led'.mails == KeptMails(led, rec, recipient)[led.next + 2 := mail]
    ensures BytesOf(led') == BytesOf(led) && MetasOf(led') == MetasOf(led)[led.next + 2 := Meta(i, mail.origin)]
  {
  }

  lemma RekeyedAlpha(led: Ledger, led': Ledger, rec: RecInfo, recipient: string, i: nat, mail: MailInfo, g: Graph,
                     g': Graph)
    requires MailsBelow(led) && i in led.files && mail.file == i && mail.fileKey == led.next
    requires led'.files == led.files[i := led.files[i].(key := led.next)]
    requires led'.mails == KeptMails(led, rec, recipient)[led.next + 2 := mail]
    requires forall c | c in rec.children :: rec.children[c] in led.mails && led.mails[rec.children[c]].file == i
    requires g == Alpha(led) && g' == Alpha(led')
    ensures g'.bytes == g.bytes && g'.mails == g.mails[led.next + 2 := Meta(i, mail.origin)]
    ensures g'.live == LiveAfter(g'.mails, g.live, i, led.next + 2, rec, recipient)
  {
    RekeyedRest(led, led', rec, recipient, i, mail);
    RekeyedLiveSet(led, led', rec, recipient, i, mail, MetasOf(led)[led.next + 2 := Meta(i, mail.origin)]);
  }

  lemma RevokeRest(led: Ledger, led': Ledger, user: UserData, filename: string, recipient: string, s: UUID,
                   rec: RecInfo, i: nat, g: Graph, g': Graph)
    requires CanOpen(led, user, filename) && s == AccessUUID(user.username, filename) && rec == led.recs[s]
    requires i == FileOf(led, user, filename)
    requires led'.recs == led.recs[s := rec.(mailbox := led.next + 2, children :=
                                             rec.children - {recipient})] - {UserUUID(user.username)}
    requires led'.invs == led.invs && led'.accounts == led.accounts && led'.next == led.next + 3
    requires g == Alpha(led) && g' == Alpha(led')
    ensures rec == g.recs[s] && rec.mailbox in g.mails && i == g.mails[rec.mailbox].file
    ensures g'.recs == Rewrite(g, user, filename, rec.(mailbox := g.next + 2, children := rec.children - {recipient}))
    ensures g'.invs == g.invs && g'.users == g.users && g'.next == g.next + 3 && g.next == led.next
  {
  }

  lemma RevokedGraph(g: Graph, user: UserData, filename: string, recipient: string, s: UUID, rec: RecInfo, i: nat,
                     g': Graph)
    requires GCanOpen(g, user, filename) && s == AccessUUID(user.username, filename) && rec == g.recs[s]
    requires i == g.mails[rec.mailbox].file && g'.next == g.next + 3 && g'.bytes == g.bytes
    requires g'.mails == g.mails[g.next + 2 := Meta(i, Rotated(rec.mailbox, user.username))]
    requires g'.live == LiveAfter(g'.mails, g.live, i, g.next + 2, rec, recipient)
    requires g'.recs == Rewrite(g, user, filename, rec.(mailbox := g.next + 2, children := rec.children - {recipient}))
    requires g'.invs == g.invs && g'.users == g.users
    ensures g' == GRevoke(g, user, filename, recipient)
  {
  }

  lemma RevokeFields(led: Ledger, led': Ledger, user: UserData, filename: string, recipient: string, s: UUID,
                     rec: RecInfo, i: nat, mail: MailInfo, g: Graph, g': Graph)
    requires MailsBelow(led) && CanOpen(led, user, filename)
    requires s == AccessUUID(user.username, filename) && rec == led.recs[s] && i == FileOf(led, user, filename)
    requires forall c | c in rec.children :: rec.children[c] in led.mails && led.mails[rec.children[c]].file == i
    requires mail == NewMail(rec, i, led.next, user.username)
    requires led'.files == led.files[i := led.files[i].(key := led.next)]
    requires led'.mails == KeptMails(led, rec, recipient)[led.next + 2 := mail]
    requires led'.recs == led.recs[s := rec.(mailbox := led.next + 2, children :=
                                             rec.children - {recipient})] - {UserUUID(user.username)}
    requires led'.invs == led.invs && led'.accounts == led.accounts && led'.next == led.next + 3
    requires g == Alpha(led) && g' == Alpha(led')
    ensures rec == g.recs[s] && rec.mailbox in g.mails && i == g.mails[rec.mailbox].file && g'.next == g.next + 3
    ensures g'.bytes == g.bytes
    ensures g'.mails == g.mails[g.next + 2 := Meta(i, Rotated(rec.mailbox, user.username))]
    ensures g'.live == LiveAfter(g'.mails, g.live, i, g.next + 2, rec, recipient)
    ensures g'.recs == Rewrite(g, user, filename, rec.(mailbox := g.next + 2, children := rec.children - {recipient}))
    ensures g'.invs == g.invs && g'.users == g.users
  {
    RekeyedAlpha(led, led', rec, recipient, i, mail, g, g');
    RevokeRest(led, led', user, filename, recipient, s, rec, i, g, g');
  }

  lemma RevokeLiveSimulates(led: Ledger, user: UserData, filename: string, recipient: string, led': Ledger, g: Graph,
                            g': Graph)
    requires Below(led) && MailsOK(led) && RecsOK(led) && CanOpen(led, user, filename) && GCanOpen(g, user, filename)
    requires led' == RevokeLedger(led, user, filename, recipient) && g == Alpha(led) && g' == Alpha(led')
    ensures g' == GRevoke(g, user, filename, recipient)
  {
    var s, i := AccessUUID(user.username, filename), FileOf(led, user, filename);
    var rec := led.recs[s];
    assert RecOK(led, s, rec);
    MailsAreBelow(led);
    RevokeShape(led, user, filename, recipient, led', i, s, rec);
    RevokeFields(led, led', user, filename, recipient, s, rec, i, NewMail(rec, i, led.next, user.username), g, g');
    RevokedGraph(g, user, filename, recipient, s, rec, i, g');
  }

  lemma RevokeSimulates(led: Ledger, user: UserData, filename: string, recipient: string, led': Ledger)
    requires Below(led) && MailsOK(led) && RecsOK(led) && led' == RevokeLedger(led, user, filename, recipient)
    ensures Alpha(led') == GRevoke(Alpha(led), user, filename, recipient)
  {
    CanOpenAgrees(led, user, filename);
    if CanOpen(led, user, filename) {
      RevokeLiveSimulates(led, user, filename, recipient, led', Alpha(led), Alpha(led'));
    } else {
      RevokeStaleSimulates(led, user, filename, recipient, led');
    }
  }
}
