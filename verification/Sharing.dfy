/**
 File sharing without cryptography: files are byte strings, a mailbox is live or it is not, and a record
 names one mailbox and the mailboxes its holder has handed out.  This is the system the sealed store
 implements; what revocation achieves over whole runs is argued here.
 */
module Sharing {
  import opened Blocks
  import opened Records
  import opened Ledgers

  datatype Meta = Meta(file: nat, origin: Origin)

  datatype Graph = Graph(
    next: nat,
    bytes: map<nat, seq<byte>>,
    live: set<nat>,
    mails: map<nat, Meta>,
    recs: map<UUID, RecInfo>,
    invs: map<nat, InvInfo>,
    users: set<string>)

  // ---------- the operations ----------

  ghost predicate GHolds(g: Graph, user: UserData, filename: string) {
    var s := AccessUUID(user.username, filename);
    s in g.recs && g.recs[s].master == user.master && g.recs[s].filename == filename
  }

  ghost predicate GCanOpen(g: Graph, user: UserData, filename: string) {
    GHolds(g, user, filename) && g.recs[AccessUUID(user.username, filename)].mailbox in g.live
    && g.recs[AccessUUID(user.username, filename)].mailbox in g.mails
  }

  function Rewrite(g: Graph, user: UserData, filename: string, rec: RecInfo): map<UUID, RecInfo> {
    g.recs[AccessUUID(user.username, filename) := rec] - {UserUUID(user.username)}
  }

  /** A new file with one live mailbox; whatever the name stood for before is left alone. */
  function GStore(g: Graph, user: UserData, filename: string, content: seq<byte>): Graph {
    g.(next := g.next + 4 + |Chunks(content)|,
       bytes := g.bytes[g.next + 1 := content],
       live := g.live + {g.next + 2},
       mails := g.mails[g.next + 2 := Meta(g.next + 1, Stored(user.username))],
       recs := Rewrite(g, user, filename, RecInfo(user.master, filename, g.next + 2, map[])))
  }

  /** A live holder extends the file; everybody who can open it reads the same bytes. */
  ghost function GAppend(g: Graph, user: UserData, filename: string, content: seq<byte>): Graph {
    if !GCanOpen(g, user, filename) then g
    else
      var i := g.mails[g.recs[AccessUUID(user.username, filename)].mailbox].file;
      if i !in g.bytes then g
      else g.(next := g.next + |Chunks(content)|, bytes := g.bytes[i := g.bytes[i] + content])
  }

  /** The handed-out mailbox is live exactly when the holder's own is. */
  ghost function GInvite(g: Graph, user: UserData, filename: string, recipient: string): Graph {
    var s := AccessUUID(user.username, filename);
    if !GHolds(g, user, filename) || g.recs[s].mailbox !in g.mails then g
    else
      var m, rec := g.recs[s].mailbox, g.recs[s];
      var g1 := g.(next := g.next + 2,
                   live := if m in g.live then g.live + {g.next} else g.live,
                   mails := g.mails[g.next := Meta(g.mails[m].file, Invited(m, user.username, recipient))]);
      if recipient !in g.users then g1
      else g1.(next := g.next + 3,
               invs := g.invs[g.next + 2 := InvInfo(user.username, recipient, g.next)],
               recs := g.recs[s := rec.(children := rec.children[recipient := g.next])])
  }

  ghost function GAccept(g: Graph, user: UserData, sender: string, ptr: UUID, filename: string): Graph {
    if !(ptr.Random? && ptr.n in g.invs && g.invs[ptr.n].maker == sender && g.invs[ptr.n].to == user.username) then g
    else g.(recs := Rewrite(g, user, filename, RecInfo(user.master, filename, g.invs[ptr.n].mailbox, map[])))
  }

  ghost function LiveAfter(mails: map<nat, Meta>, live: set<nat>, i: nat, new': nat, rec: RecInfo,
                           recipient: string): set<nat>
  {
    set m | m in mails && (if mails[m].file == i then m == new' || Kept(rec, recipient, m) else m in live)
  }

  /** Of all mailboxes of the file, exactly the revoker's new one and the other direct children are live. */
  ghost function GRevoke(g: Graph, user: UserData, filename: string, recipient: string): Graph {
    var s := AccessUUID(user.username, filename);
    if !GHolds(g, user, filename) || g.recs[s].mailbox !in g.mails then g
    else if !GCanOpen(g, user, filename) then g.(next := g.next + 1)
    else
      var rec, new' := g.recs[s], g.next + 2;
      var i := g.mails[rec.mailbox].file;
      var mails := g.mails[new' := Meta(i, Rotated(rec.mailbox, user.username))];
      g.(next := g.next + 3,
         live := LiveAfter(mails, g.live, i, new', rec, recipient),
         mails := mails,
         recs := Rewrite(g, user, filename, rec.(mailbox := new', children := rec.children - {recipient})))
  }

  function GRegister(g: Graph, username: string): Graph {
    g.(next := g.next + 2, users := g.users + {username})
  }

  // ---------- lineage ----------

  /** The mailbox a mailbox was copied or rotated from. */
  predicate HasParent(mails: map<nat, Meta>, m: nat) {
    m in mails && !mails[m].origin.Stored? && mails[m].origin.from < m
  }

  /** `m` is `a`, or was handed out from it, or replaced it, directly or through others. */
  predicate Descends(mails: map<nat, Meta>, a: nat, m: nat)
    decreases m
  {
    m == a || (HasParent(mails, m) && Descends(mails, a, mails[m].origin.from))
  }

  /** `m` is `a` or what `a` became by rotations only. */
  predicate Replaces(mails: map<nat, Meta>, a: nat, m: nat)
    decreases m
  {
    m == a || (HasParent(mails, m) && mails[m].origin.Rotated? && Replaces(mails, a, mails[m].origin.from))
  }

  ghost predicate Grown(mails: map<nat, Meta>, mails': map<nat, Meta>) {
    forall m | m in mails :: m in mails' && mails'[m] == mails[m]
  }

  // ---------- the sharing forest ----------

  ghost predicate MetasOK(g: Graph) {
    forall m | m in g.mails ::
      && m < g.next && g.mails[m].file in g.bytes
      && (!g.mails[m].origin.Stored? ==>
            && g.mails[m].origin.from < m && g.mails[m].origin.from in g.mails
            && g.mails[g.mails[m].origin.from].file == g.mails[m].file)
  }

  /** A child's mailbox was handed out from this record's mailbox, as it is now or was before rotations. */
  ghost predicate ChildOK(g: Graph, rec: RecInfo, c: string)
    requires c in rec.children
  {
    var m := rec.children[c];
    && m in g.mails && rec.mailbox in g.mails && g.mails[m].origin.Invited?
    && g.mails[m].file == g.mails[rec.mailbox].file
    && Replaces(g.mails, g.mails[m].origin.from, rec.mailbox)
  }

  ghost predicate RecordsOK(g: Graph) {
    forall s | s in g.recs :: g.recs[s].mailbox in g.mails && forall c | c in g.recs[s].children ::
      ChildOK(g, g.recs[s], c)
  }

  /** No mailbox is in two Children entries, of one record or of two. */
  ghost predicate ChildrenUnique(g: Graph) {
    forall s, c, s', c' | s in g.recs && c in g.recs[s].children && s' in g.recs && c' in g.recs[s'].children ::
      g.recs[s].children[c] == g.recs[s'].children[c'] ==> s == s' && c == c'
  }

  ghost predicate InvitationsOK(g: Graph) {
    forall n | n in g.invs :: g.invs[n].mailbox in g.mails
  }

  ghost predicate Forest(g: Graph) {
    && MetasOK(g) && RecordsOK(g) && ChildrenUnique(g) && InvitationsOK(g)
    && (forall m | m in g.live :: m in g.mails)
    && (forall i | i in g.bytes :: i < g.next)
  }

  // ---------- lineage lemmas ----------

  lemma {:induction false} DescendsIsNewer(mails: map<nat, Meta>, a: nat, m: nat)
    requires Descends(mails, a, m)
    ensures a <= m
    decreases m
  {
    if m != a {
      DescendsIsNewer(mails, a, mails[m].origin.from);
    }
  }

  /** Adding mailboxes does not change who descends from whom among the old ones. */
  lemma {:induction false} DescendsStable(g: Graph, mails': map<nat, Meta>, a: nat, m: nat)
    requires MetasOK(g) && Grown(g.mails, mails') && m in g.mails
    ensures Descends(mails', a, m) <==> Descends(g.mails, a, m)
    decreases m
  {
    if !g.mails[m].origin.Stored? {
      DescendsStable(g, mails', a, g.mails[m].origin.from);
    }
  }

  lemma {:induction false} ReplacesStable(g: Graph, mails': map<nat, Meta>, a: nat, m: nat)
    requires MetasOK(g) && Grown(g.mails, mails') && m in g.mails
    ensures Replaces(mails', a, m) <==> Replaces(g.mails, a, m)
    decreases m
  {
    if g.mails[m].origin.Rotated? {
      ReplacesStable(g, mails', a, g.mails[m].origin.from);
    }
  }

  /** A rotation descends from everything its original descends from. */
  lemma {:induction false} ReplacementDescends(mails: map<nat, Meta>, a: nat, b: nat, m: nat)
    requires Replaces(mails, b, m) && Descends(mails, a, b)
    ensures Descends(mails, a, m)
    decreases m
  {
    if m != b {
      ReplacementDescends(mails, a, b, mails[m].origin.from);
    }
  }

  /**
   Acyclicity: a mailbox handed out from `b` is no ancestor of `b` or of what `b` was rotated into, so a
   child is never an ancestor of its parent record's mailbox.
   */
  lemma {:induction false} ChildIsNoAncestor(mails: map<nat, Meta>, b: nat, child: nat, m: nat)
    requires child in mails && mails[child].origin.Invited? && b < child
    requires Replaces(mails, b, m)
    ensures !Descends(mails, child, m)
    decreases m
  {
    if m == b {
      if Descends(mails, child, m) {
        DescendsIsNewer(mails, child, m);
      }
    } else {
      ChildIsNoAncestor(mails, b, child, mails[m].origin.from);
    }
  }

  // ---------- the forest is kept ----------

  /** What every operation does to the parts other than records. */
  ghost predicate Steps(g: Graph, g': Graph) {
    && g.next <= g'.next
    && Grown(g.mails, g'.mails)
    && (forall i | i in g.bytes :: i in g'.bytes)
  }

  lemma ChildKeeps(g: Graph, g': Graph, rec: RecInfo, c: string)
    requires MetasOK(g) && Grown(g.mails, g'.mails) && rec.mailbox in g.mails && c in rec.children && ChildOK(g, rec, c)
    ensures ChildOK(g', rec, c)
  {
    ReplacesStable(g, g'.mails, g.mails[rec.children[c]].origin.from, rec.mailbox);
  }

  /** Replacing one record by a well-formed one whose new children are in nobody's list. */
  lemma RecordsWith(g: Graph, g': Graph, s: UUID, rec: RecInfo, gone: set<UUID>)
    requires MetasOK(g) && RecordsOK(g) && Grown(g.mails, g'.mails) && g'.recs == g.recs[s := rec] - gone
    requires rec.mailbox in g'.mails && forall c | c in rec.children :: ChildOK(g', rec, c)
    ensures RecordsOK(g')
  {
    forall k | k in g'.recs
      ensures g'.recs[k].mailbox in g'.mails && forall c | c in g'.recs[k].children :: ChildOK(g', g'.recs[k], c)
    {
      if k != s {
        forall c | c in g.recs[k].children
          ensures ChildOK(g', g.recs[k], c)
        {
          ChildKeeps(g, g', g.recs[k], c);
        }
      }
    }
  }

  lemma RecordsSame(g: Graph, g': Graph)
    requires MetasOK(g) && RecordsOK(g) && Grown(g.mails, g'.mails) && g'.recs == g.recs
    ensures RecordsOK(g')
  {
    forall k | k in g.recs
      ensures g'.recs[k].mailbox in g'.mails && forall c | c in g'.recs[k].children :: ChildOK(g', g'.recs[k], c)
    {
      forall c | c in g.recs[k].children
        ensures ChildOK(g', g.recs[k], c)
      {
        ChildKeeps(g, g', g.recs[k], c);
      }
    }
  }

  lemma UniqueWith(g: Graph, g': Graph, s: UUID, rec: RecInfo, gone: set<UUID>)
    requires ChildrenUnique(g) && g'.recs == g.recs[s := rec] - gone
    requires forall c, c' | c in rec.children && c' in rec.children :: rec.children[c] == rec.children[c'] ==> c == c'
    requires forall c, k, c' | c in rec.children && k in g.recs && k != s && c' in g.recs[k].children ::
               rec.children[c] != g.recs[k].children[c']
    ensures ChildrenUnique(g')
  {
  }

  lemma StoreForest(g: Graph, user: UserData, filename: string, content: seq<byte>, g': Graph)
    requires Forest(g) && g' == GStore(g, user, filename, content)
    ensures Forest(g') && Steps(g, g')
  {
    var rec := RecInfo(user.master, filename, g.next + 2, map[]);
    RecordsWith(g, g', AccessUUID(user.username, filename), rec, {UserUUID(user.username)});
    UniqueWith(g, g', AccessUUID(user.username, filename), rec, {UserUUID(user.username)});
  }

  lemma AppendForest(g: Graph, user: UserData, filename: string, content: seq<byte>, g': Graph)
    requires Forest(g) && g' == GAppend(g, user, filename, content)
    ensures Forest(g') && Steps(g, g')
  {
  }

  lemma AcceptForest(g: Graph, user: UserData, sender: string, ptr: UUID, filename: string, g': Graph)
    requires Forest(g) && g' == GAccept(g, user, sender, ptr, filename)
    ensures Forest(g') && Steps(g, g')
  {
    if g' != g {
      var rec := RecInfo(user.master, filename, g.invs[ptr.n].mailbox, map[]);
      RecordsWith(g, g', AccessUUID(user.username, filename), rec, {UserUUID(user.username)});
      UniqueWith(g, g', AccessUUID(user.username, filename), rec, {UserUUID(user.username)});
    }
  }

  lemma InviteForest(g: Graph, user: UserData, filename: string, recipient: string, g': Graph)
    requires Forest(g) && g' == GInvite(g, user, filename, recipient)
    ensures Forest(g') && Steps(g, g')
  {
    var s := AccessUUID(user.username, filename);
    if GHolds(g, user, filename) && g.recs[s].mailbox in g.mails && recipient in g.users {
      var rec := g.recs[s].(children := g.recs[s].children[recipient := g.next]);
      InviteRecord(g, user, recipient, s, rec, g');
      RecordsWith(g, g', s, rec, {});
      UniqueWith(g, g', s, rec, {});
    } else if GHolds(g, user, filename) && g.recs[s].mailbox in g.mails {
      RecordsSame(g, g');
    }
  }

  lemma InviteRecord(g: Graph, user: UserData, recipient: string, s: UUID, rec: RecInfo, g': Graph)
    requires MetasOK(g) && RecordsOK(g) && s in g.recs && g.recs[s].mailbox in g.mails && Grown(g.mails, g'.mails)
    requires rec == g.recs[s].(children := g.recs[s].children[recipient := g.next])
    requires g.next in g'.mails
    requires g'.mails[g.next] == Meta(g.mails[rec.mailbox].file, Invited(rec.mailbox, user.username, recipient))
    ensures forall c | c in rec.children :: ChildOK(g', rec, c)
  {
    forall c | c in rec.children
      ensures ChildOK(g', rec, c)
    {
      if c != recipient {
        ChildKeeps(g, g', g.recs[s], c);
      }
    }
  }

  lemma RevokeLiveForest(g: Graph, user: UserData, filename: string, recipient: string, g': Graph, s: UUID,
                         rec: RecInfo)
    requires Forest(g) && g' == GRevoke(g, user, filename, recipient) && GCanOpen(g, user, filename)
    requires s == AccessUUID(user.username, filename)
    requires rec == g.recs[s].(mailbox := g.next + 2, children := g.recs[s].children - {recipient})
    ensures RecordsOK(g') && ChildrenUnique(g')
  {
    RevokedChildren(g, user, recipient, s, rec, g');
    RecordsWith(g, g', s, rec, {UserUUID(user.username)});
    UniqueWith(g, g', s, rec, {UserUUID(user.username)});
  }

  lemma RevokeForest(g: Graph, user: UserData, filename: string, recipient: string, g': Graph)
    requires Forest(g) && g' == GRevoke(g, user, filename, recipient)
    ensures Forest(g') && Steps(g, g')
  {
    if GCanOpen(g, user, filename) {
      var s := AccessUUID(user.username, filename);
      RevokeLiveForest(g, user, filename, recipient, g', s,
                       g.recs[s].(mailbox := g.next + 2, children := g.recs[s].children - {recipient}));
    }
  }

  /** The other children stay children of the rotated mailbox. */
  lemma RevokedChildren(g: Graph, user: UserData, recipient: string, s: UUID, rec: RecInfo, g': Graph)
    requires MetasOK(g) && RecordsOK(g) && s in g.recs && g.recs[s].mailbox in g.mails && Grown(g.mails, g'.mails)
    requires rec == g.recs[s].(mailbox := g.next + 2, children := g.recs[s].children - {recipient})
    requires g.next + 2 in g'.mails
    requires g'.mails[g.next + 2] == Meta(g.mails[g.recs[s].mailbox].file, Rotated(g.recs[s].mailbox, user.username))
    ensures forall c | c in rec.children :: ChildOK(g', rec, c)
  {
    forall c | c in rec.children
      ensures ChildOK(g', rec, c)
    {
      ChildKeeps(g, g', g.recs[s], c);
    }
  }

  // ---------- dead subtrees ----------

  /**
   Everything that descends from `a` is dead, and whoever holds a record with a child among them holds a
   dead mailbox itself.  A revocation re-keys only a live holder's direct children, so this never ends.
   */
  ghost predicate Doomed(g: Graph, a: nat) {
    && (forall m | m in g.mails && Descends(g.mails, a, m) :: m !in g.live)
    && (forall s, c | s in g.recs && c in g.recs[s].children && Descends(g.mails, a, g.recs[s].children[c]) ::
          Descends(g.mails, a, g.recs[s].mailbox))
  }

  /** Doom depends only on the live mailboxes and the records, once lineage of old mailboxes is settled. */
  lemma DoomKept(g: Graph, g': Graph, a: nat)
    requires Forest(g) && Forest(g') && Grown(g.mails, g'.mails) && Doomed(g, a)
    requires forall m | m in g'.mails && m in g.mails && Descends(g.mails, a, m) :: m !in g'.live
    requires forall m | m in g'.mails && m !in g.mails && Descends(g'.mails, a, m) :: m !in g'.live
    requires forall s, c | s in g'.recs && c in g'.recs[s].children && Descends(g'.mails, a, g'.recs[s].children[c]) ::
               (s in g.recs && g'.recs[s] == g.recs[s]) || Descends(g'.mails, a, g'.recs[s].mailbox)
    ensures Doomed(g', a)
  {
    forall m | m in g'.mails && Descends(g'.mails, a, m)
      ensures m !in g'.live
    {
      if m in g.mails {
        DescendsStable(g, g'.mails, a, m);
      }
    }
    forall s, c | s in g'.recs && c in g'.recs[s].children && Descends(g'.mails, a, g'.recs[s].children[c])
      ensures Descends(g'.mails, a, g'.recs[s].mailbox)
    {
      if s in g.recs && g'.recs[s] == g.recs[s] {
        assert ChildOK(g, g.recs[s], c);
        DescendsStable(g, g'.mails, a, g.recs[s].children[c]);
        DescendsStable(g, g'.mails, a, g.recs[s].mailbox);
      }
    }
  }

  lemma StoreDoom(g: Graph, a: nat, user: UserData, filename: string, content: seq<byte>, g': Graph)
    requires Forest(g) && Doomed(g, a) && a in g.mails && g' == GStore(g, user, filename, content)
    ensures Doomed(g', a) && a in g'.mails
  {
    StoreForest(g, user, filename, content, g');
    DoomKept(g, g', a);
  }

  lemma AppendDoom(g: Graph, a: nat, user: UserData, filename: string, content: seq<byte>, g': Graph)
    requires Forest(g) && Doomed(g, a) && a in g.mails && g' == GAppend(g, user, filename, content)
    ensures Doomed(g', a) && a in g'.mails
  {
    AppendForest(g, user, filename, content, g');
  }

  lemma AcceptDoom(g: Graph, a: nat, user: UserData, sender: string, ptr: UUID, filename: string, g': Graph)
    requires Forest(g) && Doomed(g, a) && a in g.mails && g' == GAccept(g, user, sender, ptr, filename)
    ensures Doomed(g', a) && a in g'.mails
  {
    AcceptForest(g, user, sender, ptr, filename, g');
    DoomKept(g, g', a);
  }

  lemma GInviteParts(g: Graph, user: UserData, filename: string, recipient: string, g': Graph, s: UUID, m: nat)
    requires GHolds(g, user, filename) && s == AccessUUID(user.username, filename) && m == g.recs[s].mailbox
    requires m in g.mails
    requires g' == GInvite(g, user, filename, recipient)
    ensures g'.mails == g.mails[g.next := Meta(g.mails[m].file, Invited(m, user.username, recipient))]
    ensures g'.live == if m in g.live then g.live + {g.next} else g.live
    ensures g'.recs == g.recs || g'.recs == g.recs[s := g.recs[s].(children := g.recs[s].children[recipient := g.next])]
  {
  }

  /** An invitation from a doomed mailbox hands out a dead mailbox that is doomed with it. */
  lemma InviteDoom(g: Graph, a: nat, user: UserData, filename: string, recipient: string, g': Graph)
    requires Forest(g) && Doomed(g, a) && a in g.mails && g' == GInvite(g, user, filename, recipient)
    ensures Doomed(g', a) && a in g'.mails
  {
    InviteForest(g, user, filename, recipient, g');
    var s := AccessUUID(user.username, filename);
    if GHolds(g, user, filename) && g.recs[s].mailbox in g.mails {
      GInviteParts(g, user, filename, recipient, g', s, g.recs[s].mailbox);
      InvitedDoom(g, a, recipient, g', s, g.recs[s].mailbox);
    }
  }

  lemma InvitedDoom(g: Graph, a: nat, recipient: string, g': Graph, s: UUID, m: nat)
    requires Forest(g) && Forest(g') && Grown(g.mails, g'.mails) && Doomed(g, a) && a in g.mails
    requires s in g.recs && m == g.recs[s].mailbox && m in g.mails && m < g.next && g.next !in g.mails
    requires g.next in g'.mails && !g'.mails[g.next].origin.Stored? && g'.mails[g.next].origin.from == m
    requires forall k | k in g'.mails :: k in g.mails || k == g.next
    requires g'.live == if m in g.live then g.live + {g.next} else g.live
    requires g'.recs == g.recs
             || g'.recs == g.recs[s := g.recs[s].(children := g.recs[s].children[recipient := g.next])]
    ensures Doomed(g', a) && a in g'.mails
  {
    DescendsStable(g, g'.mails, a, m);
    assert Descends(g'.mails, a, g.next) <==> Descends(g'.mails, a, m);
    forall c | s in g'.recs && c in g'.recs[s].children && Descends(g'.mails, a, g'.recs[s].children[c])
      ensures Descends(g'.mails, a, g'.recs[s].mailbox)
    {
      if c in g.recs[s].children && g'.recs[s].children[c] == g.recs[s].children[c] {
        assert ChildOK(g, g.recs[s], c);
        DescendsStable(g, g'.mails, a, g.recs[s].children[c]);
      }
    }
    DoomKept(g, g', a);
  }

  /** Nobody outside the dead subtree can re-key into it: its members are nobody else's children. */
  lemma RevokeDoom(g: Graph, a: nat, user: UserData, filename: string, recipient: string, g': Graph)
    requires Forest(g) && Doomed(g, a) && a in g.mails && g' == GRevoke(g, user, filename, recipient)
    ensures Doomed(g', a) && a in g'.mails
  {
    RevokeForest(g, user, filename, recipient, g');
    var s := AccessUUID(user.username, filename);
    if GCanOpen(g, user, filename) {
      var rec := g.recs[s];
      DescendsStable(g, g'.mails, a, rec.mailbox);
      assert !Descends(g'.mails, a, g.next + 2);
      forall c | c in rec.children
        ensures !Descends(g.mails, a, rec.children[c]) && !Descends(g'.mails, a, rec.children[c])
      {
        assert ChildOK(g, rec, c);
        DescendsStable(g, g'.mails, a, rec.children[c]);
      }
      DoomKept(g, g', a);
    } else {
      DoomKept(g, g', a);
    }
  }

  lemma {:induction false} DescendsFile(g: Graph, a: nat, m: nat)
    requires MetasOK(g) && m in g.mails && Descends(g.mails, a, m)
    ensures a in g.mails && g.mails[a].file == g.mails[m].file
    decreases m
  {
    if m != a {
      DescendsFile(g, a, g.mails[m].origin.from);
    }
  }

  /** After the revocation no descendant of the removed child is the new mailbox or a kept child. */
  lemma RemovedIsApart(g: Graph, s: UUID, rec: RecInfo, recipient: string, m: nat)
    requires Forest(g) && s in g.recs && rec == g.recs[s] && recipient in rec.children
    requires Descends(g.mails, rec.children[recipient], m)
    ensures !Descends(g.mails, rec.children[recipient], rec.mailbox)
    ensures !Kept(rec, recipient, m)
  {
    var a := rec.children[recipient];
    assert ChildOK(g, rec, recipient);
    ChildIsNoAncestor(g.mails, g.mails[a].origin.from, a, rec.mailbox);
    forall c | c in rec.children && c != recipient
      ensures rec.children[c] != m
    {
      assert ChildOK(g, rec, c);
      assert rec.children[c] != a;
      if Descends(g.mails, a, rec.children[c]) {
        ReplacementDescends(g.mails, a, g.mails[rec.children[c]].origin.from, rec.mailbox);
      }
    }
  }

  /** The start of the doom: a successful revocation of a recipient that has a Children entry. */
  lemma RevokeDooms(g: Graph, user: UserData, filename: string, recipient: string, g': Graph, s: UUID, a: nat)
    requires Forest(g) && GCanOpen(g, user, filename) && g' == GRevoke(g, user, filename, recipient)
    requires s == AccessUUID(user.username, filename) && recipient in g.recs[s].children
    requires a == g.recs[s].children[recipient]
    ensures Doomed(g', a) && a in g'.mails && Forest(g')
  {
    RevokeForest(g, user, filename, recipient, g');
    var rec := g.recs[s];
    assert ChildOK(g, rec, recipient);
    RemovedIsApart(g, s, rec, recipient, a);
    DescendsStable(g, g'.mails, a, rec.mailbox);
    forall m | m in g'.mails && Descends(g'.mails, a, m)
      ensures m !in g'.live
    {
      DescendsFile(g', a, m);
      if m in g.mails {
        DescendsStable(g, g'.mails, a, m);
        RemovedIsApart(g, s, rec, recipient, m);
      }
    }
    forall k, c | k in g'.recs && c in g'.recs[k].children && Descends(g'.mails, a, g'.recs[k].children[c])
      ensures Descends(g'.mails, a, g'.recs[k].mailbox)
    {
      assert ChildOK(g', g'.recs[k], c);
      OrphanNow(g, user, filename, recipient, g', s, a, k, c);
      ReplacementDescends(g'.mails, a, g'.mails[g'.recs[k].children[c]].origin.from, g'.recs[k].mailbox);
    }
  }

  /** The removed child's mailbox was in one Children entry, and that entry is gone. */
  lemma OrphanNow(g: Graph, user: UserData, filename: string, recipient: string, g': Graph, s: UUID, a: nat, k: UUID,
                  c: string)
    requires Forest(g) && GCanOpen(g, user, filename) && g' == GRevoke(g, user, filename, recipient)
    requires s == AccessUUID(user.username, filename) && recipient in g.recs[s].children
    requires a == g.recs[s].children[recipient]
    requires k in g'.recs && c in g'.recs[k].children
    ensures g'.recs[k].children[c] != a
  {
    if k == s {
      assert c in g.recs[s].children && c != recipient;
    } else {
      assert k in g.recs && g'.recs[k] == g.recs[k];
    }
  }

  // ---------- mailboxes in nobody's list ----------

  ghost predicate Orphan(g: Graph, m: nat) {
    m in g.mails && forall s, c | s in g.recs && c in g.recs[s].children :: g.recs[s].children[c] != m
  }

  /** An orphan stays one, and once it is dead it stays dead: only a kept child is ever revived. */
  ghost predicate OrphanKept(g: Graph, g': Graph, m: nat) {
    Orphan(g', m) && (m !in g.live ==> m !in g'.live)
  }

  lemma StoreOrphan(g: Graph, m: nat, user: UserData, filename: string, content: seq<byte>, g': Graph)
    requires MetasOK(g) && Orphan(g, m) && g' == GStore(g, user, filename, content)
    ensures OrphanKept(g, g', m)
  {
  }

  lemma AppendOrphan(g: Graph, m: nat, user: UserData, filename: string, content: seq<byte>, g': Graph)
    requires Orphan(g, m) && g' == GAppend(g, user, filename, content)
    ensures OrphanKept(g, g', m)
  {
  }

  lemma InviteOrphan(g: Graph, m: nat, user: UserData, filename: string, recipient: string, g': Graph)
    requires MetasOK(g) && Orphan(g, m) && g' == GInvite(g, user, filename, recipient)
    ensures OrphanKept(g, g', m)
  {
  }

  lemma AcceptOrphan(g: Graph, m: nat, user: UserData, sender: string, ptr: UUID, filename: string, g': Graph)
    requires Orphan(g, m) && g' == GAccept(g, user, sender, ptr, filename)
    ensures OrphanKept(g, g', m)
  {
  }

  lemma NotKeptOrphan(g: Graph, m: nat, s: UUID, recipient: string)
    requires Orphan(g, m) && s in g.recs
    ensures !Kept(g.recs[s], recipient, m)
  {
  }

  /** A successful revocation on an orphan's file kills it. */
  lemma RevokeOrphan(g: Graph, m: nat, user: UserData, filename: string, recipient: string, g': Graph)
    requires MetasOK(g) && Orphan(g, m) && g' == GRevoke(g, user, filename, recipient)
    ensures OrphanKept(g, g', m)
    ensures GCanOpen(g, user, filename)
            && g.mails[m].file == g.mails[g.recs[AccessUUID(user.username, filename)].mailbox].file ==>
              m !in g'.live
  {
    var s := AccessUUID(user.username, filename);
    if GCanOpen(g, user, filename) {
      NotKeptOrphan(g, m, s, recipient);
    }
  }

  /** Replacing a Children entry orphans the mailbox that was there. */
  lemma ReinviteOrphan(g: Graph, user: UserData, filename: string, recipient: string, g': Graph, s: UUID)
    requires MetasOK(g) && RecordsOK(g) && ChildrenUnique(g) && GHolds(g, user, filename)
    requires s == AccessUUID(user.username, filename)
    requires g.recs[s].mailbox in g.mails && recipient in g.users && recipient in g.recs[s].children
    requires g' == GInvite(g, user, filename, recipient)
    ensures Orphan(g', g.recs[s].children[recipient])
  {
    var m := g.recs[s].children[recipient];
    assert ChildOK(g, g.recs[s], recipient);
    assert g'.recs == g.recs[s := g.recs[s].(children := g.recs[s].children[recipient := g.next])];
  }
}
