/**
 The whole system without cryptography.  A board holds the sharing graph, the passwords and who is logged in;
 nothing in it is sealed and there are no keys.  Every run of the sealed store has the results and the views of
 the same run on the board.
 */
module KeyFree {
  import opened Wrappers
  import opened Blocks
  import opened Records
  import opened Protocol
  import opened Ledgers
  import opened RefineUsers
  import opened Sharing
  import opened Simulation
  import opened Stepwise
  import opened Concurrency
  import opened Runs
  import opened Guarantees
  import opened Stability
  import opened ConcurrentAppends

  datatype Board = Board(graph: Graph, passwords: map<string, string>, sessions: seq<Master>)

  /** On the board a user is a name and a password. */
  function Somebody(m: Master): UserData {
    UserData(m.username, 0, 0, m, map[])
  }

  /** The operations a logged-in user calls: the graph afterwards, and whether the call succeeds. */
  ghost function PlayCall(g: Graph, user: UserData, op: Op): (Graph, bool)
    requires IsCall(op)
  {
    match op
    case Store(_, f, content) => (GStore(g, user, f, content), true)
    case Append(_, f, data) => if data.Some? then (GAppend(g, user, f, data.value), GCanOpen(g, user, f))
      else (g, false)
    case Invite(_, f, r) => (GInvite(g, user, f, r), GHolds(g, user, f) && r in g.users)
    case Accept(_, sender, ptr, f) => (GAccept(g, user, sender, ptr, f), IsFor(g, user, sender, ptr))
    case Revoke(_, f, r) => (GRevoke(g, user, f, r), GCanOpen(g, user, f))
  }

  /** The pointer stands for an invitation of that sender to the user. */
  predicate IsFor(g: Graph, user: UserData, sender: string, ptr: UUID) {
    ptr.Random? && ptr.n in g.invs && g.invs[ptr.n].maker == sender && g.invs[ptr.n].to == user.username
  }

  /** One step on the board.  What interleaved appends leave depends on the schedule, and is not determined here. */
  ghost function Play(a: Board, op: Op): (Board, bool) {
    match op
    case Register(u, p) =>
      if u in a.passwords || UserUUID(u) in a.graph.recs then (a, false)
      else (Board(GRegister(a.graph, u), a.passwords[u := p], a.sessions + [Master(u, p)]), true)
    case Login(u, p) =>
      if u in a.passwords && a.passwords[u] == p && UserUUID(u) !in a.graph.recs then
        (a.(sessions := a.sessions + [Master(u, p)]), true)
      else (a, false)
    case Interleave(_, _) => (a, true)
    case _ =>
      if op.sid >= |a.sessions| then (a, false)
      else
        var (g, ok) := PlayCall(a.graph, Somebody(a.sessions[op.sid]), op);
        (a.(graph := g), ok)
  }

  /** Whole contents are appended to some files, each at most once; nothing else changes. */
  ghost predicate Interleaves(g: Graph, tasks: seq<Task>, g': Graph) {
    && g'.live == g.live && g'.mails == g.mails && g'.recs == g.recs && g'.invs == g.invs && g'.users == g.users
    && g.next <= g'.next && g'.bytes.Keys == g.bytes.Keys
    && forall i | i in g.bytes :: exists version ::
         NoRepeats(version) && g'.bytes[i] == g.bytes[i] + Contributions(tasks, version)
  }

  /** The step `op` may lead from one board to the other, with this result. */
  ghost predicate Plays(a: Board, op: Op, ok: bool, a': Board) {
    if op.Interleave? then
      ok && a'.passwords == a.passwords && a'.sessions == a.sessions && Interleaves(a.graph, op.tasks, a'.graph)
    else Play(a, op) == (a', ok)
  }

  /** What a user can load, on the board. */
  ghost function BoardView(a: Board, m: Master, filename: string): Option<seq<byte>> {
    var g, user := a.graph, Somebody(m);
    if GCanOpen(g, user, filename) && g.mails[g.recs[AccessUUID(m.username, filename)].mailbox].file in g.bytes then
      Some(g.bytes[g.mails[g.recs[AccessUUID(m.username, filename)].mailbox].file])
    else None
  }

  // ---------- the board of a world ----------

  ghost function PasswordsOf(led: Ledger): map<string, string> {
    map u | u in led.accounts :: led.accounts[u].master.password
  }

  function MastersOf(sessions: seq<UserData>): (r: seq<Master>)
    ensures |r| == |sessions| && forall k :: 0 <= k < |r| ==> r[k] == sessions[k].master
  {
    seq(|sessions|, k requires 0 <= k < |sessions| => sessions[k].master)
  }

  ghost function BoardOf(w: World): Board {
    Board(Alpha(w.led), PasswordsOf(w.led), MastersOf(w.sessions))
  }

  // ---------- one call ----------

  /** The graph operations look at the caller's name and master key only. */
  lemma OnlyTheMaster(g: Graph, user: UserData, op: Op)
    requires IsCall(op) && user.username == user.master.username
    ensures PlayCall(g, Somebody(user.master), op) == PlayCall(g, user, op)
  {
  }

  lemma FileCallPlays(w: World, op: Op)
    requires Inv(w) && HasSession(w, op) && (op.Store? || op.Append?)
    ensures PlayCall(Alpha(w.led), Caller(w, op), op) == (Alpha(Step(w, op).led), Succeeds(w, op))
  {
    CanOpenAgrees(w.led, Caller(w, op), op.filename);
    if op.Store? {
      StoreInv(w, op);
    } else {
      AppendInv(w, op);
    }
  }

  lemma SharingCallPlays(w: World, op: Op)
    requires Inv(w) && HasSession(w, op) && (op.Invite? || op.Accept? || op.Revoke?)
    ensures PlayCall(Alpha(w.led), Caller(w, op), op) == (Alpha(Step(w, op).led), Succeeds(w, op))
  {
    CanOpenAgrees(w.led, Caller(w, op), op.filename);
    if op.Invite? {
      InviteInv(w, op);
    } else if op.Accept? {
      AcceptInv(w, op);
    } else {
      RevokeInv(w, op);
    }
  }

  /** Calls change neither the accounts nor who is logged in. */
  lemma CallAccounts(w: World, op: Op)
    requires HasSession(w, op) && IsCall(op)
    ensures Step(w, op).led.accounts == w.led.accounts
  {
  }

  lemma CallSessions(w: World, op: Op)
    requires HasSession(w, op) && IsCall(op)
    ensures |Step(w, op).sessions| == |w.sessions|
    ensures forall k :: 0 <= k < |w.sessions| ==> Step(w, op).sessions[k].master == w.sessions[k].master
  {
  }

  lemma SessionNamed(w: World, k: nat)
    requires Inv(w) && k < |w.sessions|
    ensures w.sessions[k].username == w.sessions[k].master.username
  {
    assert Registered(w.led, w.sessions[k]);
  }

  lemma CallBoard(w: World, op: Op, w': World)
    requires HasSession(w, op) && IsCall(op) && w' == Step(w, op)
    ensures BoardOf(w') == BoardOf(w).(graph := Alpha(w'.led))
  {
    CallAccounts(w, op);
    CallSessions(w, op);
    assert MastersOf(w'.sessions) == MastersOf(w.sessions);
    assert PasswordsOf(w'.led) == PasswordsOf(w.led);
  }

  lemma CallOnBoard(w: World, op: Op, user: UserData, g: Graph, ok: bool)
    requires HasSession(w, op) && IsCall(op) && user == Caller(w, op) && user.username == user.master.username
    requires PlayCall(Alpha(w.led), user, op) == (g, ok)
    ensures Play(BoardOf(w), op) == (BoardOf(w).(graph := g), ok)
  {
    OnlyTheMaster(Alpha(w.led), user, op);
    assert BoardOf(w).sessions[op.sid] == user.master;
  }

  lemma CallPlays(w: World, op: Op)
    requires Inv(w) && HasSession(w, op) && IsCall(op)
    ensures Play(BoardOf(w), op) == (BoardOf(Step(w, op)), Succeeds(w, op))
  {
    if op.Store? || op.Append? {
      FileCallPlays(w, op);
    } else {
      SharingCallPlays(w, op);
    }
    SessionNamed(w, op.sid);
    CallOnBoard(w, op, Caller(w, op), Alpha(Step(w, op).led), Succeeds(w, op));
    CallBoard(w, op, Step(w, op));
  }

  // ---------- registering and logging in ----------

  lemma HomeTaken(led: Ledger, st: State, username: string)
    requires RecsStored(led, st) && NamedStored(led, st)
    ensures UserUUID(username) in st.store <==> username in led.accounts || UserUUID(username) in led.recs
  {
    var u := UserUUID(username);
    if u in led.recs {
      assert StoredAs(st, u, Sealed(PersonalKey(led.recs[u].master, led.recs[u].filename),
                                    AccessRec(AccessOf(led, led.recs[u]))));
    } else if u in st.store {
      assert UserStored(led, u, st.store[u]);
      if st.store[u].plain.user.username != username {
        HomesApart(st.store[u].plain.user.username, username);
      }
    }
  }

  /** The world a registration or a login leaves when it succeeds: one more session, perhaps one more account. */
  lemma JoinedBoard(w: World, led': Ledger, user: UserData)
    ensures BoardOf(World(w.st, w.sessions + [user], led'))
         == Board(Alpha(led'), PasswordsOf(led'), BoardOf(w).sessions + [user.master])
  {
    assert MastersOf(w.sessions + [user]) == MastersOf(w.sessions) + [user.master];
  }

  lemma RegisteredPasswords(led: Ledger, username: string, password: string)
    ensures PasswordsOf(RegisterLedger(led, username, password)) == PasswordsOf(led)[username := password]
  {
  }

  lemma NewcomerNamed(st: State, username: string, password: string)
    requires UserUUID(username) !in st.store
    ensures InitUser(st, username, password).1.Success?
    ensures InitUser(st, username, password).1.value.master == Master(username, password)
  {
  }

  lemma RegisterFails(w: World, op: Op)
    requires op.Register? && UserUUID(op.username) in w.st.store
    ensures !Succeeds(w, op) && Step(w, op) == w
  {
  }

  lemma RegisterPlays(w: World, op: Op)
    requires Inv(w) && op.Register?
    ensures Play(BoardOf(w), op) == (BoardOf(Step(w, op)), Succeeds(w, op))
  {
    HomeTaken(w.led, w.st, op.username);
    if UserUUID(op.username) in w.st.store {
      RegisterFails(w, op);
    } else {
      NewcomerNamed(w.st, op.username, op.password);
      var r, led' := InitUser(w.st, op.username, op.password), RegisterLedger(w.led, op.username, op.password);
      RegisterStep(w, op, r.0, r.1.value, led');
      RegisterForest(w.led, op.username, op.password);
      RegisteredPasswords(w.led, op.username, op.password);
      JoinedBoard(w, led', r.1.value);
    }
  }

  lemma PasswordFits(led: Ledger, username: string, password: string)
    requires AccountsOK(led) && username in led.accounts
    ensures led.accounts[username].master == Master(username, password) <==> PasswordsOf(led)[username] == password
  {
  }

  lemma LoginStep(w: World, op: Op)
    requires op.Login?
    ensures Succeeds(w, op) <==> GetUser(w.st, op.username, op.password).Success?
    ensures Succeeds(w, op) ==>
              Step(w, op) == World(w.st, w.sessions + [GetUser(w.st, op.username, op.password).value], w.led)
    ensures !Succeeds(w, op) ==> Step(w, op) == w
  {
  }

  lemma LoginPlays(w: World, op: Op)
    requires Inv(w) && op.Login?
    ensures Play(BoardOf(w), op) == (BoardOf(Step(w, op)), Succeeds(w, op))
  {
    LoginStep(w, op);
    GetUserRefines(w.led, w.st, op.username, op.password);
    if op.username in w.led.accounts {
      PasswordFits(w.led, op.username, op.password);
    }
    if Succeeds(w, op) {
      JoinedBoard(w, w.led, GetUser(w.st, op.username, op.password).value);
    }
  }

  // ---------- interleavings ----------

  lemma InterleavePlays(w: World, op: Op)
    requires Inv(w) && op.Interleave?
    ensures Plays(BoardOf(w), op, true, BoardOf(Step(w, op)))
  {
    InterleaveInv(w, op);
    InterleaveStep(w, op, Interleaved(w, op.tasks, op.schedule));
    SharingAlpha(w.led, Step(w, op).led);
    forall i | i in w.led.files
      ensures exists version :: NoRepeats(version)
                && BytesOf(Step(w, op).led)[i] == BytesOf(w.led)[i] + Contributions(op.tasks, version)
    {
      InterleavedVersion(w, op, i);
    }
  }

  lemma InterleavedVersion(w: World, op: Op, i: nat)
    requires Inv(w) && op.Interleave? && i in w.led.files
    ensures i in Step(w, op).led.files
    ensures exists version :: NoRepeats(version)
              && Flatten(Step(w, op).led.files[i].chunks) == Flatten(w.led.files[i].chunks)
                 + Contributions(op.tasks, version)
  {
    var c := Interleaved(w, op.tasks, op.schedule);
    InterleavedSound(w, op.tasks, op.schedule);
    InterleaveStep(w, op, c);
    TextsAt(c, i);
    LaunchTags(w.st, w.led, op.tasks);
    MovesTags(Launch(w.st, w.led, op.tasks), op.schedule);
    assert VersionOK(c, i, c.versions[i]);
  }

  // ---------- every run ----------

  lemma StepPlays(w: World, op: Op)
    requires Inv(w)
    ensures Plays(BoardOf(w), op, Succeeds(w, op), BoardOf(Step(w, op)))
  {
    match op
    case Register(_, _) => RegisterPlays(w, op);
    case Login(_, _) => LoginPlays(w, op);
    case Interleave(_, _) => InterleavePlays(w, op);
    case _ =>
      if HasSession(w, op) {
        CallPlays(w, op);
      }
  }

  /** The run may lead from one board to the other, with these results. */
  ghost predicate PlaysRun(a: Board, ops: seq<Op>, oks: seq<bool>, a': Board)
    decreases |ops|
  {
    if ops == [] then oks == [] && a' == a
    else oks != [] && exists a1 :: Plays(a, ops[0], oks[0], a1) && PlaysRun(a1, ops[1..], oks[1..], a')
  }

  lemma {:induction false} RunPlays(w: World, ops: seq<Op>)
    requires Inv(w)
    ensures PlaysRun(BoardOf(w), ops, Results(w, ops), BoardOf(Run(w, ops)))
    decreases |ops|
  {
    if ops != [] {
      var w1 := Step(w, ops[0]);
      StepPlays(w, ops[0]);
      StepInv(w, ops[0]);
      RunPlays(w1, ops[1..]);
      assert Results(w, ops)[1..] == Results(w1, ops[1..]);
      assert Plays(BoardOf(w), ops[0], Results(w, ops)[0], BoardOf(w1));
    }
  }

  lemma ViewOnBoard(led: Ledger, st: State, user: UserData, filename: string, a: Board)
    requires WellFormed(led) && Represents(led, st) && a.graph == Alpha(led) && user.username == user.master.username
    ensures View(st, user, filename) == BoardView(a, user.master, filename)
  {
    ViewAgrees(led, st, user, filename);
    CanOpenAgrees(led, user, filename);
    CanOpenAgrees(led, Somebody(user.master), filename);
  }

  lemma ViewsAgree(w: World, k: nat, filename: string)
    requires Inv(w) && k < |w.sessions|
    ensures View(w.st, w.sessions[k], filename) == BoardView(BoardOf(w), BoardOf(w).sessions[k], filename)
  {
    SessionNamed(w, k);
    ViewOnBoard(w.led, w.st, w.sessions[k], filename, BoardOf(w));
  }

  // ---------- runs of whole operations ----------

  ghost function PlayAll(a: Board, ops: seq<Op>): (Board, seq<bool>)
    decreases |ops|
  {
    if ops == [] then (a, [])
    else
      var (a1, ok) := Play(a, ops[0]);
      var (a', oks) := PlayAll(a1, ops[1..]);
      (a', [ok] + oks)
  }

  predicate NoneInterleaved(ops: seq<Op>) {
    forall k :: 0 <= k < |ops| ==> !ops[k].Interleave?
  }

  lemma {:induction false} PlayedAll(w: World, ops: seq<Op>)
    requires Inv(w) && NoneInterleaved(ops)
    ensures PlayAll(BoardOf(w), ops) == (BoardOf(Run(w, ops)), Results(w, ops))
    decreases |ops|
  {
    if ops != [] {
      StepPlays(w, ops[0]);
      StepInv(w, ops[0]);
      PlayedAll(Step(w, ops[0]), ops[1..]);
    }
  }

  const EMPTY: Board := Board(Graph(0, map[], {}, map[], map[], map[], {}), map[], [])

  lemma StartIsEmpty()
    ensures BoardOf(Start()) == EMPTY
  {
    assert MastersOf([]) == [];
  }

  /**
   The sealed store is the board.  Take any sequence of operations by any users.  On the sealed store they
   succeed and fail exactly as on the board, on which nothing is sealed; and afterwards every logged-in user
   loads under every name exactly what the board shows for it.
   */
  lemma SealedRunsAsBoard(ops: seq<Op>, w: World, k: nat, filename: string)
    requires NoneInterleaved(ops) && w == Run(Start(), ops) && k < |w.sessions|
    ensures Results(Start(), ops) == PlayAll(EMPTY, ops).1
    ensures k < |PlayAll(EMPTY, ops).0.sessions| && PlayAll(EMPTY, ops).0.sessions[k] == w.sessions[k].master
    ensures View(w.st, w.sessions[k], filename) == BoardView(PlayAll(EMPTY, ops).0, w.sessions[k].master, filename)
  {
    StartInv();
    StartIsEmpty();
    PlayedAll(Start(), ops);
    ReachableInv(ops);
    ViewsAgree(w, k, filename);
  }

  /** The same with interleaved appends and loads among the steps: the run is one that the board may take. */
  lemma SealedRunsMayPlay(ops: seq<Op>, w: World, k: nat, filename: string)
    requires w == Run(Start(), ops) && k < |w.sessions|
    ensures PlaysRun(EMPTY, ops, Results(Start(), ops), BoardOf(w))
    ensures View(w.st, w.sessions[k], filename) == BoardView(BoardOf(w), w.sessions[k].master, filename)
  {
    StartInv();
    StartIsEmpty();
    RunPlays(Start(), ops);
    ReachableInv(ops);
    ViewsAgree(w, k, filename);
  }
}
