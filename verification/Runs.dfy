/**
 Runs: any number of users and sessions, any sequence of operations, on one store.  One step is a whole
 operation, or any number of appends and loads interleaved in any way and stopped anywhere.

 The ledger rides along as a history variable; the store, the sessions and the results never depend on
 it.  `Inv` holds in every reachable world, and the theorems about whole runs build on it.
 */
module Runs {
  import opened Wrappers
  import opened Blocks
  import opened Records
  import opened Protocol
  import opened Ledgers
  import opened LedgerSteps
  import opened RefineFiles
  import opened RefineSharing
  import opened RefineRevoke
  import opened RefineUsers
  import opened Sharing
  import opened Simulation
  import opened Stepwise
  import opened Concurrency
  import opened Interleaving

  datatype Op =
    | Register(username: string, password: string)
    | Login(username: string, password: string)
    | Store(sid: nat, filename: string, content: seq<byte>)
    | Append(sid: nat, filename: string, data: Option<seq<byte>>)
    | Invite(sid: nat, filename: string, recipient: string)
    | Accept(sid: nat, sender: string, ptr: UUID, filename: string)
    | Revoke(sid: nat, filename: string, recipient: string)
    | Interleave(tasks: seq<Task>, schedule: seq<nat>)

  /** The file and sharing operations, which a logged-in user calls. */
  predicate IsCall(op: Op) {
    op.Store? || op.Append? || op.Invite? || op.Accept? || op.Revoke?
  }

  datatype World = World(st: State, sessions: seq<UserData>, led: Ledger)

  function Start(): World {
    World(State(map[], {}, map[], 0), [], Ledger(0, map[], map[], map[], map[], map[], map[]))
  }

  predicate HasSession(w: World, op: Op) {
    IsCall(op) ==> op.sid < |w.sessions|
  }

  /** The calling session of an operation that has one. */
  function Caller(w: World, op: Op): UserData
    requires HasSession(w, op) && IsCall(op)
  {
    w.sessions[op.sid]
  }

  /** The operation of the code, its success, and the caller's session afterwards. */
  ghost function Performed(w: World, op: Op): (State, UserData, bool)
    requires HasSession(w, op) && IsCall(op)
  {
    var user := Caller(w, op);
    match op
    case Store(_, f, content) => var o := StoreFile(w.st, user, f, content); (o.st, o.user, o.res.Success?)
    case Append(_, f, data) => var o := AppendToFile(w.st, user, f, data); (o.st, o.user, o.res.Success?)
    case Invite(_, f, r) => var o := CreateInvitation(w.st, user, f, r); (o.st, o.user, o.res.Success?)
    case Accept(_, sender, ptr, f) => var o := AcceptInvitation(w.st, user, sender, ptr, f);
      (o.st, o.user, o.res.Success?)
    case Revoke(_, f, r) => var o := RevokeAccess(w.st, user, f, r); (o.st, o.user, o.res.Success?)
  }

  ghost function LedgerAfter(w: World, op: Op): Ledger
    requires HasSession(w, op) && IsCall(op)
  {
    var user := Caller(w, op);
    match op
    case Store(_, f, content) => StoreLedger(w.led, user, f, content)
    case Append(_, f, data) => if data.Some? then AppendLedger(w.led, user, f, data.value) else w.led
    case Invite(_, f, r) => InviteLedger(w.led, user, f, r)
    case Accept(_, sender, ptr, f) => AcceptLedger(w.led, user, sender, ptr, f)
    case Revoke(_, f, r) => RevokeLedger(w.led, user, f, r)
  }

  ghost predicate Succeeds(w: World, op: Op) {
    HasSession(w, op) &&
    match op
    case Register(u, p) => InitUser(w.st, u, p).1.Success?
    case Login(u, p) => GetUser(w.st, u, p).Success?
    case Interleave(_, _) => true
    case _ => Performed(w, op).2
  }

  /** The configuration that a schedule of tasks leads to. */
  ghost function Interleaved(w: World, tasks: seq<Task>, schedule: seq<nat>): Config {
    Moves(Launch(w.st, w.led, tasks), schedule)
  }

  ghost function Step(w: World, op: Op): World {
    if !HasSession(w, op) then w
    else
      match op
      case Register(u, p) =>
        var (st', res) := InitUser(w.st, u, p);
        if res.Success? then World(st', w.sessions + [res.value], RegisterLedger(w.led, u, p)) else w.(st := st')
      case Login(u, p) =>
        var res := GetUser(w.st, u, p);
        if res.Success? then w.(sessions := w.sessions + [res.value]) else w
      case Interleave(tasks, schedule) =>
        var c := Interleaved(w, tasks, schedule);
        w.(st := c.st, led := c.led)
      case _ =>
        var (st', user', _) := Performed(w, op);
        World(st', w.sessions[op.sid := user'], LedgerAfter(w, op))
  }

  ghost function Run(w: World, ops: seq<Op>): World
    decreases |ops|
  {
    if ops == [] then w else Run(Step(w, ops[0]), ops[1..])
  }

  /** The results of a run, step by step. */
  ghost function Results(w: World, ops: seq<Op>): seq<bool>
    decreases |ops|
  {
    if ops == [] then [] else [Succeeds(w, ops[0])] + Results(Step(w, ops[0]), ops[1..])
  }

  ghost predicate SessionsOK(sessions: seq<UserData>, led: Ledger) {
    forall k | 0 <= k < |sessions| :: Registered(led, sessions[k])
  }

  ghost predicate Inv(w: World) {
    WellFormed(w.led) && Represents(w.led, w.st) && Forest(Alpha(w.led)) && SessionsOK(w.sessions, w.led)
  }

  lemma CallStep(w: World, op: Op)
    requires HasSession(w, op) && IsCall(op)
    ensures Step(w, op).led == LedgerAfter(w, op) && Step(w, op).st == Performed(w, op).0
  {
  }

  // ---------- the invariant ----------

  lemma StartInv()
    ensures Inv(Start())
  {
  }

  lemma SessionsKept(w: World, op: Op, user: UserData, led': Ledger)
    requires SessionsOK(w.sessions, w.led) && Grows(w.led, led') && Registered(w.led, user)
    requires HasSession(w, op) && IsCall(op)
    ensures SessionsOK(w.sessions[op.sid := user], led')
  {
  }

  lemma StoreInv(w: World, op: Op)
    requires Inv(w) && op.Store? && HasSession(w, op)
    ensures Inv(Step(w, op)) && Alpha(Step(w, op).led) == GStore(Alpha(w.led), Caller(w, op), op.filename, op.content)
    ensures Succeeds(w, op)
  {
    var user, led' := Caller(w, op), LedgerAfter(w, op);
    NextIsFresh(w.led);
    StoreKeeps(w.led, user, op.filename, op.content);
    StoreRefines(w.led, w.st, user, op.filename, op.content);
    StoreSimulates(w.led, user, op.filename, op.content, led');
    StoreForest(Alpha(w.led), user, op.filename, op.content, Alpha(led'));
    SessionsKept(w, op, WithFile(user, op.filename), led');
  }

  lemma AppendInv(w: World, op: Op)
    requires Inv(w) && op.Append? && HasSession(w, op)
    ensures Inv(Step(w, op))
    ensures Alpha(Step(w, op).led)
         == if op.data.Some? then GAppend(Alpha(w.led), Caller(w, op), op.filename, op.data.value) else Alpha(w.led)
    ensures Succeeds(w, op) <==> op.data.Some? && CanOpen(w.led, Caller(w, op), op.filename)
  {
    var user, led' := Caller(w, op), LedgerAfter(w, op);
    if op.data.Some? {
      AppendKeeps(w.led, user, op.filename, op.data.value);
      AppendRefines(w.led, w.st, user, op.filename, op.data.value);
      AppendSimulates(w.led, user, op.filename, op.data.value, led');
      AppendForest(Alpha(w.led), user, op.filename, op.data.value, Alpha(led'));
      SessionsKept(w, op, user, led');
    } else {
      SessionsKept(w, op, user, w.led);
    }
  }

  lemma InviteInv(w: World, op: Op)
    requires Inv(w) && op.Invite? && HasSession(w, op)
    ensures Inv(Step(w, op))
    ensures Alpha(Step(w, op).led) == GInvite(Alpha(w.led), Caller(w, op), op.filename, op.recipient)
    ensures Succeeds(w, op) <==> Holds(w.led, Caller(w, op), op.filename) && op.recipient in w.led.accounts
  {
    var user, led' := Caller(w, op), LedgerAfter(w, op);
    NextIsFresh(w.led);
    InviteKeeps(w.led, user, op.filename, op.recipient);
    InviteRefines(w.led, w.st, user, op.filename, op.recipient);
    InviteSimulates(w.led, user, op.filename, op.recipient, led');
    InviteForest(Alpha(w.led), user, op.filename, op.recipient, Alpha(led'));
    SessionsKept(w, op, user, led');
  }

  lemma AcceptInv(w: World, op: Op)
    requires Inv(w) && op.Accept? && HasSession(w, op)
    ensures Inv(Step(w, op))
    ensures Alpha(Step(w, op).led) == GAccept(Alpha(w.led), Caller(w, op), op.sender, op.ptr, op.filename)
    ensures Succeeds(w, op) <==> Acceptable(w.led, Caller(w, op), op.sender, op.ptr)
  {
    var user, led' := Caller(w, op), LedgerAfter(w, op);
    AcceptKeeps(w.led, user, op.sender, op.ptr, op.filename);
    AcceptRefines(w.led, w.st, user, op.sender, op.ptr, op.filename);
    AcceptSimulates(w.led, user, op.sender, op.ptr, op.filename, led');
    AcceptForest(Alpha(w.led), user, op.sender, op.ptr, op.filename, Alpha(led'));
    SessionsKept(w, op, user, led');
    SessionsKept(w, op, WithFile(user, op.filename), led');
  }

  lemma RevokeInv(w: World, op: Op)
    requires Inv(w) && op.Revoke? && HasSession(w, op)
    ensures Inv(Step(w, op))
    ensures Alpha(Step(w, op).led) == GRevoke(Alpha(w.led), Caller(w, op), op.filename, op.recipient)
    ensures Succeeds(w, op) <==> CanOpen(w.led, Caller(w, op), op.filename)
  {
    var user, led' := Caller(w, op), LedgerAfter(w, op);
    NextIsFresh(w.led);
    RevokeKeeps(w.led, user, op.filename, op.recipient);
    RevokeRefines(w.led, w.st, user, op.filename, op.recipient);
    RevokeSimulates(w.led, user, op.filename, op.recipient, led');
    RevokeForest(Alpha(w.led), user, op.filename, op.recipient, Alpha(led'));
    SessionsKept(w, op, user, led');
    SessionsKept(w, op, WithFile(user, op.filename), led');
  }

  lemma RegisterForest(led: Ledger, username: string, password: string)
    requires Forest(Alpha(led))
    ensures Forest(Alpha(RegisterLedger(led, username, password)))
    ensures Alpha(RegisterLedger(led, username, password)) == GRegister(Alpha(led), username)
  {
    var led' := RegisterLedger(led, username, password);
    assert LiveOf(led') == LiveOf(led) && MetasOf(led') == MetasOf(led) && BytesOf(led') == BytesOf(led);
    RecordsSame(Alpha(led), Alpha(led'));
  }

  lemma SessionsJoined(sessions: seq<UserData>, user: UserData, led: Ledger, led': Ledger)
    requires SessionsOK(sessions, led) && Grows(led, led') && Registered(led', user)
    ensures SessionsOK(sessions + [user], led')
  {
  }

  lemma RegisterInv(w: World, username: string, password: string, st': State, user: UserData, led': Ledger)
    requires Inv(w) && InitUser(w.st, username, password) == (st', Success(user))
    requires led' == RegisterLedger(w.led, username, password)
    ensures Inv(World(st', w.sessions + [user], led'))
  {
    InitUserRefines(w.led, w.st, username, password);
    RegisterKeeps(w.led, username, password);
    RegisterForest(w.led, username, password);
    SessionsJoined(w.sessions, user, w.led, led');
  }

  lemma LoginInv(w: World, username: string, password: string, user: UserData)
    requires Inv(w) && GetUser(w.st, username, password) == Success(user)
    ensures Inv(w.(sessions := w.sessions + [user]))
  {
    GetUserRefines(w.led, w.st, username, password);
    SessionsJoined(w.sessions, user, w.led, w.led);
  }

  lemma RegisterStep(w: World, op: Op, st': State, user: UserData, led': Ledger)
    requires op.Register? && InitUser(w.st, op.username, op.password) == (st', Success(user))
    requires led' == RegisterLedger(w.led, op.username, op.password)
    ensures Step(w, op) == World(st', w.sessions + [user], led')
  {
  }

  lemma UserInv(w: World, op: Op)
    requires Inv(w) && (op.Register? || op.Login?)
    ensures Inv(Step(w, op))
  {
    if !Succeeds(w, op) {
      assert Step(w, op) == w;
    } else if op.Register? {
      var r, led' := InitUser(w.st, op.username, op.password), RegisterLedger(w.led, op.username, op.password);
      RegisterInv(w, op.username, op.password, r.0, r.1.value, led');
      RegisterStep(w, op, r.0, r.1.value, led');
    } else {
      LoginInv(w, op.username, op.password, GetUser(w.st, op.username, op.password).value);
    }
  }

  lemma SharingAlpha(led: Ledger, led': Ledger)
    requires SameSharing(led, led')
    ensures Alpha(led').live == Alpha(led).live && Alpha(led').mails == Alpha(led).mails
    ensures Alpha(led').recs == Alpha(led).recs
  {
    LiveSame(led, led');
    assert MetasOf(led') == MetasOf(led);
  }

  lemma SharingKeepsForest(led: Ledger, led': Ledger)
    requires Forest(Alpha(led)) && SameSharing(led, led')
    ensures Forest(Alpha(led'))
  {
    SharingAlpha(led, led');
    RecordsSame(Alpha(led), Alpha(led'));
  }

  lemma InterleavedSound(w: World, tasks: seq<Task>, schedule: seq<nat>)
    requires WellFormed(w.led) && Represents(w.led, w.st)
    ensures Sound(Launch(w.st, w.led, tasks)) && Sound(Interleaved(w, tasks, schedule))
    ensures SameSharing(w.led, Interleaved(w, tasks, schedule).led) && Grows(w.led, Interleaved(w, tasks, schedule).led)
    ensures Interleaved(w, tasks, schedule).tasks == tasks && Interleaved(w, tasks, schedule).origin == BytesOf(w.led)
  {
    LaunchSound(w.st, w.led, tasks);
    MovesSound(Launch(w.st, w.led, tasks), schedule);
    MovesSharing(Launch(w.st, w.led, tasks), schedule);
    MovesGrow(Launch(w.st, w.led, tasks), schedule);
  }

  lemma InterleaveStep(w: World, op: Op, c: Config)
    requires op.Interleave? && c == Interleaved(w, op.tasks, op.schedule)
    ensures Step(w, op).st == c.st && Step(w, op).led == c.led && Step(w, op).sessions == w.sessions
  {
  }

  lemma SharingKeepsSessions(sessions: seq<UserData>, led: Ledger, led': Ledger)
    requires SessionsOK(sessions, led) && SameSharing(led, led')
    ensures SessionsOK(sessions, led')
  {
  }

  lemma InterleaveInv(w: World, op: Op)
    requires Inv(w) && op.Interleave?
    ensures Inv(Step(w, op)) && SameSharing(w.led, Step(w, op).led) && Grows(w.led, Step(w, op).led)
  {
    InterleavedSound(w, op.tasks, op.schedule);
    InterleaveStep(w, op, Interleaved(w, op.tasks, op.schedule));
    SharingKeepsForest(w.led, Step(w, op).led);
    SharingKeepsSessions(w.sessions, w.led, Step(w, op).led);
  }

  lemma StepInv(w: World, op: Op)
    requires Inv(w)
    ensures Inv(Step(w, op))
  {
    if HasSession(w, op) {
      match op
      case Register(_, _) => UserInv(w, op);
      case Login(_, _) => UserInv(w, op);
      case Interleave(_, _) => InterleaveInv(w, op);
      case Store(_, _, _) => StoreInv(w, op);
      case Append(_, _, _) => AppendInv(w, op);
      case Invite(_, _, _) => InviteInv(w, op);
      case Accept(_, _, _, _) => AcceptInv(w, op);
      case Revoke(_, _, _) => RevokeInv(w, op);
    }
  }

  /** Roles, files, accounts and invitations stay; of a mailbox everything but its file key. */
  lemma CallGrows(w: World, op: Op)
    requires Inv(w) && HasSession(w, op) && IsCall(op)
    ensures Grows(w.led, LedgerAfter(w, op))
  {
    match op
    case Store(_, f, content) => StoreKeeps(w.led, Caller(w, op), f, content);
    case Append(_, f, data) =>
      if data.Some? {
        AppendKeeps(w.led, Caller(w, op), f, data.value);
      }
    case Invite(_, f, r) => InviteKeeps(w.led, Caller(w, op), f, r);
    case Accept(_, sender, ptr, f) => AcceptKeeps(w.led, Caller(w, op), sender, ptr, f);
    case Revoke(_, f, r) => RevokeKeeps(w.led, Caller(w, op), f, r);
  }

  lemma StepGrows(w: World, op: Op)
    requires Inv(w)
    ensures Grows(w.led, Step(w, op).led)
  {
    if op.Interleave? {
      InterleaveInv(w, op);
    } else if op.Register? {
      if UserUUID(op.username) !in w.st.store {
        AbsentIsUnregistered(w.led, w.st, op.username);
        RegisterKeeps(w.led, op.username, op.password);
      }
    } else if HasSession(w, op) && IsCall(op) {
      CallGrows(w, op);
      CallStep(w, op);
    }
  }

  lemma {:induction false} RunInv(w: World, ops: seq<Op>)
    requires Inv(w)
    ensures Inv(Run(w, ops))
    decreases |ops|
  {
    if ops != [] {
      StepInv(w, ops[0]);
      RunInv(Step(w, ops[0]), ops[1..]);
    }
  }

  lemma {:induction false} RunGrows(w: World, ops: seq<Op>)
    requires Inv(w)
    ensures Grows(w.led, Run(w, ops).led)
    decreases |ops|
  {
    if ops != [] {
      StepInv(w, ops[0]);
      StepGrows(w, ops[0]);
      RunGrows(Step(w, ops[0]), ops[1..]);
      GrowsTransitive(w.led, Step(w, ops[0]).led, Run(Step(w, ops[0]), ops[1..]).led);
    }
  }

  /** Every reachable store is the sealed form of a well-formed ledger with a well-formed sharing forest. */
  lemma ReachableInv(ops: seq<Op>)
    ensures Inv(Run(Start(), ops))
  {
    StartInv();
    RunInv(Start(), ops);
  }

  ghost predicate Reachable(w: World) {
    exists ops :: w == Run(Start(), ops)
  }

  lemma ReachableIsSound(w: World)
    requires Reachable(w)
    ensures Inv(w)
  {
    var ops :| w == Run(Start(), ops);
    ReachableInv(ops);
  }

  lemma {:induction false} RunOneMore(w: World, ops: seq<Op>, op: Op)
    ensures Run(w, ops + [op]) == Step(Run(w, ops), op)
    decreases |ops|
  {
    if ops == [] {
      assert [] + [op] == [op] && [op][1..] == [];
      assert Run(w, [op]) == Run(Step(w, op), []);
    } else {
      assert (ops + [op])[1..] == ops[1..] + [op] && (ops + [op])[0] == ops[0];
      RunOneMore(Step(w, ops[0]), ops[1..], op);
    }
  }

  lemma ReachableStep(w: World, op: Op)
    requires Reachable(w)
    ensures Reachable(Step(w, op))
  {
    var ops :| w == Run(Start(), ops);
    RunOneMore(Start(), ops, op);
  }
}
