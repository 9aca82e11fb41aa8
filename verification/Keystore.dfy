/**
 Public keys: one keystore for the whole program, and any number of key store objects in front of it,
 each with its own cache.
 */
module Keystore {
  import opened Wrappers
  import opened Records
  import opened Protocol

  type Shard = map<string, PublicKey>

  /** The keystore refuses a second value for a name. */
  class GlobalKeystore {
    var shard: Shard

    constructor ()
      ensures shard == map[]
    {
      shard := map[];
    }

    method KeystoreSet(key: string, value: PublicKey) returns (taken: bool)
      modifies this
      ensures taken == (key in old(shard))
      ensures shard == Publish(old(shard), key, value)
    {
      taken := key in shard;
      if !taken {
        shard := shard[key := value];
      }
    }

    method KeystoreGet(key: string) returns (value: Option<PublicKey>)
      ensures value == Lookup(shard, key)
    {
      value := if key in shard then Some(shard[key]) else None;
    }
  }

  class UserlibKeyStore {
    const global: GlobalKeystore
    var local: Shard

    constructor (global: GlobalKeystore)
      ensures this.global == global && local == map[]
    {
      this.global := global;
      local := map[];
    }

    /** The cache answers first. */
    method Get(key: string) returns (value: Option<PublicKey>)
      ensures value == CachedLookup(global.shard, local, key)
    {
      if key in local {
        return Some(local[key]);
      }
      value := global.KeystoreGet(key);
    }

    /** The cache takes the value even when the keystore refuses it; the refusal is ignored. */
    method Set(key: string, value: PublicKey)
      modifies this, global
      ensures local == old(local)[key := value] && global.shard == Publish(old(global.shard), key, value)
    {
      local := local[key := value];
      var ignored := global.KeystoreSet(key, value);
    }
  }

  function Publish(shard: Shard, key: string, value: PublicKey): Shard {
    if key in shard then shard else shard[key := value]
  }

  function Lookup(shard: Shard, key: string): Option<PublicKey> {
    if key in shard then Some(shard[key]) else None
  }

  function CachedLookup(shard: Shard, local: Shard, key: string): Option<PublicKey> {
    if key in local then Some(local[key]) else Lookup(shard, key)
  }

  // ---------- runs ----------

  /** The store, the keystore and the caches of all key store objects. */
  datatype Program = Program(st: State, shard: Shard, caches: seq<Shard>)

  /** Registration through some key store object; or any write of any other operation (nothing is ever deleted). */
  datatype Event = Init(via: nat, username: string, password: string) | Write(u: UUID, p: Payload)

  function SetVia(prog: Program, via: nat, key: string, value: PublicKey): Program
    requires via < |prog.caches|
  {
    prog.(shard := Publish(prog.shard, key, value), caches := prog.caches[via := prog.caches[via][key := value]])
  }

  function GetVia(prog: Program, via: nat, key: string): Option<PublicKey>
    requires via < |prog.caches|
  {
    CachedLookup(prog.shard, prog.caches[via], key)
  }

  /** The order of InitUser: look for the user record, publish both keys, store the record. */
  function Next(prog: Program, event: Event): Program {
    match event
    case Write(u, p) => prog.(st := prog.st.Put(u, p))
    case Init(via, username, password) =>
      if via >= |prog.caches| || UserUUID(username) in prog.st.store then prog
      else
        var (st', res) := InitUser(prog.st, username, password);
        var enc := SetVia(prog, via, KeyText(EncName(username)), PKEPublic(prog.st.next));
        SetVia(enc, via, KeyText(SigName(username)), DSPublic(prog.st.next + 1)).(st := st')
  }

  function RunEvents(prog: Program, events: seq<Event>): Program
    decreases |events|
  {
    if events == [] then prog else RunEvents(Next(prog, events[0]), events[1..])
  }

  function Boot(objects: nat): Program {
    Program(State(map[], {}, map[], 0), map[], seq(objects, _ => map[]))
  }

  /** Every cached entry is the keystore's. */
  ghost predicate Coherent(prog: Program) {
    forall i, key | 0 <= i < |prog.caches| && key in prog.caches[i] ::
      key in prog.shard && prog.shard[key] == prog.caches[i][key]
  }

  /** The keystore holds the published keys of module Protocol, under their names. */
  ghost predicate Published(prog: Program) {
    forall k: KeyName :: Lookup(prog.shard, KeyText(k)) == if k in prog.st.keys then Some(prog.st.keys[k]) else None
  }

  /** A published key belongs to a user whose record is stored. */
  ghost predicate Recorded(prog: Program) {
    forall k: KeyName | KeyText(k) in prog.shard :: UserUUID(k.username) in prog.st.store
  }

  /**
   When a cache and the keystore come apart: setting a key through some object keeps all caches right if
   and only if the name was free or already had that value.
   */
  lemma SetKeepsCoherentIff(prog: Program, via: nat, key: string, value: PublicKey)
    requires Coherent(prog) && via < |prog.caches|
    ensures Coherent(SetVia(prog, via, key, value)) <==> key !in prog.shard || prog.shard[key] == value
  {
    var prog' := SetVia(prog, via, key, value);
    if key in prog.shard && prog.shard[key] != value {
      assert key in prog'.caches[via] && prog'.caches[via][key] == value;
    }
  }

  /**
   What a Set does to every lookup: the object it went through answers with the new value from then on, even when
   the keystore refused it; every other object answers as before, or with the new value if the name was free.
   */
  lemma SetIsSeen(prog: Program, via: nat, via': nat, key: string, value: PublicKey, other: string)
    requires via < |prog.caches| && via' < |prog.caches|
    ensures GetVia(SetVia(prog, via, key, value), via, key) == Some(value)
    ensures via' != via ==>
              GetVia(SetVia(prog, via, key, value), via', key)
              == if GetVia(prog, via', key).Some? then GetVia(prog, via', key)
                 else Some(value)
    ensures other != key ==> GetVia(SetVia(prog, via, key, value), via', other) == GetVia(prog, via', other)
  {
  }

  /** What the program keeps over every event. */
  ghost predicate KeysOK(prog: Program) {
    Coherent(prog) && Published(prog) && Recorded(prog)
  }

  lemma PublishKey(prog: Program, via: nat, k: KeyName, value: PublicKey, prog': Program)
    requires Coherent(prog) && Published(prog) && via < |prog.caches| && k !in prog.st.keys
    requires prog' == SetVia(prog, via, KeyText(k), value).(st := prog.st.(keys := prog.st.keys[k := value]))
    ensures Coherent(prog') && Published(prog')
    ensures forall j: KeyName | KeyText(j) in prog'.shard :: j == k || KeyText(j) in prog.shard
  {
    assert Lookup(prog.shard, KeyText(k)) == None;
    SetKeepsCoherentIff(prog, via, KeyText(k), value);
    forall j: KeyName
      ensures Lookup(prog'.shard, KeyText(j)) == if j in prog'.st.keys then Some(prog'.st.keys[j]) else None
      ensures KeyText(j) in prog'.shard ==> j == k || KeyText(j) in prog.shard
    {
      if KeyText(j) == KeyText(k) {
        KeyTextInjective(j, k);
      }
    }
  }

  /** The shard, the caches and the published keys after a registration are those after the two Sets. */
  lemma InitPublishes(prog: Program, via: nat, username: string, password: string, prog1: Program, prog2: Program)
    requires via < |prog.caches| && UserUUID(username) !in prog.st.store
    requires prog1 == SetVia(prog, via, KeyText(EncName(username)), PKEPublic(prog.st.next)).(
                        st := prog.st.(keys := prog.st.keys[EncName(username) := PKEPublic(prog.st.next)]))
    requires prog2 == SetVia(prog1, via, KeyText(SigName(username)), DSPublic(prog.st.next + 1)).(
                        st := prog1.st.(keys := prog1.st.keys[SigName(username) := DSPublic(prog.st.next + 1)]))
    ensures var prog' := Next(prog, Init(via, username, password));
            prog'.shard == prog2.shard && prog'.caches == prog2.caches && prog'.st.keys == prog2.st.keys
  {
  }

  lemma SamePublished(prog: Program, prog': Program)
    requires Coherent(prog) && Published(prog)
    requires prog'.shard == prog.shard && prog'.caches == prog.caches && prog'.st.keys == prog.st.keys
    ensures Coherent(prog') && Published(prog')
  {
    forall k: KeyName
      ensures Lookup(prog'.shard, KeyText(k)) == if k in prog'.st.keys then Some(prog'.st.keys[k]) else None
    {
      assert Lookup(prog.shard, KeyText(k)) == if k in prog.st.keys then Some(prog.st.keys[k]) else None;
    }
  }

  lemma InitKeys(prog: Program, via: nat, username: string, password: string)
    requires KeysOK(prog) && via < |prog.caches| && UserUUID(username) !in prog.st.store
    ensures KeysOK(Next(prog, Init(via, username, password)))
  {
    var enc, sig := EncName(username), SigName(username);
    assert KeyText(enc) !in prog.shard && KeyText(sig) !in prog.shard;
    assert Lookup(prog.shard, KeyText(enc)) == None && Lookup(prog.shard, KeyText(sig)) == None;
    var prog1 := SetVia(prog, via, KeyText(enc), PKEPublic(prog.st.next)).(
                 st := prog.st.(keys := prog.st.keys[enc := PKEPublic(prog.st.next)]));
    PublishKey(prog, via, enc, PKEPublic(prog.st.next), prog1);
    var prog2 := SetVia(prog1, via, KeyText(sig), DSPublic(prog.st.next + 1)).(
                 st := prog1.st.(keys := prog1.st.keys[sig := DSPublic(prog.st.next + 1)]));
    PublishKey(prog1, via, sig, DSPublic(prog.st.next + 1), prog2);
    InitPublishes(prog, via, username, password, prog1, prog2);
    SamePublished(prog2, Next(prog, Init(via, username, password)));
  }

  lemma NextKeys(prog: Program, event: Event)
    requires KeysOK(prog)
    ensures KeysOK(Next(prog, event))
    ensures |Next(prog, event).caches| == |prog.caches|
    ensures forall key | key in prog.shard ::
              key in Next(prog, event).shard && Next(prog, event).shard[key] == prog.shard[key]
  {
    if event.Init? && event.via < |prog.caches| && UserUUID(event.username) !in prog.st.store {
      InitKeys(prog, event.via, event.username, event.password);
    }
  }

  lemma {:induction false} RunKeys(prog: Program, events: seq<Event>)
    requires KeysOK(prog)
    ensures KeysOK(RunEvents(prog, events)) && |RunEvents(prog, events).caches| == |prog.caches|
    ensures forall key | key in prog.shard ::
              key in RunEvents(prog, events).shard && RunEvents(prog, events).shard[key] == prog.shard[key]
    decreases |events|
  {
    if events != [] {
      NextKeys(prog, events[0]);
      RunKeys(Next(prog, events[0]), events[1..]);
    }
  }

  lemma ObjectAnswers(prog: Program, via: nat, key: string)
    requires Coherent(prog) && via < |prog.caches|
    ensures GetVia(prog, via, key) == Lookup(prog.shard, key)
  {
  }

  /**
   All key store objects agree.  After any registrations through any objects, mixed with any writes, every
   object answers every lookup with the published key of module Protocol.
   */
  lemma EveryObjectAgrees(objects: nat, events: seq<Event>, via: nat, k: KeyName)
    requires via < objects
    ensures via < |RunEvents(Boot(objects), events).caches|
    ensures var prog := RunEvents(Boot(objects), events);
            GetVia(prog, via, KeyText(k)) == if k in prog.st.keys then Some(prog.st.keys[k]) else None
  {
    RunKeys(Boot(objects), events);
  }

  lemma {:induction false} RunEventsJoin(prog: Program, first: seq<Event>, second: seq<Event>)
    ensures RunEvents(prog, first + second) == RunEvents(RunEvents(prog, first), second)
    decreases |first|
  {
    if first == [] {
      assert first + second == second;
    } else {
      assert (first + second)[1..] == first[1..] + second;
      RunEventsJoin(Next(prog, first[0]), first[1..], second);
    }
  }

  /** A registered user's keys never change, whichever object they are looked up through, then or later. */
  lemma KeysNeverChange(objects: nat, events: seq<Event>, later: seq<Event>, via: nat, via': nat, k: KeyName,
                        value: PublicKey)
    requires via < objects && via' < objects
    requires via < |RunEvents(Boot(objects), events).caches|
    requires GetVia(RunEvents(Boot(objects), events), via, KeyText(k)) == Some(value)
    ensures via' < |RunEvents(Boot(objects), events + later).caches|
    ensures GetVia(RunEvents(Boot(objects), events + later), via', KeyText(k)) == Some(value)
  {
    var prog := RunEvents(Boot(objects), events);
    RunKeys(Boot(objects), events);
    RunKeys(prog, later);
    RunEventsJoin(Boot(objects), events, later);
    ObjectAnswers(prog, via, KeyText(k));
    ObjectAnswers(RunEvents(prog, later), via', KeyText(k));
  }
}
