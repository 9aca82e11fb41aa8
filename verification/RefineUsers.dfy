/** InitUser and GetUser on the sealed store act as registration and login on the ledger. */
module RefineUsers {
  import opened Records
  import opened Protocol
  import opened Ledgers
  import opened LedgerSteps
  import opened Refinement
  import opened RefineSharing

  lemma RecsArePresent(led: Ledger, st: State)
    requires RecsStored(led, st)
    ensures forall s | s in led.recs :: s in st.store && st.store[s].Sealed? && st.store[s].plain.AccessRec?
  {
    forall s | s in led.recs
      ensures s in st.store && st.store[s].Sealed? && st.store[s].plain.AccessRec?
    {
      assert StoredAs(st, s, AccessPayload(led, led.recs[s]));
    }
  }

  /** A stored user record blocks registration, and every account has one. */
  lemma AbsentIsUnregistered(led: Ledger, st: State, username: string)
    requires NamedStored(led, st) && RecsStored(led, st) && UserUUID(username) !in st.store
    ensures username !in led.accounts && UserUUID(username) !in led.recs
  {
    RecsArePresent(led, st);
  }

  lemma RegisteredRecs(led: Ledger, st: State, led': Ledger, st': State, home: UUID, p: Payload)
    requires RecsOK(led) && Grows(led, led') && RecsStored(led, st) && led'.recs == led.recs && home !in led.recs
    requires forall u | u != home :: Same(st, st', u)
    ensures RecsStored(led', st')
  {
    RecsStoredSame(led, led', st, st');
  }

  lemma RegisteredNamed(led: Ledger, st: State, led': Ledger, st': State, user: UserData, account: Account)
    requires NamedStored(led, st) && led'.recs == led.recs && user.username !in led.accounts
    requires led'.accounts == led.accounts[user.username := account]
    requires account == Account(user.master, user.pke, user.ds)
    requires StoredAs(st', UserUUID(user.username), Sealed(UserKey(user.master), UserRec(user)))
    requires forall u | u != UserUUID(user.username) :: Same(st, st', u)
    ensures NamedStored(led', st')
  {
    forall k | k in st'.store && k.Named? && k !in led'.recs
      ensures UserStored(led', k, st'.store[k])
    {
      if k != UserUUID(user.username) {
        assert Same(st, st', k) && UserStored(led, k, st.store[k]);
      }
    }
    forall u | u in led'.accounts
      ensures UserUUID(u) in st'.store
    {
      if UserUUID(u) != UserUUID(user.username) {
        assert u in led.accounts && Same(st, st', UserUUID(u));
      }
    }
  }

  lemma RegisteredKeys(led: Ledger, st: State, led': Ledger, st': State, username: string, account: Account)
    requires KeysPublished(led, st) && led'.accounts == led.accounts[username := account]
    requires st'.keys == st.keys[EncName(username) := PKEPublic(account.pke)][SigName(username) := DSPublic(account.ds)]
    ensures KeysPublished(led', st')
  {
  }

  lemma RegisteredInvs(led: Ledger, st: State, led': Ledger, st': State, home: UUID)
    requires InvsOK(led) && Grows(led, led') && InvsStored(led, st) && led'.invs == led.invs && home.Named?
    requires home in st'.store && st'.store[home].Sealed?
    requires forall u | u != home :: Same(st, st', u)
    ensures InvsStored(led', st')
  {
    InvsStoredWith(led, led', st, st');
  }

  lemma RegisteredRepresents(led: Ledger, st: State, led': Ledger, st': State, user: UserData, account: Account)
    requires WellFormed(led) && Represents(led, st) && Grows(led, led')
    requires user.username !in led.accounts && UserUUID(user.username) !in led.recs
    requires led'.accounts == led.accounts[user.username := account]
    requires account == Account(user.master, user.pke, user.ds)
    requires led'.files == led.files && led'.mails == led.mails && led'.recs == led.recs && led'.invs == led.invs
    requires led'.next == st'.next
    requires st'.keys == st.keys[EncName(user.username) :=
                                 PKEPublic(account.pke)][SigName(user.username) := DSPublic(account.ds)]
    requires StoredAs(st', UserUUID(user.username), Sealed(UserKey(user.master), UserRec(user)))
    requires forall u | u != UserUUID(user.username) :: Same(st, st', u)
    ensures Represents(led', st')
  {
    NextIsFresh(led);
    NamedLeaves(led, led', st, st');
    RegisteredRecs(led, st, led', st', UserUUID(user.username), Sealed(UserKey(user.master), UserRec(user)));
    RegisteredNamed(led, st, led', st', user, account);
    RegisteredKeys(led, st, led', st', user.username, account);
    RegisteredInvs(led, st, led', st', UserUUID(user.username));
  }

  /** Registration succeeds exactly when the user's UUID is free, and then makes one account. */
  lemma InitUserRefines(led: Ledger, st: State, username: string, password: string)
    requires WellFormed(led) && Represents(led, st)
    ensures InitUser(st, username, password).1.Success? <==> UserUUID(username) !in st.store
    ensures InitUser(st, username, password).1.Failure? ==> InitUser(st, username, password).0 == st
    ensures InitUser(st, username, password).1.Success? ==>
              username !in led.accounts
              && Represents(RegisterLedger(led, username, password), InitUser(st, username, password).0)
              && Registered(RegisterLedger(led, username, password), InitUser(st, username, password).1.value)
  {
    if UserUUID(username) !in st.store {
      var user := UserData(username, st.next, st.next + 1, Master(username, password), map[]);
      AbsentIsUnregistered(led, st, username);
      RegisterKeeps(led, username, password);
      RegisteredRepresents(led, st, RegisterLedger(led, username, password), InitUser(st, username, password).0,
                           user, Account(user.master, user.pke, user.ds));
    }
  }

  /** User records of different users have different UUIDs. */
  lemma HomesApart(u: string, v: string)
    requires u != v
    ensures UserUUID(u) != UserUUID(v)
  {
    var w, x := u + "userStruct", v + "userStruct";
    assert u == w[..|w| - 10] && v == x[..|x| - 10];
  }

  /** Under its own UUID a user finds its own record, unless an access record is there. */
  lemma HomeHolds(led: Ledger, st: State, username: string)
    requires AccountsOK(led) && NamedStored(led, st) && username in led.accounts && UserUUID(username) !in led.recs
    ensures var p := st.store[UserUUID(username)];
            && UserUUID(username) in st.store && p.Sealed? && p.plain.UserRec? && p.plain.user.username == username
            && Registered(led, p.plain.user) && p.lock == UserKey(led.accounts[username].master)
  {
    var p := st.store[UserUUID(username)];
    assert UserStored(led, UserUUID(username), p);
    if p.plain.user.username != username {
      HomesApart(p.plain.user.username, username);
    }
  }

  lemma HomeOpens(st: State, username: string, password: string, master: Master, user: UserData)
    requires StoredAs(st, UserUUID(username), Sealed(UserKey(master), UserRec(user)))
    ensures GetUser(st, username, password).Success? <==> master == Master(username, password)
    ensures GetUser(st, username, password).Success? ==> GetUser(st, username, password).value == user
  {
  }

  lemma HomeLogsIn(led: Ledger, st: State, username: string, password: string)
    requires AccountsOK(led) && NamedStored(led, st) && username in led.accounts && UserUUID(username) !in led.recs
    ensures GetUser(st, username, password).Success? <==> led.accounts[username].master == Master(username, password)
    ensures GetUser(st, username, password).Success? ==>
              var user := GetUser(st, username, password).value;
              Registered(led, user) && user.username == username && user.master == Master(username, password)
  {
    HomeHolds(led, st, username);
    HomeOpens(st, username, password, led.accounts[username].master, st.store[UserUUID(username)].plain.user);
  }

  /**
   A login succeeds exactly with the password the account was registered with, and only while no access record
   has been written over the user record; it gives the keys of the registration.
   */
  lemma GetUserRefines(led: Ledger, st: State, username: string, password: string)
    requires AccountsOK(led) && RecsStored(led, st) && NamedStored(led, st)
    ensures GetUser(st, username, password).Success?
       <==> && username in led.accounts && led.accounts[username].master == Master(username, password)
            && UserUUID(username) !in led.recs
    ensures GetUser(st, username, password).Success? ==>
              var user := GetUser(st, username, password).value;
              Registered(led, user) && user.username == username && user.master == Master(username, password)
  {
    var u := UserUUID(username);
    if u in led.recs {
      RecordIsNoUser(led, st, u, username, password);
    } else if username in led.accounts {
      HomeLogsIn(led, st, username, password);
    } else {
      NobodyIsHome(led, st, username, password);
    }
  }

  lemma RecordIsNoUser(led: Ledger, st: State, u: UUID, username: string, password: string)
    requires RecsStored(led, st) && u in led.recs && u == UserUUID(username)
    ensures GetUser(st, username, password).Failure?
  {
    assert StoredAs(st, u, Sealed(PersonalKey(led.recs[u].master, led.recs[u].filename),
                                  AccessRec(AccessOf(led, led.recs[u]))));
  }

  lemma NobodyIsHome(led: Ledger, st: State, username: string, password: string)
    requires NamedStored(led, st) && username !in led.accounts && UserUUID(username) !in led.recs
    ensures UserUUID(username) !in st.store && GetUser(st, username, password).Failure?
  {
    var u := UserUUID(username);
    if u in st.store {
      assert UserStored(led, u, st.store[u]);
      HomesApart(st.store[u].plain.user.username, username);
    }
  }
}
