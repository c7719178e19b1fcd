/** The connection admission gate: three host events per connecting player (pre-login,
    configuration/login, disconnect) over the user manager's loaded-user table and the
    set of players seen during this session.

    The value-level part (Gate and its step functions) is the specification; the class
    MinestomConnectionListener performs the same side effects in source order and is proved
    to end in the state the step functions describe. */
module ConnectionListener {
  import opened Host

  /** A loaded permission profile; its contents belong to the common code. */
  datatype User = User(uniqueId: Uuid, username: string)

  /** How the bounded wait on the enable latch ended. */
  datatype WaitOutcome = Opened | TimedOut | Interrupted

  /** What the common `loadUser` did: produced a user, or threw. */
  datatype LoadOutcome = Loaded(user: User) | LoadFailed

  /** The translated kick messages used by the gate. */
  datatype KickReason = LoadingDatabaseError | LoadingStateError

  /** The two login-denial warnings. */
  datatype Denial = NeverProcessedDuringPreLogin | ProcessedBeforeInSession

  /** The ceiling of the pre-login wait on the enable latch, in seconds. */
  const EnableLatchTimeoutSeconds: nat := 60

  /** Observable side effects of the gate, in the order they happen. */
  datatype Effect =
    | AwaitEnableLatch(seconds: nat, outcome: WaitOutcome)
    | ConnectionCancelled(id: Uuid)
    | LoadUser(id: Uuid, name: string)
    | RecordConnection(id: Uuid)
    | DispatchLoginProcess(id: Uuid, name: string, user: Option<User>)
    | LoadError(id: Uuid)
    | Kick(id: Uuid, reason: KickReason)
    | DenyLogin(id: Uuid, denial: Denial)
    | SignalContextUpdate(id: Uuid)
    | HandleDisconnect(id: Uuid)
    | PlayerQuit(id: Uuid)

  /** loaded: the user manager's `getIfLoaded` table; uniqueConnections: players recorded
      this session; nextTick: `onPlayerQuit` tasks waiting for the next server tick;
      trace: every side effect so far. */
  datatype Gate = Gate(
    loaded: map<Uuid, User>,
    uniqueConnections: set<Uuid>,
    nextTick: seq<Uuid>,
    trace: seq<Effect>)

  const Initial := Gate(map[], {}, [], [])

  /** The dispatches of the login-process event in `t`, in order. */
  function Dispatches(t: seq<Effect>): seq<Effect>
  {
    if t == [] then [] else
    (if t[0].DispatchLoginProcess? then [t[0]] else []) + Dispatches(t[1..])
  }

  /** The kicks in `t`, in order. */
  function Kicks(t: seq<Effect>): seq<Effect>
  {
    if t == [] then [] else
    (if t[0].Kick? then [t[0]] else []) + Kicks(t[1..])
  }

  /** The context-update signals in `t`, in order. */
  function Signals(t: seq<Effect>): seq<Effect>
  {
    if t == [] then [] else
    (if t[0].SignalContextUpdate? then [t[0]] else []) + Signals(t[1..])
  }

  lemma FiltersCons(e: Effect, t: seq<Effect>)
    ensures Dispatches([e] + t) == (if e.DispatchLoginProcess? then [e] else []) + Dispatches(t)
    ensures Kicks([e] + t) == (if e.Kick? then [e] else []) + Kicks(t)
    ensures Signals([e] + t) == (if e.SignalContextUpdate? then [e] else []) + Signals(t)
  {
    assert ([e] + t)[1..] == t;
  }

  /** `r` extends `s`'s trace. */
  ghost predicate Extends(s: Gate, r: Gate)
  {
    |s.trace| <= |r.trace| && r.trace[..|s.trace|] == s.trace
  }

  /** The effects a step appended. */
  function Appended(s: Gate, r: Gate): seq<Effect>
    requires |s.trace| <= |r.trace|
  {
    r.trace[|s.trace|..]
  }

  /** The side effects of one `onPlayerPreLogin`, in order. */
  function PreLoginEffects(id: Uuid, name: string, wait: WaitOutcome, online: bool, load: LoadOutcome): seq<Effect>
  {
    [AwaitEnableLatch(EnableLatchTimeoutSeconds, wait)] +
    if !online then [ConnectionCancelled(id)]
    else
      [LoadUser(id, name)] +
      match load
      case Loaded(user) => [RecordConnection(id)] + [DispatchLoginProcess(id, name, Some(user))]
      case LoadFailed => [LoadError(id)] + ([Kick(id, LoadingDatabaseError)] + [DispatchLoginProcess(id, name, None)])
  }

  /** Pre-login for the game profile (id, name). `loadUser` leaves the user in the user manager
      and `recordConnection` adds the player to the session's set. */
  function PreLogin(s: Gate, id: Uuid, name: string, wait: WaitOutcome, online: bool, load: LoadOutcome): Gate
  {
    var effects := PreLoginEffects(id, name, wait, online, load);
    if online && load.Loaded? then
      Gate(s.loaded[id := load.user], s.uniqueConnections + {id}, s.nextTick, s.trace + effects)
    else
      Gate(s.loaded, s.uniqueConnections, s.nextTick, s.trace + effects)
  }

  lemma AppendedIs(s: Gate, u: seq<Effect>, r: Gate)
    requires r.trace == s.trace + u
    ensures Extends(s, r) && Appended(s, r) == u
  {
  }

  /** Pre-login always waits on the enable latch first, with the 60-second ceiling, and goes
      on whatever the wait's outcome; it never signals a context update. */
  lemma PreLoginWaitsFirst(s: Gate, id: Uuid, name: string, wait: WaitOutcome, online: bool, load: LoadOutcome)
    ensures var r := PreLogin(s, id, name, wait, online, load);
      && Extends(s, r) && |Appended(s, r)| >= 2
      && Appended(s, r)[0] == AwaitEnableLatch(EnableLatchTimeoutSeconds, wait)
      && Appended(s, r)[1] == (if online then LoadUser(id, name) else ConnectionCancelled(id))
      && r.nextTick == s.nextTick
      && Signals(Appended(s, r)) == []
  {
    var t := PreLoginEffects(id, name, wait, online, load);
    AppendedIs(s, t, PreLogin(s, id, name, wait, online, load));
    SignalsNone(t);
  }

  /** A timed-out or interrupted wait does not abort pre-login: apart from the recorded
      outcome of the wait, the effects and the new tables are those of an opened latch. */
  lemma WaitOutcomeIgnored(s: Gate, id: Uuid, name: string, wait: WaitOutcome, online: bool, load: LoadOutcome)
    ensures var r := PreLogin(s, id, name, wait, online, load);
      var o := PreLogin(s, id, name, Opened, online, load);
      && r.loaded == o.loaded && r.uniqueConnections == o.uniqueConnections && r.nextTick == o.nextTick
      && |r.trace| == |o.trace| && r.trace[|s.trace| + 1..] == o.trace[|s.trace| + 1..]
  {
  }

  /** A connection cancelled during the wait: nothing is loaded, recorded, kicked or dispatched. */
  lemma PreLoginCancelled(s: Gate, id: Uuid, name: string, wait: WaitOutcome, load: LoadOutcome)
    ensures var r := PreLogin(s, id, name, wait, false, load);
      && r.loaded == s.loaded && r.uniqueConnections == s.uniqueConnections
      && Extends(s, r)
      && Dispatches(Appended(s, r)) == [] && Kicks(Appended(s, r)) == []
      && LoadUser(id, name) !in Appended(s, r) && RecordConnection(id) !in Appended(s, r)
  {
    var awaited := AwaitEnableLatch(EnableLatchTimeoutSeconds, wait);
    AppendedIs(s, [awaited] + [ConnectionCancelled(id)], PreLogin(s, id, name, wait, false, load));
    FiltersCons(ConnectionCancelled(id), []);
    FiltersCons(awaited, [ConnectionCancelled(id)]);
  }

  /** A successful load: the player is cached and recorded, the recording comes after the load,
      exactly one dispatch carries the loaded user, and nobody is kicked. */
  lemma PreLoginLoaded(s: Gate, id: Uuid, name: string, wait: WaitOutcome, user: User)
    ensures var r := PreLogin(s, id, name, wait, true, Loaded(user));
      && r.uniqueConnections == s.uniqueConnections + {id}
      && r.loaded == s.loaded[id := user]
      && Extends(s, r)
      && Dispatches(Appended(s, r)) == [DispatchLoginProcess(id, name, Some(user))]
      && Kicks(Appended(s, r)) == []
      && Appended(s, r)[1] == LoadUser(id, name) && RecordConnection(id) in Appended(s, r)[2..]
  {
    var awaited := AwaitEnableLatch(EnableLatchTimeoutSeconds, wait);
    var dispatch := DispatchLoginProcess(id, name, Some(user));
    var tail := [RecordConnection(id)] + [dispatch];
    var t := [awaited] + ([LoadUser(id, name)] + tail);
    AppendedIs(s, t, PreLogin(s, id, name, wait, true, Loaded(user)));
    FiltersCons(dispatch, []);
    FiltersCons(RecordConnection(id), [dispatch]);
    FiltersCons(LoadUser(id, name), tail);
    FiltersCons(awaited, [LoadUser(id, name)] + tail);
    assert t[2..] == tail;
  }

  /** A failed load: nothing is recorded or cached, the connection is kicked with the database
      error and one dispatch carries no user. */
  lemma PreLoginFailed(s: Gate, id: Uuid, name: string, wait: WaitOutcome)
    ensures var r := PreLogin(s, id, name, wait, true, LoadFailed);
      && r.uniqueConnections == s.uniqueConnections && r.loaded == s.loaded
      && Extends(s, r)
      && Kicks(Appended(s, r)) == [Kick(id, LoadingDatabaseError)]
      && Dispatches(Appended(s, r)) == [DispatchLoginProcess(id, name, None)]
      && RecordConnection(id) !in Appended(s, r)
  {
    var awaited := AwaitEnableLatch(EnableLatchTimeoutSeconds, wait);
    var dispatch := DispatchLoginProcess(id, name, None);
    var kick := Kick(id, LoadingDatabaseError);
    var tail := [LoadError(id)] + ([kick] + [dispatch]);
    AppendedIs(s, [awaited] + ([LoadUser(id, name)] + tail), PreLogin(s, id, name, wait, true, LoadFailed));
    FiltersCons(dispatch, []);
    FiltersCons(kick, [dispatch]);
    FiltersCons(LoadError(id), [kick] + [dispatch]);
    FiltersCons(LoadUser(id, name), tail);
    FiltersCons(awaited, [LoadUser(id, name)] + tail);
  }

  /** Login (the configuration event) for player id: the effects of `onPlayerLogin`. */
  function Login(s: Gate, id: Uuid): Gate
  {
    if id !in s.loaded then
      var denial := if id !in s.uniqueConnections then NeverProcessedDuringPreLogin else ProcessedBeforeInSession;
      Gate(s.loaded, s.uniqueConnections, s.nextTick, s.trace + ([DenyLogin(id, denial)] + [Kick(id, LoadingStateError)]))
    else
      Gate(s.loaded, s.uniqueConnections, s.nextTick, s.trace + [SignalContextUpdate(id)])
  }

  /** What login promises: a player with a loaded user is admitted with exactly one context
      update and no kick; any other player is kicked, with a warning that tells whether
      pre-login ever recorded them. Login changes no table. */
  lemma LoginOutcomes(s: Gate, id: Uuid)
    ensures var r := Login(s, id);
      && Extends(s, r)
      && r.loaded == s.loaded && r.uniqueConnections == s.uniqueConnections && r.nextTick == s.nextTick
    ensures var r := Login(s, id);
      id in s.loaded ==>
      && Appended(s, r) == [SignalContextUpdate(id)]
      && Signals(Appended(s, r)) == [SignalContextUpdate(id)] && Kicks(Appended(s, r)) == []
    ensures var r := Login(s, id);
      id !in s.loaded ==>
      Signals(Appended(s, r)) == [] && Kicks(Appended(s, r)) == [Kick(id, LoadingStateError)]
    ensures var r := Login(s, id);
      id !in s.loaded && id !in s.uniqueConnections ==>
      DenyLogin(id, NeverProcessedDuringPreLogin) in Appended(s, r) &&
      DenyLogin(id, ProcessedBeforeInSession) !in Appended(s, r)
    ensures var r := Login(s, id);
      id !in s.loaded && id in s.uniqueConnections ==>
      DenyLogin(id, ProcessedBeforeInSession) in Appended(s, r) &&
      DenyLogin(id, NeverProcessedDuringPreLogin) !in Appended(s, r)
  {
    var r := Login(s, id);
    assert r.trace == s.trace + Appended(s, r);
    if id !in s.loaded {
      var denial := if id !in s.uniqueConnections then NeverProcessedDuringPreLogin else ProcessedBeforeInSession;
      var kick := Kick(id, LoadingStateError);
      assert Appended(s, r) == [DenyLogin(id, denial)] + [kick];
      FiltersCons(kick, []);
      FiltersCons(DenyLogin(id, denial), [kick]);
    } else {
      assert Appended(s, r) == [SignalContextUpdate(id)];
      FiltersCons(SignalContextUpdate(id), []);
    }
  }

  /** Disconnect of player id: `handleDisconnect` now, `onPlayerQuit` at the next tick. */
  function Disconnect(s: Gate, id: Uuid): (r: Gate)
    ensures Extends(s, r) && Appended(s, r) == [HandleDisconnect(id)]
    ensures PlayerQuit(id) !in Appended(s, r)
    ensures r.nextTick == s.nextTick + [id]
    ensures r.loaded == s.loaded && r.uniqueConnections == s.uniqueConnections
  {
    Gate(s.loaded, s.uniqueConnections, s.nextTick + [id], s.trace + [HandleDisconnect(id)])
  }

  /** The host's next tick: every waiting `onPlayerQuit` runs, in scheduling order. */
  function NextTick(s: Gate): (r: Gate)
    ensures Extends(s, r) && |Appended(s, r)| == |s.nextTick|
    ensures forall i | 0 <= i < |s.nextTick| :: Appended(s, r)[i] == PlayerQuit(s.nextTick[i])
    ensures r.nextTick == []
    ensures r.loaded == s.loaded && r.uniqueConnections == s.uniqueConnections
  {
    var quits := seq(|s.nextTick|, i requires 0 <= i < |s.nextTick| => PlayerQuit(s.nextTick[i]));
    Gate(s.loaded, s.uniqueConnections, [], s.trace + quits)
  }

  /** The user manager dropping a loaded user (its housekeeper; outside this layer). */
  function Unload(s: Gate, id: Uuid): (r: Gate)
    ensures r.loaded.Keys == s.loaded.Keys - {id} && r.trace == s.trace
  {
    Gate(s.loaded - {id}, s.uniqueConnections, s.nextTick, s.trace)
  }

  /** The rest of LuckPerms loading a user into the shared user manager on its own account
      (a command about an offline player, the API's `loadUser`), outside this gate. */
  function LoadElsewhere(s: Gate, id: Uuid, user: User): (r: Gate)
    ensures r.loaded.Keys == s.loaded.Keys + {id} && r.trace == s.trace
  {
    Gate(s.loaded[id := user], s.uniqueConnections, s.nextTick, s.trace)
  }

  datatype Event =
    | PreLoginEvent(id: Uuid, name: string, wait: WaitOutcome, online: bool, load: LoadOutcome)
    | ConfigurationEvent(id: Uuid)
    | DisconnectEvent(id: Uuid)
    | Tick
    | UnloadUser(id: Uuid)
    | LoadedElsewhere(id: Uuid, user: User)

  function Step(s: Gate, e: Event): Gate
  {
    match e
    case PreLoginEvent(id, name, wait, online, load) => PreLogin(s, id, name, wait, online, load)
    case ConfigurationEvent(id) => Login(s, id)
    case DisconnectEvent(id) => Disconnect(s, id)
    case Tick => NextTick(s)
    case UnloadUser(id) => Unload(s, id)
    case LoadedElsewhere(id, user) => LoadElsewhere(s, id, user)
  }

  function Run(s: Gate, es: seq<Event>): Gate
    decreases |es|
  {
    if es == [] then s else Run(Step(s, es[0]), es[1..])
  }

  /** Some position of `t` dispatched the login-process event for id with a loaded user. */
  ghost predicate PreAdmitted(t: seq<Effect>, id: Uuid)
  {
    exists i | 0 <= i < |t| :: t[i].DispatchLoginProcess? && t[i].id == id && t[i].user.Some?
  }

  /** Every context update follows a successful pre-login dispatch for the same player. */
  ghost predicate AdmissionOrdered(t: seq<Effect>)
  {
    forall j | 0 <= j < |t| && t[j].SignalContextUpdate? :: PreAdmitted(t[..j], t[j].id)
  }

  ghost predicate Inv(s: Gate)
  {
    && AdmissionOrdered(s.trace)
    && forall id | id in s.loaded :: PreAdmitted(s.trace, id)
  }

  lemma PreAdmittedExtends(t: seq<Effect>, u: seq<Effect>, id: Uuid)
    requires PreAdmitted(t, id)
    ensures PreAdmitted(t + u, id)
  {
    var i :| 0 <= i < |t| && t[i].DispatchLoginProcess? && t[i].id == id && t[i].user.Some?;
    assert (t + u)[i] == t[i];
  }

  lemma {:induction false} SignalsComplete(t: seq<Effect>, k: nat)
    requires k < |t| && t[k].SignalContextUpdate?
    ensures t[k] in Signals(t)
  {
    if k > 0 {
      SignalsComplete(t[1..], k - 1);
    }
  }

  /** A step that only appends, signals only loaded players and loads only players it
      dispatched for keeps the invariant. */
  lemma ExtendKeepsInv(s: Gate, r: Gate)
    requires Inv(s) && Extends(s, r)
    requires forall e | e in Signals(Appended(s, r)) && e.SignalContextUpdate? :: e.id in s.loaded
    requires forall x | x in r.loaded :: x in s.loaded || PreAdmitted(r.trace, x)
    ensures Inv(r)
  {
    var t, u := s.trace, Appended(s, r);
    assert r.trace == t + u;
    forall j | 0 <= j < |r.trace| && r.trace[j].SignalContextUpdate?
      ensures PreAdmitted(r.trace[..j], r.trace[j].id)
    {
      if j < |t| {
        assert r.trace[..j] == t[..j];
        assert r.trace[j] == t[j];
      } else {
        assert r.trace[j] == u[j - |t|];
        SignalsComplete(u, j - |t|);
        PreAdmittedExtends(t, r.trace[|t|..j], r.trace[j].id);
        assert r.trace[..j] == t + r.trace[|t|..j];
      }
    }
    forall x | x in r.loaded ensures PreAdmitted(r.trace, x) {
      if x in s.loaded {
        PreAdmittedExtends(t, u, x);
      }
    }
  }

  lemma PreLoginKeepsInv(s: Gate, id: Uuid, name: string, wait: WaitOutcome, online: bool, load: LoadOutcome)
    requires Inv(s)
    ensures Inv(PreLogin(s, id, name, wait, online, load))
  {
    var r := PreLogin(s, id, name, wait, online, load);
    var t := PreLoginEffects(id, name, wait, online, load);
    AppendedIs(s, t, r);
    SignalsNone(t);
    if online && load.Loaded? {
      assert r.trace[|s.trace| + 3] == t[3] == DispatchLoginProcess(id, name, Some(load.user));
      assert PreAdmitted(r.trace, id);
    }
    ExtendKeepsInv(s, r);
  }

  lemma LoginKeepsInv(s: Gate, id: Uuid)
    requires Inv(s)
    ensures Inv(Login(s, id))
  {
    LoginOutcomes(s, id);
    ExtendKeepsInv(s, Login(s, id));
  }

  lemma DisconnectKeepsInv(s: Gate, id: Uuid)
    requires Inv(s)
    ensures Inv(Disconnect(s, id))
  {
    var r := Disconnect(s, id);
    FiltersCons(HandleDisconnect(id), []);
    ExtendKeepsInv(s, r);
  }

  lemma NextTickKeepsInv(s: Gate)
    requires Inv(s)
    ensures Inv(NextTick(s))
  {
    var r := NextTick(s);
    SignalsNone(Appended(s, r));
    ExtendKeepsInv(s, r);
  }

  lemma {:induction false} SignalsNone(t: seq<Effect>)
    requires forall k | 0 <= k < |t| :: !t[k].SignalContextUpdate?
    ensures Signals(t) == []
  {
    if t != [] {
      SignalsNone(t[1..]);
    }
  }

  lemma StepKeepsInv(s: Gate, e: Event)
    requires Inv(s) && !e.LoadedElsewhere?
    ensures Inv(Step(s, e))
  {
    match e
    case PreLoginEvent(id, name, wait, online, load) => PreLoginKeepsInv(s, id, name, wait, online, load);
    case ConfigurationEvent(id) => LoginKeepsInv(s, id);
    case DisconnectEvent(id) => DisconnectKeepsInv(s, id);
    case Tick => NextTickKeepsInv(s);
    case UnloadUser(id) =>
  }

  /** In a run where only pre-login puts users into the user manager, no player is admitted
      (gets a context update at login) unless an earlier pre-login for the same player loaded
      a user. */
  lemma {:induction false} RunKeepsAdmissionOrdered(s: Gate, es: seq<Event>)
    requires Inv(s)
    requires forall k | 0 <= k < |es| :: !es[k].LoadedElsewhere?
    ensures Inv(Run(s, es)) && AdmissionOrdered(Run(s, es).trace)
    decreases |es|
  {
    if es != [] {
      StepKeepsInv(s, es[0]);
      assert forall k | 0 <= k < |es[1..]| :: es[1..][k] == es[k + 1];
      RunKeepsAdmissionOrdered(Step(s, es[0]), es[1..]);
    }
  }

  /** The gate itself checks only the user manager: a user loaded there by the rest of
      LuckPerms is admitted at login with no pre-login at all, so the ordering above needs
      its closed-world premise. */
  lemma AdmittedWithoutPreLogin(id: Uuid, user: User)
    ensures var r := Run(Initial, [LoadedElsewhere(id, user), ConfigurationEvent(id)]);
      && r.trace == [SignalContextUpdate(id)]
      && !AdmissionOrdered(r.trace)
  {
    var es := [LoadedElsewhere(id, user), ConfigurationEvent(id)];
    var p := LoadElsewhere(Initial, id, user);
    assert es[1..] == [ConfigurationEvent(id)];
    assert Run(Initial, es) == Run(p, [ConfigurationEvent(id)]);
    var r := Login(p, id);
    assert Run(p, [ConfigurationEvent(id)]) == Run(r, []);
    assert r.trace == [SignalContextUpdate(id)];
    assert r.trace[..0] == [];
    assert !PreAdmitted(r.trace[..0], id);
  }

  lemma InitialInv()
    ensures Inv(Initial)
  {
  }

  /** A successful pre-login followed by login admits the player: exactly one context update
      for them, no kick at either step. */
  lemma LoadedPlayerIsAdmitted(s: Gate, id: Uuid, name: string, wait: WaitOutcome, user: User)
    ensures var p := PreLogin(s, id, name, wait, true, Loaded(user));
      var r := Login(p, id);
      && Extends(s, r)
      && Signals(Appended(s, r)) == [SignalContextUpdate(id)]
      && Kicks(Appended(s, r)) == []
  {
    var p := PreLogin(s, id, name, wait, true, Loaded(user));
    var r := Login(p, id);
    PreLoginLoaded(s, id, name, wait, user);
    PreLoginWaitsFirst(s, id, name, wait, true, Loaded(user));
    LoginOutcomes(p, id);
    assert Appended(s, r) == Appended(s, p) + Appended(p, r);
    FiltersAppend(Appended(s, p), Appended(p, r));
  }

  lemma {:induction false} FiltersAppend(t: seq<Effect>, u: seq<Effect>)
    ensures Signals(t + u) == Signals(t) + Signals(u)
    ensures Kicks(t + u) == Kicks(t) + Kicks(u)
    ensures Dispatches(t + u) == Dispatches(t) + Dispatches(u)
  {
    if t != [] {
      assert t + u == [t[0]] + (t[1..] + u);
      FiltersCons(t[0], t[1..] + u);
      FiltersAppend(t[1..], u);
      assert t == [t[0]] + t[1..];
      FiltersCons(t[0], t[1..]);
    } else {
      assert t + u == u;
    }
  }

  /** A player whose load failed is then refused at login; the warning says they were processed
      before exactly when an earlier pre-login had recorded them. */
  lemma FailedPlayerIsDenied(s: Gate, id: Uuid, name: string, wait: WaitOutcome)
    requires id !in s.loaded
    ensures var p := PreLogin(s, id, name, wait, true, LoadFailed);
      var r := Login(p, id);
      && Extends(p, r)
      && id !in r.loaded
      && Signals(Appended(p, r)) == [] && Kicks(Appended(p, r)) == [Kick(id, LoadingStateError)]
      && DenyLogin(id, if id in s.uniqueConnections then ProcessedBeforeInSession else NeverProcessedDuringPreLogin)
         in Appended(p, r)
      && DenyLogin(id, if id in s.uniqueConnections then NeverProcessedDuringPreLogin else ProcessedBeforeInSession)
         !in Appended(p, r)
  {
    var p := PreLogin(s, id, name, wait, true, LoadFailed);
    PreLoginFailed(s, id, name, wait);
    LoginOutcomes(p, id);
  }

  /** A failed load does not evict a user the manager already held for the player: login then
      admits the player on that earlier user, with one context update and no kick. */
  lemma StaleUserAdmittedAfterFailedLoad(s: Gate, id: Uuid, name: string, wait: WaitOutcome)
    requires id in s.loaded
    ensures var p := PreLogin(s, id, name, wait, true, LoadFailed);
      var r := Login(p, id);
      && p.loaded == s.loaded
      && Appended(p, r) == [SignalContextUpdate(id)]
      && Kicks(Appended(p, r)) == []
  {
    var p := PreLogin(s, id, name, wait, true, LoadFailed);
    PreLoginFailed(s, id, name, wait);
    LoginOutcomes(p, id);
  }

  /** A player who reaches login in a fresh session without any pre-login is refused with the
      "never processed" warning. */
  lemma LoginWithoutPreLogin(id: Uuid)
    ensures var r := Run(Initial, [ConfigurationEvent(id)]);
      && r.trace == [DenyLogin(id, NeverProcessedDuringPreLogin), Kick(id, LoadingStateError)]
      && Signals(r.trace) == []
  {
    var r := Run(Initial, [ConfigurationEvent(id)]);
    assert r == Login(Initial, id);
    LoginOutcomes(Initial, id);
    assert Appended(Initial, r) == r.trace;
  }

  /** A player pre-logged in successfully whose user has since been unloaded is refused with
      the "processed before" warning. */
  lemma LoginAfterUnload(id: Uuid, name: string, user: User)
    ensures var r := Run(Initial, [PreLoginEvent(id, name, Opened, true, Loaded(user)), UnloadUser(id), ConfigurationEvent(id)]);
      && DenyLogin(id, ProcessedBeforeInSession) in r.trace
      && DenyLogin(id, NeverProcessedDuringPreLogin) !in r.trace
      && Signals(r.trace) == []
  {
    var es := [PreLoginEvent(id, name, Opened, true, Loaded(user)), UnloadUser(id), ConfigurationEvent(id)];
    var p := PreLogin(Initial, id, name, Opened, true, Loaded(user));
    var q := Unload(p, id);
    var r := Login(q, id);
    assert es[1..] == [UnloadUser(id), ConfigurationEvent(id)] && es[1..][1..] == [ConfigurationEvent(id)];
    assert Run(Initial, es) == Run(p, es[1..]);
    assert Run(p, es[1..]) == Run(q, [ConfigurationEvent(id)]);
    assert Run(q, [ConfigurationEvent(id)]) == Run(r, []);
    assert id !in q.loaded && id in q.uniqueConnections;
    var trace := [AwaitEnableLatch(EnableLatchTimeoutSeconds, Opened), LoadUser(id, name), RecordConnection(id),
                  DispatchLoginProcess(id, name, Some(user)), DenyLogin(id, ProcessedBeforeInSession),
                  Kick(id, LoadingStateError)];
    assert r.trace == trace;
    SignalsNone(trace);
  }

  /** Disconnect calls `handleDisconnect` at once; `onPlayerQuit` runs only when the next tick
      comes, after it. */
  lemma QuitRunsAtNextTick(s: Gate, id: Uuid)
    requires s.nextTick == []
    ensures var d := Disconnect(s, id);
      var r := NextTick(d);
      && PlayerQuit(id) !in Appended(s, d)
      && Extends(s, r) && Appended(s, r) == [HandleDisconnect(id), PlayerQuit(id)]
      && r.nextTick == []
  {
  }

  /** The per-player gate as the host drives it: one method per subscribed event. */
  class MinestomConnectionListener {
    var loaded: map<Uuid, User>
    var uniqueConnections: set<Uuid>
    var nextTick: seq<Uuid>
    var trace: seq<Effect>

    ghost function State(): Gate
      reads this
    {
      Gate(loaded, uniqueConnections, nextTick, trace)
    }

    /** Subscribes the three handlers on the plugin's event node. */
    constructor (eventNode: EventNode)
      modifies eventNode
      ensures State() == Initial
      ensures |eventNode.listeners| == |old(eventNode.listeners)| + 3
      ensures eventNode.listeners[..|old(eventNode.listeners)|] == old(eventNode.listeners)
      ensures eventNode.listeners[|old(eventNode.listeners)|].eventType == AsyncPlayerPreLoginEvent
      ensures eventNode.listeners[|old(eventNode.listeners)| + 1].eventType == AsyncPlayerConfigurationEvent
      ensures eventNode.listeners[|old(eventNode.listeners)| + 2].eventType == PlayerDisconnectEvent
    {
      loaded, uniqueConnections, nextTick, trace := map[], {}, [], [];
      var preLogin := new EventListener(AsyncPlayerPreLoginEvent);
      var login := new EventListener(AsyncPlayerConfigurationEvent);
      var disconnect := new EventListener(PlayerDisconnectEvent);
      eventNode.AddListener(preLogin);
      eventNode.AddListener(login);
      eventNode.AddListener(disconnect);
    }

    method OnPlayerPreLogin(id: Uuid, name: string, wait: WaitOutcome, online: bool, load: LoadOutcome)
      modifies this
      ensures State() == PreLogin(old(State()), id, name, wait, online, load)
    {
      // the wait's outcome, even a timeout or an interrupt, does not stop the handler
      trace := trace + [AwaitEnableLatch(EnableLatchTimeoutSeconds, wait)];
      if !online {
        trace := trace + [ConnectionCancelled(id)];
        return;
      }
      match load {
        case Loaded(user) =>
          // loadUser, then recordConnection, then the login-process dispatch
          loaded := loaded[id := user];
          uniqueConnections := uniqueConnections + {id};
          trace := trace + ([LoadUser(id, name)] + ([RecordConnection(id)] + [DispatchLoginProcess(id, name, Some(user))]));
        case LoadFailed =>
          trace := trace + ([LoadUser(id, name)] + ([LoadError(id)] + ([Kick(id, LoadingDatabaseError)]
            + [DispatchLoginProcess(id, name, None)])));
      }
    }

    method OnPlayerLogin(player: Player)
      modifies this
      ensures State() == Login(old(State()), player.uuid)
    {
      if player.uuid !in loaded {
        if player.uuid !in uniqueConnections {
          trace := trace + [DenyLogin(player.uuid, NeverProcessedDuringPreLogin)];
        } else {
          trace := trace + [DenyLogin(player.uuid, ProcessedBeforeInSession)];
        }
        trace := trace + [Kick(player.uuid, LoadingStateError)];
        return;
      }
      trace := trace + [SignalContextUpdate(player.uuid)];
    }

    method OnPlayerDisconnect(player: Player)
      modifies this
      ensures State() == Disconnect(old(State()), player.uuid)
    {
      trace := trace + [HandleDisconnect(player.uuid)];
      nextTick := nextTick + [player.uuid];
    }

    /** The host scheduler reaching the next tick. */
    method RunNextTick()
      modifies this
      ensures State() == NextTick(old(State()))
    {
      var i := 0;
      while i < |nextTick|
        invariant 0 <= i <= |nextTick|
        invariant nextTick == old(nextTick)
        invariant loaded == old(loaded) && uniqueConnections == old(uniqueConnections)
        invariant |trace| == |old(trace)| + i && trace[..|old(trace)|] == old(trace)
        invariant forall k | 0 <= k < i :: trace[|old(trace)| + k] == PlayerQuit(nextTick[k])
      {
        trace := trace + [PlayerQuit(nextTick[i])];
        i := i + 1;
      }
      nextTick := [];
    }
  }
}
