/** The platform bootstrap: the two start-up latches, the start time, and the read-only
    lookups over the host's table of online players. */
module Bootstrap {
  import opened Host
  import opened Commands

  /** A context provider handed over by the embedding server (its identity only). */
  datatype ContextProvider = ContextProvider(id: nat)

  /** The factory that makes the configuration adapter: reading environment variables, or one
      supplied by the embedding server. */
  datatype ConfigurationAdapterFactory = EnvironmentVariableConfigAdapter | SuppliedConfigAdapter(id: nat)

  /** An SLF4J logger, by name. */
  datatype Logger = Logger(name: string)

  /** What the bootstrap is constructed with. */
  datatype PluginSettings = PluginSettings(
    logger: Logger,
    dataDirectory: string,
    contextProviders: set<ContextProvider>,
    configurationAdapter: ConfigurationAdapterFactory,
    dependencyManager: bool,
    permissionSuggestions: set<string>,
    commandRegistry: CommandRegistry?)

  /** java.util.concurrent.CountDownLatch: open once its count has reached zero. */
  class CountDownLatch {
    var count: nat

    constructor (count: nat)
      ensures this.count == count
    {
      this.count := count;
    }

    predicate IsOpen()
      reads this
    {
      count == 0
    }

    method CountDown()
      modifies this
      ensures count == AfterCountDowns(old(count), 1)
    {
      if count > 0 {
        count := count - 1;
      }
    }
  }

  /** The count of a latch that started at `count` after `n` calls of `countDown`. */
  function AfterCountDowns(count: nat, n: nat): (c: nat)
    ensures c <= count
    ensures c == 0 <==> n >= count
    ensures n < count ==> c == count - n
  {
    if n == 0 || count == 0 then count else AfterCountDowns(count - 1, n - 1)
  }

  /** Count-downs compose: `m` then `n` calls act like `m + n`; so a latch of count 1 opens
      on its first count-down and every later one leaves it open. */
  lemma CountDownsCompose(count: nat, m: nat, n: nat)
    ensures AfterCountDowns(AfterCountDowns(count, m), n) == AfterCountDowns(count, m + n)
  {
  }

  /** What `onEnable` does, in order, as seen from outside the common plugin code. */
  datatype LifecycleStep =
    | PluginLoad
    | LoadLatchCountDown
    | StartTimeSet(at: int)
    | PluginEnable
    | EnableLatchCountDown
    | PluginDisable

  /** `a` occurs before `b` in `s`. */
  ghost predicate Before(s: seq<LifecycleStep>, a: LifecycleStep, b: LifecycleStep)
  {
    exists i, j | 0 <= i < j < |s| :: s[i] == a && s[j] == b
  }

  /** The steps of one `onEnable`: `loadThrows` and `enableThrows` say whether `plugin.load()`
      and `plugin.enable()` throw; `now` is the clock reading. A throwing load ends `onEnable`
      once its latch is opened; a throwing enable still opens the enable latch. */
  function EnableSequence(loadThrows: bool, now: int): seq<LifecycleStep>
  {
    if loadThrows then [PluginLoad, LoadLatchCountDown]
    else [PluginLoad, LoadLatchCountDown, StartTimeSet(now), PluginEnable, EnableLatchCountDown]
  }

  /** The load latch is always counted down, after the load; the rest happens exactly when
      the load returned normally, and then in the order load latch, start time, enable,
      enable latch. */
  lemma EnableSequenceOrder(loadThrows: bool, now: int)
    ensures var s := EnableSequence(loadThrows, now);
      && s[0] == PluginLoad
      && Before(s, PluginLoad, LoadLatchCountDown)
      && (StartTimeSet(now) in s <==> !loadThrows)
      && (PluginEnable in s <==> !loadThrows)
      && (EnableLatchCountDown in s <==> !loadThrows)
      && (!loadThrows ==>
            && Before(s, LoadLatchCountDown, StartTimeSet(now))
            && Before(s, StartTimeSet(now), PluginEnable)
            && Before(s, PluginEnable, EnableLatchCountDown))
  {
    var s := EnableSequence(loadThrows, now);
    assert s[0] == PluginLoad && s[1] == LoadLatchCountDown;
    if !loadThrows {
      assert s[2] == StartTimeSet(now) && s[3] == PluginEnable && s[4] == EnableLatchCountDown;
    }
  }

  class LPMinestomBootstrap {
    const settings: PluginSettings
    const loadLatch: CountDownLatch
    const enableLatch: CountDownLatch
    /** `None` until `onEnable` sets it (a null Instant). */
    var startTime: Option<int>
    /** The lifecycle steps performed so far. */
    var lifecycle: seq<LifecycleStep>

    ghost predicate Valid()
      reads this, loadLatch, enableLatch
    {
      loadLatch != enableLatch && loadLatch.count <= 1 && enableLatch.count <= 1
    }

    constructor (settings: PluginSettings)
      ensures this.settings == settings
      ensures Valid() && fresh(loadLatch) && fresh(enableLatch)
      ensures loadLatch.count == 1 && enableLatch.count == 1
      ensures startTime == None && lifecycle == []
    {
      this.settings := settings;
      loadLatch := new CountDownLatch(1);
      enableLatch := new CountDownLatch(1);
      startTime := None;
      lifecycle := [];
    }

    /** Runs load and enable; `threw` is true when either propagated an exception. */
    method OnEnable(loadThrows: bool, now: int, enableThrows: bool) returns (threw: bool)
      requires Valid()
      modifies this, loadLatch, enableLatch
      ensures Valid()
      ensures threw <==> loadThrows || enableThrows
      ensures lifecycle == old(lifecycle) + EnableSequence(loadThrows, now)
      ensures loadLatch.IsOpen()
      ensures loadThrows ==> startTime == old(startTime) && enableLatch.count == old(enableLatch.count)
      ensures !loadThrows ==> startTime == Some(now) && enableLatch.IsOpen()
    {
      // load
      lifecycle := lifecycle + [PluginLoad];
      loadLatch.CountDown();
      lifecycle := lifecycle + [LoadLatchCountDown];
      if loadThrows {
        return true;
      }
      // enable
      startTime := Some(now);
      lifecycle := lifecycle + [StartTimeSet(now), PluginEnable];
      enableLatch.CountDown();
      lifecycle := lifecycle + [EnableLatchCountDown];
      threw := enableThrows;
    }

    /** Delegates to `plugin.disable()`; `disableThrows` says whether that throws, and the
        exception then escapes. */
    method OnDisable(disableThrows: bool) returns (threw: bool)
      requires Valid()
      modifies this
      ensures Valid()
      ensures threw == disableThrows
      ensures lifecycle == old(lifecycle) + [PluginDisable]
      ensures startTime == old(startTime)
    {
      lifecycle := lifecycle + [PluginDisable];
      threw := disableThrows;
    }
  }

  /** The host's `getOnlinePlayerByUuid` over its table of online players: the first entry with
      that id. */
  function GetPlayer(players: seq<Player>, uniqueId: Uuid): (r: Option<Player>)
    ensures r.None? <==> forall p | p in players :: p.uuid != uniqueId
    ensures r.Some? ==> r.value in players && r.value.uuid == uniqueId
  {
    if players == [] then None
    else if players[0].uuid == uniqueId then Some(players[0])
    else GetPlayer(players[1..], uniqueId)
  }

  /** The host's `getOnlinePlayerByUsername`: the first entry with that name. */
  function GetPlayerByUsername(players: seq<Player>, username: string): (r: Option<Player>)
    ensures r.None? <==> forall p | p in players :: p.username != username
    ensures r.Some? ==> r.value in players && r.value.username == username
  {
    if players == [] then None
    else if players[0].username == username then Some(players[0])
    else GetPlayerByUsername(players[1..], username)
  }

  function LookupUniqueId(players: seq<Player>, username: string): (r: Option<Uuid>)
    ensures r.None? <==> forall p | p in players :: p.username != username
    ensures r.Some? ==> exists p | p in players :: p.username == username && p.uuid == r.value
  {
    match GetPlayerByUsername(players, username)
    case None => None
    case Some(p) => Some(p.uuid)
  }

  function LookupUsername(players: seq<Player>, uniqueId: Uuid): (r: Option<string>)
    ensures r.None? <==> forall p | p in players :: p.uuid != uniqueId
    ensures r.Some? ==> exists p | p in players :: p.uuid == uniqueId && p.username == r.value
  {
    match GetPlayer(players, uniqueId)
    case None => None
    case Some(p) => Some(p.username)
  }

  /** False when the id is not in the table; otherwise the found player's own online flag. */
  function IsPlayerOnline(players: seq<Player>, uniqueId: Uuid): (r: bool)
    ensures (forall p | p in players :: p.uuid != uniqueId) ==> !r
    ensures r ==> exists p | p in players :: p.uuid == uniqueId && p.online
    ensures ((exists p | p in players :: p.uuid == uniqueId)
             && (forall p | p in players && p.uuid == uniqueId :: p.online)) ==> r
    ensures (forall p | p in players && p.uuid == uniqueId :: !p.online) ==> !r
  {
    match GetPlayer(players, uniqueId)
    case None => false
    case Some(p) => p.online
  }

  /** Ids in the host's table are distinct. */
  ghost predicate DistinctIds(players: seq<Player>)
  {
    forall i, j | 0 <= i < j < |players| :: players[i].uuid != players[j].uuid
  }

  /** With distinct ids, a player is online exactly when its entry says so, and the username
      and id lookups answer from that same entry. */
  lemma LookupsAgreeWithEntry(players: seq<Player>, i: nat)
    requires DistinctIds(players) && i < |players|
    ensures IsPlayerOnline(players, players[i].uuid) == players[i].online
    ensures LookupUsername(players, players[i].uuid) == Some(players[i].username)
  {
  }
}
