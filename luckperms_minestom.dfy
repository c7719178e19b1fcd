/** The public entry point: one process-wide bootstrap slot, guarded by `builder` and
    `disable`, and the builder that collects the settings and starts the platform. */
module Entry {
  import opened Host
  import opened Bootstrap
  import opened Commands

  const AlreadyInitialized: string := "Cannot initialize LuckPerms Minestom - it is already initialized!"
  const NotInitialized: string := "Cannot disable LuckPerms Minestom - it is not initialized!"
  /** The default logger is the one named after the entry-point class. */
  const DefaultLoggerName: string := "me.lucko.luckperms.minestom.LuckPermsMinestom"

  datatype Result<T> = Success(value: T) | Failure(message: string)

  /** How `disable` ended: the slot was cleared, the call was refused with a message, or the
      plugin's own exception escaped. */
  datatype DisableOutcome = Disabled | Refused(message: string) | Propagated

  /** Adding the members of `xs` to `s` one at a time, in order (`forEach(set::add)`). */
  function AddAll<T>(s: set<T>, xs: seq<T>): set<T>
    decreases |xs|
  {
    if xs == [] then s else AddAll(s, xs[..|xs| - 1]) + {xs[|xs| - 1]}
  }

  /** The one-at-a-time adds amount to a union. */
  lemma {:induction false} AddAllIsUnion<T>(s: set<T>, xs: seq<T>)
    ensures AddAll(s, xs) == s + set x | x in xs
  {
    if xs != [] {
      var init := xs[..|xs| - 1];
      AddAllIsUnion(s, init);
      assert xs == init + [xs[|xs| - 1]];
      assert (set x | x in xs) == (set x | x in init) + {xs[|xs| - 1]};
    }
  }

  /** Adding the same members again changes nothing. */
  lemma AddAllIsIdempotent<T>(s: set<T>, xs: seq<T>)
    ensures AddAll(AddAll(s, xs), xs) == AddAll(s, xs)
  {
    AddAllIsUnion(s, xs);
    AddAllIsUnion(AddAll(s, xs), xs);
  }

  /** Two batches in a row are one batch of both: only the members matter, not the calls. */
  lemma AddAllConcat<T>(s: set<T>, xs: seq<T>, ys: seq<T>)
    ensures AddAll(AddAll(s, xs), ys) == AddAll(s, xs + ys)
  {
    AddAllIsUnion(s, xs);
    AddAllIsUnion(AddAll(s, xs), ys);
    AddAllIsUnion(s, xs + ys);
    assert (set x | x in xs + ys) == (set x | x in xs) + (set x | x in ys);
  }

  /** The holder of the static `bootstrap` slot. */
  class LuckPermsMinestom {
    var bootstrap: LPMinestomBootstrap?

    constructor ()
      ensures bootstrap == null
    {
      bootstrap := null;
    }

    /** Refuses while a bootstrap is set; otherwise a new builder with the default settings.
        The slot is never changed here. */
    method Builder(dataDirectory: string) returns (r: Result<BuilderImpl>)
      ensures old(bootstrap) != null ==> r == Failure(AlreadyInitialized)
      ensures old(bootstrap) == null ==>
        && r.Success? && fresh(r.value) && r.value.platform == this
        && r.value.Settings() == DefaultSettings(dataDirectory)
    {
      if bootstrap != null {
        return Failure(AlreadyInitialized);
      }
      var b := new BuilderImpl(this, dataDirectory);
      return Success(b);
    }

    /** Refuses while no bootstrap is set; otherwise disables it once and then clears the slot.
        When `onDisable` throws, the exception escapes before the slot is cleared, so the slot
        keeps the bootstrap. */
    method Disable(disableThrows: bool) returns (outcome: DisableOutcome)
      requires bootstrap != null ==> bootstrap.Valid()
      modifies this, bootstrap
      ensures old(bootstrap) == null ==> outcome == Refused(NotInitialized) && bootstrap == null
      ensures old(bootstrap) != null ==>
        && old(bootstrap).lifecycle == old(bootstrap.lifecycle) + [PluginDisable]
        && old(bootstrap).startTime == old(bootstrap.startTime)
        && old(bootstrap).Valid()
      ensures old(bootstrap) != null && disableThrows ==> outcome == Propagated && bootstrap == old(bootstrap)
      ensures old(bootstrap) != null && !disableThrows ==> outcome == Disabled && bootstrap == null
    {
      if bootstrap == null {
        return Refused(NotInitialized);
      }
      var threw := bootstrap.OnDisable(disableThrows);
      if threw {
        return Propagated;
      }
      bootstrap := null;
      outcome := Disabled;
    }
  }

  /** The settings of a builder nobody has configured yet. */
  function DefaultSettings(dataDirectory: string): PluginSettings
  {
    PluginSettings(Logger(DefaultLoggerName), dataDirectory, {}, EnvironmentVariableConfigAdapter, false, {}, null)
  }

  class BuilderImpl {
    const platform: LuckPermsMinestom
    const dataDirectory: string
    var contextProviders: set<ContextProvider>
    var permissionSuggestions: set<string>
    var commandRegistry: CommandRegistry?
    var configurationAdapter: ConfigurationAdapterFactory
    var dependencyManager: bool
    var logger: Logger

    /** What `enable` hands to the bootstrap. */
    function Settings(): PluginSettings
      reads this
    {
      PluginSettings(logger, dataDirectory, contextProviders, configurationAdapter,
                     dependencyManager, permissionSuggestions, commandRegistry)
    }

    constructor (platform: LuckPermsMinestom, dataDirectory: string)
      ensures this.platform == platform
      ensures Settings() == DefaultSettings(dataDirectory)
    {
      this.platform := platform;
      this.dataDirectory := dataDirectory;
      contextProviders := {};
      permissionSuggestions := {};
      commandRegistry := null;
      configurationAdapter := EnvironmentVariableConfigAdapter;
      dependencyManager := false;
      logger := Logger(DefaultLoggerName);
    }

    method SetCommandRegistry(handler: CommandRegistry?) returns (b: BuilderImpl)
      modifies this
      ensures b == this && Settings() == old(Settings()).(commandRegistry := handler)
    {
      commandRegistry := handler;
      b := this;
    }

    /** The deprecated switch: a new registry forwarding to the host's command manager, or
        none. */
    method Commands(enabled: bool) returns (b: BuilderImpl)
      modifies this
      ensures b == this
      ensures enabled ==>
        && commandRegistry != null && fresh(commandRegistry)
        && commandRegistry.target == MinestomCommandManager && commandRegistry.calls == []
      ensures !enabled ==> commandRegistry == null
      ensures Settings() == old(Settings()).(commandRegistry := commandRegistry)
    {
      if enabled {
        var registry := new CommandRegistry(MinestomCommandManager);
        b := SetCommandRegistry(registry);
      } else {
        b := SetCommandRegistry(null);
      }
    }

    /** A new registry forwarding to the two consumers. */
    method SetCommandRegistryConsumers(register: nat, unregister: nat) returns (b: BuilderImpl)
      modifies this
      ensures b == this
      ensures commandRegistry != null && fresh(commandRegistry)
      ensures commandRegistry.target == Consumers(register, unregister) && commandRegistry.calls == []
      ensures Settings() == old(Settings()).(commandRegistry := commandRegistry)
    {
      var registry := new CommandRegistry(Consumers(register, unregister));
      b := SetCommandRegistry(registry);
    }

    method AddContextProvider(provider: ContextProvider) returns (b: BuilderImpl)
      modifies this
      ensures b == this
      ensures Settings() == old(Settings()).(contextProviders := old(contextProviders) + {provider})
    {
      contextProviders := contextProviders + {provider};
      b := this;
    }

    /** Both the array and the iterable form: each provider added in turn. */
    method AddContextProviders(providers: seq<ContextProvider>) returns (b: BuilderImpl)
      modifies this
      ensures b == this
      ensures Settings() == old(Settings()).(contextProviders := AddAll(old(contextProviders), providers))
    {
      for i := 0 to |providers|
        invariant Settings() == old(Settings()).(contextProviders := AddAll(old(contextProviders), providers[..i]))
      {
        assert providers[..i + 1][..i] == providers[..i];
        contextProviders := contextProviders + {providers[i]};
      }
      assert providers[..|providers|] == providers;
      b := this;
    }

    method AddPermissionSuggestion(permission: string) returns (b: BuilderImpl)
      modifies this
      ensures b == this
      ensures Settings() == old(Settings()).(permissionSuggestions := old(permissionSuggestions) + {permission})
    {
      permissionSuggestions := permissionSuggestions + {permission};
      b := this;
    }

    /** Both the array and the iterable form: each permission added in turn. */
    method AddPermissionSuggestions(permissions: seq<string>) returns (b: BuilderImpl)
      modifies this
      ensures b == this
      ensures Settings() == old(Settings()).(permissionSuggestions := AddAll(old(permissionSuggestions), permissions))
    {
      for i := 0 to |permissions|
        invariant Settings() == old(Settings()).(permissionSuggestions := AddAll(old(permissionSuggestions), permissions[..i]))
      {
        assert permissions[..i + 1][..i] == permissions[..i];
        permissionSuggestions := permissionSuggestions + {permissions[i]};
      }
      assert permissions[..|permissions|] == permissions;
      b := this;
    }

    method SetConfigurationAdapter(adapter: ConfigurationAdapterFactory) returns (b: BuilderImpl)
      modifies this
      ensures b == this && Settings() == old(Settings()).(configurationAdapter := adapter)
    {
      configurationAdapter := adapter;
      b := this;
    }

    method SetDependencyManager(enabled: bool) returns (b: BuilderImpl)
      modifies this
      ensures b == this && Settings() == old(Settings()).(dependencyManager := enabled)
    {
      dependencyManager := enabled;
      b := this;
    }

    method SetLogger(logger: Logger) returns (b: BuilderImpl)
      modifies this
      ensures b == this && Settings() == old(Settings()).(logger := logger)
    {
      this.logger := logger;
      b := this;
    }

    /** Builds the bootstrap from the settings, stores it in the slot and only then runs its
        `onEnable`, so the slot is set even when enabling throws. The slot is not checked: a
        bootstrap already there is replaced without being disabled. When building the bootstrap
        throws (the embedding server's configuration adapter or dependency manager fails while
        the plugin object is made), the assignment never happens: the slot keeps its old value
        and `onEnable` does not run. */
    method Enable(constructionThrows: bool, loadThrows: bool, now: int, enableThrows: bool)
        returns (threw: bool)
      modifies platform
      ensures constructionThrows ==> threw && platform.bootstrap == old(platform.bootstrap)
      ensures !constructionThrows ==>
        && platform.bootstrap != null && fresh(platform.bootstrap) && platform.bootstrap.Valid()
        && platform.bootstrap.settings == Settings()
        && platform.bootstrap.lifecycle == EnableSequence(loadThrows, now)
        && platform.bootstrap.loadLatch.IsOpen()
        && (platform.bootstrap.enableLatch.IsOpen() <==> !loadThrows)
        && (!loadThrows ==> platform.bootstrap.startTime == Some(now))
        && (loadThrows ==> platform.bootstrap.startTime == None)
        && (threw <==> loadThrows || enableThrows)
    {
      if constructionThrows {
        return true;
      }
      var bootstrap := new LPMinestomBootstrap(Settings());
      platform.bootstrap := bootstrap;
      threw := bootstrap.OnEnable(loadThrows, now, enableThrows);
    }
  }

  /** The slot's life cycle: after a successful `disable`, a second `disable` is refused and a
      new `builder` is accepted. */
  method DisableTwiceThenRebuild(platform: LuckPermsMinestom, dataDirectory: string)
      returns (first: DisableOutcome, second: DisableOutcome, rebuilt: Result<BuilderImpl>)
    requires platform.bootstrap != null && platform.bootstrap.Valid()
    modifies platform, platform.bootstrap
    ensures first == Disabled && second == Refused(NotInitialized)
    ensures rebuilt.Success? && rebuilt.value.Settings() == DefaultSettings(dataDirectory)
  {
    first := platform.Disable(false);
    second := platform.Disable(false);
    rebuilt := platform.Builder(dataDirectory);
  }

  /** A `disable` whose plugin throws leaves the bootstrap in the slot, so `builder` stays
      refused. */
  method FailedDisableKeepsSlot(platform: LuckPermsMinestom, dataDirectory: string)
      returns (outcome: DisableOutcome, rebuilt: Result<BuilderImpl>)
    requires platform.bootstrap != null && platform.bootstrap.Valid()
    modifies platform, platform.bootstrap
    ensures outcome == Propagated && platform.bootstrap == old(platform.bootstrap)
    ensures rebuilt == Failure(AlreadyInitialized)
  {
    outcome := platform.Disable(true);
    rebuilt := platform.Builder(dataDirectory);
  }
}
