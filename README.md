# LuckPerms for Minestom — a Dafny model of the integration layer

This project models the layer that connects LuckPerms to a Minestom server. The layer does
these jobs:

- It admits players (pre-login, login and disconnect handlers).
- It relays update notifications through player plugin messages.
- It sequences start-up through two count-down latches.
- It guards a process-wide bootstrap slot, and provides a builder that collects the settings.
- It chooses the permission processors and the messaging service.
- It presents host command senders to LuckPerms.
- It extracts the arguments of the `/luckperms` command for tab completion.

The host server and the shared LuckPerms code are represented by inputs and logs:

- A load either yields a user or fails.
- A latch wait ends opened, timed out or interrupted.
- The online-player table is a sequence.
- Kicks, dispatches, context updates and plugin messages are appended to traces.

| file | module | models |
|---|---|---|
| host.dfy | `Host` | ids, players, the host's event node and its listener list |
| connection_listener.dfy | `ConnectionListener` | the admission gate, as a specification (`Gate`, step functions, `Run`) and as the class that performs it |
| plugin_messenger.dfy | `PluginMessaging` | the plugin-message messenger: listener registration, inbound channel filter, outbound retry task |
| messaging_factory.dfy | `MessagingFactory` | choice of messaging service, the messenger provider |
| bootstrap.dfy | `Bootstrap` | latches, `onEnable`/`onDisable`, player lookups |
| luckperms_minestom.dfy | `Entry` | the static bootstrap slot and the builder |
| calculator_factory.dfy | `CalculatorFactory` | the processor list built from three flags |
| sender_factory.dfy | `Senders` | sender id, name and permission answers |
| command_executor.dfy | `Commands` | suggestion arguments, executors, registration |

Each handler that changes state is a method of a class. Its postcondition states that the
new state is a step function applied to the old state. The properties are proved about those
step functions.

What the gate itself guarantees is `ConnectionListener.LoginOutcomes`: a player gets a
context update at login exactly when the shared user manager holds a loaded user for that
player at that moment, and is kicked otherwise.

The broader result is `ConnectionListener.RunKeepsAdmissionOrdered`. It holds over any
sequence of pre-login, login, disconnect, tick and unload events in which only pre-login puts
users into the user manager. In every such run, each context update for a player comes after
a pre-login dispatch that carried a loaded user for that same player. The premise is needed:
the rest of LuckPerms shares the user manager, and `ConnectionListener.AdmittedWithoutPreLogin`
shows a user loaded there (event `LoadedElsewhere`) being admitted with no pre-login at all.

The model follows the code on these points:

- The pre-login handler waits on the enable latch, not the load latch (`minestom/src/main/java/me/lucko/luckperms/minestom/listeners/MinestomConnectionListener.java:61`).
- A wait that times out or is interrupted does not abort pre-login. Processing continues.
- The connection is recorded only after `loadUser` returned, never before the load or on failure.
- The outbound task retries every 100 ticks.
- `close` removes only the incoming listener. It does not cancel a pending send task.
- `disable` clears the slot only after `onDisable` returned; when the plugin's disable throws, the slot keeps the bootstrap.

## Model

| member | source | states |
|---|---|---|
| Host.RemoveFirst | minestom/src/main/java/me/lucko/luckperms/minestom/messaging/PluginMessageMessenger.java:53 | removing a listener that is absent leaves the list unchanged; otherwise the list is one shorter and its multiset loses exactly one copy of that listener |
| Host.RemoveFirstDropsFirstOccurrence | minestom/src/main/java/me/lucko/luckperms/minestom/messaging/PluginMessageMessenger.java:53 | the copy removed is the first occurrence, and the listeners before and after it keep their order |
| Host.RemoveFirstAfterAppend | minestom/src/main/java/me/lucko/luckperms/minestom/messaging/PluginMessageMessenger.java:47-54 | appending a listener that is not yet present and then removing it restores the original list |
| Host.EventNode.AddListener | minestom/src/main/java/me/lucko/luckperms/minestom/messaging/PluginMessageMessenger.java:48 | the listener is appended at the end of the node's list |
| Host.EventNode.RemoveListener | minestom/src/main/java/me/lucko/luckperms/minestom/messaging/PluginMessageMessenger.java:53 | the node's list loses the first occurrence of the listener |
| ConnectionListener.MinestomConnectionListener.constructor | minestom/src/main/java/me/lucko/luckperms/minestom/listeners/MinestomConnectionListener.java:49-56 | exactly three listeners are appended, for pre-login, configuration and disconnect in that order; the tables and the trace start empty |
| ConnectionListener.MinestomConnectionListener.OnPlayerPreLogin | minestom/src/main/java/me/lucko/luckperms/minestom/listeners/MinestomConnectionListener.java:58-86 | the new tables and trace are `PreLogin` of the old ones |
| ConnectionListener.PreLoginWaitsFirst | minestom/src/main/java/me/lucko/luckperms/minestom/listeners/MinestomConnectionListener.java:59-76 | the first effect is the 60-second wait on the enable latch with its outcome; the next is the load, or the cancellation when the connection is gone; pre-login never signals a context update or schedules a quit |
| ConnectionListener.WaitOutcomeIgnored | minestom/src/main/java/me/lucko/luckperms/minestom/listeners/MinestomConnectionListener.java:60-64 | a timed-out or interrupted wait leaves the same tables and the same later effects as an opened latch |
| ConnectionListener.PreLoginCancelled | minestom/src/main/java/me/lucko/luckperms/minestom/listeners/MinestomConnectionListener.java:70-73 | a connection that is no longer online is not loaded, recorded, kicked or dispatched, and the tables are unchanged |
| ConnectionListener.PreLoginLoaded | minestom/src/main/java/me/lucko/luckperms/minestom/listeners/MinestomConnectionListener.java:75-78 | after a successful load the player is cached and added to the session's set; the recording comes after the load; exactly one dispatch carries the loaded user; no kick |
| ConnectionListener.PreLoginFailed | minestom/src/main/java/me/lucko/luckperms/minestom/listeners/MinestomConnectionListener.java:75-85 | after a failed load the session's set and the cache are unchanged, nothing is recorded, the only kick carries the database-error reason and the only dispatch carries no user |
| ConnectionListener.MinestomConnectionListener.OnPlayerLogin | minestom/src/main/java/me/lucko/luckperms/minestom/listeners/MinestomConnectionListener.java:88-114 | the new tables and trace are `Login` of the old ones |
| ConnectionListener.LoginOutcomes | minestom/src/main/java/me/lucko/luckperms/minestom/listeners/MinestomConnectionListener.java:95-113 | a player with a loaded user gets exactly one context update and nothing else, so no kick and no warning; any other player gets exactly one kick, with the state-error reason, and no update; the "never processed" warning is given exactly when the player is not in the session's set, the "processed before" warning otherwise; login changes no table |
| ConnectionListener.MinestomConnectionListener.OnPlayerDisconnect | minestom/src/main/java/me/lucko/luckperms/minestom/listeners/MinestomConnectionListener.java:116-121 | the new tables and trace are `Disconnect` of the old ones |
| ConnectionListener.Disconnect | minestom/src/main/java/me/lucko/luckperms/minestom/listeners/MinestomConnectionListener.java:116-121 | `handleDisconnect` is the only immediate effect, `onPlayerQuit` is queued for the next tick and has not run, and the tables are unchanged |
| ConnectionListener.MinestomConnectionListener.RunNextTick | minestom/src/main/java/me/lucko/luckperms/minestom/listeners/MinestomConnectionListener.java:120 | the new state is `NextTick` of the old one |
| ConnectionListener.NextTick | minestom/src/main/java/me/lucko/luckperms/minestom/listeners/MinestomConnectionListener.java:120 | every queued quit runs once, in scheduling order, and the queue is emptied; the tables are unchanged |
| ConnectionListener.QuitRunsAtNextTick | minestom/src/main/java/me/lucko/luckperms/minestom/listeners/MinestomConnectionListener.java:116-121 | disconnect then tick yields exactly `handleDisconnect` followed by `onPlayerQuit` |
| ConnectionListener.LoadedPlayerIsAdmitted | minestom/src/main/java/me/lucko/luckperms/minestom/listeners/MinestomConnectionListener.java:75-113 | a successful pre-login followed by login gives exactly one context update and no kick |
| ConnectionListener.FailedPlayerIsDenied | minestom/src/main/java/me/lucko/luckperms/minestom/listeners/MinestomConnectionListener.java:79-110 | when no user was cached for the player before the pre-login: after a failed load, login kicks with the state error, sends no context update, and warns "processed before" exactly when an earlier pre-login had recorded the player |
| ConnectionListener.StaleUserAdmittedAfterFailedLoad | minestom/src/main/java/me/lucko/luckperms/minestom/listeners/MinestomConnectionListener.java:79-113 | when the manager already held a user for the player, a failed load leaves it in place and login then admits the player with one context update and no kick |
| ConnectionListener.LoginWithoutPreLogin | minestom/src/main/java/me/lucko/luckperms/minestom/listeners/MinestomConnectionListener.java:97-110 | in a fresh session, a login without pre-login is refused with the "never processed" warning and a kick |
| ConnectionListener.LoginAfterUnload | minestom/src/main/java/me/lucko/luckperms/minestom/listeners/MinestomConnectionListener.java:102-110 | a player that was loaded and recorded, and whose user was then unloaded, is refused with the "processed before" warning |
| ConnectionListener.RunKeepsAdmissionOrdered | minestom/src/main/java/me/lucko/luckperms/minestom/listeners/MinestomConnectionListener.java:58-114 | over any run of events in which only pre-login loads users into the user manager, every context update is preceded by a pre-login dispatch that carried a loaded user for the same player |
| ConnectionListener.AdmittedWithoutPreLogin | minestom/src/main/java/me/lucko/luckperms/minestom/listeners/MinestomConnectionListener.java:95-113 | login consults only the user manager: a user loaded there by other code is admitted with a context update and no pre-login dispatch, breaking the ordering above |
| PluginMessaging.PluginMessageMessenger.constructor | minestom/src/main/java/me/lucko/luckperms/minestom/messaging/PluginMessageMessenger.java:38-45 | the messenger owns a fresh listener for plugin-message events and has handled nothing |
| PluginMessaging.PluginMessageMessenger.Init | minestom/src/main/java/me/lucko/luckperms/minestom/messaging/PluginMessageMessenger.java:47-49 | the messenger's listener is appended to the node |
| PluginMessaging.PluginMessageMessenger.Close | minestom/src/main/java/me/lucko/luckperms/minestom/messaging/PluginMessageMessenger.java:51-54 | the same listener is removed from the node, and nothing else changes |
| PluginMessaging.InitThenClose | minestom/src/main/java/me/lucko/luckperms/minestom/messaging/PluginMessageMessenger.java:47-54 | creating a messenger, then initialising and closing it, leaves the node's listener list as it was |
| PluginMessaging.CloseIsIdempotent | minestom/src/main/java/me/lucko/luckperms/minestom/messaging/PluginMessageMessenger.java:51-54 | a second close finds nothing to remove |
| PluginMessaging.PluginMessageMessenger.ReceiveIncomingMessage | minestom/src/main/java/me/lucko/luckperms/minestom/messaging/PluginMessageMessenger.java:66-72 | a frame on another channel is ignored; a frame on the update channel is passed on with its bytes unchanged |
| PluginMessaging.FirstAttemptWithPlayer | minestom/src/main/java/me/lucko/luckperms/minestom/messaging/PluginMessageMessenger.java:58-63 | returns the index of the first attempt that sees an online player, or none when every attempt sees no player |
| PluginMessaging.PluginMessageMessenger.SendOutgoingMessage | minestom/src/main/java/me/lucko/luckperms/minestom/messaging/PluginMessageMessenger.java:56-64 | the task is still pending exactly when no attempt saw a player, and then nothing was sent; otherwise exactly one message was sent, carrying the original bytes on the update channel, through the first player of the first attempt that saw a player, at 100 ticks times that attempt's index |
| PluginMessaging.DeliveredAtFirstPlayer | minestom/src/main/java/me/lucko/luckperms/minestom/messaging/PluginMessageMessenger.java:57-64 | after any number of empty attempts, delivery happens at the first attempt that sees a player |
| MessagingFactory.GetServiceFor | minestom/src/main/java/me/lucko/luckperms/minestom/messaging/MinestomMessagingFactory.java:49-60 | the plugin-message service is chosen exactly when the type is "pluginmsg", "bungee" or "velocity" and constructing the service did not throw; otherwise the same type string is passed to the common factory |
| MessagingFactory.ServiceChoiceIsExact | minestom/src/main/java/me/lucko/luckperms/minestom/messaging/MinestomMessagingFactory.java:51-59 | on example inputs: "bungee" selects the plugin-message service, while "Bungee", "redis", and "velocity" with a throwing construction go to the common factory (the general rule is `GetServiceFor`'s contract) |
| MessagingFactory.PluginMessageMessengerProvider.GetName | minestom/src/main/java/me/lucko/luckperms/minestom/messaging/MinestomMessagingFactory.java:66-69 | the provider is always named "PluginMessage" |
| MessagingFactory.PluginMessageMessengerProvider.Obtain | minestom/src/main/java/me/lucko/luckperms/minestom/messaging/MinestomMessagingFactory.java:71-76 | the new messenger is already initialised: its fresh listener is appended to the node |
| Bootstrap.CountDownLatch.constructor | minestom/src/main/java/me/lucko/luckperms/minestom/LPMinestomBootstrap.java:60-61 | a latch starts with the given count |
| Bootstrap.CountDownLatch.CountDown | minestom/src/main/java/me/lucko/luckperms/minestom/LPMinestomBootstrap.java:86 | one count-down lowers the count by one, never below zero |
| Bootstrap.AfterCountDowns | minestom/src/main/java/me/lucko/luckperms/minestom/LPMinestomBootstrap.java:60-61 | the count never grows; it reaches zero exactly when there have been at least as many count-downs as the initial count |
| Bootstrap.CountDownsCompose | minestom/src/main/java/me/lucko/luckperms/minestom/LPMinestomBootstrap.java:60-61 | m count-downs followed by n count-downs equal m + n; so a latch of count 1 opens at the first and stays open |
| Bootstrap.LPMinestomBootstrap.constructor | minestom/src/main/java/me/lucko/luckperms/minestom/LPMinestomBootstrap.java:60-79 | both latches are new and distinct, each with count 1; there is no start time yet; the settings are kept |
| Bootstrap.LPMinestomBootstrap.OnEnable | minestom/src/main/java/me/lucko/luckperms/minestom/LPMinestomBootstrap.java:81-97 | the load latch is always open afterwards; if load throws, the start time and the enable latch are untouched; otherwise the start time is set and the enable latch opens whether or not enable throws; the exception escapes exactly when load or enable threw |
| Bootstrap.EnableSequenceOrder | minestom/src/main/java/me/lucko/luckperms/minestom/LPMinestomBootstrap.java:81-97 | load comes first and its latch opens after it; start time, enable and the enable-latch count-down happen exactly when load returned normally, in the order load latch, start time, enable, enable latch |
| Bootstrap.LPMinestomBootstrap.OnDisable | minestom/src/main/java/me/lucko/luckperms/minestom/LPMinestomBootstrap.java:99-101 | disable is delegated once, its exception escapes when it throws, the start time and the latches are kept |
| Bootstrap.GetPlayer | minestom/src/main/java/me/lucko/luckperms/minestom/LPMinestomBootstrap.java:158-161 | returns none exactly when no online player has the id; otherwise an online player with that id |
| Bootstrap.GetPlayerByUsername | minestom/src/main/java/me/lucko/luckperms/minestom/LPMinestomBootstrap.java:164-165 | returns none exactly when no online player has the name; otherwise an online player with that name |
| Bootstrap.LookupUniqueId | minestom/src/main/java/me/lucko/luckperms/minestom/LPMinestomBootstrap.java:163-167 | returns empty exactly when no online player has the name; otherwise the id of a player with that name |
| Bootstrap.LookupUsername | minestom/src/main/java/me/lucko/luckperms/minestom/LPMinestomBootstrap.java:169-173 | returns empty exactly when no online player has the id; otherwise the name of a player with that id |
| Bootstrap.IsPlayerOnline | minestom/src/main/java/me/lucko/luckperms/minestom/LPMinestomBootstrap.java:194-199 | false when no player has the id or every player with it is offline; true when some player has the id and every such player is online; true only when a player with that id is flagged online |
| Bootstrap.LookupsAgreeWithEntry | minestom/src/main/java/me/lucko/luckperms/minestom/LPMinestomBootstrap.java:169-199 | when ids are distinct, `isPlayerOnline` and `lookupUsername` answer from that player's own entry |
| Entry.LuckPermsMinestom.Builder | minestom/src/main/java/me/lucko/luckperms/minestom/LuckPermsMinestom.java:53-56 | fails with "already initialized" when a bootstrap is set; otherwise returns a fresh builder with the default settings; the slot never changes |
| Entry.LuckPermsMinestom.Disable | minestom/src/main/java/me/lucko/luckperms/minestom/LuckPermsMinestom.java:58-62 | refused with "not initialized" when the slot is empty; otherwise disables the bootstrap once, keeping its start time; the slot is cleared when that returns and keeps the bootstrap when it throws |
| Entry.DisableTwiceThenRebuild | minestom/src/main/java/me/lucko/luckperms/minestom/LuckPermsMinestom.java:53-62 | a successful disable is followed by a refused second disable and an accepted builder |
| Entry.FailedDisableKeepsSlot | minestom/src/main/java/me/lucko/luckperms/minestom/LuckPermsMinestom.java:53-62 | a disable whose plugin throws leaves the bootstrap in the slot, so a following builder is refused |
| Entry.BuilderImpl.constructor | minestom/src/main/java/me/lucko/luckperms/minestom/LuckPermsMinestom.java:198-209 | defaults: no command registry, dependency manager off, the environment-variable adapter, the class-named logger, empty sets |
| Entry.BuilderImpl.SetCommandRegistry | minestom/src/main/java/me/lucko/luckperms/minestom/LuckPermsMinestom.java:211-215 | only the registry changes, and the same builder is returned |
| Entry.BuilderImpl.Commands | minestom/src/main/java/me/lucko/luckperms/minestom/LuckPermsMinestom.java:74-76 | true installs a new registry that forwards to the host's command manager; false clears the registry; nothing else changes |
| Entry.BuilderImpl.SetCommandRegistryConsumers | minestom/src/main/java/me/lucko/luckperms/minestom/LuckPermsMinestom.java:96-101 | installs a new registry that forwards to the two consumers; nothing else changes |
| Entry.BuilderImpl.AddContextProvider | minestom/src/main/java/me/lucko/luckperms/minestom/LuckPermsMinestom.java:217-221 | the provider is added to the set; nothing else changes; the same builder is returned |
| Entry.BuilderImpl.AddContextProviders | minestom/src/main/java/me/lucko/luckperms/minestom/LuckPermsMinestom.java:223-232 | the providers are added one at a time, in order; nothing else changes |
| Entry.BuilderImpl.AddPermissionSuggestion | minestom/src/main/java/me/lucko/luckperms/minestom/LuckPermsMinestom.java:234-238 | the permission is added to the set; nothing else changes |
| Entry.BuilderImpl.AddPermissionSuggestions | minestom/src/main/java/me/lucko/luckperms/minestom/LuckPermsMinestom.java:240-249 | the permissions are added one at a time, in order; nothing else changes |
| Entry.BuilderImpl.SetConfigurationAdapter | minestom/src/main/java/me/lucko/luckperms/minestom/LuckPermsMinestom.java:251-255 | only the adapter changes (last write wins) |
| Entry.BuilderImpl.SetDependencyManager | minestom/src/main/java/me/lucko/luckperms/minestom/LuckPermsMinestom.java:257-261 | only the dependency-manager flag changes (last write wins) |
| Entry.BuilderImpl.SetLogger | minestom/src/main/java/me/lucko/luckperms/minestom/LuckPermsMinestom.java:263-267 | only the logger changes (last write wins) |
| Entry.BuilderImpl.Enable | minestom/src/main/java/me/lucko/luckperms/minestom/LuckPermsMinestom.java:269-282 | when building the bootstrap throws, the slot keeps its old value and the exception escapes; otherwise a new bootstrap with the builder's settings is stored in the slot, replacing any present one without a guard; it stays stored even if enabling throws; its lifecycle is one `onEnable`; its start time is set to the clock reading exactly when load returned, and unset otherwise |
| Entry.AddAllIsUnion | minestom/src/main/java/me/lucko/luckperms/minestom/LuckPermsMinestom.java:228-232 | adding members one at a time yields the union with the members of the batch |
| Entry.AddAllIsIdempotent | minestom/src/main/java/me/lucko/luckperms/minestom/LuckPermsMinestom.java:217-249 | adding the same batch again changes nothing |
| Entry.AddAllConcat | minestom/src/main/java/me/lucko/luckperms/minestom/LuckPermsMinestom.java:223-249 | two batches in a row equal one batch of both |
| CalculatorFactory.Build | minestom/src/main/java/me/lucko/luckperms/minestom/calculator/MinestomCalculatorFactory.java:50-60 | Direct comes first; Regex, Wildcard and SpongeWildcard are present exactly when their flags are set; the order is Direct, Regex, Wildcard, SpongeWildcard with no repeats; the length is 1 plus the number of set flags, at most 4 |
| CalculatorFactory.OrderedListsWithSameMembersAreEqual | minestom/src/main/java/me/lucko/luckperms/minestom/calculator/MinestomCalculatorFactory.java:54-57 | two lists in processor order with the same members are the same list |
| CalculatorFactory.ProcessorListIsDetermined | minestom/src/main/java/me/lucko/luckperms/minestom/calculator/MinestomCalculatorFactory.java:51-60 | the list depends only on the three flags: any two lists that meet `Build`'s contract for the same flags are equal |
| Senders.GetUniqueId | minestom/src/main/java/me/lucko/luckperms/minestom/MinestomSenderFactory.java:49-52 | a player's own id; the console id for every other sender |
| Senders.GetName | minestom/src/main/java/me/lucko/luckperms/minestom/MinestomSenderFactory.java:54-57 | a player's own name; the console name for every other sender |
| Senders.GetPermissionValue | minestom/src/main/java/me/lucko/luckperms/minestom/MinestomSenderFactory.java:64-68 | TRUE for every non-player; the player's own permission check otherwise |
| Senders.HasPermission | minestom/src/main/java/me/lucko/luckperms/minestom/MinestomSenderFactory.java:70-75 | equals `asBoolean` of `getPermissionValue` for every sender; always true for non-players |
| Senders.IsConsole | minestom/src/main/java/me/lucko/luckperms/minestom/MinestomSenderFactory.java:82-85 | true exactly for the console sender; the console then has the console id and name |
| Senders.OtherSendersActAsConsole | minestom/src/main/java/me/lucko/luckperms/minestom/MinestomSenderFactory.java:49-85 | a sender that is neither player nor console is not the console, yet has the console's id and name and is granted every node |
| Senders.UndecidedPlayerIsRefused | minestom/src/main/java/me/lucko/luckperms/minestom/MinestomSenderFactory.java:70-75 | a player whose check answers FALSE or UNDEFINED is refused |
| Commands.IndexOfSpace | minestom/src/main/java/me/lucko/luckperms/minestom/MinestomCommandExecutor.java:71 | returns none exactly when the input has no space; otherwise the position of the first space |
| Commands.SplitOnFirstSpace | minestom/src/main/java/me/lucko/luckperms/minestom/MinestomCommandExecutor.java:71 | one piece, the whole input, exactly when there is no space; otherwise two pieces: a first piece without spaces, and a rest, which join with one space back into the input |
| Commands.SuggestionArgs | minestom/src/main/java/me/lucko/luckperms/minestom/MinestomCommandExecutor.java:70-72 | "" when the input has no space; otherwise the text after some space-free label and one space |
| Commands.SuggestionArgsDropLabel | minestom/src/main/java/me/lucko/luckperms/minestom/MinestomCommandExecutor.java:70-72 | for any space-free label, the arguments of `label + " " + rest` are exactly `rest` |
| Commands.TrailingSpaceGivesEmptyArgs | minestom/src/main/java/me/lucko/luckperms/minestom/MinestomCommandExecutor.java:71-72 | a label followed by exactly one space gives "" |
| Commands.LuckPermsCommand.constructor | minestom/src/main/java/me/lucko/luckperms/minestom/MinestomCommandExecutor.java:63-64 | the command is named "luckperms" with aliases lp, perm, perms, permission and permissions |
| Commands.CommandRegistry.RegisterCommand | minestom/src/main/java/me/lucko/luckperms/minestom/CommandRegistry.java:42-44 | the registry receives a register call for the command |
| Commands.CommandRegistry.UnregisterCommand | minestom/src/main/java/me/lucko/luckperms/minestom/CommandRegistry.java:47-49 | the registry receives an unregister call for the command |
| Commands.MinestomCommandExecutor.constructor | minestom/src/main/java/me/lucko/luckperms/minestom/MinestomCommandExecutor.java:42-51 | the executor owns one new "luckperms" command and the given registry |
| Commands.MinestomCommandExecutor.RegisterWithHost | minestom/src/main/java/me/lucko/luckperms/minestom/MinestomCommandExecutor.java:53-55 | the executor's one command is registered |
| Commands.MinestomCommandExecutor.UnregisterFromHost | minestom/src/main/java/me/lucko/luckperms/minestom/MinestomCommandExecutor.java:57-59 | the executor's one command is unregistered |
| Commands.RegisterThenUnregister | minestom/src/main/java/me/lucko/luckperms/minestom/MinestomCommandExecutor.java:53-59 | register and unregister hand the registry one and the same command instance |
| Commands.MinestomCommandExecutor.DefaultExecutor | minestom/src/main/java/me/lucko/luckperms/minestom/MinestomCommandExecutor.java:77 | the command is processed with an empty argument array |
| Commands.MinestomCommandExecutor.SyntaxExecutor | minestom/src/main/java/me/lucko/luckperms/minestom/MinestomCommandExecutor.java:79-86 | the parsed `params` array is processed unchanged |
| Commands.MinestomCommandExecutor.SuggestionCallback | minestom/src/main/java/me/lucko/luckperms/minestom/MinestomCommandExecutor.java:68-75 | every completion for the extracted arguments is added as an entry, in order |

## Left out

- Blocking and threads: the latch wait, the async event threads and the scheduler are not modelled. A wait is given by its outcome, and a scheduled task by the attempts it makes.
- Logging and rendering are left out: the `DEBUG_LOGINS` messages, the warning texts (kept only as the two `Denial` values), stack traces, and the rendering of translated kick messages (kept only as the two `KickReason` values).
- The common connection listener is not part of this model, and neither is the common messenger or the sender factory base. `loadUser` is modelled by its outcome, which caches the user on success. `recordConnection` adds to the session's set. `handleDisconnect` and `onPlayerQuit` are trace entries only. The user manager's housekeeping is the `UnloadUser` event, which drops a cached user.
- ConnectionListener.RunKeepsAdmissionOrdered: assumes no user is loaded into the user manager except by pre-login. Commands about offline players and the API's `loadUser` break this, as `AdmittedWithoutPreLogin` shows.
- ConnectionListener.MinestomConnectionListener.OnPlayerPreLogin: assumes `recordConnection` and the login-process dispatch do not throw. In the code the same catch covers them. A throw there leaves the user cached, and recorded if recording succeeded, and is followed by the database-error kick and a dispatch with no user. `PreLoginLoaded`'s "no kick" relies on this assumption.
- ConnectionListener.Disconnect: the cache and the session's set are left as they are. What the common `handleDisconnect` does to them is not part of this model.
- Message encoding and `handleIncomingMessage` are not part of this model. Inbound payloads are logged as they arrive.
- PluginMessaging.PluginMessageMessenger.SendOutgoingMessage: covers the attempts in a finite observation sequence. A task still pending after the last observed attempt is reported as `pending`, not followed further.
- MessagingFactory.GetServiceFor: whether construction throws is an input. The common factory's own choice is represented by the type string it receives.
- The incoming-message consumer passed to `obtain` and to the messenger is not modelled.
- Bootstrap getters that return constants or delegate to the host are left out: version, platform type, server brand and version, player count and list, online ids, data directory, logger, scheduler and class-path appender. The latch getters are the `loadLatch`/`enableLatch` fields.
- Bootstrap.GetPlayerByUsername: compares names exactly. The host's own lookup ignores case.
- Bootstrap.LookupUniqueId: inherits the exact comparison; with "Steve" online, the host finds "steve" and this model does not.
- The host's online-player collection is modelled as a sequence, and lookups take the first match.
- Entry.LuckPermsMinestom.Builder: the data directory is kept as given. `toAbsolutePath` is not modelled.
- Entry.BuilderImpl.Enable: returns whether `onEnable` threw, not the API handle from `LuckPermsProvider.get()`. The static slot is a field of one `LuckPermsMinestom` object.
- Entry.BuilderImpl.Enable: hands the bootstrap a value copy of the settings. The code hands over the builder's own two hash sets, which the plugin keeps, so providers or suggestions added to the builder after `enable` reach the running plugin; that aliasing is not captured.
- Context providers, command-registry consumers and configuration adapters are given opaque identities. Loggers are identified by name.
- The calculator's `PermissionCalculator`, query options and cache metadata are not part of this model. `build` is modelled by the processor list it passes.
- The argument tokenizer, `tabCompleteCommand` and `executeCommand` are not part of this model. Tab completion is a function parameter. Executions record the raw argument array.
- `sendMessage` and `performCommand` of the sender factory are host delegations and are left out.
- LPMinestomPlugin.java is wiring for the common plugin base. NoopDependencyManager.java does nothing. MinestomServer.java is a demo server. None of them is modelled. CommandRegistry.java appears only as the log of calls a registry receives.
