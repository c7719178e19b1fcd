/** Choice of the messaging service for a configured messaging type. */
module MessagingFactory {
  import opened Host
  import opened PluginMessaging

  /** The messaging types served by plugin messages (compared exactly, case included). */
  predicate IsPluginMessageType(messagingType: string)
  {
    messagingType == "pluginmsg" || messagingType == "bungee" || messagingType == "velocity"
  }

  /** The provider record handed to the messaging service. */
  datatype PluginMessageMessengerProvider = PluginMessageMessengerProvider(eventNode: EventNode)
  {
    function GetName(): (name: string)
      ensures name == "PluginMessage"
    {
      "PluginMessage"
    }

    /** A new messenger, already initialised: its listener is registered on the node. */
    method Obtain() returns (messenger: PluginMessageMessenger)
      modifies eventNode
      ensures fresh(messenger) && messenger.eventNode == eventNode && messenger.handled == []
      ensures eventNode.listeners == old(eventNode.listeners) + [messenger.listener]
      ensures messenger.listener !in old(eventNode.listeners)
    {
      messenger := new PluginMessageMessenger(eventNode);
      messenger.Init();
    }
  }

  /** The service `getServiceFor` returns: the plugin-message service, or whatever the common
      factory chooses for that type (not part of this model). */
  datatype MessagingService =
    | LuckPermsMessagingService(provider: PluginMessageMessengerProvider)
    | CommonService(messagingType: string)

  /** `constructionThrows` says whether building the plugin-message service threw. */
  function GetServiceFor(eventNode: EventNode, messagingType: string, constructionThrows: bool): (service: MessagingService)
    ensures service.LuckPermsMessagingService? <==> IsPluginMessageType(messagingType) && !constructionThrows
    ensures service.LuckPermsMessagingService? ==>
      service.provider.eventNode == eventNode && service.provider.GetName() == "PluginMessage"
    ensures service.CommonService? ==> service.messagingType == messagingType
  {
    if IsPluginMessageType(messagingType) && !constructionThrows then
      LuckPermsMessagingService(PluginMessageMessengerProvider(eventNode))
    else
      CommonService(messagingType)
  }

  /** The three names are matched exactly: another spelling of the same word goes to the common
      factory, and a throwing construction falls back to it as well. */
  lemma ServiceChoiceIsExact(eventNode: EventNode, constructionThrows: bool)
    ensures GetServiceFor(eventNode, "bungee", false).LuckPermsMessagingService?
    ensures GetServiceFor(eventNode, "Bungee", false) == CommonService("Bungee")
    ensures GetServiceFor(eventNode, "redis", constructionThrows) == CommonService("redis")
    ensures GetServiceFor(eventNode, "velocity", true) == CommonService("velocity")
  {
  }
}
