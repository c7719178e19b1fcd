/** How a host command sender is presented to LuckPerms: its id, its name and its answers to
    permission checks. */
module Senders {
  import opened Host

  /** net.luckperms.api.util.Tristate. */
  datatype Tristate = TRUE | FALSE | UNDEFINED
  {
    /** Only TRUE counts as granted. */
    function AsBoolean(): (b: bool)
      ensures b <==> this == TRUE
    {
      match this
      case TRUE => true
      case FALSE => false
      case UNDEFINED => false
    }
  }

  /** The host's command senders: players, the console, and any other sender kind. */
  datatype CommandSender =
    | PlayerSender(player: Player)
    | ConsoleSender
    | OtherSender(kind: string)

  /** The id and name LuckPerms gives every sender that is not a player. */
  const CONSOLE_UUID: Uuid := Uuid(0, 0)
  const CONSOLE_NAME: string := "Console"

  /** A player's own permission check, answered by the permission data LuckPerms holds for
      that player. */
  type PermissionCheck = (Player, string) -> Tristate

  function GetUniqueId(sender: CommandSender): (id: Uuid)
    ensures sender.PlayerSender? ==> id == sender.player.uuid
    ensures !sender.PlayerSender? ==> id == CONSOLE_UUID
  {
    if sender.PlayerSender? then sender.player.uuid else CONSOLE_UUID
  }

  function GetName(sender: CommandSender): (name: string)
    ensures sender.PlayerSender? ==> name == sender.player.username
    ensures !sender.PlayerSender? ==> name == CONSOLE_NAME
  {
    if sender.PlayerSender? then sender.player.username else CONSOLE_NAME
  }

  /** A player's answer comes from its permission data; every other sender is granted. */
  function GetPermissionValue(sender: CommandSender, node: string, check: PermissionCheck): (t: Tristate)
    ensures !sender.PlayerSender? ==> t == TRUE
    ensures sender.PlayerSender? ==> t == check(sender.player, node)
  {
    if sender.PlayerSender? then check(sender.player, node) else TRUE
  }

  /** Written as the short-circuit the host integration uses; it always agrees with the
      tristate answer. */
  function HasPermission(sender: CommandSender, node: string, check: PermissionCheck): (granted: bool)
    ensures granted == GetPermissionValue(sender, node, check).AsBoolean()
    ensures !sender.PlayerSender? ==> granted
  {
    !sender.PlayerSender? || check(sender.player, node).AsBoolean()
  }

  /** Only the host's console sender is the console; players and other kinds are not. */
  function IsConsole(sender: CommandSender): (r: bool)
    ensures r <==> sender == ConsoleSender
    ensures r ==> GetUniqueId(sender) == CONSOLE_UUID && GetName(sender) == CONSOLE_NAME
  {
    sender.ConsoleSender?
  }

  /** Being granted everything is not the same as being the console: a sender of another kind
      is not console, yet shares the console's id and name and passes every check. */
  lemma OtherSendersActAsConsole(kind: string, node: string, check: PermissionCheck)
    ensures var sender := OtherSender(kind);
      && !IsConsole(sender)
      && GetUniqueId(sender) == GetUniqueId(ConsoleSender)
      && GetName(sender) == GetName(ConsoleSender)
      && HasPermission(sender, node, check)
      && GetPermissionValue(sender, node, check) == TRUE
  {
  }

  /** A player is refused whenever its own data answers FALSE or UNDEFINED. */
  lemma UndecidedPlayerIsRefused(player: Player, node: string, check: PermissionCheck)
    requires check(player, node) != TRUE
    ensures !HasPermission(PlayerSender(player), node, check)
  {
  }
}
