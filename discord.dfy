/**
 * Stand-ins for the messaging-platform client types the configuration layer
 * consults: a bot (or the literal "offline"), its guilds, and their roles.
 * Only the two lookups the configuration layer uses are modelled, as partial maps.
 */
module Discord {
  import opened Wrappers
  import opened Json

  datatype Role = Role(id: int, name: string)

  datatype Guild = Guild(id: int, roles: map<int, Role>)

  /** `commands.Bot` with the guilds it can see, or the string "offline". */
  datatype Bot = Offline | Online(guilds: map<int, Guild>)

  /**
   * The integer dictionary key a JSON value denotes when it is used to look up
   * an integer-keyed Python dict: an int is itself, `True`/`False` hash and
   * compare as 1/0, and a string never equals an integer key. A list is
   * unhashable, so Python raises before looking it up; `Config.Guild` raises
   * that `TypeError` itself, and role lookups only ever see ints and strings.
   */
  function KeyOf(v: JValue): (k: Option<int>)
    ensures v.JInt? ==> k == Some(v.i)
    ensures v.JBool? ==> k == Some(if v.b then 1 else 0)
    ensures v.JStr? || v.JIntList? ==> k == None
  {
    match v
    case JInt(i) => Some(i)
    case JBool(b) => Some(if b then 1 else 0)
    case _ => None
  }

  /** `bot.get_guild(key)`: the guild stored under the key, or nothing. */
  function GetGuild(guilds: map<int, Guild>, key: JValue): Option<Guild>
  {
    match KeyOf(key)
    case Some(k) => if k in guilds then Some(guilds[k]) else None
    case None => None
  }

  /** `guild.get_role(key)`: the role stored under the key, or nothing. */
  function GetRole(g: Guild, key: JValue): Option<Role>
  {
    match KeyOf(key)
    case Some(k) => if k in g.roles then Some(g.roles[k]) else None
    case None => None
  }
}
