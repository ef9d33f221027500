/**
 * The bot's secret and configuration objects: `Secret`, which holds the bot
 * token and never renders it, and `Config`, an in-memory JSON document with
 * typed accessors that writes the whole document back to config.json after
 * every change.
 */
module Variables {
  import opened Wrappers
  import opened Exceptions
  import opened Json
  import Discord

  // ---------------------------------------------------------------- Secret

  const TOKEN := "token"

  /** The only text either textual form of a `Secret` ever produces. */
  const REDACTED := "[OBFUSCATED]"

  /** secret.json, loaded, and the token taken from it. */
  datatype Secret = Secret(secrets: Document, token: JValue) {

    /** `repr(secret)`. */
    function Repr(): (text: string)
      ensures text == REDACTED
    {
      REDACTED
    }

    /** `str(secret)`. */
    function Str(): (text: string)
      ensures text == REDACTED
    {
      REDACTED
    }
  }

  /** Building a `Secret` from the parsed secret file; a missing "token" raises `KeyError`. */
  function LoadSecret(secrets: Document): (r: Result<Secret, Exception>)
    ensures r.Success? <==> TOKEN in secrets
    ensures r.Success? ==> r.value.secrets == secrets && r.value.token == secrets[TOKEN]
    ensures r.Failure? ==> r.error == KeyError(TOKEN)
  {
    if TOKEN in secrets then Success(Secret(secrets, secrets[TOKEN]))
    else Failure(KeyError(TOKEN))
  }

  /** The text forms of two secrets agree whatever their tokens: neither form depends on the token. */
  lemma TextFormsIgnoreToken(a: Secret, b: Secret)
    ensures a.Repr() == b.Repr() && a.Str() == b.Str()
    ensures a.Repr() == REDACTED && a.Str() == REDACTED
  {
  }

  // ---------------------------------------------------------------- Config keys and defaults

  const GUILD_ID := "guild_id"
  const TICKET_USERS := "ticket_users"
  const STAFF := "staff"
  const STAFF_PING := "staff_ping"
  const OPEN_MSG := "open_msg"
  const STAFF_TEAM := "staff_team"
  const MSG_DISCOVERY := "msg_discovery"
  const STRIP_BUTTONS := "strip_buttons"
  const COMMUNITY_ROLES := "community_roles"
  const OWNER_ID := "owner_id"

  const DEFAULT_TICKET_USERS: seq<int> := [508391840525975553]
  const DEFAULT_OPEN_MSG := "Staff notes for Ticket $channel."
  const DEFAULT_STAFF_TEAM := "Staff Team"
  const DEFAULT_OWNER: seq<int> := [414075045678284810]

  const OFFLINE_MESSAGE := "Use online config."
  const GUILD_NOT_FOUND_MESSAGE := "Guild Not Found"
  const UNHASHABLE_LIST_MESSAGE := "unhashable type: 'list'"

  // ---------------------------------------------------------------- Role filtering

  /**
   * The roles of `g` that the items resolve to, in item order; an item that
   * names no role of `g` is skipped.
   */
  function Resolved(g: Discord.Guild, items: seq<JValue>): (r: seq<Discord.Role>)
    ensures |r| <= |items|
    decreases |items|
  {
    if items == [] then []
    else
      var front := Resolved(g, items[..|items| - 1]);
      match Discord.GetRole(g, items[|items| - 1])
      case Some(role) => front + [role]
      case None => front
  }

  /** The positions of the items that name a role of `g`, in increasing order. */
  function ResolvedPositions(g: Discord.Guild, items: seq<JValue>): seq<nat>
    decreases |items|
  {
    if items == [] then []
    else
      ResolvedPositions(g, items[..|items| - 1])
      + (if Discord.GetRole(g, items[|items| - 1]).Some? then [|items| - 1] else [])
  }

  /**
   * `Resolved(g, items)` is the subsequence of resolvable items, each replaced
   * by its role: the j-th role comes from the item at the j-th position of
   * `ResolvedPositions`, the positions increase, and every item that resolves
   * has its position in the list (nothing resolvable is dropped).
   */
  lemma {:induction false} ResolvedIsOrderedSelection(g: Discord.Guild, items: seq<JValue>)
    ensures |ResolvedPositions(g, items)| == |Resolved(g, items)|
    ensures forall j :: 0 <= j < |ResolvedPositions(g, items)| ==>
      ResolvedPositions(g, items)[j] < |items| &&
      Discord.GetRole(g, items[ResolvedPositions(g, items)[j]]) == Some(Resolved(g, items)[j])
    ensures forall j, k :: 0 <= j < k < |ResolvedPositions(g, items)| ==>
      ResolvedPositions(g, items)[j] < ResolvedPositions(g, items)[k]
    ensures forall i :: 0 <= i < |items| && Discord.GetRole(g, items[i]).Some? ==>
      i in ResolvedPositions(g, items)
    decreases |items|
  {
    if items != [] {
      var n := |items| - 1;
      var front := items[..n];
      ResolvedIsOrderedSelection(g, front);
      forall i | 0 <= i < n
        ensures items[i] == front[i]
      {
      }
      var p := ResolvedPositions(g, front);
      assert forall j :: 0 <= j < |p| ==> p[j] < n;
    }
  }

  /** When no item names a role of `g`, nothing is resolved (and nothing fails). */
  lemma {:induction false} NothingResolves(g: Discord.Guild, items: seq<JValue>)
    requires forall i :: 0 <= i < |items| ==> Discord.GetRole(g, items[i]) == None
    ensures Resolved(g, items) == []
    decreases |items|
  {
    if items != [] {
      NothingResolves(g, items[..|items| - 1]);
    }
  }

  /** The ids of the given roles, in order (`[role.id for role in value]`). */
  function RoleIds(roles: seq<Discord.Role>): (ids: seq<int>)
    ensures |ids| == |roles|
    ensures forall i :: 0 <= i < |roles| ==> ids[i] == roles[i].id
  {
    seq(|roles|, i requires 0 <= i < |roles| => roles[i].id)
  }

  /** Every role is the one `g` holds under its id. */
  ghost predicate AllResolve(g: Discord.Guild, roles: seq<Discord.Role>)
  {
    forall i :: 0 <= i < |roles| ==> roles[i].id in g.roles && g.roles[roles[i].id] == roles[i]
  }

  /** Storing the ids of roles that all resolve, then resolving them, gives back those roles. */
  lemma {:induction false} ResolvedRoundTrip(g: Discord.Guild, roles: seq<Discord.Role>)
    requires AllResolve(g, roles)
    ensures Resolved(g, Items(RoleIds(roles))) == roles
    decreases |roles|
  {
    if roles != [] {
      var n := |roles| - 1;
      var items := Items(RoleIds(roles));
      assert items[..n] == Items(RoleIds(roles[..n]));
      ResolvedRoundTrip(g, roles[..n]);
      assert Discord.GetRole(g, items[n]) == Some(roles[n]);
      assert roles[..n] + [roles[n]] == roles;
    }
  }

  // ---------------------------------------------------------------- Config

  /**
   * Convenient access to config.json. `doc` is the in-memory document; `file`
   * is what config.json holds, `None` once it has been removed.
   */
  class Config {
    var doc: Document
    var file: Option<Document>
    const bot: Discord.Bot

    /** Opening the configuration: `loaded` is what config.json parsed to. */
    constructor (bot: Discord.Bot, loaded: Document)
      ensures this.bot == bot && doc == loaded && file == Some(loaded)
    {
      this.bot := bot;
      doc := loaded;
      file := Some(loaded);
    }

    /** The file holds exactly the in-memory document. */
    ghost predicate Persisted()
      reads this
    {
      file == Some(doc)
    }

    /** `update`: overwrite config.json with the whole in-memory document. */
    method Update()
      modifies this`file
      ensures Persisted()
    {
      file := Some(doc);
    }

    /** `self._config[key] = value; self.update()`, the body of every setter. */
    method Put(key: string, value: JValue)
      modifies this
      ensures doc == old(doc)[key := value]
      ensures Persisted()
    {
      doc := doc[key := value];
      Update();
    }

    /**
     * `dump`: remove config.json, keep only "guild_id", persist. The file is
     * removed before "guild_id" is read, so a missing "guild_id" leaves the
     * document as it was and the file gone; removing a file that is already
     * gone raises before anything changes.
     */
    method Dump() returns (r: Outcome<Exception>)
      modifies this
      ensures old(file) == None ==> r == Fail(FileNotFoundError) && doc == old(doc) && file == None
      ensures old(file) != None && GUILD_ID !in old(doc) ==>
        r == Fail(KeyError(GUILD_ID)) && doc == old(doc) && file == None
      ensures old(file) != None && GUILD_ID in old(doc) ==>
        r == Pass && doc == map[GUILD_ID := old(doc)[GUILD_ID]] && Persisted()
    {
      if file == None {
        return Fail(FileNotFoundError);
      }
      file := None;
      if GUILD_ID !in doc {
        return Fail(KeyError(GUILD_ID));
      }
      doc := map[GUILD_ID := doc[GUILD_ID]];
      Update();
      return Pass;
    }

    /**
     * The `guild` getter. A list under "guild_id" is unhashable, so the
     * client library's dict lookup raises `TypeError` before any guild is found.
     */
    function Guild(): (r: Result<Discord.Guild, Exception>)
      reads this
      ensures bot.Offline? ==> r == Failure(ValueError(OFFLINE_MESSAGE))
      ensures bot.Online? && GUILD_ID !in doc ==> r == Failure(KeyError(GUILD_ID))
      ensures bot.Online? && GUILD_ID in doc && doc[GUILD_ID].JIntList? ==>
        r == Failure(TypeError(UNHASHABLE_LIST_MESSAGE))
      ensures r.Success? ==>
        bot.Online? && GUILD_ID in doc && Discord.GetGuild(bot.guilds, doc[GUILD_ID]) == Some(r.value)
      ensures bot.Online? && GUILD_ID in doc && Discord.GetGuild(bot.guilds, doc[GUILD_ID]).Some? ==>
        r == Success(Discord.GetGuild(bot.guilds, doc[GUILD_ID]).value)
      ensures (bot.Online? && GUILD_ID in doc && !doc[GUILD_ID].JIntList? &&
               Discord.GetGuild(bot.guilds, doc[GUILD_ID]) == None) ==>
                r == Failure(ValueError(GUILD_NOT_FOUND_MESSAGE))
    {
      if bot.Offline? then Failure(ValueError(OFFLINE_MESSAGE))
      else if GUILD_ID !in doc then Failure(KeyError(GUILD_ID))
      else if doc[GUILD_ID].JIntList? then Failure(TypeError(UNHASHABLE_LIST_MESSAGE))
      else match Discord.GetGuild(bot.guilds, doc[GUILD_ID])
        case Some(g) => Success(g)
        case None => Failure(ValueError(GUILD_NOT_FOUND_MESSAGE))
    }

    /** The `guild` setter: store the guild's id. */
    method SetGuild(value: Discord.Guild)
      modifies this
      ensures doc == old(doc)[GUILD_ID := JInt(value.id)]
      ensures Persisted()
      ensures bot.Offline? ==> Guild() == Failure(ValueError(OFFLINE_MESSAGE))
      ensures bot.Online? && value.id in bot.guilds ==> Guild() == Success(bot.guilds[value.id])
      ensures bot.Online? && value.id !in bot.guilds ==>
        Guild() == Failure(ValueError(GUILD_NOT_FOUND_MESSAGE))
    {
      Put(GUILD_ID, JInt(value.id));
    }

    function TicketUsers(): (v: JValue)
      reads this
      ensures TICKET_USERS in doc ==> v == doc[TICKET_USERS]
      ensures TICKET_USERS !in doc ==> v == JIntList(DEFAULT_TICKET_USERS)
    {
      Get(doc, TICKET_USERS, JIntList(DEFAULT_TICKET_USERS))
    }

    method SetTicketUsers(value: seq<int>)
      modifies this
      ensures doc == old(doc)[TICKET_USERS := JIntList(value)]
      ensures Persisted()
      ensures TicketUsers() == JIntList(value)
    {
      Put(TICKET_USERS, JIntList(value));
    }

    /** `staff_ids`: the stored staff role ids, unresolved. */
    function StaffIds(): (v: JValue)
      reads this
      ensures STAFF in doc ==> v == doc[STAFF]
      ensures STAFF !in doc ==> v == JIntList([])
    {
      Get(doc, STAFF, JIntList([]))
    }

    /**
     * What the role getters return for a stored value: the roles its items
     * resolve to in the configured guild. An empty list needs no guild, so it
     * succeeds even offline; a non-empty list fails exactly as `guild` does.
     */
    function StoredRoles(stored: JValue): (r: Result<seq<Discord.Role>, Exception>)
      reads this
      ensures stored == JIntList([]) ==> r == Success([])
      ensures stored.JIntList? && stored.xs != [] && Guild().Failure? ==> r == Failure(Guild().error)
      ensures stored.JIntList? && Guild().Success? ==>
        r == Success(Resolved(Guild().value, Items(stored.xs))) && |r.value| <= |stored.xs|
      ensures stored.JStr? && stored.s != [] && Guild().Failure? ==> r == Failure(Guild().error)
      ensures stored.JStr? && (stored.s == [] || Guild().Success?) ==> r == Success([])
      ensures stored.JInt? ==> r == Failure(TypeError("'int' object is not iterable"))
      ensures stored.JBool? ==> r == Failure(TypeError("'bool' object is not iterable"))
    {
      match Iterate(stored)
      case Failure(e) => Failure(e)
      case Success(items) =>
        if items == [] then Success([])
        else match Guild()
          case Failure(e) => Failure(e)
          case Success(g) =>
            if stored.JStr? then
              // a one-character string never names a role
              NothingResolves(g, items);
              Success(Resolved(g, items))
            else Success(Resolved(g, items))
    }

    /** The loop shared by the `staff` and `community_roles` getters. */
    method ResolveStored(stored: JValue) returns (r: Result<seq<Discord.Role>, Exception>)
      ensures r == StoredRoles(stored)
    {
      var iterated := Iterate(stored);
      if iterated.Failure? {
        return Failure(iterated.error);
      }
      var items := iterated.value;
      var found: seq<Discord.Role> := [];
      var i := 0;
      while i < |items|
        invariant 0 <= i <= |items|
        invariant i == 0 ==> found == []
        invariant i > 0 ==> Guild().Success? && found == Resolved(Guild().value, items[..i])
      {
        var g := Guild();
        if g.Failure? {
          return Failure(g.error);
        }
        var role := Discord.GetRole(g.value, items[i]);
        if role.Some? {
          found := found + [role.value];
        }
        assert items[..i + 1][..i] == items[..i];
        i := i + 1;
      }
      assert items[..i] == items;
      return Success(found);
    }

    /** The `staff` getter. */
    method Staff() returns (r: Result<seq<Discord.Role>, Exception>)
      ensures r == StoredRoles(StaffIds())
    {
      r := ResolveStored(StaffIds());
    }

    /** The `staff` setter: store the ids of the given roles. */
    method SetStaff(value: seq<Discord.Role>)
      modifies this
      ensures doc == old(doc)[STAFF := JIntList(RoleIds(value))]
      ensures Persisted()
      ensures StaffIds() == JIntList(RoleIds(value))
    {
      Put(STAFF, JIntList(RoleIds(value)));
    }

    function StaffPing(): (v: JValue)
      reads this
      ensures STAFF_PING in doc ==> v == doc[STAFF_PING]
      ensures STAFF_PING !in doc ==> v == JBool(true)
    {
      Get(doc, STAFF_PING, JBool(true))
    }

    method SetStaffPing(value: bool)
      modifies this
      ensures doc == old(doc)[STAFF_PING := JBool(value)]
      ensures Persisted()
      ensures StaffPing() == JBool(value)
    {
      Put(STAFF_PING, JBool(value));
    }

    /** The `open_msg` getter: the template text the `Template` is built from. */
    function OpenMsg(): (v: JValue)
      reads this
      ensures OPEN_MSG in doc ==> v == doc[OPEN_MSG]
      ensures OPEN_MSG !in doc ==> v == JStr(DEFAULT_OPEN_MSG)
    {
      Get(doc, OPEN_MSG, JStr(DEFAULT_OPEN_MSG))
    }

    method SetOpenMsg(value: string)
      modifies this
      ensures doc == old(doc)[OPEN_MSG := JStr(value)]
      ensures Persisted()
      ensures OpenMsg() == JStr(value)
    {
      Put(OPEN_MSG, JStr(value));
    }

    function StaffTeam(): (v: JValue)
      reads this
      ensures STAFF_TEAM in doc ==> v == doc[STAFF_TEAM]
      ensures STAFF_TEAM !in doc ==> v == JStr(DEFAULT_STAFF_TEAM)
    {
      Get(doc, STAFF_TEAM, JStr(DEFAULT_STAFF_TEAM))
    }

    method SetStaffTeam(value: string)
      modifies this
      ensures doc == old(doc)[STAFF_TEAM := JStr(value)]
      ensures Persisted()
      ensures StaffTeam() == JStr(value)
    {
      Put(STAFF_TEAM, JStr(value));
    }

    function MsgDiscovery(): (v: JValue)
      reads this
      ensures MSG_DISCOVERY in doc ==> v == doc[MSG_DISCOVERY]
      ensures MSG_DISCOVERY !in doc ==> v == JBool(true)
    {
      Get(doc, MSG_DISCOVERY, JBool(true))
    }

    method SetMsgDiscovery(value: bool)
      modifies this
      ensures doc == old(doc)[MSG_DISCOVERY := JBool(value)]
      ensures Persisted()
      ensures MsgDiscovery() == JBool(value)
    {
      Put(MSG_DISCOVERY, JBool(value));
    }

    function StripButtons(): (v: JValue)
      reads this
      ensures STRIP_BUTTONS in doc ==> v == doc[STRIP_BUTTONS]
      ensures STRIP_BUTTONS !in doc ==> v == JBool(true)
    {
      Get(doc, STRIP_BUTTONS, JBool(true))
    }

    method SetStripButtons(value: bool)
      modifies this
      ensures doc == old(doc)[STRIP_BUTTONS := JBool(value)]
      ensures Persisted()
      ensures StripButtons() == JBool(value)
    {
      Put(STRIP_BUTTONS, JBool(value));
    }

    /** `community_roles_ids`: the stored community role ids, unresolved. */
    function CommunityRolesIds(): (v: JValue)
      reads this
      ensures COMMUNITY_ROLES in doc ==> v == doc[COMMUNITY_ROLES]
      ensures COMMUNITY_ROLES !in doc ==> v == JIntList([])
    {
      Get(doc, COMMUNITY_ROLES, JIntList([]))
    }

    /** The `community_roles` getter. */
    method CommunityRoles() returns (r: Result<seq<Discord.Role>, Exception>)
      ensures r == StoredRoles(CommunityRolesIds())
    {
      r := ResolveStored(CommunityRolesIds());
    }

    /** The `community_roles` setter: store the ids of the given roles. */
    method SetCommunityRoles(value: seq<Discord.Role>)
      modifies this
      ensures doc == old(doc)[COMMUNITY_ROLES := JIntList(RoleIds(value))]
      ensures Persisted()
      ensures CommunityRolesIds() == JIntList(RoleIds(value))
    {
      Put(COMMUNITY_ROLES, JIntList(RoleIds(value)));
    }

    /** The `owner` getter, which reads key "owner_id". */
    function Owner(): (v: JValue)
      reads this
      ensures OWNER_ID in doc ==> v == doc[OWNER_ID]
      ensures OWNER_ID !in doc ==> v == JIntList(DEFAULT_OWNER)
    {
      Get(doc, OWNER_ID, JIntList(DEFAULT_OWNER))
    }

    /** The `owner` setter, which writes the key its getter reads. */
    method SetOwner(value: seq<int>)
      modifies this
      ensures doc == old(doc)[OWNER_ID := JIntList(value)]
      ensures Persisted()
      ensures Owner() == JIntList(value)
    {
      Put(OWNER_ID, JIntList(value));
    }
  }

  // ---------------------------------------------------------------- Properties across calls

  /**
   * Role getters after a role setter: once the ids of `roles` are stored and
   * the guild resolves every one of them to itself, resolving the stored ids
   * gives back exactly `roles`, in order.
   */
  lemma RolesRoundTrip(c: Config, g: Discord.Guild, roles: seq<Discord.Role>)
    requires c.Guild() == Success(g)
    requires AllResolve(g, roles)
    ensures c.StoredRoles(JIntList(RoleIds(roles))) == Success(roles)
  {
    ResolvedRoundTrip(g, roles);
  }

  /**
   * The role getters never fail because of ids that do not resolve: once the
   * guild resolves, a stored id list always yields a role list, no longer than
   * the list and in its order, holding exactly the roles of the ids that resolve.
   */
  lemma RolesAreOrderedSelection(c: Config, ids: seq<int>)
    requires c.Guild().Success?
    ensures c.StoredRoles(JIntList(ids)).Success?
    ensures var roles, g := c.StoredRoles(JIntList(ids)).value, c.Guild().value;
      |roles| <= |ids| &&
      |ResolvedPositions(g, Items(ids))| == |roles| &&
      (forall j :: 0 <= j < |roles| ==>
        ResolvedPositions(g, Items(ids))[j] < |ids| &&
        ids[ResolvedPositions(g, Items(ids))[j]] in g.roles &&
        g.roles[ids[ResolvedPositions(g, Items(ids))[j]]] == roles[j]) &&
      (forall j, k :: 0 <= j < k < |roles| ==>
        ResolvedPositions(g, Items(ids))[j] < ResolvedPositions(g, Items(ids))[k]) &&
      (forall i :: 0 <= i < |ids| && ids[i] in g.roles ==> i in ResolvedPositions(g, Items(ids)))
  {
    var g := c.Guild().value;
    ResolvedIsOrderedSelection(g, Items(ids));
  }

  /** A document without the keys reads as the defaults, and reading it changes nothing. */
  lemma DefaultsOfEmptyDocument(c: Config)
    requires c.doc == map[]
    ensures c.TicketUsers() == JIntList([508391840525975553])
    ensures c.StaffIds() == JIntList([]) && c.CommunityRolesIds() == JIntList([])
    ensures c.StaffPing() == JBool(true) && c.MsgDiscovery() == JBool(true) && c.StripButtons() == JBool(true)
    ensures c.OpenMsg() == JStr("Staff notes for Ticket $channel.")
    ensures c.StaffTeam() == JStr("Staff Team")
    ensures c.Owner() == JIntList([414075045678284810])
    ensures c.StoredRoles(c.StaffIds()) == Success([])
    ensures c.StoredRoles(c.CommunityRolesIds()) == Success([])
  {
  }
}
