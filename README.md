# Tickets-Plus configuration layer, in Dafny

This project models `variables.py` of the Tickets-Plus chat bot: the `Secret`
object that carries the bot token, and the `Config` object that gives typed
access to the bot's JSON configuration and writes the whole document back to
`config.json` after every change.

- `Json` holds the JSON values the files contain, Python's `dict.get`, and
  what a Python `for` loop visits when it iterates over a stored value.
- `Discord` stands in for the client library: a bot is `Offline` (the string
  `"offline"`) or `Online` with its guilds. `get_guild` and `get_role` are
  partial lookups keyed the way a Python `int`-keyed dict is: `True`/`False`
  denote 1/0, and a string finds nothing. A list is unhashable, so a list
  under `"guild_id"` makes the `guild` getter raise `TypeError`.
- `Exceptions` lists the Python exceptions the layer raises: `KeyError`,
  `ValueError`, `TypeError` and `FileNotFoundError`. The fallible operations
  return them in a `Result` or an `Outcome`.
- `Variables` holds the model proper:
  - `Secret` is a value. Its `Repr` and `Str` return `"[OBFUSCATED]"` whatever the token is.
  - `Config` is a class. `doc` is `_config`; `file` is the content of
    `config.json`, or `None` once it has been removed; `bot` is fixed at
    construction.
  - Each scalar getter is a function that reads `doc`. Reading therefore
    cannot insert a default into the document. The `staff` and
    `community_roles` getters are methods with no `modifies` clause, so
    they cannot change it either.
  - Each setter is a method. Its contract states the new document: the old
    one with exactly one key replaced. It also states that the file then
    holds the whole document (`Persisted`), and what the matching getter
    then returns: the value just written for the scalar and id-list
    getters, and for `guild` the bot's guild under the stored id, or the
    offline or not-found error.

The getters return the stored JSON value as it is, because `dict.get` checks
no types. The `staff` and `community_roles` getters resolve the stored ids
through the configured guild, evaluating `guild` on each step of the loop as
the source does. They skip ids that name no role. An empty list succeeds
without consulting `guild`, so it also succeeds offline. A non-empty list fails
exactly as `guild` fails. A stored string is iterated character by character,
and a character never names a role. A stored number or boolean raises
`TypeError`.

`dump` removes the file (variables.py:65) before it reads `"guild_id"`
(variables.py:66). So when `"guild_id"` is missing it raises `KeyError` with
the document unchanged and the file gone. When the file is already gone
(after such a failed `dump`), `os.remove` raises `FileNotFoundError` before
anything changes.

## Model

| member | source | states |
|---|---|---|
| `Variables.LoadSecret` | variables.py:32-36 | construction succeeds exactly when the secret document has `"token"`, and then keeps that value as the token; otherwise it raises `KeyError("token")` |
| `Variables.Secret.Repr` | variables.py:38-39 | `repr` of a secret is `"[OBFUSCATED]"` |
| `Variables.Secret.Str` | variables.py:41-42 | `str` of a secret is `"[OBFUSCATED]"` |
| `Variables.TextFormsIgnoreToken` | variables.py:38-42 | any two secrets have the same text forms, whatever their tokens, so the token never reaches the text |
| `Variables.Config.constructor` | variables.py:48-52 | the document is the loaded file content, the file holds it, and the bot (or offline mode) is recorded |
| `Variables.Config.Update` | variables.py:57-61 | afterwards the file holds exactly the in-memory document, replaced as a whole; the document is unchanged |
| `Variables.Config.Put` | variables.py:93-94 | replaces one key of the document and leaves every other key as it was, then persists the whole document |
| `Variables.Config.Dump` | variables.py:63-67 | with `"guild_id"` present: the document becomes `{"guild_id": g}` with the prior `g`, and it is persisted; without it: `KeyError`, document unchanged, file removed; with the file already gone: `FileNotFoundError`, nothing changed |
| `Variables.Config.Guild` | variables.py:69-77 | offline: `ValueError("Use online config.")`; no `"guild_id"`: `KeyError`; a list under it: `TypeError("unhashable type: 'list'")`; no guild under that id: `ValueError("Guild Not Found")`; a guild found under that id is returned, and only such a guild |
| `Variables.Config.SetGuild` | variables.py:79-83 | stores the guild's id under `"guild_id"` only and persists; afterwards `guild` returns the bot's guild with that id, or the offline or not-found error |
| `Variables.Config.TicketUsers` | variables.py:85-88 | the stored `"ticket_users"`, or `[508391840525975553]` when absent |
| `Variables.Config.SetTicketUsers` | variables.py:90-94 | replaces only `"ticket_users"`, persists, and the getter then returns the list written |
| `Variables.Config.StoredRoles` | variables.py:96-104 | an empty stored list gives no roles even offline; a non-empty list fails as `guild` fails; with a guild, the ids' roles in order and never more roles than ids; a non-empty string fails as `guild` fails and otherwise gives no roles; a number or boolean raises Python's "object is not iterable" `TypeError` |
| `Variables.Config.ResolveStored` | variables.py:99-104 | the resolving loop returns exactly `StoredRoles` of the stored value, including its error paths |
| `Variables.Config.Staff` | variables.py:96-104 | the `staff` getter is `StoredRoles` of the stored `"staff"` ids |
| `Variables.Config.StaffIds` | variables.py:106-109 | the stored `"staff"` ids, unresolved, or `[]` when absent |
| `Variables.Config.SetStaff` | variables.py:111-115 | stores the roles' ids in order under `"staff"` only, persists, and `staff_ids` then equals that id list |
| `Variables.Config.StaffPing` | variables.py:117-120 | the stored `"staff_ping"`, or `true` when absent |
| `Variables.Config.SetStaffPing` | variables.py:122-126 | replaces only `"staff_ping"`, persists, and the getter then returns the value written |
| `Variables.Config.OpenMsg` | variables.py:128-133 | the stored `"open_msg"` template text, or `"Staff notes for Ticket $channel."` when absent |
| `Variables.Config.SetOpenMsg` | variables.py:135-139 | replaces only `"open_msg"`, persists, and the getter then returns the text written |
| `Variables.Config.StaffTeam` | variables.py:141-144 | the stored `"staff_team"`, or `"Staff Team"` when absent |
| `Variables.Config.SetStaffTeam` | variables.py:146-150 | replaces only `"staff_team"`, persists, and the getter then returns the name written |
| `Variables.Config.MsgDiscovery` | variables.py:152-155 | the stored `"msg_discovery"`, or `true` when absent |
| `Variables.Config.SetMsgDiscovery` | variables.py:157-161 | replaces only `"msg_discovery"`, persists, and the getter then returns the value written |
| `Variables.Config.StripButtons` | variables.py:163-166 | the stored `"strip_buttons"`, or `true` when absent |
| `Variables.Config.SetStripButtons` | variables.py:168-172 | replaces only `"strip_buttons"`, persists, and the getter then returns the value written |
| `Variables.Config.CommunityRoles` | variables.py:174-182 | the `community_roles` getter is `StoredRoles` of the stored `"community_roles"` ids |
| `Variables.Config.CommunityRolesIds` | variables.py:184-187 | the stored `"community_roles"` ids, unresolved, or `[]` when absent |
| `Variables.Config.SetCommunityRoles` | variables.py:189-193 | stores the roles' ids in order under `"community_roles"` only, persists, and `community_roles_ids` then equals that id list |
| `Variables.Config.Owner` | variables.py:195-198 | the stored `"owner_id"`, or `[414075045678284810]` when absent |
| `Variables.Config.SetOwner` | variables.py:200-204 | writes `"owner_id"`, the key the getter reads, and nothing else; persists; the getter then returns the list written |
| `Variables.Resolved` | variables.py:99-103 | the roles the stored items resolve to, never more than there are items |
| `Variables.ResolvedIsOrderedSelection` | variables.py:99-103 | the resolved roles are a subsequence: the j-th role comes from the j-th resolvable item, positions increase, and no resolvable item is dropped |
| `Variables.NothingResolves` | variables.py:101-103 | when no item names a role, the result is empty and nothing fails |
| `Variables.RoleIds` | variables.py:114 | the role ids in the roles' order, one per role |
| `Variables.ResolvedRoundTrip` | variables.py:99-114 | resolving the stored ids of roles that the guild holds under their ids gives back those roles, in order |
| `Variables.RolesRoundTrip` | variables.py:96-115 | after a role setter stores the ids of roles the configured guild holds, the role getter returns exactly those roles |
| `Variables.RolesAreOrderedSelection` | variables.py:96-104 | with a resolvable guild, a stored id list never fails; it yields no more roles than ids, in stored order, exactly the roles of the ids that resolve |
| `Variables.DefaultsOfEmptyDocument` | variables.py:85-198 | on an empty document every getter returns its default, and the role getters return no roles without consulting the guild |
| `Json.Iterate` | variables.py:100 | a list visits its integers in order; a string visits its characters; a number or boolean raises Python's "object is not iterable" `TypeError` |
| `Discord.KeyOf` | variables.py:74 | an int is its own dict key; `True`/`False` are keys 1/0; a string matches no integer key |

## Left out

- File I/O and JSON encoding (`open`, `json.load`, `json.dump(..., indent=4)`, `truncate`, `os.remove`): the file is the `file` field. Its content is the document itself, not its text, and the loaded document is a constructor argument. Read, parse, write and permission errors are not modelled.
- The loaded secret document is an argument of `LoadSecret`; reading and parsing `secret.json` are not modelled.
- Discord.KeyOf: gives no key for a list instead of raising; no lookup in the model reaches it with a list, because `Config.Guild` raises the unhashable-type `TypeError` first and the role loop only looks up ints and one-character strings.
- JSON values other than integers, booleans, strings and integer lists (floats, null, nested objects, mixed lists) are not modelled.
- `string.Template` substitution: `OpenMsg` returns the stored template text, not a `Template` object.
- Aliasing: the getters in the source return the stored list object itself, and the `ticket_users` and `owner` setters store the caller's list (the `staff` and `community_roles` setters store a fresh list of ids). Later mutation of either list changes `_config` without persisting it. The model works on values.
- Logging setup, Discord intents, `VERSION`, `PROG_DIR` and the `__dict__` override: module-level configuration and trivial accessors, not logic.
- The internals of `commands.Bot.get_guild`, `Guild.get_role` and the `isinstance` checks: they are partial map lookups here.
- The bot's guilds and their roles are fixed for the life of a `Config` (`bot` is a `const`): the platform adding or deleting guilds or roles between calls is not modelled, so the contracts do not distinguish resolving afresh on every read, as the source does, from resolving once.
- Concurrent or external modification of `config.json` is not modelled; the source assumes one synchronous process.
