/** The `permissions` table (index.js:29-34), the authorization gate `hasPermission`
    (index.js:349-358) and the effect of the `perm` command on the table (index.js:231-255).
    The table's primary key is the whole row, so it is a set of rules. */
module Permissions {

  import opened Ids

  datatype Rule = Rule(guild: GuildId, command: CommandName, role: RoleId)

  /** The WHERE clause of a SELECT: the guild, and the command when one is given. */
  predicate Matches(r: Rule, g: GuildId, c: Option<CommandName>)
  {
    r.guild == g && (c.Some? ==> r.command == c.value)
  }

  predicate Distinct<T(==)>(s: seq<T>)
  {
    forall i, j :: 0 <= i < j < |s| ==> s[i] != s[j]
  }

  /** A SELECT over the table: every matching row once, in an order the database picks. */
  method Select(table: set<Rule>, g: GuildId, c: Option<CommandName>) returns (rows: seq<Rule>)
    ensures Distinct(rows)
    ensures forall r :: r in rows <==> r in table && Matches(r, g, c)
  {
    var pending := set r | r in table && Matches(r, g, c);
    rows := [];
    while pending != {}
      invariant forall r :: r in pending ==> r in table && Matches(r, g, c)
      invariant forall r :: r in rows <==> r in table && Matches(r, g, c) && r !in pending
      invariant Distinct(rows)
      decreases pending
    {
      var r :| r in pending;
      rows := rows + [r];
      pending := pending - {r};
    }
  }

  /** The role ids of some rows, in order (`rows.map(r => r.roleId)`). */
  function RoleColumn(rows: seq<Rule>): (roles: seq<RoleId>)
    ensures |roles| == |rows|
    ensures forall i :: 0 <= i < |rows| ==> roles[i] == rows[i].role
  {
    if rows == [] then [] else [rows[0].role] + RoleColumn(rows[1..])
  }

  /** `rows.some(r => member.roles.cache.has(r.roleId))`. */
  function AnyHeld(rows: seq<RoleId>, held: set<RoleId>): (b: bool)
    ensures b <==> exists i :: 0 <= i < |rows| && rows[i] in held
  {
    if rows == [] then false else rows[0] in held || AnyHeld(rows[1..], held)
  }

  /** The decision of hasPermission over the role ids the query returned: no rows means no
      restriction; otherwise one of the rows' roles must be held. */
  function HasPermission(rows: seq<RoleId>, held: set<RoleId>): (allowed: bool)
    ensures allowed <==> |rows| == 0 || exists i :: 0 <= i < |rows| && rows[i] in held
  {
    |rows| == 0 || AnyHeld(rows, held)
  }

  /** The roles that rules restrict a command of a guild to. */
  function RolesFor(rules: set<Rule>, g: GuildId, c: CommandName): set<RoleId>
  {
    set r | r in rules && r.guild == g && r.command == c :: r.role
  }

  /** The authorization policy stated over the rule set: a command nobody restricted is open
      to everyone; a restricted one is open to members holding one of its roles. */
  predicate Authorized(rules: set<Rule>, g: GuildId, c: CommandName, held: set<RoleId>)
  {
    RolesFor(rules, g, c) == {} || RolesFor(rules, g, c) * held != {}
  }

  /** The gate's decision over the rows of its query is the policy over the rule set,
      whatever order the database returns the rows in. */
  lemma HasPermissionIsAuthorized(rules: set<Rule>, g: GuildId, c: CommandName, rows: seq<Rule>, held: set<RoleId>)
    requires forall r :: r in rows <==> r in rules && Matches(r, g, Some(c))
    ensures HasPermission(RoleColumn(rows), held) <==> Authorized(rules, g, c, held)
  {
    var roles := RoleColumn(rows);
    if HasPermission(roles, held) {
      if |roles| != 0 {
        var i :| 0 <= i < |roles| && roles[i] in held;
        assert rows[i] in rules && roles[i] == rows[i].role;
        assert roles[i] in RolesFor(rules, g, c) * held;
      }
    } else {
      assert |rows| > 0;
      assert rows[0].role in RolesFor(rules, g, c);
      forall x | x in RolesFor(rules, g, c)
        ensures x !in held
      {
        var r :| r in rules && r.guild == g && r.command == c && r.role == x;
        assert r in rows;
        var i :| 0 <= i < |rows| && rows[i] == r;
        assert roles[i] == x;
      }
    }
  }

  /** The arguments of the `perm` command; a missing option is None. */
  datatype PermArgs = PermArgs(
    reset: Option<bool>,
    role: Option<RoleId>,
    permission: Option<CommandName>,
    toggle: Option<string>)

  /** Which branch of the `perm` handler runs. */
  datatype PermAction =
    | ResetAll
    | MissingArguments
    | AllowRole(role: RoleId, command: CommandName)
    | DenyRole(role: RoleId, command: CommandName)

  /** Branch selection of index.js:232-254: `reset` wins; then every one of role, permission and
      toggle must be truthy; a toggle other than "allow" deletes. */
  function PermDecision(args: PermArgs): (a: PermAction)
    ensures a.ResetAll? <==> args.reset == Some(true)
    ensures a.MissingArguments? <==>
      args.reset != Some(true) && (args.role.None? || !Truthy(args.permission) || !Truthy(args.toggle))
    ensures a.AllowRole? ==> args.toggle == Some("allow") && a.role == args.role.value && a.command == args.permission.value
    ensures a.DenyRole? ==> args.toggle != Some("allow") && a.role == args.role.value && a.command == args.permission.value
  {
    if args.reset == Some(true) then ResetAll
    else if args.role.None? || !Truthy(args.permission) || !Truthy(args.toggle) then MissingArguments
    else if args.toggle.value == "allow" then AllowRole(args.role.value, args.permission.value)
    else DenyRole(args.role.value, args.permission.value)
  }

  /** The table after the statement a `perm` branch runs for guild `g`: rows of other guilds
      are kept; reset removes every row of `g`; allow adds its row, deny removes it, and
      neither touches any other row. */
  function ApplyPerm(rules: set<Rule>, g: GuildId, a: PermAction): (after: set<Rule>)
    ensures forall r: Rule :: r.guild != g ==> (r in after <==> r in rules)
    ensures a.ResetAll? ==> forall r :: r in after ==> r.guild != g
    ensures a.MissingArguments? ==> after == rules
    ensures a.AllowRole? ==> Rule(g, a.command, a.role) in after
    ensures a.DenyRole? ==> Rule(g, a.command, a.role) !in after
    ensures (a.AllowRole? || a.DenyRole?) ==>
      forall r: Rule :: r != Rule(g, a.command, a.role) ==> (r in after <==> r in rules)
  {
    match a
    case ResetAll => set r | r in rules && r.guild != g
    case MissingArguments => rules
    case AllowRole(role, c) => rules + {Rule(g, c, role)}
    case DenyRole(role, c) => rules - {Rule(g, c, role)}
  }

  /** INSERT OR IGNORE of a rule already present, and DELETE of a rule not present, leave
      the table as it was. */
  lemma AllowPresentDenyAbsentNoop(rules: set<Rule>, g: GuildId, role: RoleId, c: CommandName)
    ensures Rule(g, c, role) in rules ==> ApplyPerm(rules, g, AllowRole(role, c)) == rules
    ensures Rule(g, c, role) !in rules ==> ApplyPerm(rules, g, DenyRole(role, c)) == rules
  {
  }

  /** Allowing a rule that was absent and then denying it restores the table exactly, and
      with it every authorization decision. */
  lemma AllowThenDenyRestores(rules: set<Rule>, g: GuildId, role: RoleId, c: CommandName)
    requires Rule(g, c, role) !in rules
    ensures ApplyPerm(ApplyPerm(rules, g, AllowRole(role, c)), g, DenyRole(role, c)) == rules
  {
  }

  /** A `perm` call without reset and without all of role, command and toggle changes nothing. */
  lemma MissingArgumentsNoop(rules: set<Rule>, g: GuildId, args: PermArgs)
    requires args.reset != Some(true)
    requires args.role.None? || !Truthy(args.permission) || !Truthy(args.toggle)
    ensures ApplyPerm(rules, g, PermDecision(args)) == rules
  {
  }

  /** `perm reset` removes every rule of the guild and no rule of another guild; afterwards
      every command of the guild is open to every member. */
  lemma ResetOpensGuild(rules: set<Rule>, g: GuildId)
    ensures forall r :: r in ApplyPerm(rules, g, ResetAll) <==> r in rules && r.guild != g
    ensures forall c, held :: Authorized(ApplyPerm(rules, g, ResetAll), g, c, held)
  {
  }

  /** A `perm` call in one guild never changes an authorization decision in another. */
  lemma PermIsGuildLocal(rules: set<Rule>, g: GuildId, a: PermAction, h: GuildId, c: CommandName, held: set<RoleId>)
    requires h != g
    ensures Authorized(ApplyPerm(rules, g, a), h, c, held) == Authorized(rules, h, c, held)
  {
  }

  /** The first `allow` on an unrestricted command closes it to everyone without the role,
      and opens it to holders of the role. */
  lemma FirstAllowRestricts(rules: set<Rule>, g: GuildId, role: RoleId, c: CommandName, held: set<RoleId>)
    requires RolesFor(rules, g, c) == {}
    ensures Authorized(ApplyPerm(rules, g, AllowRole(role, c)), g, c, held) <==> role in held
  {
    assert RolesFor(ApplyPerm(rules, g, AllowRole(role, c)), g, c) == {role};
  }

  /** Denying the last role of a command reopens it to everyone. */
  lemma DenyLastRoleOpens(rules: set<Rule>, g: GuildId, role: RoleId, c: CommandName, held: set<RoleId>)
    requires RolesFor(rules, g, c) == {role}
    ensures Authorized(ApplyPerm(rules, g, DenyRole(role, c)), g, c, held)
  {
    var after := ApplyPerm(rules, g, DenyRole(role, c));
    forall r | r in rules && r.guild == g && r.command == c
      ensures r == Rule(g, c, role)
    {
      assert r.role in RolesFor(rules, g, c);
    }
    assert RolesFor(after, g, c) == {};
  }

  /** Allowing a role never takes access away from a member who holds it. */
  lemma AllowAdmitsHolder(rules: set<Rule>, g: GuildId, role: RoleId, c: CommandName, held: set<RoleId>)
    requires role in held
    ensures Authorized(ApplyPerm(rules, g, AllowRole(role, c)), g, c, held)
  {
    assert role in RolesFor(ApplyPerm(rules, g, AllowRole(role, c)), g, c) * held;
  }
}
