/** The `warn` command's target checks (index.js:282-288) and the `warnings` table it appends
    to (index.js:37-44, 290-293), whose ids come from SQLite's AUTOINCREMENT counter. */
module Warnings {

  import opened Ids

  datatype Warning = Warning(id: nat, guild: GuildId, user: UserId, reason: string, moderator: UserId, timestamp: int)

  datatype TargetCheck = CannotWarnBot | CannotWarnSelf | TargetOk

  /** The bot itself is refused first, then the issuer; anyone else may be warned. */
  function CheckTarget(target: UserId, bot: UserId, issuer: UserId): (v: TargetCheck)
    ensures v == CannotWarnBot <==> target == bot
    ensures v == CannotWarnSelf <==> target != bot && target == issuer
    ensures v == TargetOk <==> target != bot && target != issuer
  {
    if target == bot then CannotWarnBot
    else if target == issuer then CannotWarnSelf
    else TargetOk
  }

  /** AUTOINCREMENT bookkeeping: `last` is the largest id ever handed out; every stored id is
      positive, at most `last`, and the ids grow along the table. */
  predicate IdsIssued(rows: seq<Warning>, last: nat)
  {
    && (forall i, j :: 0 <= i < j < |rows| ==> rows[i].id < rows[j].id)
    && (forall i :: 0 <= i < |rows| ==> 0 < rows[i].id <= last)
  }

  /** The INSERT of index.js:291-293: one new row whose id is one past the counter. */
  function Insert(rows: seq<Warning>, last: nat, g: GuildId, user: UserId, reason: string,
                  moderator: UserId, timestamp: int): (r: (seq<Warning>, nat))
    requires IdsIssued(rows, last)
    ensures |r.0| == |rows| + 1 && r.0[..|rows|] == rows
    ensures r.0[|rows|] == Warning(r.1, g, user, reason, moderator, timestamp)
    ensures forall w :: w in rows ==> w.id < r.0[|rows|].id
    ensures IdsIssued(r.0, r.1)
  {
    (rows + [Warning(last + 1, g, user, reason, moderator, timestamp)], last + 1)
  }
}
