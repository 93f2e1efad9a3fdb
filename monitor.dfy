/** One run of the monitoring interval (index.js:98-140): for each guild with a status
    channel, in the order the guilds were first set up, the reconcile step that posts an
    offline notice, edits the cached status card, or posts a new card and caches its id.
    Everything the step learns from the outside world (the channel lookup, the status API
    answer, whether the edit went through, the id of a posted message) is a Probe. */
module Monitor {

  import opened Ids
  import opened Status

  /** `client.channels.fetch(channelId)`: a channel, null, or a rejected promise. */
  datatype ChannelLookup = ChannelFound | ChannelNull | LookupFailed

  /** The status API call: a rejected fetch or unparsable body, or the parsed JSON
      (None when the body is `null`). */
  datatype Fetch = FetchFailed | Fetched(data: Option<StatusData>)

  /** `channel.send(...)`: the id of the posted message, or a rejected promise. */
  datatype Delivery = Delivered(id: MessageId) | Undelivered

  /** What the outside world answers to one guild's step of one tick. `editSucceeds` covers
      both fetching the cached message and editing it. */
  datatype Probe = Probe(channel: ChannelLookup, fetch: Fetch, editSucceeds: bool, send: Delivery)

  /** A gateway call the step issues. `EditCard` stands for the whole attempt on the cached
      card, fetching the message and then editing it (index.js:126-128); when either part
      fails it is followed by a `PostCard`. */
  datatype Call =
    | PostNotice(guild: GuildId, channel: ChannelId, host: string)
    | EditCard(guild: GuildId, channel: ChannelId, message: MessageId, card: Card)
    | PostCard(guild: GuildId, channel: ChannelId, card: Card)

  /** The calls one guild's step issues and the guild's cached card id after it. */
  datatype Step = Step(calls: seq<Call>, cache: Option<MessageId>)

  function Posts(calls: seq<Call>): nat
  {
    if calls == [] then 0 else (if calls[0].EditCard? then 0 else 1) + Posts(calls[1..])
  }

  function Edits(calls: seq<Call>): nat
  {
    if calls == [] then 0 else (if calls[0].EditCard? then 1 else 0) + Edits(calls[1..])
  }

  /** `monitoringStatus.get(guildId)` is truthy: a guild without an entry counts as off. */
  function Enabled(monitoring: map<GuildId, bool>, g: GuildId): (on: bool)
    ensures g !in monitoring ==> !on
    ensures g in monitoring ==> on == monitoring[g]
  {
    g in monitoring && monitoring[g]
  }

  /** `statusCache.get(guildId)`. */
  function CachedOf(cache: map<GuildId, MessageId>, g: GuildId): Option<MessageId>
  {
    if g in cache then Some(cache[g]) else None
  }

  /** `statusCache.set(guildId, id)` when there is an id to store. */
  function Store(cache: map<GuildId, MessageId>, g: GuildId, v: Option<MessageId>): (r: map<GuildId, MessageId>)
    ensures CachedOf(r, g) == (if v.Some? then v else CachedOf(cache, g))
    ensures forall h :: h != g ==> CachedOf(r, h) == CachedOf(cache, h)
  {
    if v.Some? then cache[g := v.value] else cache
  }

  /** The edit-or-post part of a step (index.js:123-135): edit the cached card when there is
      one and the edit goes through; otherwise post a new card and cache its id once it is
      delivered. */
  function CardStep(g: GuildId, channel: ChannelId, cached: Option<MessageId>, card: Card, p: Probe): (s: Step)
    ensures forall c :: c in s.calls ==> c.guild == g && c.channel == channel
    ensures forall c :: c in s.calls && c.EditCard? ==> cached == Some(c.message)
    ensures Posts(s.calls) <= 1 && Edits(s.calls) <= 1
    ensures s.cache != cached ==> p.send.Delivered? && s.cache == Some(p.send.id)
    ensures s.cache != cached ==> |s.calls| > 0 && s.calls[|s.calls| - 1].PostCard?
  {
    if cached.Some? && p.editSucceeds then Step([EditCard(g, channel, cached.value, card)], cached)
    else
      var next := if p.send.Delivered? then Some(p.send.id) else cached;
      if cached.Some? then
        var calls := [EditCard(g, channel, cached.value, card), PostCard(g, channel, card)];
        assert calls[1..] == [PostCard(g, channel, card)] && calls[1..][1..] == [];
        assert Edits(calls[1..]) == 0 && Posts(calls[1..]) == 1;
        Step(calls, next)
      else Step([PostCard(g, channel, card)], next)
  }

  /** The posting path of the edit-or-post part: an edit of the cached id when there is one,
      then the post. */
  lemma CardStepPosts(g: GuildId, channel: ChannelId, cached: Option<MessageId>, card: Card, p: Probe)
    requires cached.None? || !p.editSucceeds
    ensures var s := CardStep(g, channel, cached, card, p);
      && Posts(s.calls) == 1
      && s.calls == (if cached.Some? then [EditCard(g, channel, cached.value, card)] else []) + [PostCard(g, channel, card)]
      && s.cache == (if p.send.Delivered? then Some(p.send.id) else cached)
  {
    var s := CardStep(g, channel, cached, card, p);
    if cached.Some? {
      assert s.calls == [EditCard(g, channel, cached.value, card), PostCard(g, channel, card)];
    } else {
      assert s.calls == [PostCard(g, channel, card)];
    }
  }

  /** The body of the loop of index.js:99-139 for one guild. A rejected promise anywhere
      is caught per guild (index.js:136-138): the step ends with the calls issued so far
      and the cache as it was. */
  function Reconcile(g: GuildId, enabled: bool, channel: ChannelId, cached: Option<MessageId>, p: Probe): (s: Step)
    ensures forall c :: c in s.calls ==> c.guild == g && c.channel == channel
    ensures forall c :: c in s.calls && c.EditCard? ==> cached == Some(c.message)
    ensures Posts(s.calls) <= 1 && Edits(s.calls) <= 1
    ensures s.cache != cached ==> p.send.Delivered? && s.cache == Some(p.send.id)
    ensures s.cache != cached ==> |s.calls| > 0 && s.calls[|s.calls| - 1].PostCard?
  {
    if !enabled || !p.channel.ChannelFound? || p.fetch.FetchFailed? then Step([], cached)
    else if p.fetch.data.None? || !p.fetch.data.value.online then Step([PostNotice(g, channel, FixedIp)], cached)
    else
      match BuildSnapshot(p.fetch.data.value)
      case None => Step([], cached)
      case Some(snap) => CardStep(g, channel, cached, FormatStatusMessage(snap, FixedIp), p)
  }

  /** A guild whose monitoring flag is false or absent is skipped: no call, cache kept. */
  lemma ReconcileSkipsDisabled(g: GuildId, channel: ChannelId, cached: Option<MessageId>, p: Probe)
    ensures Reconcile(g, false, channel, cached, p) == Step([], cached)
  {
  }

  /** A failed step is caught for its guild (index.js:102-106, 113-121, 136-138): a null or
      rejected channel lookup, a rejected fetch or unparsable body, or a status record that
      throws while being built gives no call and keeps the cached id. */
  lemma ReconcileFailureSkips(g: GuildId, channel: ChannelId, cached: Option<MessageId>, p: Probe)
    requires || !p.channel.ChannelFound?
             || p.fetch.FetchFailed?
             || (p.fetch.Fetched? && p.fetch.data.Some? && p.fetch.data.value.online
                 && BuildSnapshot(p.fetch.data.value).None?)
    ensures Reconcile(g, true, channel, cached, p) == Step([], cached)
  {
  }

  /** An offline (or null) answer sends exactly one offline notice and keeps the cached id,
      so the next online answer still edits the last card. */
  lemma ReconcileOffline(g: GuildId, channel: ChannelId, cached: Option<MessageId>, p: Probe)
    requires p.channel.ChannelFound? && p.fetch.Fetched?
    requires p.fetch.data.None? || !p.fetch.data.value.online
    ensures Reconcile(g, true, channel, cached, p) == Step([PostNotice(g, channel, FixedIp)], cached)
  {
  }

  /** An online answer with a cached id whose edit succeeds: one edit of that message, no
      post, cache kept. */
  lemma ReconcileEdits(g: GuildId, channel: ChannelId, id: MessageId, p: Probe, snap: Snapshot)
    requires p.channel.ChannelFound? && p.fetch.Fetched? && p.fetch.data.Some? && p.fetch.data.value.online
    requires BuildSnapshot(p.fetch.data.value) == Some(snap)
    requires p.editSucceeds
    ensures var s := Reconcile(g, true, channel, Some(id), p);
      && s.calls == [EditCard(g, channel, id, FormatStatusMessage(snap, FixedIp))]
      && Posts(s.calls) == 0
      && s.cache == Some(id)
  {
  }

  /** Every other online answer (no cached id, or the cached message cannot be edited)
      posts exactly one new card, as the last call, and caches its id once delivered. An
      edit comes before it only when there is a cached id, and is tried on that id. */
  lemma ReconcilePosts(g: GuildId, channel: ChannelId, cached: Option<MessageId>, p: Probe, snap: Snapshot)
    requires p.channel.ChannelFound? && p.fetch.Fetched? && p.fetch.data.Some? && p.fetch.data.value.online
    requires BuildSnapshot(p.fetch.data.value) == Some(snap)
    requires cached.None? || !p.editSucceeds
    ensures var s := Reconcile(g, true, channel, cached, p);
      && Posts(s.calls) == 1
      && s.calls == (if cached.Some? then [EditCard(g, channel, cached.value, FormatStatusMessage(snap, FixedIp))] else [])
                    + [PostCard(g, channel, FormatStatusMessage(snap, FixedIp))]
      && s.cache == (if p.send.Delivered? then Some(p.send.id) else cached)
  {
    var card := FormatStatusMessage(snap, FixedIp);
    assert Reconcile(g, true, channel, cached, p) == CardStep(g, channel, cached, card, p);
    CardStepPosts(g, channel, cached, card, p);
  }

  /** The result of one tick: every call issued, and the status cache after it. */
  datatype TickResult = TickResult(calls: seq<Call>, cache: map<GuildId, MessageId>)

  /** The loop of index.js:99-139 over the guilds in `order`, the iteration order of
      `setupChannels`. Each step reads the cache as the previous steps left it. */
  function RunTick(order: seq<GuildId>, channels: map<GuildId, ChannelId>, monitoring: map<GuildId, bool>,
                   cache: map<GuildId, MessageId>, probe: GuildId -> Probe): (r: TickResult)
    requires forall g :: g in order ==> g in channels
    ensures forall c :: c in r.calls ==> c.guild in order && c.channel == channels[c.guild]
    ensures forall h :: h !in order ==> CachedOf(r.cache, h) == CachedOf(cache, h)
  {
    if order == [] then TickResult([], cache)
    else
      var prev := RunTick(order[..|order| - 1], channels, monitoring, cache, probe);
      var g := order[|order| - 1];
      var s := Reconcile(g, Enabled(monitoring, g), channels[g], CachedOf(prev.cache, g), probe(g));
      TickResult(prev.calls + s.calls, Store(prev.cache, g, s.cache))
  }

  /** The calls of a tick addressed on behalf of guild `g`, in order. */
  function CallsFor(calls: seq<Call>, g: GuildId): (r: seq<Call>)
    ensures forall c :: c in r ==> c in calls && c.guild == g
  {
    if calls == [] then []
    else (if calls[0].guild == g then [calls[0]] else []) + CallsFor(calls[1..], g)
  }

  lemma {:induction false} CallsForConcat(a: seq<Call>, b: seq<Call>, g: GuildId)
    ensures CallsFor(a + b, g) == CallsFor(a, g) + CallsFor(b, g)
  {
    if a != [] {
      assert (a + b)[0] == a[0];
      assert (a + b)[1..] == a[1..] + b;
      CallsForConcat(a[1..], b, g);
      var head := if a[0].guild == g then [a[0]] else [];
      assert CallsFor(a + b, g) == head + CallsFor(a[1..] + b, g);
      assert CallsFor(a, g) == head + CallsFor(a[1..], g);
    } else {
      assert a + b == b;
    }
  }

  lemma {:induction false} CallsForSingleGuild(calls: seq<Call>, g: GuildId, h: GuildId)
    requires forall c :: c in calls ==> c.guild == h
    ensures CallsFor(calls, g) == if g == h then calls else []
  {
    if calls != [] {
      CallsForSingleGuild(calls[1..], g, h);
    }
  }

  /** Guilds do not interfere within a tick: what a tick does for guild `g` (the calls on
      its behalf and its cached card id afterwards) is exactly one reconcile step on g's own
      state and probe if g is in the iteration order, and nothing otherwise, whatever the
      other guilds' probes answer or fail with. */
  lemma {:induction false} TickIsolation(order: seq<GuildId>, channels: map<GuildId, ChannelId>,
                                         monitoring: map<GuildId, bool>, cache: map<GuildId, MessageId>,
                                         probe: GuildId -> Probe, g: GuildId)
    requires forall h :: h in order ==> h in channels
    requires forall i, j :: 0 <= i < j < |order| ==> order[i] != order[j]
    ensures var r := RunTick(order, channels, monitoring, cache, probe);
      && CallsFor(r.calls, g) ==
         (if g in order then Reconcile(g, Enabled(monitoring, g), channels[g], CachedOf(cache, g), probe(g)).calls else [])
      && CachedOf(r.cache, g) ==
         (if g in order then Reconcile(g, Enabled(monitoring, g), channels[g], CachedOf(cache, g), probe(g)).cache
          else CachedOf(cache, g))
  {
    if order != [] {
      var front := order[..|order| - 1];
      var h := order[|order| - 1];
      assert forall x :: x in order <==> x in front || x == h;
      assert h !in front;
      TickIsolation(front, channels, monitoring, cache, probe, g);
      TickIsolation(front, channels, monitoring, cache, probe, h);
      var prev := RunTick(front, channels, monitoring, cache, probe);
      var s := Reconcile(h, Enabled(monitoring, h), channels[h], CachedOf(prev.cache, h), probe(h));
      CallsForConcat(prev.calls, s.calls, g);
      CallsForSingleGuild(s.calls, g, h);
    }
  }

  /** A tick leaves a disabled guild alone: no call on its behalf and its cache unchanged. */
  lemma TickSkipsDisabled(order: seq<GuildId>, channels: map<GuildId, ChannelId>,
                          monitoring: map<GuildId, bool>, cache: map<GuildId, MessageId>,
                          probe: GuildId -> Probe, g: GuildId)
    requires forall h :: h in order ==> h in channels
    requires forall i, j :: 0 <= i < j < |order| ==> order[i] != order[j]
    requires !Enabled(monitoring, g)
    ensures var r := RunTick(order, channels, monitoring, cache, probe);
      CallsFor(r.calls, g) == [] && CachedOf(r.cache, g) == CachedOf(cache, g)
  {
    TickIsolation(order, channels, monitoring, cache, probe, g);
  }

  /** The players texts of the scenario below. */
  lemma ScenarioPlayersTexts()
    ensures PlayersText(PlayerCounts(3, 20)) == "3/20"
    ensures PlayersText(PlayerCounts(4, 20)) == "4/20"
  {
    assert Decimal.NatToText(20) == "20" by { assert Decimal.NatToText(2) == "2"; }
    assert Decimal.NatToText(3) == "3" && Decimal.NatToText(4) == "4";
  }

  /** The scenario of a guild with a fresh binding: the first tick, with 3 of 20 players
      online, posts one card showing "3/20" and caches its id; the second, with 4 of 20,
      edits that same message to show "4/20" and posts nothing. */
  lemma TwoTicks(g: GuildId, channel: ChannelId, id: MessageId, d1: StatusData, d2: StatusData, later: MessageId)
    requires d1.online && d1.players == Some(PlayerCounts(3, 20)) && d1.motdClean.Some? && !Truthy(d1.icon)
    requires d2.online && d2.players == Some(PlayerCounts(4, 20)) && d2.motdClean.Some? && !Truthy(d2.icon)
    ensures var first := Reconcile(g, true, channel, None, Probe(ChannelFound, Fetched(Some(d1)), true, Delivered(id)));
      && |first.calls| == 1 && first.calls[0].PostCard? && first.calls[0].card.players == "3/20"
      && first.cache == Some(id)
      && var second := Reconcile(g, true, channel, first.cache, Probe(ChannelFound, Fetched(Some(d2)), true, Delivered(later)));
      && |second.calls| == 1 && second.calls[0] == EditCard(g, channel, id, second.calls[0].card)
      && second.calls[0].card.players == "4/20"
      && second.cache == Some(id)
  {
    ScenarioPlayersTexts();
    var c1 := FormatStatusMessage(BuildSnapshot(d1).value, FixedIp);
    assert Reconcile(g, true, channel, None, Probe(ChannelFound, Fetched(Some(d1)), true, Delivered(id)))
      == Step([PostCard(g, channel, c1)], Some(id));
    var c2 := FormatStatusMessage(BuildSnapshot(d2).value, FixedIp);
    assert Reconcile(g, true, channel, Some(id), Probe(ChannelFound, Fetched(Some(d2)), true, Delivered(later)))
      == Step([EditCard(g, channel, id, c2)], Some(id));
  }
}
