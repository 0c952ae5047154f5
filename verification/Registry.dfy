/**
 The tool registry and its authorization policy: what a context may see and what it may call.
 Every public operation is one step.
 */
module Registry {
  import opened Wrappers
  import opened Text

  /** The authorization classes recorded for global tools. */
  datatype Category = BuiltinPublic | BuiltinKeeper | McpGlobal

  /** Where a tool's authorization comes from; `Unregistered` is the original's empty string. */
  datatype Source = Global(category: Category) | McpChannel | Unregistered

  datatype Desc = Desc(name: string, description: string)

  /** What a tool name is bound to: a function of this process, or a tool of a connected server. */
  datatype Invoker = Local(id: nat) | Remote(client: nat, tool: string)

  datatype BuiltIn = BuiltIn(desc: Desc, invoker: Invoker, category: Category)

  datatype Server = Server(name: string, channel: string, remote: bool, url: string)

  /** What connecting to a server and listing its tools came to. */
  datatype Listing = Listing(client: nat, tools: seq<Desc>)

  datatype Conn = Conn(name: string, toolNames: seq<string>)

  /** A container of tools: the global one without its policy tables, or a channel's own. */
  datatype ToolSet = ToolSet(tools: seq<Desc>, invokers: map<string, Invoker>, servers: map<string, Conn>)

  datatype Reg = Reg(open: ToolSet, priv: seq<Desc>, categories: map<string, Category>, channels: map<string, ToolSet>)

  const NO_TOOLS := ToolSet([], map[], map[])

  const KB_SEARCH := "kb_search"
  const KB_CREATE := "kb_create"
  const FETCH := "fetch"
  const MEMORY_LIST := "memory_list"
  const MEMORY_RECALL := "memory_recall"
  const MEMORY_STORE := "memory_store"
  const MEMORY_FORGET := "memory_forget"
  const TOOL_RESULT_READ := "tool_result_read"

  /** The names that neither a server nor a server's tool may take. */
  predicate Reserved(name: string) {
    name in [KB_SEARCH, KB_CREATE, FETCH, MEMORY_LIST, MEMORY_RECALL, MEMORY_STORE, MEMORY_FORGET, TOOL_RESULT_READ]
  }

  /** `strings.EqualFold` on names whose letters are ASCII. */
  predicate EqualFold(a: string, b: string) {
    Lower(a) == Lower(b)
  }

  function NamesOf(ds: seq<Desc>): set<string> {
    set d | d in ds :: d.name
  }

  function Lowered(names: set<string>): set<string> {
    set n | n in names :: Lower(n)
  }

  predicate HasFolded(names: set<string>, name: string) {
    exists n :: n in names && EqualFold(n, name)
  }

  lemma LoweredHasFolded(names: set<string>, name: string)
    ensures Lower(name) in Lowered(names) <==> HasFolded(names, name)
  {
  }

  // ----- Registering and removing -----

  /** `registerTool`: keeper tools go on the restricted list. */
  function ToolRegistered(r: Reg, b: BuiltIn): Reg {
    var open := r.open.(invokers := r.open.invokers[b.desc.name := b.invoker]);
    var bound := r.(open := open, categories := r.categories[Lower(b.desc.name) := b.category]);
    if b.category.BuiltinKeeper? then bound.(priv := r.priv + [b.desc])
    else bound.(open := open.(tools := r.open.tools + [b.desc]))
  }

  /** `RegisterInvoker`: an empty name or a missing invoker is ignored. */
  function InvokerRegistered(r: Reg, name: string, invoker: Option<Invoker>): Reg {
    if name == "" || invoker.None? then r
    else ToolRegistered(r, BuiltIn(Desc(name, ""), invoker.value, BuiltinPublic))
  }

  function ToolKey(server: string, tool: string, channel: string): (key: string)
    ensures key != ""
  {
    (if channel != "" then channel + "__" else "") + server + "__" + tool
  }

  /** The names under which a server's tools are registered. */
  function Keys(s: Server, tools: seq<Desc>): seq<string> {
    Map((t: Desc) => ToolKey(s.name, t.name, s.channel), tools)
  }

  function KeyedDescs(s: Server, tools: seq<Desc>): seq<Desc> {
    Map((t: Desc) => t.(name := ToolKey(s.name, t.name, s.channel)), tools)
  }

  function Remotes(l: Listing): seq<Invoker> {
    Map((t: Desc) => Remote(l.client, t.name), l.tools)
  }

  /** `m` after assigning each key its value, in order. */
  function WithAll<V>(m: map<string, V>, keys: seq<string>, values: seq<V>): map<string, V>
    requires |keys| == |values|
  {
    if keys == [] then m
    else WithAll(m, keys[..|keys| - 1], values[..|keys| - 1])[keys[|keys| - 1] := values[|keys| - 1]]
  }

  lemma {:induction false} WithAllAdds<V>(m: map<string, V>, keys: seq<string>, values: seq<V>)
    requires |keys| == |values|
    ensures forall k :: k in WithAll(m, keys, values) <==> k in m || k in keys
    ensures forall k :: k in m && k !in keys ==> WithAll(m, keys, values)[k] == m[k]
  {
    if keys != [] {
      WithAllAdds(m, keys[..|keys| - 1], values[..|keys| - 1]);
      assert keys == keys[..|keys| - 1] + [keys[|keys| - 1]];
    }
  }

  function Extended(t: ToolSet, s: Server, l: Listing): ToolSet {
    ToolSet(t.tools + KeyedDescs(s, l.tools),
            WithAll(t.invokers, Keys(s, l.tools), Remotes(l)),
            t.servers[s.name := Conn(s.name, Keys(s, l.tools))])
  }

  function Categorized(categories: map<string, Category>, keys: seq<string>): map<string, Category> {
    WithAll(categories, Map(Lower, keys), Map(_ => McpGlobal, keys))
  }

  predicate ServerTaken(r: Reg, name: string) {
    Reserved(name) || exists k :: k in r.open.servers && r.open.servers[k].name == name
  }

  predicate ToolTaken(r: Reg, name: string) {
    Reserved(name) || name in NamesOf(r.open.tools) || name in NamesOf(r.priv)
  }

  datatype AddError = Unsupported | NoUrl | ServerNameTaken | Unreachable | ToolNameTaken

  /** Whether `AddServer` gets as far as registering tools. */
  function Admission(r: Reg, s: Server, conn: Result<Listing, string>): Result<Listing, AddError> {
    if !s.remote then Failure(Unsupported)
    else if s.url == "" then Failure(NoUrl)
    else if s.channel == "" && ServerTaken(r, s.name) then Failure(ServerNameTaken)
    else match conn
      case Failure(_) => Failure(Unreachable)
      case Success(l) => Success(l)
  }

  /** The registry with the channel's container, created if it is missing. */
  function WithChannel(r: Reg, channel: string): Reg {
    if channel in r.channels then r else r.(channels := r.channels[channel := NO_TOOLS])
  }

  /** What a global server's registration makes of the registry. */
  function GlobalAdded(r: Reg, s: Server, l: Listing): Reg {
    r.(open := Extended(r.open, s, l), categories := Categorized(r.categories, Keys(s, l.tools)))
  }

  /** What a channel server's registration makes of the registry. */
  function ChannelAdded(r: Reg, s: Server, l: Listing): Reg {
    var r' := WithChannel(r, s.channel);
    r'.(channels := r'.channels[s.channel := Extended(r'.channels[s.channel], s, l)])
  }

  /** `AddServer`: the registry afterwards, and why the server was rejected if it was. */
  function ServerAdded(r: Reg, s: Server, conn: Result<Listing, string>): (Reg, Option<AddError>) {
    match Admission(r, s, conn)
    case Failure(e) => (r, Some(e))
    case Success(l) =>
      var taken := exists k :: k in Keys(s, l.tools) && ToolTaken(r, k);
      if s.channel == "" then
        if taken then (r, Some(ToolNameTaken))
        else (GlobalAdded(r, s, l), None)
      else
        if taken then (WithChannel(r, s.channel), Some(ToolNameTaken))
        else (ChannelAdded(r, s, l), None)
  }

  function Keep(ds: seq<Desc>, gone: seq<string>): seq<Desc> {
    if ds == [] then []
    else Keep(ds[..|ds| - 1], gone) + if ds[|ds| - 1].name in gone then [] else [ds[|ds| - 1]]
  }

  /** `RemoveServer` for a global server; `None` when there is no such server. */
  function ServerRemoved(r: Reg, name: string): Option<Reg> {
    if name !in r.open.servers then None
    else
      var gone := r.open.servers[name].toolNames;
      Some(r.(open := ToolSet(Keep(r.open.tools, gone), r.open.invokers - (set n | n in gone), r.open.servers - {name}),
              categories := r.categories - (set n | n in gone :: Lower(n))))
  }

  function ChannelDropped(r: Reg, channel: string): Reg {
    r.(channels := r.channels - {channel})
  }

  // ----- Policy -----

  datatype Ctx = Ctx(keeper: bool, channel: string)

  predicate Open(category: Category, keeper: bool) {
    category.BuiltinKeeper? ==> keeper
  }

  /** `EffectiveToolPolicy`. */
  datatype Policy = Policy(keeper: bool, channel: string, registered: set<string>,
                           categories: map<string, Category>, channelOwners: map<string, string>) {
    function SourceOf(name: string): Source {
      var key := Lower(name);
      if key in categories then Global(categories[key])
      else if key in channelOwners then McpChannel
      else Unregistered
    }

    predicate Registered(name: string) {
      Lower(name) in registered || Lower(name) in channelOwners
    }

    predicate Allows(name: string) {
      match SourceOf(name)
      case Global(category) => Open(category, keeper)
      case McpChannel => channelOwners[Lower(name)] == channel
      case Unregistered => false
    }
  }

  function SetNames(s: ToolSet): set<string> {
    s.invokers.Keys + NamesOf(s.tools)
  }

  /** A channel holds a tool whose lower-cased name is `key`. */
  predicate Owns(r: Reg, channel: string, key: string) {
    channel in r.channels && key in Lowered(SetNames(r.channels[channel]))
  }

  /**
   The owners a policy may record: every key some channel holds, with one of the channels that
   hold it. Which one is decided by the order in which a Go map is ranged over.
   */
  ghost predicate ValidOwners(r: Reg, owners: map<string, string>) {
    forall key ::
      && (key in owners ==> Owns(r, owners[key], key))
      && ((exists ch :: Owns(r, ch, key)) ==> key in owners)
  }

  function PolicyOf(r: Reg, ctx: Ctx, owners: map<string, string>): Policy {
    Policy(ctx.keeper, ctx.channel, Lowered(SetNames(r.open)), r.categories, owners)
  }

  function ChannelSet(r: Reg, ctx: Ctx): ToolSet {
    if ctx.channel != "" && ctx.channel in r.channels then r.channels[ctx.channel] else NO_TOOLS
  }

  function Candidates(r: Reg, ctx: Ctx): seq<Desc> {
    r.open.tools + r.priv + ChannelSet(r, ctx).tools
  }

  function Allowed(p: Policy, ds: seq<Desc>): (out: seq<Desc>)
    ensures forall d :: d in out <==> d in ds && p.Allows(d.name)
  {
    if ds == [] then []
    else
      assert ds == ds[..|ds| - 1] + [ds[|ds| - 1]];
      Allowed(p, ds[..|ds| - 1]) + if p.Allows(ds[|ds| - 1].name) then [ds[|ds| - 1]] else []
  }

  /** `ToolsFor`, under a given choice of owners. */
  function ListedTools(r: Reg, ctx: Ctx, owners: map<string, string>): seq<Desc> {
    Allowed(PolicyOf(r, ctx, owners), Candidates(r, ctx))
  }

  /** The context sees a tool of this name, up to case. */
  ghost predicate Visible(r: Reg, ctx: Ctx, owners: map<string, string>, name: string) {
    HasFolded(NamesOf(ListedTools(r, ctx, owners)), name)
  }

  function Hits(invokers: map<string, Invoker>, name: string): set<Invoker> {
    set k | k in invokers && EqualFold(k, name) :: invokers[k]
  }

  /** The invokers a permitted call may reach: the channel's own come first. */
  function Targets(r: Reg, ctx: Ctx, name: string): set<Invoker> {
    var own := Hits(ChannelSet(r, ctx).invokers, name);
    if own != {} then own else Hits(r.open.invokers, name)
  }

  datatype Call = EmptyName | NotFound | Denied | Reached(invoker: Invoker)

  /** What `Invoke` may come to, under a given choice of owners. */
  ghost predicate Invokes(r: Reg, ctx: Ctx, owners: map<string, string>, name: string, call: Call) {
    var policy := PolicyOf(r, ctx, owners);
    if name == "" then call == EmptyName
    else if !policy.Registered(name) then call == NotFound
    else if !policy.Allows(name) then call == Denied
    else if Targets(r, ctx, name) == {} then call == NotFound
    else call.Reached? && call.invoker in Targets(r, ctx, name)
  }

  /** Invoking the name reaches an invoker. */
  ghost predicate Callable(r: Reg, ctx: Ctx, owners: map<string, string>, name: string) {
    exists inv :: Invokes(r, ctx, owners, name, Reached(inv))
  }

  // ----- Reachable registries -----

  ghost predicate Linked(s: ToolSet, more: seq<Desc>) {
    s.invokers.Keys == NamesOf(s.tools) + NamesOf(more) && "" !in s.invokers
  }

  /** Every server owns names that are listed, not restricted, and no other server's. */
  ghost predicate ServersOwnTools(r: Reg) {
    && (forall k :: k in r.open.servers ==> r.open.servers[k].name == k)
    && (forall k, n :: k in r.open.servers && n in r.open.servers[k].toolNames ==>
          n in NamesOf(r.open.tools) && n !in NamesOf(r.priv))
    && (forall j, k, n :: j in r.open.servers && k in r.open.servers && j != k && n in r.open.servers[j].toolNames ==>
          n !in r.open.servers[k].toolNames)
  }

  ghost predicate CategoriesBelong(r: Reg) {
    r.categories.Keys <= Lowered(r.open.invokers.Keys)
  }

  ghost predicate ChannelsLinked(channels: map<string, ToolSet>) {
    "" !in channels && forall ch :: ch in channels ==> Linked(channels[ch], [])
  }

  /** Descriptors and invokers name the same tools, and every category belongs to one of them. */
  ghost predicate Valid(r: Reg) {
    && Linked(r.open, r.priv)
    && CategoriesBelong(r)
    && ChannelsLinked(r.channels)
    && ServersOwnTools(r)
  }

  datatype Op =
    | DoRegister(name: string, invoker: Option<Invoker>)
    | DoAdd(server: Server, conn: Result<Listing, string>)
    | DoRemove(name: string)
    | DoDropChannel(channel: string)

  function Apply(r: Reg, op: Op): Reg {
    match op
    case DoRegister(name, invoker) => InvokerRegistered(r, name, invoker)
    case DoAdd(server, conn) => ServerAdded(r, server, conn).0
    case DoRemove(name) => ServerRemoved(r, name).GetOr(r)
    case DoDropChannel(channel) => ChannelDropped(r, channel)
  }

  function After(r: Reg, ops: seq<Op>): Reg {
    if ops == [] then r else Apply(After(r, ops[..|ops| - 1]), ops[|ops| - 1])
  }

  /** A new registry with its built-in tools. */
  function WithBuiltIns(bs: seq<BuiltIn>): Reg {
    if bs == [] then Reg(NO_TOOLS, [], map[], map[]) else ToolRegistered(WithBuiltIns(bs[..|bs| - 1]), bs[|bs| - 1])
  }

  /** A registry that was set up with named built-in tools and has been through any operations since. */
  ghost predicate Reachable(r: Reg) {
    exists bs: seq<BuiltIn>, ops: seq<Op> ::
      (forall b :: b in bs ==> b.desc.name != "") && r == After(WithBuiltIns(bs), ops)
  }

  lemma NamesAppend(a: seq<Desc>, b: seq<Desc>)
    ensures NamesOf(a + b) == NamesOf(a) + NamesOf(b)
  {
  }

  lemma {:induction false} KeyedNames(s: Server, tools: seq<Desc>)
    ensures NamesOf(KeyedDescs(s, tools)) == set k | k in Keys(s, tools)
    ensures "" !in Keys(s, tools)
  {
    var ds, ks := KeyedDescs(s, tools), Keys(s, tools);
    forall k | k in ks
      ensures k in NamesOf(ds)
    {
      var i :| 0 <= i < |ks| && ks[i] == k;
      assert ds[i] in ds && ds[i].name == k;
    }
    forall k | k in NamesOf(ds)
      ensures k in ks
    {
      var i :| 0 <= i < |ds| && ds[i].name == k;
      assert ks[i] in ks;
    }
  }

  lemma RegisterLinks(t: ToolSet, more: seq<Desc>, d: Desc, invoker: Invoker)
    requires Linked(t, more) && d.name != ""
    ensures Linked(t.(tools := t.tools + [d], invokers := t.invokers[d.name := invoker]), more)
    ensures Linked(t.(invokers := t.invokers[d.name := invoker]), more + [d])
  {
    NamesAppend(t.tools, [d]);
    NamesAppend(more, [d]);
    assert NamesOf([d]) == {d.name};
  }

  lemma RegisterOwns(r: Reg, b: BuiltIn)
    requires ServersOwnTools(r) && (b.category.BuiltinKeeper? ==> r.open.servers == map[])
    ensures ServersOwnTools(ToolRegistered(r, b))
  {
    NamesAppend(r.open.tools, [b.desc]);
  }

  lemma {:induction false} RegisterKeepsValid(r: Reg, b: BuiltIn)
    requires Valid(r) && b.desc.name != ""
    requires b.category.BuiltinKeeper? ==> r.open.servers == map[]
    ensures Valid(ToolRegistered(r, b))
  {
    RegisterLinks(r.open, r.priv, b.desc, b.invoker);
    RegisterOwns(r, b);
    assert ToolRegistered(r, b).open.invokers.Keys == r.open.invokers.Keys + {b.desc.name};
  }

  lemma {:induction false} ExtendedIsLinked(s: ToolSet, more: seq<Desc>, server: Server, l: Listing)
    requires Linked(s, more)
    ensures Linked(Extended(s, server, l), more)
  {
    WithAllAdds(s.invokers, Keys(server, l.tools), Remotes(l));
    KeyedNames(server, l.tools);
    NamesAppend(s.tools, KeyedDescs(server, l.tools));
  }

  lemma {:induction false} CategorizedAdds(categories: map<string, Category>, keys: seq<string>)
    ensures forall k :: k in Categorized(categories, keys) <==> k in categories || k in Lowered(set n | n in keys)
    ensures forall k :: k in categories && k !in Lowered(set n | n in keys) ==>
      Categorized(categories, keys)[k] == categories[k]
  {
    var lows := Map(Lower, keys);
    WithAllAdds(categories, lows, Map(_ => McpGlobal, keys));
    forall k
      ensures k in lows <==> k in Lowered(set n | n in keys)
    {
      if k in lows {
        var i :| 0 <= i < |lows| && lows[i] == k;
        assert keys[i] in keys;
      }
      if k in Lowered(set n | n in keys) {
        var n :| n in keys && Lower(n) == k;
        var i :| 0 <= i < |keys| && keys[i] == n;
        assert lows[i] == k;
      }
    }
  }

  lemma {:induction false} GlobalCategoriesBelong(r: Reg, s: Server, l: Listing)
    requires CategoriesBelong(r)
    ensures CategoriesBelong(GlobalAdded(r, s, l))
  {
    var keys := Keys(s, l.tools);
    CategorizedAdds(r.categories, keys);
    WithAllAdds(r.open.invokers, keys, Remotes(l));
    assert (set n | n in keys) + r.open.invokers.Keys == GlobalAdded(r, s, l).open.invokers.Keys;
  }

  lemma {:induction false} NewServerOwnsTools(r: Reg, s: Server, l: Listing)
    requires ServersOwnTools(r) && !ServerTaken(r, s.name)
    requires forall k :: k in Keys(s, l.tools) ==> !ToolTaken(r, k)
    ensures ServersOwnTools(GlobalAdded(r, s, l))
  {
    KeyedNames(s, l.tools);
    NamesAppend(r.open.tools, KeyedDescs(s, l.tools));
  }

  lemma {:induction false} ChannelStaysLinked(r: Reg, channel: string)
    requires ChannelsLinked(r.channels) && channel != ""
    ensures ChannelsLinked(WithChannel(r, channel).channels) && channel in WithChannel(r, channel).channels
  {
    ChannelLinks(r.channels, channel, NO_TOOLS);
  }

  lemma {:induction false} ChannelAddedIsLinked(r: Reg, s: Server, l: Listing)
    requires ChannelsLinked(r.channels) && s.channel != ""
    ensures ChannelsLinked(ChannelAdded(r, s, l).channels)
  {
    var channels := WithChannel(r, s.channel).channels;
    ChannelStaysLinked(r, s.channel);
    ExtendedIsLinked(channels[s.channel], [], s, l);
    ChannelLinks(channels, s.channel, Extended(channels[s.channel], s, l));
  }

  lemma {:induction false} ChannelAddedIsValid(r: Reg, s: Server, l: Listing)
    requires Valid(r) && s.channel != ""
    ensures Valid(WithChannel(r, s.channel)) && Valid(ChannelAdded(r, s, l))
  {
    ChannelStaysLinked(r, s.channel);
    ChannelAddedIsLinked(r, s, l);
  }

  lemma {:induction false} ChannelLinks(channels: map<string, ToolSet>, channel: string, t: ToolSet)
    requires ChannelsLinked(channels) && channel != "" && Linked(t, [])
    ensures ChannelsLinked(channels[channel := t])
  {
  }

  lemma {:induction false} AddKeepsValid(r: Reg, s: Server, conn: Result<Listing, string>)
    requires Valid(r)
    ensures Valid(ServerAdded(r, s, conn).0)
  {
    if Admission(r, s, conn).Success? {
      var l := Admission(r, s, conn).value;
      if s.channel == "" {
        ExtendedIsLinked(r.open, r.priv, s, l);
        GlobalCategoriesBelong(r, s, l);
        if ServerAdded(r, s, conn).1.None? {
          NewServerOwnsTools(r, s, l);
        }
      } else {
        ChannelAddedIsValid(r, s, l);
      }
    }
  }

  lemma {:induction false} KeepNames(ds: seq<Desc>, gone: seq<string>)
    ensures NamesOf(Keep(ds, gone)) == NamesOf(ds) - (set n | n in gone)
  {
    if ds != [] {
      var last := ds[|ds| - 1];
      KeepNames(ds[..|ds| - 1], gone);
      assert ds == ds[..|ds| - 1] + [last];
      NamesAppend(ds[..|ds| - 1], [last]);
      NamesAppend(Keep(ds[..|ds| - 1], gone), if last.name in gone then [] else [last]);
    }
  }

  lemma RemoveKeepsValid(r: Reg, name: string)
    requires Valid(r) && name in r.open.servers
    ensures Valid(ServerRemoved(r, name).value)
  {
    KeepNames(r.open.tools, r.open.servers[name].toolNames);
  }

  lemma {:induction false} ApplyKeepsValid(r: Reg, op: Op)
    requires Valid(r)
    ensures Valid(Apply(r, op))
  {
    match op
    case DoRegister(name, invoker) =>
      if name != "" && invoker.Some? {
        RegisterKeepsValid(r, BuiltIn(Desc(name, ""), invoker.value, BuiltinPublic));
      }
    case DoAdd(server, conn) => AddKeepsValid(r, server, conn);
    case DoRemove(name) =>
      if name in r.open.servers {
        RemoveKeepsValid(r, name);
      }
    case DoDropChannel(channel) =>
  }

  lemma {:induction false} BuiltInsAreValid(bs: seq<BuiltIn>)
    requires forall b :: b in bs ==> b.desc.name != ""
    ensures Valid(WithBuiltIns(bs)) && WithBuiltIns(bs).open.servers == map[]
  {
    if bs != [] {
      BuiltInsAreValid(bs[..|bs| - 1]);
      RegisterKeepsValid(WithBuiltIns(bs[..|bs| - 1]), bs[|bs| - 1]);
    }
  }

  lemma {:induction false} AfterIsValid(r: Reg, ops: seq<Op>)
    requires Valid(r)
    ensures Valid(After(r, ops))
  {
    if ops != [] {
      AfterIsValid(r, ops[..|ops| - 1]);
      ApplyKeepsValid(After(r, ops[..|ops| - 1]), ops[|ops| - 1]);
    }
  }

  /** The invariant that ties descriptors, invokers, categories and server lists together is never broken. */
  lemma ReachableIsValid(r: Reg)
    requires Reachable(r)
    ensures Valid(r)
  {
    var bs: seq<BuiltIn>, ops: seq<Op> :|
      (forall b :: b in bs ==> b.desc.name != "") && r == After(WithBuiltIns(bs), ops);
    BuiltInsAreValid(bs);
    AfterIsValid(WithBuiltIns(bs), ops);
  }

  // ----- Visible is callable -----

  ghost function CandidateNames(r: Reg, ctx: Ctx): set<string> {
    NamesOf(r.open.tools) + NamesOf(r.priv) + NamesOf(ChannelSet(r, ctx).tools)
  }

  lemma {:induction false} VisibleMeansAllowed(r: Reg, ctx: Ctx, owners: map<string, string>, name: string)
    ensures Visible(r, ctx, owners, name) <==>
      PolicyOf(r, ctx, owners).Allows(name) && HasFolded(CandidateNames(r, ctx), name)
  {
    var p := PolicyOf(r, ctx, owners);
    forall n | EqualFold(n, name)
      ensures n in NamesOf(ListedTools(r, ctx, owners)) <==> p.Allows(name) && n in CandidateNames(r, ctx)
    {
      assert p.Allows(n) == p.Allows(name);
      NamesAppend(r.open.tools, r.priv);
      NamesAppend(r.open.tools + r.priv, ChannelSet(r, ctx).tools);
      if p.Allows(name) && n in CandidateNames(r, ctx) {
        var d :| d in Candidates(r, ctx) && d.name == n;
        assert d in ListedTools(r, ctx, owners);
      }
    }
  }

  lemma HitsExist(invokers: map<string, Invoker>, name: string)
    ensures Hits(invokers, name) != {} <==> HasFolded(invokers.Keys, name)
  {
    if HasFolded(invokers.Keys, name) {
      var n :| n in invokers.Keys && EqualFold(n, name);
      assert invokers[n] in Hits(invokers, name);
    }
  }

  lemma {:induction false} CallableMeansAllowed(r: Reg, ctx: Ctx, owners: map<string, string>, name: string)
    requires Valid(r) && ValidOwners(r, owners)
    ensures Callable(r, ctx, owners, name) <==>
      PolicyOf(r, ctx, owners).Allows(name) && HasFolded(CandidateNames(r, ctx), name)
  {
    var p := PolicyOf(r, ctx, owners);
    HitsExist(ChannelSet(r, ctx).invokers, name);
    HitsExist(r.open.invokers, name);
    assert CandidateNames(r, ctx) == r.open.invokers.Keys + ChannelSet(r, ctx).invokers.Keys;
    if p.Allows(name) {
      assert p.Registered(name) by {
        if Lower(name) in r.categories {
          assert Lower(name) in Lowered(r.open.invokers.Keys);
        }
      }
    }
    if p.Allows(name) && HasFolded(CandidateNames(r, ctx), name) {
      assert name != "";
      assert Targets(r, ctx, name) != {};
      var inv :| inv in Targets(r, ctx, name);
      assert Invokes(r, ctx, owners, name, Reached(inv));
    }
  }

  /**
   In every reachable registry and under one policy, a name reaches an invoker exactly when the
   tools listed for the same context include one of that name, up to case.
   */
  lemma VisibleIsCallable(r: Reg, ctx: Ctx, owners: map<string, string>, name: string)
    requires Reachable(r) && ValidOwners(r, owners)
    ensures Visible(r, ctx, owners, name) <==> Callable(r, ctx, owners, name)
  {
    ReachableIsValid(r);
    VisibleMeansAllowed(r, ctx, owners, name);
    CallableMeansAllowed(r, ctx, owners, name);
  }

  /**
   A call that reaches nothing tells why: a name is not found exactly when neither the global tools nor
   any channel's has it up to case, and denied when something has it but this context may not use it.
   */
  lemma {:induction false} RefusalsTellWhy(r: Reg, ctx: Ctx, owners: map<string, string>, name: string, call: Call)
    requires Reachable(r) && ValidOwners(r, owners) && Invokes(r, ctx, owners, name, call)
    ensures call.EmptyName? <==> name == ""
    ensures call.NotFound? <==>
      name != "" && !HasFolded(r.open.invokers.Keys, name) && forall ch :: !Owns(r, ch, Lower(name))
    ensures call.Reached? <==> Callable(r, ctx, owners, name)
  {
    ReachableIsValid(r);
    CallableMeansAllowed(r, ctx, owners, name);
    LoweredHasFolded(r.open.invokers.Keys, name);
    assert SetNames(r.open) == r.open.invokers.Keys;
    if Owns(r, ctx.channel, Lower(name)) {
      OwnedIsNamed(r, ctx, Lower(name));
    }
  }

  // ----- Two policies for one context -----

  /**
   The context's channel and another one both hold a tool of this name up to case, and no global
   category settles it.
   */
  ghost predicate Ambiguous(r: Reg, ctx: Ctx, name: string) {
    && Lower(name) !in r.categories
    && Owns(r, ctx.channel, Lower(name))
    && exists ch :: ch != ctx.channel && Owns(r, ch, Lower(name))
  }

  ghost function AnyOwner(r: Reg, key: string): string
    requires exists ch :: Owns(r, ch, key)
  {
    var ch :| Owns(r, ch, key);
    ch
  }

  ghost function AllKeys(r: Reg): set<string> {
    set ch, key | ch in r.channels && key in Lowered(SetNames(r.channels[ch])) :: key
  }

  ghost function SomeOwners(r: Reg): map<string, string> {
    map key | key in AllKeys(r) && exists ch :: Owns(r, ch, key) :: AnyOwner(r, key)
  }

  /** Any channel that holds a key may come out as its recorded owner. */
  lemma OwnedBy(r: Reg, channel: string, key: string) returns (owners: map<string, string>)
    requires Owns(r, channel, key)
    ensures ValidOwners(r, owners) && key in owners && owners[key] == channel
  {
    owners := SomeOwners(r)[key := channel];
    forall k | exists ch :: Owns(r, ch, k)
      ensures k in SomeOwners(r)
    {
      var ch :| Owns(r, ch, k);
      assert k in AllKeys(r);
    }
  }

  /** What a policy allows, told by the lower-cased name alone. */
  ghost predicate AllowsKey(r: Reg, ctx: Ctx, owners: map<string, string>, key: string) {
    if key in r.categories then Open(r.categories[key], ctx.keeper)
    else key in owners && owners[key] == ctx.channel
  }

  ghost predicate Named(r: Reg, ctx: Ctx, key: string) {
    key in Lowered(CandidateNames(r, ctx))
  }

  lemma {:induction false} BothMeanAllowed(r: Reg, ctx: Ctx, seen: map<string, string>, used: map<string, string>,
                                           name: string)
    requires Valid(r) && ValidOwners(r, used)
    ensures Visible(r, ctx, seen, name) <==> AllowsKey(r, ctx, seen, Lower(name)) && Named(r, ctx, Lower(name))
    ensures Callable(r, ctx, used, name) <==> AllowsKey(r, ctx, used, Lower(name)) && Named(r, ctx, Lower(name))
  {
    VisibleMeansAllowed(r, ctx, seen, name);
    CallableMeansAllowed(r, ctx, used, name);
  }

  lemma OwnedIsNamed(r: Reg, ctx: Ctx, key: string)
    requires Valid(r) && Owns(r, ctx.channel, key)
    ensures Named(r, ctx, key)
  {
  }

  /**
   Listing and invoking compute their policies separately. They agree under every two choices of
   owners, and so for every order of ranging over the channels, exactly when the name is not
   ambiguous.
   */
  lemma SeparatePoliciesAgreeExactly(r: Reg, ctx: Ctx, name: string)
    requires Reachable(r)
    ensures (forall seen, used :: ValidOwners(r, seen) && ValidOwners(r, used) ==>
              (Visible(r, ctx, seen, name) <==> Callable(r, ctx, used, name)))
       <==> !Ambiguous(r, ctx, name)
  {
    ReachableIsValid(r);
    if Ambiguous(r, ctx, name) {
      AmbiguityShows(r, ctx, name);
    } else {
      forall seen, used | ValidOwners(r, seen) && ValidOwners(r, used)
        ensures Visible(r, ctx, seen, name) <==> Callable(r, ctx, used, name)
      {
        BothMeanAllowed(r, ctx, seen, used, name);
        UnambiguousIsSettled(r, ctx, seen, used, name);
      }
    }
  }

  lemma UnambiguousIsSettled(r: Reg, ctx: Ctx, one: map<string, string>, two: map<string, string>, name: string)
    requires Valid(r) && ValidOwners(r, one) && ValidOwners(r, two) && !Ambiguous(r, ctx, name)
    ensures AllowsKey(r, ctx, one, Lower(name)) <==> AllowsKey(r, ctx, two, Lower(name))
  {
  }

  lemma AmbiguityShows(r: Reg, ctx: Ctx, name: string)
    requires Valid(r) && Ambiguous(r, ctx, name)
    ensures exists seen, used ::
      ValidOwners(r, seen) && ValidOwners(r, used) && Visible(r, ctx, seen, name) && !Callable(r, ctx, used, name)
  {
    var other :| other != ctx.channel && Owns(r, other, Lower(name));
    var seen := OwnedBy(r, ctx.channel, Lower(name));
    var used := OwnedBy(r, other, Lower(name));
    BothMeanAllowed(r, ctx, seen, used, name);
    OwnedIsNamed(r, ctx, Lower(name));
  }

  lemma LowerAppend(a: string, b: string)
    ensures Lower(a + b) == Lower(a) + Lower(b)
  {
  }

  lemma ChannelKeysFold(one: string, two: string, server: string, tool: string)
    requires one != "" && two != "" && EqualFold(one, two)
    ensures EqualFold(ToolKey(server, tool, one), ToolKey(server, tool, two))
  {
    var rest := "__" + server + "__" + tool;
    assert ToolKey(server, tool, one) == one + rest && ToolKey(server, tool, two) == two + rest;
    LowerAppend(one, rest);
    LowerAppend(two, rest);
  }

  /** A remote server with one tool, added to a channel. */
  function AddOne(channel: string, server: string, url: string, tool: Desc): Op {
    DoAdd(Server(server, channel, true, url), Success(Listing(0, [tool])))
  }

  lemma {:induction false} AddOneOwns(r: Reg, channel: string, server: string, url: string, tool: Desc)
    requires channel != "" && url != "" && r.open.tools == [] && r.priv == []
    requires !Reserved(ToolKey(server, tool.name, channel))
    ensures var r' := Apply(r, AddOne(channel, server, url, tool));
      && Owns(r', channel, Lower(ToolKey(server, tool.name, channel)))
      && r'.open == r.open && r'.priv == r.priv && r'.categories == r.categories
      && forall ch :: ch in r.channels && ch != channel ==> ch in r'.channels && r'.channels[ch] == r.channels[ch]
  {
    var s, l := Server(server, channel, true, url), Listing(0, [tool]);
    var keys := Keys(s, l.tools);
    assert keys == [ToolKey(server, tool.name, channel)];
    WithAllAdds(WithChannel(r, channel).channels[channel].invokers, keys, Remotes(l));
    assert keys[0] in ChannelAdded(r, s, l).channels[channel].invokers;
  }

  /** Two channels whose names differ only in case do make a tool's name ambiguous. */
  lemma CaseDifferingChannelsAreAmbiguous(one: string, two: string, server: string, url: string, tool: Desc)
    requires one != "" && two != "" && url != "" && one != two && EqualFold(one, two)
    requires !Reserved(ToolKey(server, tool.name, one)) && !Reserved(ToolKey(server, tool.name, two))
    ensures var r := After(WithBuiltIns([]), [AddOne(one, server, url, tool), AddOne(two, server, url, tool)]);
      Reachable(r) && Ambiguous(r, Ctx(false, one), ToolKey(server, tool.name, one))
  {
    var ops := [AddOne(one, server, url, tool), AddOne(two, server, url, tool)];
    var r0 := WithBuiltIns([]);
    var r1 := Apply(r0, ops[0]);
    assert ops[..1] == [ops[0]] && ops[..1][..0] == [];
    assert After(r0, ops[..1]) == Apply(After(r0, []), ops[0]);
    var r := After(r0, ops);
    assert r == Apply(r1, ops[1]);
    AddOneOwns(r0, one, server, url, tool);
    AddOneOwns(r1, two, server, url, tool);
    ChannelKeysFold(one, two, server, tool.name);
    assert Owns(r, two, Lower(ToolKey(server, tool.name, one)));
  }

  // ----- Adding, rejecting and removing servers -----

  lemma {:induction false} KeepAll(ds: seq<Desc>, gone: seq<string>)
    requires forall d :: d in ds ==> d.name !in gone
    ensures Keep(ds, gone) == ds
  {
    if ds != [] {
      KeepAll(ds[..|ds| - 1], gone);
      assert ds == ds[..|ds| - 1] + [ds[|ds| - 1]];
    }
  }

  lemma {:induction false} KeepNone(ds: seq<Desc>, more: seq<Desc>, gone: seq<string>)
    requires forall d :: d in more ==> d.name in gone
    ensures Keep(ds + more, gone) == Keep(ds, gone)
  {
    if more == [] {
      assert ds + more == ds;
    } else {
      var k := |more| - 1;
      assert (ds + more)[..|ds + more| - 1] == ds + more[..k];
      KeepNone(ds, more[..k], gone);
    }
  }

  lemma Undone<V>(m: map<string, V>, keys: seq<string>, values: seq<V>, gone: set<string>)
    requires |keys| == |values| && gone == set k | k in keys
    ensures WithAll(m, keys, values) - gone == m - gone
  {
    WithAllAdds(m, keys, values);
  }

  lemma {:induction false} UndoneCategories(categories: map<string, Category>, keys: seq<string>)
    ensures Categorized(categories, keys) - Lowered(set k | k in keys) == categories - Lowered(set k | k in keys)
  {
    CategorizedAdds(categories, keys);
  }

  lemma MinusNothing<V>(m: map<string, V>, gone: set<string>)
    ensures m - gone == m <==> gone !! m.Keys
  {
  }

  lemma {:induction false} UndoneTools(ds: seq<Desc>, s: Server, tools: seq<Desc>)
    requires forall k :: k in Keys(s, tools) ==> k !in NamesOf(ds)
    ensures Keep(ds + KeyedDescs(s, tools), Keys(s, tools)) == ds
  {
    var keys, more := Keys(s, tools), KeyedDescs(s, tools);
    KeyedNames(s, tools);
    assert forall d :: d in more ==> d.name in NamesOf(more);
    KeepNone(ds, more, keys);
    assert forall d :: d in ds ==> d.name in NamesOf(ds);
    KeepAll(ds, keys);
  }

  /**
   Removing a global server right after it was added gives back the tool list in its order, the
   invokers, the servers and everything else exactly; the categories come back exactly when none
   of the new names equals, up to case, a name that had one.
   */
  lemma {:induction false} RemovingUndoesAdding(r: Reg, s: Server, conn: Result<Listing, string>)
    requires Reachable(r) && s.channel == "" && ServerAdded(r, s, conn).1.None?
    ensures var names := Lowered(set k | k in Keys(s, conn.value.tools));
      var back := ServerRemoved(ServerAdded(r, s, conn).0, s.name);
      && back.Some?
      && back.value == r.(categories := r.categories - names)
      && (back.value == r <==> names !! r.categories.Keys)
  {
    ReachableIsValid(r);
    GlobalUndone(r, s, conn.value);
    MinusNothing(r.categories, Lowered(set k | k in Keys(s, conn.value.tools)));
  }

  lemma {:induction false} SetUndone(r: Reg, s: Server, l: Listing)
    requires Linked(r.open, r.priv) && s.name !in r.open.servers
    requires forall k :: k in Keys(s, l.tools) ==> !ToolTaken(r, k)
    ensures var t := Extended(r.open, s, l);
      && Keep(t.tools, Keys(s, l.tools)) == r.open.tools
      && t.invokers - (set k | k in Keys(s, l.tools)) == r.open.invokers
      && t.servers - {s.name} == r.open.servers
  {
    var keys := Keys(s, l.tools);
    var names := set k | k in keys;
    UndoneTools(r.open.tools, s, l.tools);
    Undone(r.open.invokers, keys, Remotes(l), names);
    MinusNothing(r.open.invokers, names);
  }

  lemma {:induction false} GlobalUndone(r: Reg, s: Server, l: Listing)
    requires Valid(r) && s.name !in r.open.servers
    requires forall k :: k in Keys(s, l.tools) ==> !ToolTaken(r, k)
    ensures var back := ServerRemoved(GlobalAdded(r, s, l), s.name);
      back == Some(r.(categories := r.categories - Lowered(set k | k in Keys(s, l.tools))))
  {
    var keys := Keys(s, l.tools);
    SetUndone(r, s, l);
    UndoneCategories(r.categories, keys);
    assert (set n | n in keys :: Lower(n)) == Lowered(set k | k in keys);
  }

  /**
   A rejected server changes nothing that any context could see or call. What it may leave behind
   is an empty container, exactly when a channel's first server is turned down for a taken name.
   */
  lemma RejectionIsInvisible(r: Reg, s: Server, conn: Result<Listing, string>)
    requires "" !in r.channels && ServerAdded(r, s, conn).1.Some?
    ensures var r' := ServerAdded(r, s, conn).0;
      && (r' != r <==> ServerAdded(r, s, conn).1.value == ToolNameTaken && s.channel != "" && s.channel !in r.channels)
      && (r' != r ==> r' == r.(channels := r.channels[s.channel := NO_TOOLS]))
      && (forall owners :: ValidOwners(r', owners) <==> ValidOwners(r, owners))
      && (forall ctx, owners :: ListedTools(r', ctx, owners) == ListedTools(r, ctx, owners))
      && (forall ctx, owners, name, call ::
            Invokes(r', ctx, owners, name, call) <==> Invokes(r, ctx, owners, name, call))
  {
    var r' := ServerAdded(r, s, conn).0;
    if r' != r {
      assert forall ch, key :: Owns(r', ch, key) <==> Owns(r, ch, key);
      forall ctx
        ensures ChannelSet(r', ctx) == ChannelSet(r, ctx)
      {
      }
    }
  }

  /**
   Removing a global server, for every context and every name: a name that matches none of the
   server's own up to case is callable exactly as before; one that does match is callable only
   where the context's channel holds it. So another server's tool stays callable everywhere
   exactly when the removed server had no name that differs from it in case alone.
   */
  lemma {:induction false} RemovalExactly(r: Reg, server: string, ctx: Ctx, owners: map<string, string>, name: string)
    requires Reachable(r) && server in r.open.servers && ValidOwners(r, owners)
    ensures var r' := ServerRemoved(r, server).value;
      && ValidOwners(r', owners)
      && (Callable(r', ctx, owners, name) <==>
            if HasFolded((set n | n in r.open.servers[server].toolNames), name)
            then Lower(name) in owners && owners[Lower(name)] == ctx.channel
            else Callable(r, ctx, owners, name))
  {
    ReachableIsValid(r);
    RemoveKeepsValid(r, server);
    var r' := ServerRemoved(r, server).value;
    var gone := r.open.servers[server].toolNames;
    RemovalKeepsOwners(r, server, owners);
    BothMeanAllowed(r, ctx, owners, owners, name);
    BothMeanAllowed(r', ctx, owners, owners, name);
    KeepNames(r.open.tools, gone);
    var key := Lower(name);
    assert key in r'.categories <==> key in r.categories && key !in Lowered(set n | n in gone);
    if key in owners && owners[key] == ctx.channel {
      OwnedIsNamed(r', ctx, key);
    }
  }

  lemma {:induction false} RemovalKeepsOwners(r: Reg, server: string, owners: map<string, string>)
    requires server in r.open.servers
    ensures ValidOwners(ServerRemoved(r, server).value, owners) <==> ValidOwners(r, owners)
  {
    var r' := ServerRemoved(r, server).value;
    assert forall ch, key :: Owns(r', ch, key) <==> Owns(r, ch, key);
  }

  lemma AddOneGlobal(r: Reg, server: string, url: string, tool: Desc)
    requires url != "" && !ServerTaken(r, server) && !ToolTaken(r, ToolKey(server, tool.name, ""))
    ensures var s, l := Server(server, "", true, url), Listing(0, [tool]);
      && ServerAdded(r, s, Success(l)) == (GlobalAdded(r, s, l), None)
      && Keys(s, l.tools) == [ToolKey(server, tool.name, "")]
      && Apply(r, AddOne("", server, url, tool)) == GlobalAdded(r, s, l)
  {
    var s, l := Server(server, "", true, url), Listing(0, [tool]);
    assert Keys(s, l.tools) == [ToolKey(server, tool.name, "")];
  }

  /** Which server is turned down and why: the first of these reasons that applies. */
  lemma {:induction false} AddsExactly(r: Reg, s: Server, conn: Result<Listing, string>)
    ensures ServerAdded(r, s, conn).1 ==
      if !s.remote then Some(Unsupported)
      else if s.url == "" then Some(NoUrl)
      else if s.channel == "" && (Reserved(s.name) || exists c :: c in r.open.servers.Values && c.name == s.name)
      then Some(ServerNameTaken)
      else if conn.Failure? then Some(Unreachable)
      else if exists t :: t in conn.value.tools && Clashes(r, s, t) then Some(ToolNameTaken)
      else None
  {
    if conn.Success? {
      var l := conn.value;
      forall k
        ensures k in Keys(s, l.tools) <==> exists t :: t in l.tools && ToolKey(s.name, t.name, s.channel) == k
      {
        if k in Keys(s, l.tools) {
          var i :| 0 <= i < |l.tools| && Keys(s, l.tools)[i] == k;
          assert l.tools[i] in l.tools;
        }
        if t :| t in l.tools && ToolKey(s.name, t.name, s.channel) == k {
          var i :| 0 <= i < |l.tools| && l.tools[i] == t;
          assert Keys(s, l.tools)[i] == k;
        }
      }
      assert forall t :: t in l.tools ==> (Clashes(r, s, t) <==> ToolTaken(r, ToolKey(s.name, t.name, s.channel)));
    }
  }

  /** The name the tool would be registered under belongs to another global tool. */
  predicate Clashes(r: Reg, s: Server, t: Desc) {
    var key := (if s.channel == "" then "" else s.channel + "__") + s.name + "__" + t.name;
    Reserved(key) || (exists d :: d in r.open.tools && d.name == key) || (exists d :: d in r.priv && d.name == key)
  }

  /** What the first of two such servers leaves in an empty registry. */
  lemma FirstServerIsCallable(server: string, url: string, tool: Desc)
    requires url != "" && !Reserved(server) && !Reserved(ToolKey(server, tool.name, ""))
    ensures var r := After(WithBuiltIns([]), [AddOne("", server, url, tool)]);
      var key := ToolKey(server, tool.name, "");
      && Reachable(r) && r.priv == [] && r.open.servers == map[server := Conn(server, [key])]
      && r.open.tools == [Desc(key, tool.description)] && r.categories == map[Lower(key) := McpGlobal]
      && r.channels == map[]
  {
    var r0, ops := WithBuiltIns([]), [AddOne("", server, url, tool)];
    var key := ToolKey(server, tool.name, "");
    AddOneGlobal(r0, server, url, tool);
    assert ops[..0] == [];
    var r := Apply(r0, ops[0]);
    assert r == After(r0, ops);
    var s, l := Server(server, "", true, url), Listing(0, [tool]);
    assert KeyedDescs(s, l.tools) == [Desc(key, tool.description)];
    assert Map(Lower, [key]) == [Lower(key)];
    WithOneMore(map[], [], [], Lower(key), McpGlobal);
    assert [] + [Lower(key)] == [Lower(key)] && [] + [McpGlobal] == Map(_ => McpGlobal, [key]);
  }

  /**
   With two servers whose names differ in case alone, adding the second and removing it again
   makes the first one's tool uncallable, although it is still registered.
   */
  lemma RemovingOneSilencesAnother(one: string, two: string, url: string, tool: Desc)
    requires url != "" && one != two && EqualFold(one, two) && !Reserved(one) && !Reserved(two)
    requires !Reserved(ToolKey(one, tool.name, "")) && !Reserved(ToolKey(two, tool.name, ""))
    ensures var r := After(WithBuiltIns([]), [AddOne("", one, url, tool)]);
      var key := ToolKey(one, tool.name, "");
      var back := ServerRemoved(Apply(r, AddOne("", two, url, tool)), two);
      && Reachable(r) && Callable(r, Ctx(false, ""), map[], key)
      && back.Some? && key in NamesOf(back.value.open.tools) && !Callable(back.value, Ctx(false, ""), map[], key)
  {
    var r := After(WithBuiltIns([]), [AddOne("", one, url, tool)]);
    var s, l := Server(two, "", true, url), Listing(0, [tool]);
    var key, key2 := ToolKey(one, tool.name, ""), ToolKey(two, tool.name, "");
    FirstServerIsCallable(one, url, tool);
    ReachableIsValid(r);
    GlobalKeysFold(one, two, tool.name);
    AddOneGlobal(r, two, url, tool);
    RemovingUndoesAdding(r, s, Success(l));
    assert key2 in [key2] && r.open.tools[0] in r.open.tools;
    OpenIsCallable(r, key);
    SilentWithoutCategory(r.(categories := r.categories - Lowered(set k | k in [key2])), key);
  }

  lemma OpenIsCallable(r: Reg, name: string)
    requires Valid(r) && r.channels == map[] && name in NamesOf(r.open.tools)
    requires Lower(name) in r.categories && r.categories[Lower(name)] == McpGlobal
    ensures Callable(r, Ctx(false, ""), map[], name)
  {
    BothMeanAllowed(r, Ctx(false, ""), map[], map[], name);
    assert name in CandidateNames(r, Ctx(false, ""));
  }

  lemma SilentWithoutCategory(r: Reg, name: string)
    requires Lower(name) !in r.categories
    ensures !Callable(r, Ctx(false, ""), map[], name)
  {
    assert !PolicyOf(r, Ctx(false, ""), map[]).Allows(name);
  }

  lemma GlobalKeysFold(one: string, two: string, tool: string)
    requires EqualFold(one, two) && one != two
    ensures EqualFold(ToolKey(one, tool, ""), ToolKey(two, tool, ""))
    ensures ToolKey(one, tool, "") != ToolKey(two, tool, "")
  {
    var rest := "__" + tool;
    assert ToolKey(one, tool, "") == one + rest && ToolKey(two, tool, "") == two + rest;
    LowerAppend(one, rest);
    LowerAppend(two, rest);
    assert (one + rest)[..|one|] == one && (two + rest)[..|two|] == two;
  }

  // ----- Restricted tools -----

  /** The operation binds a global tool of this name, up to case. */
  ghost predicate Claims(op: Op, name: string) {
    match op
    case DoRegister(n, invoker) => invoker.Some? && EqualFold(n, name)
    case DoAdd(s, Success(l)) => s.channel == "" && HasFolded((set k | k in Keys(s, l.tools)), name)
    case _ => false
  }

  /** A global tool of this name, up to case, is there, and this is the class on record for it. */
  ghost predicate Bound(r: Reg, name: string, category: Category) {
    && HasFolded(NamesOf(r.open.tools) + NamesOf(r.priv), name)
    && Lower(name) in r.categories && r.categories[Lower(name)] == category
  }

  /** Some server holds a tool of this name, up to case. */
  ghost predicate Held(r: Reg, name: string) {
    exists k, n :: k in r.open.servers && n in r.open.servers[k].toolNames && EqualFold(n, name)
  }

  /** The operation binds the name anew, or removes a server that holds it. */
  ghost predicate Takes(r: Reg, op: Op, name: string) {
    || Claims(op, name)
    || (op.DoRemove? && op.name in r.open.servers
        && HasFolded((set n | n in r.open.servers[op.name].toolNames), name))
  }

  lemma {:induction false} RegisterKeepsBound(r: Reg, b: BuiltIn, name: string, category: Category)
    requires Bound(r, name, category) && !EqualFold(b.desc.name, name)
    ensures Bound(ToolRegistered(r, b), name, category)
  {
    var n :| n in NamesOf(r.open.tools) + NamesOf(r.priv) && EqualFold(n, name);
    NamesAppend(r.open.tools, [b.desc]);
    NamesAppend(r.priv, [b.desc]);
    assert n in NamesOf(ToolRegistered(r, b).open.tools) + NamesOf(ToolRegistered(r, b).priv);
  }

  lemma {:induction false} AddKeepsBound(r: Reg, s: Server, conn: Result<Listing, string>, name: string,
                                         category: Category)
    requires Bound(r, name, category) && !Claims(DoAdd(s, conn), name)
    ensures Bound(ServerAdded(r, s, conn).0, name, category)
  {
    if Admission(r, s, conn).Success? && s.channel == "" {
      GlobalAddKeepsBound(r, s, conn.value, name, category);
    }
  }

  lemma {:induction false} GlobalAddKeepsBound(r: Reg, s: Server, l: Listing, name: string, category: Category)
    requires Bound(r, name, category) && !HasFolded((set k | k in Keys(s, l.tools)), name)
    ensures Bound(GlobalAdded(r, s, l), name, category)
  {
    var keys := Keys(s, l.tools);
    CategorizedAdds(r.categories, keys);
    LoweredHasFolded((set k | k in keys), name);
    NamesAppend(r.open.tools, KeyedDescs(s, l.tools));
    var n :| n in NamesOf(r.open.tools) + NamesOf(r.priv) && EqualFold(n, name);
    assert n in NamesOf(GlobalAdded(r, s, l).open.tools) + NamesOf(r.priv);
  }

  lemma {:induction false} RemoveKeepsBound(r: Reg, server: string, name: string, category: Category)
    requires Bound(r, name, category) && server in r.open.servers && !Takes(r, DoRemove(server), name)
    ensures Bound(ServerRemoved(r, server).value, name, category)
  {
    var gone := r.open.servers[server].toolNames;
    LoweredHasFolded((set n | n in gone), name);
    KeepNames(r.open.tools, gone);
    var n :| n in NamesOf(r.open.tools) + NamesOf(r.priv) && EqualFold(n, name);
    assert n !in gone;
    assert n in NamesOf(Keep(r.open.tools, gone)) + NamesOf(r.priv);
  }

  lemma {:induction false} ApplyKeepsBound(r: Reg, op: Op, name: string, category: Category)
    requires Bound(r, name, category) && !Takes(r, op, name)
    ensures Bound(Apply(r, op), name, category)
  {
    match op
    case DoAdd(s, conn) => AddKeepsBound(r, s, conn, name, category);
    case DoRegister(n, invoker) =>
      if n != "" && invoker.Some? {
        RegisterKeepsBound(r, BuiltIn(Desc(n, ""), invoker.value, BuiltinPublic), name, category);
      }
    case DoRemove(server) =>
      if server in r.open.servers {
        RemoveKeepsBound(r, server, name, category);
      }
    case DoDropChannel(_) =>
  }

  /** None of the operations, each applied to what the ones before it left, takes the name. */
  ghost predicate LeftAlone(r: Reg, ops: seq<Op>, name: string) {
    ops == [] ||
    (LeftAlone(r, ops[..|ops| - 1], name) && !Takes(After(r, ops[..|ops| - 1]), ops[|ops| - 1], name))
  }

  lemma {:induction false} AfterKeepsBound(r: Reg, ops: seq<Op>, name: string, category: Category)
    requires Bound(r, name, category) && LeftAlone(r, ops, name)
    ensures Bound(After(r, ops), name, category)
  {
    if ops != [] {
      AfterKeepsBound(r, ops[..|ops| - 1], name, category);
      ApplyKeepsBound(After(r, ops[..|ops| - 1]), ops[|ops| - 1], name, category);
    }
  }

  /** The contexts that may use a tool of this class: all of them, or keepers. */
  ghost predicate ForWhom(r: Reg, ctx: Ctx, owners: map<string, string>, name: string, category: Category) {
    match category
    case BuiltinKeeper =>
      (Callable(r, ctx, owners, name) <==> ctx.keeper) && (Visible(r, ctx, owners, name) <==> ctx.keeper)
    case BuiltinPublic => Callable(r, ctx, owners, name) && Visible(r, ctx, owners, name)
    case McpGlobal => Callable(r, ctx, owners, name) && Visible(r, ctx, owners, name)
  }

  lemma {:induction false} BoundIsForIts(r: Reg, ctx: Ctx, owners: map<string, string>, name: string,
                                         category: Category)
    requires Valid(r) && ValidOwners(r, owners) && Bound(r, name, category)
    ensures ForWhom(r, ctx, owners, name, category)
  {
    BothMeanAllowed(r, ctx, owners, owners, name);
    var n :| n in NamesOf(r.open.tools) + NamesOf(r.priv) && EqualFold(n, name);
    assert n in CandidateNames(r, ctx);
  }

  /**
   Once a global tool is there, it is listed for, and can be called by, exactly the contexts of its
   class, whatever operations follow that leave its name alone.
   */
  lemma {:induction false} ToolsFollowTheirClass(r: Reg, ops: seq<Op>, ctx: Ctx, owners: map<string, string>,
                                                 name: string, category: Category)
    requires Reachable(r) && Bound(r, name, category) && LeftAlone(r, ops, name)
    requires ValidOwners(After(r, ops), owners)
    ensures ForWhom(After(r, ops), ctx, owners, name, category)
  {
    ReachableIsValid(r);
    AfterIsValid(r, ops);
    AfterKeepsBound(r, ops, name, category);
    BoundIsForIts(After(r, ops), ctx, owners, name, category);
  }

  /** A tool registered at run time is public, and every tool of a new global server is open to all contexts. */
  lemma {:induction false} NewToolsAreOpen(r: Reg, name: string, invoker: Invoker, s: Server, l: Listing, i: nat)
    ensures name != "" ==> Bound(Apply(r, DoRegister(name, Some(invoker))), name, BuiltinPublic)
    ensures i < |l.tools| && s.channel == "" && ServerAdded(r, s, Success(l)).1.None? ==>
      Bound(Apply(r, DoAdd(s, Success(l))), s.name + "__" + l.tools[i].name, McpGlobal)
  {
    if name != "" {
      NamesAppend(r.open.tools, [Desc(name, "")]);
      assert Desc(name, "") in [Desc(name, "")];
      assert name in NamesOf(Apply(r, DoRegister(name, Some(invoker))).open.tools);
    }
    if i < |l.tools| && s.channel == "" && ServerAdded(r, s, Success(l)).1.None? {
      var keys := Keys(s, l.tools);
      var key := s.name + "__" + l.tools[i].name;
      assert "" + s.name == s.name;
      assert keys[i] == key && key in keys;
      KeyedNames(s, l.tools);
      NamesAppend(r.open.tools, KeyedDescs(s, l.tools));
      assert key in NamesOf(GlobalAdded(r, s, l).open.tools);
      WithAllLast(r.categories, Map(Lower, keys), Map(_ => McpGlobal, keys), McpGlobal, i);
    }
  }

  lemma {:induction false} WithAllLast<V>(m: map<string, V>, keys: seq<string>, values: seq<V>, value: V, i: nat)
    requires i < |keys| == |values| && forall j :: 0 <= j < |keys| && keys[j] == keys[i] ==> values[j] == value
    ensures keys[i] in WithAll(m, keys, values) && WithAll(m, keys, values)[keys[i]] == value
  {
    var k := |keys| - 1;
    if i < k {
      WithAllLast(m, keys[..k], values[..k], value, i);
    }
  }

  // ----- Built-in tools -----

  lemma {:induction false} BuiltInIsBound(bs: seq<BuiltIn>, i: nat)
    requires i < |bs| && forall j :: i < j < |bs| ==> !EqualFold(bs[j].desc.name, bs[i].desc.name)
    ensures Bound(WithBuiltIns(bs), bs[i].desc.name, bs[i].category)
    decreases |bs|
  {
    var k := |bs| - 1;
    var r, b := WithBuiltIns(bs[..k]), bs[k];
    if i < k {
      BuiltInIsBound(bs[..k], i);
      RegisterKeepsBound(r, b, bs[i].desc.name, bs[i].category);
    } else {
      NamesAppend(r.open.tools, [b.desc]);
      NamesAppend(r.priv, [b.desc]);
      assert b.desc in [b.desc];
      assert b.desc.name in NamesOf(ToolRegistered(r, b).open.tools) + NamesOf(ToolRegistered(r, b).priv);
    }
  }

  lemma {:induction false} ApplyKeepsUnheld(r: Reg, op: Op, name: string)
    requires !Held(r, name) && !Claims(op, name)
    ensures !Held(Apply(r, op), name) && !Takes(r, op, name)
  {
    match op
    case DoAdd(s, conn) =>
      if Admission(r, s, conn).Success? && s.channel == "" {
        assert forall n :: n in Keys(s, conn.value.tools) ==> n in (set k | k in Keys(s, conn.value.tools));
      }
    case _ =>
  }

  /** A name that no server holds is left alone as long as nothing claims it. */
  lemma {:induction false} UnclaimedIsLeftAlone(r: Reg, ops: seq<Op>, name: string)
    requires !Held(r, name) && forall op :: op in ops ==> !Claims(op, name)
    ensures LeftAlone(r, ops, name) && !Held(After(r, ops), name)
  {
    if ops != [] {
      UnclaimedIsLeftAlone(r, ops[..|ops| - 1], name);
      ApplyKeepsUnheld(After(r, ops[..|ops| - 1]), ops[|ops| - 1], name);
    }
  }

  lemma {:induction false} SetUpIsReachable(bs: seq<BuiltIn>)
    requires forall b :: b in bs ==> b.desc.name != ""
    ensures Reachable(WithBuiltIns(bs))
  {
    assert After(WithBuiltIns(bs), []) == WithBuiltIns(bs);
  }

  /**
   Whatever servers come and go and whatever else is registered, a built-in tool can be called, and
   is listed, for everyone or for keepers only as its class says, as long as nothing takes its name
   up to case.
   */
  lemma {:induction false} BuiltInsFollowTheirClass(bs: seq<BuiltIn>, i: nat, ops: seq<Op>, ctx: Ctx,
                                                    owners: map<string, string>)
    requires i < |bs| && forall b :: b in bs ==> b.desc.name != ""
    requires forall j :: i < j < |bs| ==> !EqualFold(bs[j].desc.name, bs[i].desc.name)
    requires forall op :: op in ops ==> !Claims(op, bs[i].desc.name)
    requires ValidOwners(After(WithBuiltIns(bs), ops), owners)
    ensures ForWhom(After(WithBuiltIns(bs), ops), ctx, owners, bs[i].desc.name, bs[i].category)
  {
    BuiltInsAreValid(bs);
    BuiltInIsBound(bs, i);
    SetUpIsReachable(bs);
    UnclaimedIsLeftAlone(WithBuiltIns(bs), ops, bs[i].desc.name);
    ToolsFollowTheirClass(WithBuiltIns(bs), ops, ctx, owners, bs[i].desc.name, bs[i].category);
  }

  /** A restricted built-in tool, in particular, can be called, and is listed, for keepers only. */
  lemma {:induction false} RestrictedToolsStayRestricted(bs: seq<BuiltIn>, i: nat, ops: seq<Op>, ctx: Ctx,
                                                         owners: map<string, string>)
    requires i < |bs| && bs[i].category.BuiltinKeeper? && forall b :: b in bs ==> b.desc.name != ""
    requires forall j :: i < j < |bs| ==> !EqualFold(bs[j].desc.name, bs[i].desc.name)
    requires forall op :: op in ops ==> !Claims(op, bs[i].desc.name)
    requires ValidOwners(After(WithBuiltIns(bs), ops), owners)
    ensures var r, name := After(WithBuiltIns(bs), ops), bs[i].desc.name;
      && (Callable(r, ctx, owners, name) <==> ctx.keeper)
      && (Visible(r, ctx, owners, name) <==> ctx.keeper)
  {
    BuiltInsFollowTheirClass(bs, i, ops, ctx, owners);
  }

  /** A public one is there for every context. */
  lemma {:induction false} PublicToolsStayPublic(bs: seq<BuiltIn>, i: nat, ops: seq<Op>, ctx: Ctx,
                                                 owners: map<string, string>)
    requires i < |bs| && bs[i].category.BuiltinPublic? && forall b :: b in bs ==> b.desc.name != ""
    requires forall j :: i < j < |bs| ==> !EqualFold(bs[j].desc.name, bs[i].desc.name)
    requires forall op :: op in ops ==> !Claims(op, bs[i].desc.name)
    requires ValidOwners(After(WithBuiltIns(bs), ops), owners)
    ensures var r, name := After(WithBuiltIns(bs), ops), bs[i].desc.name;
      Callable(r, ctx, owners, name) && Visible(r, ctx, owners, name)
  {
    BuiltInsFollowTheirClass(bs, i, ops, ctx, owners);
  }

  // ----- What a call reaches -----

  /** A tool that one channel alone holds, and no global class settles, is that channel's own. */
  lemma {:induction false} ChannelToolsStayInTheirChannel(r: Reg, channel: string, ctx: Ctx,
                                                          owners: map<string, string>, name: string)
    requires Reachable(r) && ValidOwners(r, owners) && Lower(name) !in r.categories
    requires Owns(r, channel, Lower(name)) && forall ch :: Owns(r, ch, Lower(name)) ==> ch == channel
    ensures Callable(r, ctx, owners, name) <==> ctx.channel == channel
    ensures Visible(r, ctx, owners, name) <==> ctx.channel == channel
  {
    ReachableIsValid(r);
    BothMeanAllowed(r, ctx, owners, owners, name);
    if ctx.channel == channel {
      OwnedIsNamed(r, ctx, Lower(name));
    }
  }

  /** No key of the container but the i-th of the new ones equals it up to case. */
  ghost predicate AloneIn(t: ToolSet, keys: seq<string>, i: nat)
    requires i < |keys|
  {
    && (forall k :: k in t.invokers ==> !EqualFold(k, keys[i]))
    && (forall j :: 0 <= j < |keys| && j != i ==> !EqualFold(keys[j], keys[i]))
  }

  lemma {:induction false} OnlyHit(t: ToolSet, s: Server, l: Listing, i: nat)
    requires i < |l.tools| && AloneIn(t, Keys(s, l.tools), i)
    ensures Hits(Extended(t, s, l).invokers, Keys(s, l.tools)[i]) == {Remote(l.client, l.tools[i].name)}
    ensures Lower(Keys(s, l.tools)[i]) in Lowered(SetNames(Extended(t, s, l)))
  {
    var keys, values := Keys(s, l.tools), Remotes(l);
    WithAllAdds(t.invokers, keys, values);
    WithAllLast(t.invokers, keys, values, values[i], i);
    assert keys[i] in Extended(t, s, l).invokers.Keys;
  }

  /**
   A call of a tool just added to a channel, from that channel, reaches that server's tool under the
   name the server gave it, even where a global tool has the same name: the channel's own comes first.
   */
  lemma {:induction false} AddedChannelToolIsReached(r: Reg, s: Server, l: Listing, i: nat, ctx: Ctx,
                                                     owners: map<string, string>, call: Call)
    requires Reachable(r) && s.channel != "" && ServerAdded(r, s, Success(l)).1.None? && i < |l.tools|
    requires AloneIn(WithChannel(r, s.channel).channels[s.channel], Keys(s, l.tools), i)
    requires var r' := ServerAdded(r, s, Success(l)).0;
      var key := s.channel + "__" + s.name + "__" + l.tools[i].name;
      && ctx.channel == s.channel && ValidOwners(r', owners)
      && Invokes(r', ctx, owners, key, call)
      && (Lower(key) in r.categories || forall ch :: Owns(r', ch, Lower(key)) ==> ch == s.channel)
    ensures var key := s.channel + "__" + s.name + "__" + l.tools[i].name;
      if Lower(key) in r.categories && r.categories[Lower(key)] == BuiltinKeeper && !ctx.keeper then call == Denied
      else call == Reached(Remote(l.client, l.tools[i].name))
  {
    var r', keys := ServerAdded(r, s, Success(l)).0, Keys(s, l.tools);
    var key := s.channel + "__" + s.name + "__" + l.tools[i].name;
    assert keys[i] == key && key in keys;
    var t := WithChannel(r, s.channel).channels[s.channel];
    OnlyHit(t, s, l, i);
    assert ChannelSet(r', ctx) == Extended(t, s, l);
    assert Owns(r', s.channel, Lower(key));
    assert owners[Lower(key)] == s.channel || Lower(key) in r.categories;
  }

  /** A call of a tool just added for everyone, from a channel that has none of that name, likewise. */
  lemma {:induction false} AddedGlobalToolIsReached(r: Reg, s: Server, l: Listing, i: nat, ctx: Ctx,
                                                    owners: map<string, string>, call: Call)
    requires Reachable(r) && s.channel == "" && ServerAdded(r, s, Success(l)).1.None? && i < |l.tools|
    requires AloneIn(r.open, Keys(s, l.tools), i)
    requires var r', key := ServerAdded(r, s, Success(l)).0, s.name + "__" + l.tools[i].name;
      && !Owns(r, ctx.channel, Lower(key)) && ValidOwners(r', owners) && Invokes(r', ctx, owners, key, call)
    ensures call == Reached(Remote(l.client, l.tools[i].name))
  {
    var r', keys := ServerAdded(r, s, Success(l)).0, Keys(s, l.tools);
    var key := s.name + "__" + l.tools[i].name;
    assert "" + s.name == s.name;
    assert keys[i] == key && key in keys;
    OnlyHit(r.open, s, l, i);
    NewToolsAreOpen(r, "", Local(0), s, l, i);
    NoHits(r', ctx, key);
  }

  lemma {:induction false} NoHits(r: Reg, ctx: Ctx, name: string)
    requires !Owns(r, ctx.channel, Lower(name))
    ensures Hits(ChannelSet(r, ctx).invokers, name) == {}
  {
    HitsExist(ChannelSet(r, ctx).invokers, name);
    LoweredHasFolded(SetNames(ChannelSet(r, ctx)), name);
  }

  // ----- The registry as an object -----

  lemma WithOneMore<V>(m: map<string, V>, keys: seq<string>, values: seq<V>, key: string, value: V)
    requires |keys| == |values|
    ensures WithAll(m, keys + [key], values + [value]) == WithAll(m, keys, values)[key := value]
  {
    assert (keys + [key])[..|keys|] == keys && (values + [value])[..|values|] == values;
  }

  /** What the registration loop has gathered from the first tools. */
  ghost predicate Gathered(t: ToolSet, categories: map<string, Category>, s: Server, l: Listing,
                           tools: seq<Desc>, invokers: map<string, Invoker>, global: map<string, Category>,
                           names: seq<string>)
  {
    && tools == t.tools + KeyedDescs(s, l.tools)
    && invokers == WithAll(t.invokers, Keys(s, l.tools), Remotes(l))
    && global == (if s.channel == "" then Categorized(categories, Keys(s, l.tools)) else categories)
    && names == Keys(s, l.tools)
  }

  lemma {:induction false} GatherOne(t: ToolSet, categories: map<string, Category>, s: Server, l: Listing, tool: Desc,
                                     tools: seq<Desc>, invokers: map<string, Invoker>, global: map<string, Category>,
                                     names: seq<string>)
    requires Gathered(t, categories, s, l, tools, invokers, global, names)
    ensures var key := ToolKey(s.name, tool.name, s.channel);
      Gathered(t, categories, s, l.(tools := l.tools + [tool]), tools + [tool.(name := key)],
               invokers[key := Remote(l.client, tool.name)],
               if s.channel == "" then global[Lower(key) := McpGlobal] else global, names + [key])
  {
    var key := ToolKey(s.name, tool.name, s.channel);
    ListOne(s, l, tool);
    WithOneMore(t.invokers, Keys(s, l.tools), Remotes(l), key, Remote(l.client, tool.name));
    CategorizeOne(categories, Keys(s, l.tools), key);
    assert t.tools + KeyedDescs(s, l.tools) + [tool.(name := key)]
        == t.tools + (KeyedDescs(s, l.tools) + [tool.(name := key)]);
  }

  lemma {:induction false} ListOne(s: Server, l: Listing, tool: Desc)
    ensures var key, more := ToolKey(s.name, tool.name, s.channel), l.(tools := l.tools + [tool]);
      && Keys(s, more.tools) == Keys(s, l.tools) + [key]
      && Remotes(more) == Remotes(l) + [Remote(l.client, tool.name)]
      && KeyedDescs(s, more.tools) == KeyedDescs(s, l.tools) + [tool.(name := key)]
  {
  }

  lemma {:induction false} CategorizeOne(categories: map<string, Category>, keys: seq<string>, key: string)
    ensures Categorized(categories, keys + [key]) == Categorized(categories, keys)[Lower(key) := McpGlobal]
  {
    assert Map(Lower, keys + [key]) == Map(Lower, keys) + [Lower(key)];
    assert Map(_ => McpGlobal, keys + [key]) == Map(_ => McpGlobal, keys) + [McpGlobal];
    WithOneMore(categories, Map(Lower, keys), Map(_ => McpGlobal, keys), Lower(key), McpGlobal);
  }

  class ToolRegistry {
    var tools: seq<Desc>
    var invokers: map<string, Invoker>
    var categories: map<string, Category>
    var privTools: seq<Desc>
    var servers: map<string, Conn>
    var channelTools: map<string, ToolSet>

    function Abs(): Reg
      reads this
    {
      Reg(ToolSet(tools, invokers, servers), privTools, categories, channelTools)
    }

    constructor (builtIns: seq<BuiltIn>)
      ensures Abs() == WithBuiltIns(builtIns)
    {
      tools, invokers, categories, privTools, servers, channelTools := [], map[], map[], [], map[], map[];
      new;
      for i := 0 to |builtIns|
        invariant Abs() == WithBuiltIns(builtIns[..i])
      {
        assert builtIns[..i + 1][..i] == builtIns[..i];
        RegisterTool(builtIns[i]);
      }
      assert builtIns[..|builtIns|] == builtIns;
    }

    method RegisterTool(b: BuiltIn)
      modifies this
      ensures Abs() == ToolRegistered(old(Abs()), b)
    {
      if b.category == BuiltinKeeper {
        privTools := privTools + [b.desc];
      } else {
        tools := tools + [b.desc];
      }
      invokers := invokers[b.desc.name := b.invoker];
      categories := categories[Lower(b.desc.name) := b.category];
    }

    method RegisterInvoker(name: string, invoker: Option<Invoker>)
      modifies this
      ensures Abs() == InvokerRegistered(old(Abs()), name, invoker)
    {
      if name == "" || invoker.None? {
        return;
      }
      tools := tools + [Desc(name, "")];
      invokers := invokers[name := invoker.value];
      categories := categories[Lower(name) := BuiltinPublic];
    }

    /** Some name the listing would register is reserved or in use. */
    method AnyToolTaken(s: Server, l: Listing) returns (taken: bool)
      ensures taken <==> exists k :: k in Keys(s, l.tools) && ToolTaken(Abs(), k)
    {
      for i := 0 to |l.tools|
        invariant forall j :: 0 <= j < i ==> !ToolTaken(Abs(), Keys(s, l.tools)[j])
      {
        if ToolTaken(Abs(), ToolKey(s.name, l.tools[i].name, s.channel)) {
          assert Keys(s, l.tools)[i] in Keys(s, l.tools);
          return true;
        }
      }
      taken := false;
    }

    /** Checks every name of the listing, then registers the tools in `t`; `global` are the policy categories. */
    method RegisterToolsLocked(t: ToolSet, global: map<string, Category>, s: Server, l: Listing)
      returns (t': ToolSet, global': map<string, Category>, taken: bool)
      ensures taken <==> exists k :: k in Keys(s, l.tools) && ToolTaken(Abs(), k)
      ensures taken ==> t' == t && global' == global
      ensures !taken ==> t' == Extended(t, s, l)
      ensures !taken ==> global' == if s.channel == "" then Categorized(global, Keys(s, l.tools)) else global
    {
      taken := AnyToolTaken(s, l);
      if taken {
        return t, global, true;
      }
      var tools, invokers, names: seq<string> := t.tools, t.invokers, [];
      global' := global;
      for i := 0 to |l.tools|
        invariant Gathered(t, global, s, l.(tools := l.tools[..i]), tools, invokers, global', names)
      {
        var tool := l.tools[i];
        var key := ToolKey(s.name, tool.name, s.channel);
        GatherOne(t, global, s, l.(tools := l.tools[..i]), tool, tools, invokers, global', names);
        assert l.tools[..i + 1] == l.tools[..i] + [tool];
        tools, invokers := tools + [tool.(name := key)], invokers[key := Remote(l.client, tool.name)];
        if s.channel == "" {
          global' := global'[Lower(key) := McpGlobal];
        }
        names := names + [key];
      }
      assert l.tools[..|l.tools|] == l.tools;
      t' := ToolSet(tools, invokers, t.servers[s.name := Conn(s.name, names)]);
    }

    method AddServer(s: Server, conn: Result<Listing, string>) returns (error: Option<AddError>)
      modifies this
      ensures (Abs(), error) == ServerAdded(old(Abs()), s, conn)
    {
      if !s.remote {
        return Some(Unsupported);
      }
      if s.url == "" {
        return Some(NoUrl);
      }
      if s.channel == "" && ServerTaken(Abs(), s.name) {
        return Some(ServerNameTaken);
      }
      if conn.Failure? {
        return Some(Unreachable);
      }
      var t, global, taken;
      if s.channel == "" {
        t, global, taken := RegisterToolsLocked(ToolSet(tools, invokers, servers), categories, s, conn.value);
        tools, invokers, servers, categories := t.tools, t.invokers, t.servers, global;
      } else {
        if s.channel !in channelTools {
          channelTools := channelTools[s.channel := NO_TOOLS];
        }
        t, global, taken := RegisterToolsLocked(channelTools[s.channel], map[], s, conn.value);
        assert taken ==> channelTools[s.channel := t] == channelTools;
        channelTools := channelTools[s.channel := t];
      }
      error := if taken then Some(ToolNameTaken) else None;
    }

    method RemoveServer(name: string) returns (found: bool)
      modifies this
      ensures found <==> name in old(servers)
      ensures Abs() == ServerRemoved(old(Abs()), name).GetOr(old(Abs()))
    {
      if name !in servers {
        return false;
      }
      var gone := servers[name].toolNames;
      var wasInvokers, wasCategories := invokers, categories;
      for i := 0 to |gone|
        invariant invokers == wasInvokers - (set n | n in gone[..i])
        invariant categories == wasCategories - (set n | n in gone[..i] :: Lower(n))
        invariant tools == old(tools) && servers == old(servers)
        invariant privTools == old(privTools) && channelTools == old(channelTools)
      {
        assert gone[..i + 1] == gone[..i] + [gone[i]];
        invokers := invokers - {gone[i]};
        categories := categories - {Lower(gone[i])};
      }
      assert gone[..|gone|] == gone;
      var newTools := [];
      for i := 0 to |tools|
        invariant newTools == Keep(tools[..i], gone)
      {
        assert tools[..i + 1][..i] == tools[..i];
        if tools[i].name !in gone {
          newTools := newTools + [tools[i]];
        }
      }
      assert tools[..|tools|] == tools;
      tools := newTools;
      servers := servers - {name};
      found := true;
    }

    method RemoveChannelTools(channel: string)
      modifies this
      ensures Abs() == ChannelDropped(old(Abs()), channel)
    {
      channelTools := channelTools - {channel};
    }

    /** The policy of a context: exact but for the choice among several channels that hold the same name. */
    method PolicyFor(ctx: Ctx) returns (policy: Policy)
      ensures ValidOwners(Abs(), policy.channelOwners)
      ensures policy == PolicyOf(Abs(), ctx, policy.channelOwners)
    {
      var registered := LowerAll(invokers.Keys + NamesOf(tools));
      var channelOwners: map<string, string> := map[];
      var todo := channelTools.Keys;
      while todo != {}
        invariant todo <= channelTools.Keys
        invariant forall key :: key in channelOwners ==> Owns(Abs(), channelOwners[key], key)
        invariant forall ch, key :: ch !in todo && Owns(Abs(), ch, key) ==> key in channelOwners
      {
        var ch :| ch in todo;
        todo := todo - {ch};
        channelOwners := Record(channelOwners, SetNames(channelTools[ch]), ch);
      }
      policy := Policy(ctx.keeper, ctx.channel, registered, categories, channelOwners);
    }

    method ToolsFor(ctx: Ctx) returns (base: seq<Desc>, owners: map<string, string>)
      ensures ValidOwners(Abs(), owners) && base == ListedTools(Abs(), ctx, owners)
    {
      var policy := PolicyFor(ctx);
      owners := policy.channelOwners;
      var candidates := tools + privTools;
      if ctx.channel != "" && ctx.channel in channelTools {
        candidates := candidates + channelTools[ctx.channel].tools;
      }
      assert candidates == Candidates(Abs(), ctx);
      base := [];
      for i := 0 to |candidates|
        invariant base == Allowed(policy, candidates[..i])
      {
        assert candidates[..i + 1][..i] == candidates[..i];
        if policy.Allows(candidates[i].name) {
          base := base + [candidates[i]];
        }
      }
      assert candidates[..|candidates|] == candidates;
    }

    method Invoke(ctx: Ctx, name: string) returns (call: Call, owners: map<string, string>)
      ensures ValidOwners(Abs(), owners) && Invokes(Abs(), ctx, owners, name, call)
    {
      var policy := PolicyFor(ctx);
      owners := policy.channelOwners;
      if name == "" {
        return EmptyName, owners;
      }
      if !policy.Registered(name) {
        return NotFound, owners;
      }
      if !policy.Allows(name) {
        return Denied, owners;
      }
      var hit := None;
      if ctx.channel != "" && ctx.channel in channelTools {
        hit := Find(channelTools[ctx.channel].invokers, name);
      }
      if hit.None? {
        hit := Find(invokers, name);
      }
      call := if hit.Some? then Reached(hit.value) else NotFound;
    }
  }

  method LowerAll(names: set<string>) returns (lows: set<string>)
    ensures lows == Lowered(names)
  {
    lows := {};
    var todo := names;
    while todo != {}
      invariant todo <= names && lows == Lowered(names - todo)
    {
      var n :| n in todo;
      assert names - (todo - {n}) == (names - todo) + {n};
      todo, lows := todo - {n}, lows + {Lower(n)};
    }
    assert names - todo == names;
  }

  /** Makes the channel the recorded owner of each of these names. */
  method Record(owners: map<string, string>, names: set<string>, channel: string) returns (owners': map<string, string>)
    ensures forall k :: k in owners' <==> k in owners || k in Lowered(names)
    ensures forall k :: k in owners' ==> owners'[k] == if k in Lowered(names) then channel else owners[k]
  {
    owners' := owners;
    var todo := names;
    while todo != {}
      invariant todo <= names
      invariant forall k :: k in owners' <==> k in owners || k in Lowered(names - todo)
      invariant forall k :: k in owners' ==> owners'[k] == if k in Lowered(names - todo) then channel else owners[k]
    {
      var n :| n in todo;
      assert names - (todo - {n}) == (names - todo) + {n};
      todo, owners' := todo - {n}, owners'[Lower(n) := channel];
    }
    assert names - todo == names;
  }

  /** Some invoker of this name up to case, whichever comes first. */
  method Find(invokers: map<string, Invoker>, name: string) returns (hit: Option<Invoker>)
    ensures hit.Some? ==> hit.value in Hits(invokers, name)
    ensures hit.None? ==> Hits(invokers, name) == {}
  {
    var todo := invokers.Keys;
    while todo != {}
      invariant todo <= invokers.Keys
      invariant forall k :: k in invokers && k !in todo ==> !EqualFold(k, name)
    {
      var k :| k in todo;
      if EqualFold(k, name) {
        return Some(invokers[k]);
      }
      todo := todo - {k};
    }
    hit := None;
  }
}
