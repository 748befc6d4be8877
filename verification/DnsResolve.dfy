/** `DnsResolver::Resolve` on a cache that all threads share: any number of calls at a time, of which
    each looks the cache up, asks a resolver and stores the answer in steps of its own. */
module DnsResolve {
  import opened Wrappers
  import opened Bytes
  import opened Texts
  import opened VpnPolicy
  import opened DnsMessage
  import opened DnsCache

  /** The way a question goes: the network handle its sockets are pinned to, and whom it is put to. */
  datatype Via = System | Udp(handle: nat, servers: seq<Text>, port: U16)

  /** What is asked and how; the cache key covers all of it but the way. */
  datatype Question = Question(host: Text, policy: Policy, ifIndex: U32, via: Via)

  datatype Outcome = Answered(addrs: seq<Addr>, ttl: U32) | Refused

  /** One question put over UDP or to the system, and what came of it. */
  datatype Asked = Asked(q: Question, udp: bool, outcome: Outcome)

  /** The answer to `asked[i]` went into the cache at a time. */
  datatype Stored = Stored(i: nat, at: int)

  /** How a call ended: `now` is the time of the lookup, `i` the question whose answer it returned. */
  datatype How = Literal | NoInterface | Cached(now: int) | Direct(i: nat) | Fallback(i: nat)

  datatype Call =
    | Looking(q: Question)
    | Asking(q: Question)
    | Falling(q: Question, i: nat)              // refused over UDP, before the system is asked
    | Storing(q: Question, o: Outcome, i: nat)
    | Over(q: Question, o: Outcome, how: How)

  /** `asked` and `stored` are history. */
  datatype State = State(cache: Cache, asked: seq<Asked>, stored: seq<Stored>, calls: map<nat, Call>,
                         next: nat)

  function Initial(): State {
    State(map[], [], [], map[], 0)
  }

  datatype Config = Config(policy: Policy, ifIndex: U32, netHandle: nat, servers: seq<Text>, port: U16)

  /** What the platform answers: its default policy, the host as a literal address, and the interface
      the path monitor finds. */
  datatype Platform = Platform(defaultPolicy: Policy, literal: Option<seq<Addr>>, detected: int,
                               android: bool)

  function DefaultServers(): seq<Text> {
    [Ascii("223.5.5.5"), Ascii("8.8.8.8")]
  }

  /** A handle counts on Android only; without servers the default ones are asked. */
  function Way(policy: Policy, cfg: Config, env: Platform): Via {
    if policy == Os then System
    else Udp(if env.android then cfg.netHandle else 0,
             if cfg.servers == [] then DefaultServers() else cfg.servers, cfg.port)
  }

  /** The policy, the interface and the way that the question is asked under. */
  function Effective(host: Text, cfg: Config, env: Platform): Question {
    var policy := if cfg.policy == Unset then env.defaultPolicy else cfg.policy;
    Question(host, policy,
             if policy != Os && cfg.ifIndex == 0 && env.detected > 0
             then env.detected % 0x1_0000_0000 else cfg.ifIndex,
             Way(policy, cfg, env))
  }

  function KeyOf(q: Question): Text {
    CacheKey(q.host, q.policy, q.ifIndex)
  }

  /** The questions differ at most in the way. */
  predicate SameKey(q: Question, r: Question) {
    q.host == r.host && q.policy == r.policy && q.ifIndex == r.ifIndex
  }

  lemma SameKeyIff(q: Question, r: Question)
    ensures KeyOf(q) == KeyOf(r) <==> SameKey(q, r)
  {
    if KeyOf(q) == KeyOf(r) {
      CacheKeyInjective(q.host, q.policy, q.ifIndex, r.host, r.policy, r.ifIndex);
    }
  }

  /** What precedes the cache: literals need no resolver, force-physical needs an interface. */
  function Begun(host: Text, cfg: Config, env: Platform): Call {
    var q := Effective(host, cfg, env);
    if env.literal.Some? then Over(q, Answered(env.literal.value, 0), Literal)
    else if q.policy == ForcePhysical && q.ifIndex == 0 && !(env.android && cfg.netHandle != 0)
    then Over(q, Refused, NoInterface)
    else Looking(q)
  }

  // ----- steps -------------------------------------------------------------------------------

  datatype Step =
    | Begin(host: Text, cfg: Config, env: Platform)
    | Lookup(k: nat, now: int)
    | Ask(k: nat, outcome: Outcome)
    | AskSystem(k: nat, outcome: Outcome)
    | Store(k: nat, now: int)
    | Clear

  /** The call that takes the step. */
  function Owner(a: Step): Option<nat> {
    match a
    case Begin(_, _, _) => None
    case Clear => None
    case _ => Some(a.k)
  }

  predicate Enabled(s: State, a: Step) {
    match a
    case Begin(_, _, _) => true
    case Lookup(k, _) => k in s.calls && s.calls[k].Looking?
    case Ask(k, _) => k in s.calls && s.calls[k].Asking?
    case AskSystem(k, _) => k in s.calls && s.calls[k].Falling?
    case Store(k, _) => k in s.calls && s.calls[k].Storing?
    case Clear => true
  }

  /** What a call does with the answer to `asked[i]`, its first question. */
  function Taken(q: Question, o: Outcome, i: nat): Call {
    if q.policy == Os || o.Answered? then Storing(q, o, i)
    else if q.policy == ForcePhysical then Over(q, Refused, Direct(i))
    else Falling(q, i)
  }

  /** Only answers with addresses are stored. */
  predicate Worth(o: Outcome) {
    o.Answered? && o.addrs != []
  }

  function DoLookup(s: State, k: nat, now: int): State
    requires k in s.calls && s.calls[k].Looking?
  {
    var q := s.calls[k].q;
    var call := if Hit(s.cache, KeyOf(q), now)
                then Over(q, Answered(s.cache[KeyOf(q)].addrs, 0), Cached(now)) else Asking(q);
    s.(cache := AfterLookup(s.cache, KeyOf(q), now), calls := s.calls[k := call])
  }

  function DoAsk(s: State, k: nat, o: Outcome): State
    requires k in s.calls && s.calls[k].Asking?
  {
    var q := s.calls[k].q;
    s.(asked := s.asked + [Asked(q, q.policy != Os, o)],
       calls := s.calls[k := Taken(q, o, |s.asked|)])
  }

  function DoAskSystem(s: State, k: nat, o: Outcome): State
    requires k in s.calls && s.calls[k].Falling?
  {
    var q := s.calls[k].q;
    s.(asked := s.asked + [Asked(q, false, o)],
       calls := s.calls[k := Over(q, o, Fallback(|s.asked|))])
  }

  function DoStore(s: State, k: nat, now: int): State
    requires k in s.calls && s.calls[k].Storing?
  {
    var c := s.calls[k];
    var s1 := s.(calls := s.calls[k := Over(c.q, c.o, Direct(c.i))]);
    if Worth(c.o)
    then s1.(cache := AfterStore(s.cache, KeyOf(c.q), c.o.addrs, c.o.ttl, now),
             stored := s.stored + [Stored(c.i, now)])
    else s1
  }

  function Next(s: State, a: Step): State
    requires Enabled(s, a)
  {
    match a
    case Begin(host, cfg, env) => s.(calls := s.calls[s.next := Begun(host, cfg, env)], next := s.next + 1)
    case Lookup(k, now) => DoLookup(s, k, now)
    case Ask(k, o) => DoAsk(s, k, o)
    case AskSystem(k, o) => DoAskSystem(s, k, o)
    case Store(k, now) => DoStore(s, k, now)
    case Clear => s.(cache := map[])
  }

  // ----- the invariant -----------------------------------------------------------------------

  /** Force-physical is asked over UDP only, and the OS policy of the system only. */
  ghost predicate AskedOk(asked: seq<Asked>) {
    forall i | 0 <= i < |asked| ::
      && (asked[i].q.policy == ForcePhysical ==> asked[i].udp)
      && (asked[i].q.policy == Os ==> !asked[i].udp)
  }

  /** What is stored was answered with addresses to the first question of a call. */
  ghost predicate StoredOk(asked: seq<Asked>, stored: seq<Stored>) {
    forall j | 0 <= j < |stored| :: StoreOk(asked, stored[j])
  }

  ghost predicate StoreOk(asked: seq<Asked>, st: Stored) {
    && st.i < |asked| && Worth(asked[st.i].outcome)
    && asked[st.i].udp == (asked[st.i].q.policy != Os)
  }

  /** The stored answer is the entry under a key. */
  ghost predicate Backs(asked: seq<Asked>, st: Stored, key: Text, e: Entry) {
    && st.i < |asked| && key == KeyOf(asked[st.i].q)
    && asked[st.i].outcome.Answered? && asked[st.i].outcome.addrs == e.addrs
    && e.expireAt == ExpiryOf(asked[st.i].outcome.ttl, st.at)
  }

  ghost predicate Backed(asked: seq<Asked>, stored: seq<Stored>, key: Text, e: Entry) {
    exists j :: 0 <= j < |stored| && Backs(asked, stored[j], key, e)
  }

  ghost predicate CacheOk(cache: Cache, asked: seq<Asked>, stored: seq<Stored>) {
    forall key | key in cache :: Backed(asked, stored, key, cache[key])
  }

  /** A stored answer for this host, policy and interface that is alive at `now`. */
  ghost predicate Serves(asked: seq<Asked>, st: Stored, q: Question, addrs: seq<Addr>, now: int) {
    && st.i < |asked| && SameKey(asked[st.i].q, q) && asked[st.i].udp == (q.policy != Os)
    && asked[st.i].outcome.Answered? && asked[st.i].outcome.addrs == addrs && addrs != []
    && now < ExpiryOf(asked[st.i].outcome.ttl, st.at)
  }

  ghost predicate Served(asked: seq<Asked>, stored: seq<Stored>, q: Question, addrs: seq<Addr>, now: int) {
    exists j :: 0 <= j < |stored| && Serves(asked, stored[j], q, addrs, now)
  }

  predicate AskedAt(asked: seq<Asked>, i: nat, a: Asked) {
    i < |asked| && asked[i] == a
  }

  ghost predicate CallOk(asked: seq<Asked>, stored: seq<Stored>, c: Call) {
    match c
    case Looking(_) => true
    case Asking(_) => true
    case Falling(q, i) =>
      q.policy != Os && q.policy != ForcePhysical && AskedAt(asked, i, Asked(q, true, Refused))
    case Storing(q, o, i) =>
      AskedAt(asked, i, Asked(q, q.policy != Os, o)) && (o == Refused ==> q.policy == Os)
    case Over(q, o, how) => Justified(asked, stored, q, o, how)
  }

  /** The question was refused over UDP before the one at `i` was put. */
  ghost predicate RefusedBefore(asked: seq<Asked>, i: nat, q: Question) {
    exists j: nat :: j < i && AskedAt(asked, j, Asked(q, true, Refused))
  }

  /** Where the result of a call comes from; a refusal is a result only where there is no fallback. */
  ghost predicate Justified(asked: seq<Asked>, stored: seq<Stored>, q: Question, o: Outcome, how: How) {
    match how
    case Literal => o.Answered?
    case NoInterface => q.policy == ForcePhysical && o == Refused
    case Cached(now) => o.Answered? && Served(asked, stored, q, o.addrs, now)
    case Direct(i) =>
      && AskedAt(asked, i, Asked(q, q.policy != Os, o))
      && (o == Refused ==> q.policy == Os || q.policy == ForcePhysical)
    case Fallback(i) =>
      && q.policy != Os && q.policy != ForcePhysical && AskedAt(asked, i, Asked(q, false, o))
      && RefusedBefore(asked, i, q)
  }

  ghost predicate CallsOk(s: State) {
    forall k | k in s.calls :: k < s.next && CallOk(s.asked, s.stored, s.calls[k])
  }

  ghost predicate Inv(s: State) {
    && AskedOk(s.asked) && StoredOk(s.asked, s.stored) && CacheOk(s.cache, s.asked, s.stored)
    && CallsOk(s)
  }

  // ----- history only grows ------------------------------------------------------------------

  ghost predicate Grows(s: State, s': State) {
    s.asked <= s'.asked && s.stored <= s'.stored && s.next <= s'.next
  }

  lemma BackedLater(asked: seq<Asked>, stored: seq<Stored>, asked': seq<Asked>, stored': seq<Stored>,
                    key: Text, e: Entry)
    requires asked <= asked' && stored <= stored' && Backed(asked, stored, key, e)
    ensures Backed(asked', stored', key, e)
  {
    var j :| 0 <= j < |stored| && Backs(asked, stored[j], key, e);
    assert stored'[j] == stored[j];
  }

  lemma ServedLater(asked: seq<Asked>, stored: seq<Stored>, asked': seq<Asked>, stored': seq<Stored>,
                    q: Question, addrs: seq<Addr>, now: int)
    requires asked <= asked' && stored <= stored' && Served(asked, stored, q, addrs, now)
    ensures Served(asked', stored', q, addrs, now)
  {
    var j :| 0 <= j < |stored| && Serves(asked, stored[j], q, addrs, now);
    assert stored'[j] == stored[j];
  }

  lemma CallLater(asked: seq<Asked>, stored: seq<Stored>, asked': seq<Asked>, stored': seq<Stored>, c: Call)
    requires asked <= asked' && stored <= stored' && CallOk(asked, stored, c)
    ensures CallOk(asked', stored', c)
  {
    if c.Over? && c.how.Cached? {
      ServedLater(asked, stored, asked', stored', c.q, c.o.addrs, c.how.now);
    }
    if c.Over? && c.how.Fallback? {
      var j: nat :| j < c.how.i && AskedAt(asked, j, Asked(c.q, true, Refused));
      assert AskedAt(asked', j, Asked(c.q, true, Refused));
    }
  }

  /** Growing histories keep everything that was true of the cache and of the calls. */
  lemma Later(s: State, asked': seq<Asked>, stored': seq<Stored>)
    requires Inv(s) && s.asked <= asked' && s.stored <= stored'
    ensures CacheOk(s.cache, asked', stored')
    ensures CallsOk(s.(asked := asked', stored := stored'))
  {
    forall key | key in s.cache ensures Backed(asked', stored', key, s.cache[key]) {
      BackedLater(s.asked, s.stored, asked', stored', key, s.cache[key]);
    }
    forall k | k in s.calls ensures CallOk(asked', stored', s.calls[k]) {
      CallLater(s.asked, s.stored, asked', stored', s.calls[k]);
    }
  }

  // ----- every step keeps it -----------------------------------------------------------------

  /** By the injective key, what backs an entry found under a question's key answers it. */
  lemma HitServes(s: State, q: Question, now: int)
    requires Inv(s) && Hit(s.cache, KeyOf(q), now)
    ensures Served(s.asked, s.stored, q, s.cache[KeyOf(q)].addrs, now)
  {
    var e := s.cache[KeyOf(q)];
    assert Backed(s.asked, s.stored, KeyOf(q), e);
    var j :| 0 <= j < |s.stored| && Backs(s.asked, s.stored[j], KeyOf(q), e);
    var a := s.asked[s.stored[j].i];
    SameKeyIff(a.q, q);
    assert StoreOk(s.asked, s.stored[j]);
    assert Serves(s.asked, s.stored[j], q, e.addrs, now);
  }

  lemma LookupInv(s: State, k: nat, now: int)
    requires Inv(s) && Enabled(s, Lookup(k, now))
    ensures Inv(DoLookup(s, k, now))
  {
    if Hit(s.cache, KeyOf(s.calls[k].q), now) {
      HitServes(s, s.calls[k].q, now);
    }
  }

  lemma AskInv(s: State, k: nat, o: Outcome)
    requires Inv(s) && Enabled(s, Ask(k, o))
    ensures Inv(DoAsk(s, k, o))
  {
    var q := s.calls[k].q;
    var asked' := s.asked + [Asked(q, q.policy != Os, o)];
    Later(s, asked', s.stored);
    assert AskedAt(asked', |s.asked|, Asked(q, q.policy != Os, o));
  }

  lemma AskSystemInv(s: State, k: nat, o: Outcome)
    requires Inv(s) && Enabled(s, AskSystem(k, o))
    ensures Inv(DoAskSystem(s, k, o))
  {
    assert CallOk(s.asked, s.stored, s.calls[k]);
    var asked' := s.asked + [Asked(s.calls[k].q, false, o)];
    Later(s, asked', s.stored);
    assert AskedAt(asked', |s.asked|, Asked(s.calls[k].q, false, o));
  }

  lemma StoreInv(s: State, k: nat, now: int)
    requires Inv(s) && Enabled(s, Store(k, now))
    ensures Inv(DoStore(s, k, now))
  {
    var c := s.calls[k];
    assert CallOk(s.asked, s.stored, c);
    if Worth(c.o) {
      var st := Stored(c.i, now);
      var stored' := s.stored + [st];
      Later(s, s.asked, stored');
      assert Backs(s.asked, stored'[|s.stored|], KeyOf(c.q), Entry(c.o.addrs, ExpiryOf(c.o.ttl, now)));
      assert StoreOk(s.asked, st);
    }
  }

  lemma StepInv(s: State, a: Step)
    requires Inv(s) && Enabled(s, a)
    ensures Inv(Next(s, a)) && Grows(s, Next(s, a))
  {
    match a
    case Begin(host, cfg, env) =>
    case Lookup(k, now) => LookupInv(s, k, now);
    case Ask(k, o) => AskInv(s, k, o);
    case AskSystem(k, o) => AskSystemInv(s, k, o);
    case Store(k, now) => StoreInv(s, k, now);
    case Clear =>
  }

  // ----- what every run keeps ----------------------------------------------------------------

  ghost predicate CanRun(s: State, run: seq<Step>)
    decreases run
  {
    run == [] || (Enabled(s, run[0]) && CanRun(Next(s, run[0]), run[1..]))
  }

  ghost function Run(s: State, run: seq<Step>): State
    requires CanRun(s, run)
    decreases run
  {
    if run == [] then s else Run(Next(s, run[0]), run[1..])
  }

  lemma {:induction false} RunInv(s: State, run: seq<Step>)
    requires Inv(s) && CanRun(s, run)
    ensures Inv(Run(s, run))
    decreases run
  {
    if run != [] {
      StepInv(s, run[0]);
      RunInv(Next(s, run[0]), run[1..]);
    }
  }

  /** Provenance in every interleaving of any number of calls: a result from the cache was answered
      for this host, policy and interface, over UDP unless under the OS policy, and stored no longer
      ago than its clamped time to live; one that was not cached was answered to the call's own
      question; and a fallback is the system's answer, never under force-physical. */
  lemma Provenance(run: seq<Step>, k: nat)
    requires CanRun(Initial(), run) && k in Run(Initial(), run).calls && Run(Initial(), run).calls[k].Over?
    ensures var s := Run(Initial(), run);
            Justified(s.asked, s.stored, s.calls[k].q, s.calls[k].o, s.calls[k].how)
  {
    RunInv(Initial(), run);
    var s := Run(Initial(), run);
    assert CallOk(s.asked, s.stored, s.calls[k]);
  }

  /** In every run, a question under force-physical reaches UDP only, and what is in the cache was
      never the answer of a fallback. */
  lemma NeverSystemNorFallback(run: seq<Step>)
    requires CanRun(Initial(), run)
    ensures var s := Run(Initial(), run);
            && (forall i | 0 <= i < |s.asked| && s.asked[i].q.policy == ForcePhysical :: s.asked[i].udp)
            && (forall j | 0 <= j < |s.stored| ::
                  && s.stored[j].i < |s.asked|
                  && (s.asked[s.stored[j].i].q.policy != Os ==> s.asked[s.stored[j].i].udp))
            && (forall key | key in s.cache :: Backed(s.asked, s.stored, key, s.cache[key]))
  {
    RunInv(Initial(), run);
    var s := Run(Initial(), run);
    assert forall j | 0 <= j < |s.stored| :: StoreOk(s.asked, s.stored[j]);
  }

  // ----- what the caller asked for -----------------------------------------------------------

  /** The question is the caller's: its host, its policy unless it set none, its interface unless it
      gave none, and its way. */
  predicate Meant(q: Question, host: Text, cfg: Config, env: Platform) {
    && q.host == host
    && (if cfg.policy != Unset then q.policy == cfg.policy else q.policy == env.defaultPolicy)
    && (cfg.ifIndex != 0 ==> q.ifIndex == cfg.ifIndex)
    && (cfg.ifIndex == 0 && (q.policy == Os || env.detected <= 0) ==> q.ifIndex == 0)
    && (cfg.ifIndex == 0 && q.policy != Os && 0 < env.detected < 0x1_0000_0000 ==> q.ifIndex == env.detected)
    && (q.policy == Os <==> q.via.System?)
    && (q.via.Udp? ==>
          && q.via.port == cfg.port
          && (cfg.servers != [] ==> q.via.servers == cfg.servers) && q.via.servers != []
          && (env.android ==> q.via.handle == cfg.netHandle) && (!env.android ==> q.via.handle == 0))
  }

  /** Force-physical, and neither an interface nor a network handle to hold on to. */
  predicate NoWayOut(cfg: Config, env: Platform) {
    && (cfg.policy == ForcePhysical || (cfg.policy == Unset && env.defaultPolicy == ForcePhysical))
    && cfg.ifIndex == 0 && (env.detected <= 0 || env.detected % 0x1_0000_0000 == 0)
    && !(env.android && cfg.netHandle != 0)
  }

  lemma EffectiveIsMeant(host: Text, cfg: Config, env: Platform)
    ensures Meant(Effective(host, cfg, env), host, cfg, env)
  {
  }

  /** A call keeps its question to its end. */
  lemma {:induction false} QuestionStays(s: State, run: seq<Step>, k: nat)
    requires CanRun(s, run) && k in s.calls && k < s.next
    ensures k in Run(s, run).calls && Run(s, run).calls[k].q == s.calls[k].q
    decreases run
  {
    if run != [] {
      QuestionStays(Next(s, run[0]), run[1..], k);
    }
  }

  /** What a call may add to the questions that were put: over UDP unless it is under the OS policy,
      or to the system in its fallback, which force-physical has none of. */
  predicate MayAsk(a: Asked, host: Text, cfg: Config, env: Platform) {
    && Meant(a.q, host, cfg, env)
    && (cfg.policy == Os ==> !a.udp)
    && (cfg.policy == ForcePhysical ==> a.udp)
    && (cfg.policy == Unset && env.defaultPolicy == Os ==> !a.udp)
    && (cfg.policy == Unset && env.defaultPolicy == ForcePhysical ==> a.udp)
  }

  /** In every run, with any other calls before and after its beginning: each step of a call adds at
      most one question, which is as the caller meant it; a call begun under force-physical never puts
      one to the system. */
  lemma AsksAsMeant(before: seq<Step>, host: Text, cfg: Config, env: Platform, after: seq<Step>, a: Step)
    requires CanRun(Initial(), before)
    requires CanRun(Next(Run(Initial(), before), Begin(host, cfg, env)), after)
    requires var s := Run(Next(Run(Initial(), before), Begin(host, cfg, env)), after);
             Enabled(s, a) && Owner(a) == Some(Run(Initial(), before).next)
    ensures var s := Run(Next(Run(Initial(), before), Begin(host, cfg, env)), after);
            var asked := Next(s, a).asked;
            || asked == s.asked
            || (|asked| == |s.asked| + 1 && s.asked <= asked && MayAsk(asked[|s.asked|], host, cfg, env))
  {
    var s0 := Run(Initial(), before);
    var s1 := Next(s0, Begin(host, cfg, env));
    RunInv(Initial(), before);
    StepInv(s0, Begin(host, cfg, env));
    RunInv(s1, after);
    QuestionStays(s1, after, s0.next);
    EffectiveIsMeant(host, cfg, env);
    var s := Run(s1, after);
    assert CallOk(s.asked, s.stored, s.calls[s0.next]);
  }

  /** A stored answer serves every later call for the same host, policy and interface, whatever it was
      asked by, for ten seconds at least and ten minutes at most. */
  lemma StoredIsServed(s: State, k: nat, now: int, k2: nat, later: int)
    requires Inv(s) && Enabled(s, Store(k, now)) && Worth(s.calls[k].o)
    requires k2 != k && k2 in s.calls && s.calls[k2].Looking? && SameKey(s.calls[k].q, s.calls[k2].q)
    ensures var s' := Next(Next(s, Store(k, now)), Lookup(k2, later));
            && (later < now + 10 * Second ==>
                  s'.calls[k2] == Over(s.calls[k2].q, Answered(s.calls[k].o.addrs, 0), Cached(later)))
            && (later >= now + 600 * Second ==> s'.calls[k2] == Asking(s.calls[k2].q))
            && (10 <= s.calls[k].o.ttl <= 600 ==>
                  (s'.calls[k2].Over? <==> later < now + s.calls[k].o.ttl * Second))
  {
    SameKeyIff(s.calls[k].q, s.calls[k2].q);
  }

  // ----- the way of a cached answer ----------------------------------------------------------

  /** A cached result of the call was answered the way the call itself would have asked. */
  ghost predicate OwnWay(s: State, k: nat)
    requires k in s.calls
  {
    s.calls[k].Over? && s.calls[k].how.Cached? ==>
      exists j :: 0 <= j < |s.stored| && OwnServes(s, s.stored[j], s.calls[k])
  }

  ghost predicate OwnServes(s: State, st: Stored, c: Call)
    requires c.Over? && c.how.Cached?
  {
    c.o.Answered? && Serves(s.asked, st, c.q, c.o.addrs, c.how.now) && s.asked[st.i].q == c.q
  }

  /** A question that gets as far as the cache. */
  predicate Askable(q: Question) {
    && (q.policy == Os <==> q.via.System?)
    && (q.via.Udp? ==> q.via.servers != [])
    && (q.policy == ForcePhysical && q.ifIndex == 0 ==> q.via.Udp? && q.via.handle != 0)
  }

  function Asks(q: Question): Step {
    var cfg := if q.via.System? then Config(q.policy, q.ifIndex, 0, [], 0)
               else Config(q.policy, q.ifIndex, q.via.handle, q.via.servers, q.via.port);
    Begin(q.host, cfg, Platform(q.policy, None, 0, true))
  }

  /** Every askable question is asked by some call. */
  lemma AsksIt(q: Question)
    requires Askable(q)
    ensures var a := Asks(q); Begun(a.host, a.cfg, a.env) == Looking(q)
  {
  }

  /** No call gets as far as the cache with any other question. */
  lemma LookingIsAskable(host: Text, cfg: Config, env: Platform)
    requires Begun(host, cfg, env).Looking?
    ensures Askable(Begun(host, cfg, env).q)
  {
  }

  /** Calls that get as far as the cache ask questions out of `allowed`. */
  ghost predicate Within(a: Step, allowed: set<Question>) {
    a.Begin? && Begun(a.host, a.cfg, a.env).Looking? ==> Effective(a.host, a.cfg, a.env) in allowed
  }

  ghost predicate ReachableBy(s: State, allowed: set<Question>) {
    exists run :: RunsTo(run, s, allowed)
  }

  ghost predicate RunsTo(run: seq<Step>, s: State, allowed: set<Question>) {
    && CanRun(Initial(), run) && Run(Initial(), run) == s
    && (forall i | 0 <= i < |run| :: Within(run[i], allowed))
  }

  ghost predicate AllAllowed(s: State, allowed: set<Question>) {
    && (forall i | 0 <= i < |s.asked| :: s.asked[i].q in allowed)
    && (forall k | k in s.calls :: CallAllowed(s.calls[k], allowed))
  }

  ghost predicate CallAllowed(c: Call, allowed: set<Question>) {
    (c.Over? && (c.how.Literal? || c.how.NoInterface?)) || c.q in allowed
  }

  lemma AllowedStep(s: State, a: Step, allowed: set<Question>)
    requires Inv(s) && AllAllowed(s, allowed) && Enabled(s, a) && Within(a, allowed)
    ensures AllAllowed(Next(s, a), allowed)
  {
    if a.Begin? {
      assert CallAllowed(Begun(a.host, a.cfg, a.env), allowed);
    } else if !a.Clear? {
      assert CallAllowed(s.calls[a.k], allowed);
    }
  }

  lemma {:induction false} AllowedRun(s: State, run: seq<Step>, allowed: set<Question>)
    requires Inv(s) && AllAllowed(s, allowed) && CanRun(s, run)
    requires forall i | 0 <= i < |run| :: Within(run[i], allowed)
    ensures Inv(Run(s, run)) && AllAllowed(Run(s, run), allowed)
    decreases run
  {
    if run != [] {
      assert Within(run[0], allowed);
      AllowedStep(s, run[0], allowed);
      StepInv(s, run[0]);
      assert forall i | 0 <= i < |run[1..]| :: run[1..][i] == run[i + 1];
      AllowedRun(Next(s, run[0]), run[1..], allowed);
    }
  }

  /** Each key goes one way only. */
  ghost predicate OneWay(allowed: set<Question>) {
    forall q, r | q in allowed && r in allowed && SameKey(q, r) :: q == r
  }

  lemma OneWayIsOwn(s: State, k: nat, allowed: set<Question>)
    requires OneWay(allowed) && ReachableBy(s, allowed) && k in s.calls
    ensures OwnWay(s, k)
  {
    var run :| RunsTo(run, s, allowed);
    AllowedRun(Initial(), run, allowed);
    assert CallOk(s.asked, s.stored, s.calls[k]) && CallAllowed(s.calls[k], allowed);
    var c := s.calls[k];
    if c.Over? && c.how.Cached? {
      var j :| 0 <= j < |s.stored| && Serves(s.asked, s.stored[j], c.q, c.o.addrs, c.how.now);
      assert OwnServes(s, s.stored[j], c);
    }
  }

  lemma {:induction false} RunLonger(s: State, run: seq<Step>, a: Step)
    requires CanRun(s, run) && Enabled(Run(s, run), a)
    ensures CanRun(s, run + [a]) && Run(s, run + [a]) == Next(Run(s, run), a)
    decreases run
  {
    var longer := run + [a];
    if run == [] {
      assert longer == [a] && longer[1..] == [];
    } else {
      assert longer[0] == run[0] && longer[1..] == run[1..] + [a];
      RunLonger(Next(s, run[0]), run[1..], a);
    }
  }

  lemma Goes(s: State, a: Step, s': State, allowed: set<Question>)
    requires ReachableBy(s, allowed) && Enabled(s, a) && Within(a, allowed) && Next(s, a) == s'
    ensures ReachableBy(s', allowed)
  {
    var run :| RunsTo(run, s, allowed);
    RunLonger(Initial(), run, a);
    assert RunsTo(run + [a], s', allowed);
  }

  const Address: seq<Addr> := [V4([192, 0, 2, 1])]

  /** The first call has asked its way and stored the answer for a minute. */
  lemma FirstStores(q: Question, allowed: set<Question>)
    requires Askable(q) && q in allowed
    ensures var o := Answered(Address, 60);
            ReachableBy(State(map[KeyOf(q) := Entry(Address, 60 * Second)],
                              [Asked(q, q.policy != Os, o)], [Stored(0, 0)],
                              map[0 := Over(q, o, Direct(0))], 1), allowed)
  {
    var o := Answered(Address, 60);
    var s0 := Initial();
    assert RunsTo([], s0, allowed);
    AsksIt(q);
    var s1 := s0.(calls := map[0 := Looking(q)], next := 1);
    Goes(s0, Asks(q), s1, allowed);
    var s2 := s1.(calls := map[0 := Asking(q)]);
    assert s1.cache - {KeyOf(q)} == s1.cache;
    Goes(s1, Lookup(0, 0), s2, allowed);
    var s3 := s2.(asked := [Asked(q, q.policy != Os, o)], calls := map[0 := Storing(q, o, 0)]);
    Goes(s2, Ask(0, o), s3, allowed);
    Goes(s3, Store(0, 0),
         State(map[KeyOf(q) := Entry(Address, 60 * Second)], s3.asked, [Stored(0, 0)],
               map[0 := Over(q, o, Direct(0))], 1), allowed);
  }

  /** Two questions of one key that go different ways: the second call gets the first one's answer. */
  lemma OtherWayServed(q: Question, r: Question, allowed: set<Question>) returns (s: State)
    requires Askable(q) && Askable(r) && q in allowed && r in allowed && SameKey(q, r) && q != r
    ensures ReachableBy(s, allowed) && 1 in s.calls && !OwnWay(s, 1)
  {
    FirstStores(q, allowed);
    var o := Answered(Address, 60);
    var s4 := State(map[KeyOf(q) := Entry(Address, 60 * Second)], [Asked(q, q.policy != Os, o)],
                    [Stored(0, 0)], map[0 := Over(q, o, Direct(0))], 1);
    AsksIt(r);
    var s5 := s4.(calls := s4.calls[1 := Looking(r)], next := 2);
    Goes(s4, Asks(r), s5, allowed);
    s := s5.(calls := s5.calls[1 := Over(r, Answered(Address, 0), Cached(0))]);
    Goes(s5, Lookup(1, 0), s, allowed);
  }

  /** Cached answers come the caller's own way in every run if and only if no two of the questions
      that are asked share host, policy and interface and differ in handle, servers or port. */
  lemma OwnWayIff(allowed: set<Question>)
    requires forall q | q in allowed :: Askable(q)
    ensures OneWay(allowed) <==> forall s, k | ReachableBy(s, allowed) && k in s.calls :: OwnWay(s, k)
  {
    if OneWay(allowed) {
      forall s, k | ReachableBy(s, allowed) && k in s.calls ensures OwnWay(s, k) {
        OneWayIsOwn(s, k, allowed);
      }
    } else {
      var q, r :| q in allowed && r in allowed && SameKey(q, r) && q != r;
      var s := OtherWayServed(q, r, allowed);
    }
  }

  /** Two force-physical calls without an interface and with different network handles: the second
      is answered over the first one's network. */
  lemma OtherHandleServed(host: Text, servers: seq<Text>, port: U16, h1: nat, h2: nat) returns (s: State)
    requires h1 != 0 && h2 != 0 && h1 != h2 && servers != []
    ensures var q := Question(host, ForcePhysical, 0, Udp(h1, servers, port));
            var r := q.(via := Udp(h2, servers, port));
            ReachableBy(s, {q, r}) && 1 in s.calls && !OwnWay(s, 1)
  {
    var q := Question(host, ForcePhysical, 0, Udp(h1, servers, port));
    s := OtherWayServed(q, q.(via := Udp(h2, servers, port)), {q, q.(via := Udp(h2, servers, port))});
  }

  // ----- the steps in place ------------------------------------------------------------------

  /** The answer was obtained for the host, under the policy and the interface that the caller set. */
  ghost predicate Allowed(asked: seq<Asked>, st: Stored, host: Text, cfg: Config) {
    && st.i < |asked| && asked[st.i].q.host == host
    && (cfg.policy != Unset ==> asked[st.i].q.policy == cfg.policy)
    && (cfg.ifIndex != 0 ==> asked[st.i].q.ifIndex == cfg.ifIndex)
    && (cfg.policy == ForcePhysical ==> asked[st.i].udp)
    && (cfg.policy == Os ==> !asked[st.i].udp)
  }

  lemma JustifiedIsAllowed(asked: seq<Asked>, stored: seq<Stored>, host: Text, cfg: Config, env: Platform,
                           o: Outcome, how: How)
    requires Justified(asked, stored, Effective(host, cfg, env), o, how)
    ensures how.Direct? || how.Fallback? ==> how.i < |asked| && MayAsk(asked[how.i], host, cfg, env)
    ensures how.Cached? ==> exists j :: 0 <= j < |stored| && Allowed(asked, stored[j], host, cfg)
  {
    EffectiveIsMeant(host, cfg, env);
    if how.Cached? {
      var j :| 0 <= j < |stored| && Serves(asked, stored[j], Effective(host, cfg, env), o.addrs, how.now);
      assert Allowed(asked, stored[j], host, cfg);
    }
  }

  class DnsResolver {
    var cache: Cache
    var asked: seq<Asked>
    var stored: seq<Stored>
    var calls: map<nat, Call>
    var next: nat

    function Snap(): State
      reads this
    {
      State(cache, asked, stored, calls, next)
    }

    constructor ()
      ensures Snap() == Initial()
    {
      cache, asked, stored, calls, next := map[], [], [], map[], 0;
    }

    /** The lock section of `_CacheLookup`. */
    method CacheLookup(key: Text, now: int) returns (hit: bool, addrs: seq<Addr>)
      modifies this`cache
      ensures hit == Hit(old(cache), key, now) && cache == AfterLookup(old(cache), key, now)
      ensures hit ==> addrs == old(cache)[key].addrs
    {
      if key !in cache {
        assert cache - {key} == cache;
        return false, [];
      }
      if now >= cache[key].expireAt {
        cache := cache - {key};
        return false, [];
      }
      return true, cache[key].addrs;
    }

    /** The lock section of `_CacheStore`. */
    method CacheStore(key: Text, addrs: seq<Addr>, ttl: U32, now: int)
      modifies this`cache
      ensures cache == AfterStore(old(cache), key, addrs, ttl, now)
    {
      cache := cache[key := Entry(addrs, now + ClampTtl(ttl) * Second)];
    }

    /** What other threads do in between: any steps of any other calls. */
    method Others(k: nat)
      requires Inv(Snap()) && k in calls
      modifies this
      ensures Inv(Snap()) && Grows(old(Snap()), Snap()) && k in calls && calls[k] == old(calls)[k]
    {
      var n: nat :| n >= 0;
      for i := 0 to n
        invariant Inv(Snap()) && Grows(old(Snap()), Snap()) && k in calls && calls[k] == old(calls)[k]
      {
        var a: Step := *;
        if Enabled(Snap(), a) && Owner(a) != Some(k) {
          Take(a);
        }
      }
    }

    method Take(a: Step)
      requires Inv(Snap()) && Enabled(Snap(), a)
      modifies this
      ensures Snap() == Next(old(Snap()), a) && Inv(Snap()) && Grows(old(Snap()), Snap())
      ensures forall k | k in old(calls) && Owner(a) != Some(k) :: k in calls && calls[k] == old(calls)[k]
    {
      StepInv(Snap(), a);
      var s := Next(Snap(), a);
      cache, asked, stored, calls, next := s.cache, s.asked, s.stored, s.calls, s.next;
    }

    /** A literal is its own answer; force-physical without an interface is refused. */
    method BeginCall(host: Text, cfg: Config, env: Platform) returns (k: nat)
      requires Inv(Snap())
      modifies this
      ensures Snap() == Next(old(Snap()), Begin(host, cfg, env)) && k == old(next)
      ensures Inv(Snap()) && Grows(old(Snap()), Snap())
      ensures k in calls && Meant(calls[k].q, host, cfg, env)
      ensures env.literal.Some? ==> calls[k] == Over(calls[k].q, Answered(env.literal.value, 0), Literal)
    {
      StepInv(Snap(), Begin(host, cfg, env));
      EffectiveIsMeant(host, cfg, env);
      var policy := if cfg.policy == Unset then env.defaultPolicy else cfg.policy;
      var ifIndex := cfg.ifIndex;
      if policy != Os && ifIndex == 0 {
        if env.detected > 0 {
          ifIndex := env.detected % 0x1_0000_0000;
        }
      }
      var q := Question(host, policy, ifIndex, Way(policy, cfg, env));
      var call := Looking(q);
      if env.literal.Some? {
        call := Over(q, Answered(env.literal.value, 0), Literal);
      } else if policy == ForcePhysical {
        var haveInterface := ifIndex != 0;
        haveInterface := haveInterface || (env.android && cfg.netHandle != 0);
        if !haveInterface {
          call := Over(q, Refused, NoInterface);
        }
      }
      k := next;
      calls := calls[k := call];
      next := next + 1;
    }

    method LookUp(k: nat, now: int)
      requires Inv(Snap()) && k in calls && calls[k].Looking?
      modifies this
      ensures Snap() == DoLookup(old(Snap()), k, now)
      ensures Inv(Snap()) && Grows(old(Snap()), Snap())
    {
      StepInv(Snap(), Lookup(k, now));
      var q := calls[k].q;
      var hit, addrs := CacheLookup(KeyOf(q), now);
      if hit {
        calls := calls[k := Over(q, Answered(addrs, 0), Cached(now))];
      } else {
        calls := calls[k := Asking(q)];
      }
    }

    /** `_ResolveViaSystem` or `_ResolveViaUdp`: the answer is the environment's. */
    method AskFirst(k: nat) returns (o: Outcome)
      requires Inv(Snap()) && k in calls && calls[k].Asking?
      modifies this
      ensures Snap() == DoAsk(old(Snap()), k, o)
      ensures Inv(Snap()) && Grows(old(Snap()), Snap())
    {
      o := *;
      StepInv(Snap(), Ask(k, o));
      var q := calls[k].q;
      var i := |asked|;
      asked := asked + [Asked(q, q.policy != Os, o)];
      if q.policy == Os || o != Refused {
        calls := calls[k := Storing(q, o, i)];
      } else if q.policy == ForcePhysical {
        calls := calls[k := Over(q, Refused, Direct(i))];
      } else {
        calls := calls[k := Falling(q, i)];
      }
    }

    method FallBack(k: nat) returns (o: Outcome)
      requires Inv(Snap()) && k in calls && calls[k].Falling?
      modifies this
      ensures Snap() == DoAskSystem(old(Snap()), k, o)
      ensures Inv(Snap()) && Grows(old(Snap()), Snap())
    {
      o := *;
      StepInv(Snap(), AskSystem(k, o));
      var q := calls[k].q;
      calls := calls[k := Over(q, o, Fallback(|asked|))];
      asked := asked + [Asked(q, false, o)];
    }

    method StoreAnswer(k: nat, now: int)
      requires Inv(Snap()) && k in calls && calls[k].Storing?
      modifies this
      ensures Snap() == DoStore(old(Snap()), k, now)
      ensures Inv(Snap()) && Grows(old(Snap()), Snap())
    {
      StepInv(Snap(), Store(k, now));
      var c := calls[k];
      if c.o.Answered? && c.o.addrs != [] {
        CacheStore(KeyOf(c.q), c.o.addrs, c.o.ttl, now);
        stored := stored + [Stored(c.i, now)];
      }
      calls := calls[k := Over(c.q, c.o, Direct(c.i))];
    }

    /** One call from beginning to end, with any steps of other calls in between. */
    method Resolve(host: Text, cfg: Config, env: Platform, now: int, later: int)
      returns (o: Outcome, how: How)
      requires Inv(Snap())
      modifies this
      ensures Inv(Snap()) && Grows(old(Snap()), Snap())
      ensures Justified(asked, stored, Effective(host, cfg, env), o, how)
      ensures how == Literal <==> env.literal.Some?
      ensures how == Literal ==> o == Answered(env.literal.value, 0)
      ensures how == NoInterface <==> env.literal.None? && NoWayOut(cfg, env)
      ensures how.Direct? || how.Fallback? ==>
                old(|asked|) <= how.i < |asked| && MayAsk(asked[how.i], host, cfg, env)
      ensures how.Cached? ==> exists j :: 0 <= j < |stored| && Allowed(asked, stored[j], host, cfg)
    {
      EffectiveIsMeant(host, cfg, env);
      var k := BeginCall(host, cfg, env);
      if calls[k].Over? {
        return calls[k].o, calls[k].how;
      }
      o, how := Answer(k, now, later);
      JustifiedIsAllowed(asked, stored, host, cfg, env, o, how);
    }

    /** From the cache, or by asking. */
    method Answer(k: nat, now: int, later: int) returns (o: Outcome, how: How)
      requires Inv(Snap()) && k in calls && calls[k].Looking?
      modifies this
      ensures Inv(Snap()) && Grows(old(Snap()), Snap())
      ensures Justified(asked, stored, old(calls)[k].q, o, how)
      ensures how.Cached? || ((how.Direct? || how.Fallback?) && how.i >= |old(asked)|)
    {
      Others(k);
      LookUp(k, now);
      if calls[k].Over? {
        assert CallOk(asked, stored, calls[k]);
        return calls[k].o, calls[k].how;
      }
      Others(k);
      o, how := AskAndStore(k, later);
    }

    /** Nothing usable was cached: ask, and store what may be stored. */
    method AskAndStore(k: nat, later: int) returns (o: Outcome, how: How)
      requires Inv(Snap()) && k in calls && calls[k].Asking?
      modifies this
      ensures Inv(Snap()) && Grows(old(Snap()), Snap())
      ensures Justified(asked, stored, old(calls)[k].q, o, how)
      ensures (how.Direct? || how.Fallback?) && how.i >= |old(asked)|
    {
      var answer := AskFirst(k);
      Others(k);
      o, how := Finish(k, later);
    }

    /** After the first answer: fall back, store it, or be done. */
    method Finish(k: nat, later: int) returns (o: Outcome, how: How)
      requires Inv(Snap()) && k in calls && !calls[k].Looking? && !calls[k].Asking?
      requires calls[k].Over? ==> calls[k].how.Direct?
      modifies this
      ensures Inv(Snap()) && Grows(old(Snap()), Snap())
      ensures Justified(asked, stored, old(calls)[k].q, o, how)
      ensures match old(calls)[k]
              case Falling(_, i) => how == Fallback(|old(asked)|)
              case Storing(_, answer, i) => how == Direct(i) && o == answer
              case Over(_, answer, done) => how == done && o == answer
              case _ => true
    {
      if calls[k].Falling? {
        var answer := FallBack(k);
      } else if calls[k].Storing? {
        StoreAnswer(k, later);
      }
      assert CallOk(asked, stored, calls[k]);
      return calls[k].o, calls[k].how;
    }

    method ClearCache()
      requires Inv(Snap())
      modifies this`cache
      ensures Snap() == Next(old(Snap()), Clear) && Inv(Snap())
    {
      cache := map[];
    }
  }
}
