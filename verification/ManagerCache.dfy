/** `ManagerFor` (manager_factory.go): a cache of resource managers behind a read-write lock, as the
    interleaved steps of any number of concurrent calls. */
module ManagerCache {
  import opened Basics

  // ---- keys ---------------------------------------------------------------------------------

  /** The format "%s/%s/%s". */
  function Key(id: string, region: string, role: string): string {
    id + ['/'] + region + ['/'] + role
  }

  predicate SlashFree(s: string) {
    '/' !in s
  }

  /** The text before the first slash decides where it ends. */
  lemma SplitAtSlash(a: string, x: string, b: string, y: string)
    requires SlashFree(a) && SlashFree(b) && a + ['/'] + x == b + ['/'] + y
    ensures a == b && x == y
  {
    var s, t := a + ['/'] + x, b + ['/'] + y;
    assert s[|a|] == '/' && t[|b|] == '/';
    assert forall i | 0 <= i < |a| :: s[i] == a[i] && a[i] in a;
    assert forall i | 0 <= i < |b| :: t[i] == b[i] && b[i] in b;
    assert |a| == |b|;
    assert a == s[..|a|] == t[..|b|] == b;
    assert x == s[|a| + 1..] == t[|b| + 1..] == y;
  }

  /** Accounts and regions hold no slash, so the key tells all three parts apart; the role may hold
      slashes, and role ARNs do. */
  lemma KeyIsInjective(id: string, region: string, role: string, id': string, region': string, role': string)
    requires SlashFree(id) && SlashFree(region) && SlashFree(id') && SlashFree(region')
    requires Key(id, region, role) == Key(id', region', role')
    ensures id == id' && region == region' && role == role'
  {
    assert Key(id, region, role) == id + ['/'] + (region + ['/'] + role);
    assert Key(id', region', role') == id' + ['/'] + (region' + ['/'] + role');
    SplitAtSlash(id, region + ['/'] + role, id', region' + ['/'] + role');
    SplitAtSlash(region, role, region', role');
  }

  /** Splits a text at its first slash. */
  lemma {:induction false} FirstSlash(s: string) returns (a: string, x: string)
    requires !SlashFree(s)
    ensures SlashFree(a) && s == a + ['/'] + x
  {
    if s[0] == '/' {
      a, x := [], s[1..];
    } else {
      assert s == [s[0]] + s[1..];
      a, x := FirstSlash(s[1..]);
      a := [s[0]] + a;
    }
  }

  /** What follows the first slash of a key holds another one. */
  lemma SlashesLeft(id: string, region: string, role: string, first: string, rest: string)
    requires SlashFree(first) && Key(id, region, role) == first + ['/'] + rest
    ensures !SlashFree(rest)
  {
    var key := Key(id, region, role);
    var last := |id| + 1 + |region|;
    assert key[|id|] == '/' && key[last] == '/';
    assert |first| <= |id| by {
      assert forall i | 0 <= i < |first| :: key[i] == first[i] && first[i] in first;
    }
    assert rest[last - |first| - 1] == key[last];
  }

  /** Every key is the key of a slash-free account and region. So a slash in the account or in the
      region always lets another caller, whose account and region hold none, share the key. */
  lemma SlashesCollide(id: string, region: string, role: string)
    returns (id': string, region': string, role': string)
    ensures SlashFree(id') && SlashFree(region') && Key(id', region', role') == Key(id, region, role)
    ensures (id', region', role') == (id, region, role) <==> SlashFree(id) && SlashFree(region)
  {
    var key := Key(id, region, role);
    assert key == id + ['/'] + (region + ['/'] + role);
    assert key[|id|] == '/';
    var rest;
    id', rest := FirstSlash(key);
    if SlashFree(rest) {
      SlashesLeft(id, region, role, id', rest);
    }
    region', role' := FirstSlash(rest);
    assert key == id' + ['/'] + (region' + ['/'] + role');
    if SlashFree(id) && SlashFree(region) {
      KeyIsInjective(id, region, role, id', region', role');
    }
  }

  // ---- calls --------------------------------------------------------------------------------

  /** `serial` tells managers apart that were built from equal arguments. */
  datatype Manager = Manager(account: string, region: string, config: nat, serial: nat)

  /** A call and the key it computes first. */
  datatype Call = Call(id: string, region: string, role: string, config: nat, key: string) {
    predicate WellFormed() {
      SlashFree(id) && SlashFree(region) && key == Key(id, region, role)
    }
  }

  /** Where a call stands. The read lock is held in Reading and LookedUp, the write lock in Writing and
      Stored. */
  datatype Point =
    | Start
    | Reading
    | LookedUp(found: Option<Manager>)
    | Missed
    | Writing
    | Stored(built: Manager)
    | Done(manager: Manager)

  datatype State = State(cache: map<string, Manager>, calls: map<nat, Call>, at: map<nat, Point>, serial: nat)

  predicate Reads(p: Point) {
    p.Reading? || p.LookedUp?
  }

  predicate Writes(p: Point) {
    p.Writing? || p.Stored?
  }

  predicate SomeoneReads(s: State) {
    exists u | u in s.at :: Reads(s.at[u])
  }

  predicate SomeoneWrites(s: State) {
    exists u | u in s.at :: Writes(s.at[u])
  }

  predicate Consistent(s: State) {
    s.at.Keys == s.calls.Keys
  }

  function Built(c: Call, serial: nat): Manager {
    Manager(c.id, c.region, c.config, serial)
  }

  /** One step of call `t`; a call that waits for a lock, or is done, stays where it is. */
  function Step(s: State, t: nat): State
    requires Consistent(s)
  {
    if t !in s.at then s
    else
      var key := s.calls[t].key;
      match s.at[t]
      case Start => if SomeoneWrites(s) then s else s.(at := s.at[t := Reading])
      case Reading => s.(at := s.at[t := LookedUp(if key in s.cache then Some(s.cache[key]) else None)])
      case LookedUp(found) => s.(at := s.at[t := if found.Some? then Done(found.value) else Missed])
      case Missed => if SomeoneReads(s) || SomeoneWrites(s) then s else s.(at := s.at[t := Writing])
      case Writing =>
        var m := Built(s.calls[t], s.serial);
        s.(cache := s.cache[key := m], at := s.at[t := Stored(m)], serial := s.serial + 1)
      case Stored(m) => s.(at := s.at[t := Done(m)])
      case Done(_) => s
  }

  /** The state after a schedule: which call steps next, over and over. */
  function Run(s: State, schedule: seq<nat>): (r: State)
    requires Consistent(s)
    ensures Consistent(r) && r.calls == s.calls
    decreases |schedule|
  {
    if schedule == [] then s
    else Step(Run(s, schedule[..|schedule| - 1]), schedule[|schedule| - 1])
  }

  lemma {:induction false} RunJoins(s: State, first: seq<nat>, second: seq<nat>)
    requires Consistent(s)
    ensures Run(s, first + second) == Run(Run(s, first), second)
    decreases |second|
  {
    if second == [] {
      assert first + second == first;
    } else {
      var init := second[..|second| - 1];
      assert (first + second)[..|first + second| - 1] == first + init;
      RunJoins(s, first, init);
    }
  }

  predicate Initial(s: State) {
    Consistent(s) && s.cache == map[] && s.serial == 0 && forall t | t in s.at :: s.at[t] == Start
  }

  // ---- what every state keeps ---------------------------------------------------------------

  predicate BuiltFor(m: Manager, c: Call) {
    m.account == c.id && m.region == c.region && m.config == c.config
  }

  /** The manager was built for some call with this key. */
  predicate Explained(key: string, m: Manager, calls: map<nat, Call>) {
    exists u | u in calls :: calls[u].key == key && BuiltFor(m, calls[u])
  }

  /** The manager a call holds at a point, if any. */
  function Held(p: Point): Option<Manager> {
    match p
    case LookedUp(found) => found
    case Stored(m) => Some(m)
    case Done(m) => Some(m)
    case _ => None
  }

  /** The lock excludes: one writer at a time, and no reader beside it. */
  predicate Exclusive(s: State) {
    forall t, u | t in s.at && u in s.at && t != u && Writes(s.at[t]) :: !Writes(s.at[u]) && !Reads(s.at[u])
  }

  /** Managers in the cache, and managers that calls hold, were built for a call with the key they go
      by. */
  predicate AllExplained(s: State)
    requires Consistent(s)
  {
    && (forall k | k in s.cache :: Explained(k, s.cache[k], s.calls))
    && forall t | t in s.at && Held(s.at[t]).Some? :: Explained(s.calls[t].key, Held(s.at[t]).value, s.calls)
  }

  lemma StepKeepsExclusive(s: State, t: nat)
    requires Consistent(s) && Exclusive(s)
    ensures Exclusive(Step(s, t))
  {
    assert forall u | u in s.at && Writes(s.at[u]) :: SomeoneWrites(s);
    assert forall u | u in s.at && Reads(s.at[u]) :: SomeoneReads(s);
  }

  /** A step moves one call and touches one cache entry at most, and only from Writing. */
  lemma StepIsLocal(s: State, t: nat)
    requires Consistent(s)
    ensures var r := Step(s, t);
            && r.calls == s.calls && r.at.Keys == s.at.Keys
            && (forall v | v in s.at && v != t :: r.at[v] == s.at[v])
            && (if t in s.at && s.at[t].Writing?
                then r.cache == s.cache[s.calls[t].key := Built(s.calls[t], s.serial)] else r.cache == s.cache)
  {
  }

  /** What a call holds after its own step: what it held, what the cache has for its key, or what it
      just built. */
  lemma StepHolds(s: State, t: nat)
    requires Consistent(s) && t in s.at
    ensures var m := Held(Step(s, t).at[t]);
            || m.None?
            || m == Held(s.at[t])
            || (s.at[t].Reading? && s.calls[t].key in s.cache && m == Some(s.cache[s.calls[t].key]))
            || (s.at[t].Writing? && m == Some(Built(s.calls[t], s.serial)))
  {
  }

  lemma StepKeepsExplained(s: State, t: nat)
    requires Consistent(s) && AllExplained(s)
    ensures AllExplained(Step(s, t)) && s.cache.Keys <= Step(s, t).cache.Keys
  {
    var r := Step(s, t);
    StepIsLocal(s, t);
    if t in s.at {
      StepHolds(s, t);
      assert BuiltFor(Built(s.calls[t], s.serial), s.calls[t]);
      assert Explained(s.calls[t].key, Built(s.calls[t], s.serial), s.calls);
    }
    ExplainedAgain(s, r, t);
  }

  lemma ExplainedAgain(s: State, r: State, t: nat)
    requires Consistent(s) && Consistent(r) && AllExplained(s) && r.calls == s.calls
    requires forall v | v in s.at && v != t :: r.at[v] == s.at[v]
    requires t in s.at && Held(r.at[t]).Some? ==> Explained(s.calls[t].key, Held(r.at[t]).value, s.calls)
    requires forall k | k in r.cache :: (k in s.cache && r.cache[k] == s.cache[k]) || Explained(k, r.cache[k], s.calls)
    ensures AllExplained(r)
  {
  }

  lemma {:induction false} RunKeepsInvariants(s: State, schedule: seq<nat>, n: nat)
    requires Initial(s) && n <= |schedule|
    ensures Exclusive(Run(s, schedule)) && AllExplained(Run(s, schedule))
    ensures Run(s, schedule[..n]).cache.Keys <= Run(s, schedule).cache.Keys
    decreases |schedule|
  {
    if n == |schedule| {
      assert schedule[..n] == schedule;
    }
    if schedule != [] {
      var init := schedule[..|schedule| - 1];
      RunKeepsInvariants(s, init, if n < |schedule| then n else 0);
      if n < |schedule| {
        assert init[..n] == schedule[..n];
      }
      StepKeepsExclusive(Run(s, init), schedule[|schedule| - 1]);
      StepKeepsExplained(Run(s, init), schedule[|schedule| - 1]);
    }
  }

  predicate SameCaller(c: Call, d: Call) {
    c.id == d.id && c.region == d.region && c.role == d.role
  }

  /** In every interleaving of any number of calls: a call only ever returns a manager that was built
      for itself or for another call with its account, region and role, so it carries the caller's own
      account and region; the same goes for every cached manager and the calls with its key; a key once
      cached stays cached; and the map is never written while another call reads or writes it. */
  lemma EveryRunIsSafe(s: State, schedule: seq<nat>, n: nat, t: nat)
    requires Initial(s) && n <= |schedule|
    requires forall u | u in s.calls :: s.calls[u].WellFormed()
    ensures var r := Run(s, schedule);
            && (t in r.at && r.at[t].Done? ==>
                  exists u | u in r.calls ::
                    BuiltFor(r.at[t].manager, r.calls[u]) && SameCaller(r.calls[u], r.calls[t]))
            && (t in r.at && r.at[t].Done? ==>
                  r.at[t].manager.account == r.calls[t].id && r.at[t].manager.region == r.calls[t].region)
            && (t in r.calls && r.calls[t].key in r.cache ==>
                  && r.cache[r.calls[t].key].account == r.calls[t].id
                  && r.cache[r.calls[t].key].region == r.calls[t].region)
            && (forall k | k in r.cache ::
                  exists u | u in r.calls ::
                    && r.calls[u].key == k
                    && r.cache[k].account == r.calls[u].id && r.cache[k].region == r.calls[u].region
                    && r.cache[k].config == r.calls[u].config)
            && Run(s, schedule[..n]).cache.Keys <= r.cache.Keys
            && Exclusive(r)
  {
    hide Run, Key;
    RunKeepsInvariants(s, schedule, n);
    var r := Run(s, schedule);
    if t in r.at && r.at[t].Done? {
      var u :| u in r.calls && r.calls[u].key == r.calls[t].key && BuiltFor(r.at[t].manager, r.calls[u]);
      var c, d := r.calls[t], r.calls[u];
      assert c.WellFormed() && d.WellFormed();
      KeyIsInjective(c.id, c.region, c.role, d.id, d.region, d.role);
    }
    if t in r.calls && r.calls[t].key in r.cache {
      var key := r.calls[t].key;
      assert Explained(key, r.cache[key], r.calls);
      var u :| u in r.calls && r.calls[u].key == key && BuiltFor(r.cache[key], r.calls[u]);
      var c, d := r.calls[t], r.calls[u];
      assert c.WellFormed() && d.WellFormed();
      KeyIsInjective(c.id, c.region, c.role, d.id, d.region, d.role);
    }
    forall k | k in r.cache
      ensures exists u | u in r.calls :: r.calls[u].key == k && BuiltFor(r.cache[k], r.calls[u])
    {
      assert Explained(k, r.cache[k], r.calls);
    }
  }

  // ---- progress -----------------------------------------------------------------------------

  predicate AllDone(r: State) {
    forall t | t in r.at :: r.at[t].Done?
  }

  /** The lock never blocks everyone: while a call is not done, some call can step. */
  lemma SomeoneCanStep(s: State) returns (t: nat)
    requires Consistent(s) && !AllDone(s)
    ensures t in s.at && Step(s, t).at[t] != s.at[t]
  {
    if u :| u in s.at && (Reads(s.at[u]) || Writes(s.at[u])) {
      t := u;
    } else {
      t :| t in s.at && !s.at[t].Done?;
    }
  }

  /** How many more steps a call can take. */
  function StepsLeft(p: Point): nat {
    match p
    case Start => 6
    case Reading => 5
    case LookedUp(_) => 4
    case Missed => 3
    case Writing => 2
    case Stored(_) => 1
    case Done(_) => 0
  }

  /** How many of its turns in the schedule the call does not spend waiting. */
  function StepsTaken(s: State, schedule: seq<nat>, t: nat): nat
    requires Consistent(s)
    decreases |schedule|
  {
    if schedule == [] then 0
    else
      var init, next := schedule[..|schedule| - 1], schedule[|schedule| - 1];
      StepsTaken(s, init, t) + if next == t && Step(Run(s, init), t) != Run(s, init) then 1 else 0
  }

  lemma StepGetsCloser(s: State, t: nat)
    requires Consistent(s) && t in s.at
    ensures Step(s, t) != s ==> StepsLeft(Step(s, t).at[t]) < StepsLeft(s.at[t])
  {
  }

  /** However the calls are scheduled, a call never takes more than six steps. */
  lemma {:induction false} AtMostSixSteps(s: State, schedule: seq<nat>, t: nat)
    requires Consistent(s) && t in s.at
    ensures StepsTaken(s, schedule, t) + StepsLeft(Run(s, schedule).at[t]) <= StepsLeft(s.at[t])
    ensures StepsTaken(s, schedule, t) <= 6
    decreases |schedule|
  {
    hide Step;
    if schedule != [] {
      var init, next := schedule[..|schedule| - 1], schedule[|schedule| - 1];
      AtMostSixSteps(s, init, t);
      StepIsLocal(Run(s, init), next);
      StepGetsCloser(Run(s, init), t);
    }
  }

  ghost function AllStepsLeft(at: map<nat, Point>): nat
    decreases at.Keys
  {
    if at == map[] then 0
    else
      var t :| t in at;
      StepsLeft(at[t]) + AllStepsLeft(at - {t})
  }

  lemma {:induction false} TakeOneOut(at: map<nat, Point>, t: nat)
    requires t in at
    ensures AllStepsLeft(at) == StepsLeft(at[t]) + AllStepsLeft(at - {t})
    decreases at.Keys
  {
    var u :| u in at && AllStepsLeft(at) == StepsLeft(at[u]) + AllStepsLeft(at - {u});
    if u != t {
      TakeOneOut(at - {u}, t);
      TakeOneOut(at - {t}, u);
      assert at - {u} - {t} == at - {t} - {u};
    }
  }

  lemma {:induction false} NoStepsLeft(at: map<nat, Point>)
    ensures AllStepsLeft(at) == 0 <==> forall t | t in at :: at[t].Done?
    ensures AllStepsLeft(at) <= 6 * |at|
    decreases at.Keys
  {
    if at != map[] {
      var t :| t in at;
      TakeOneOut(at, t);
      var rest := at - {t};
      NoStepsLeft(rest);
      assert rest.Keys == at.Keys - {t} && |at.Keys| == |rest.Keys| + 1;
      assert forall u | u in at && u != t :: u in rest && rest[u] == at[u];
    }
  }

  lemma StepsRunOut(s: State, t: nat)
    requires Consistent(s)
    ensures AllStepsLeft(Step(s, t).at) <= AllStepsLeft(s.at)
    ensures AllStepsLeft(Step(s, t).at) == AllStepsLeft(s.at) ==> Step(s, t) == s
  {
    hide AllStepsLeft;
    if t in s.at {
      StepIsLocal(s, t);
      StepGetsCloser(s, t);
      TakeOneOut(s.at, t);
      TakeOneOut(Step(s, t).at, t);
      assert Step(s, t).at - {t} == s.at - {t};
    }
  }

  /** A round of steps brings the end closer, unless nothing happens in it. */
  lemma {:induction false} RoundGetsCloser(s: State, round: seq<nat>)
    requires Consistent(s)
    ensures AllStepsLeft(Run(s, round).at) <= AllStepsLeft(s.at)
    ensures AllStepsLeft(Run(s, round).at) == AllStepsLeft(s.at) ==>
              Run(s, round) == s && forall t | t in round :: Step(s, t) == s
    decreases |round|
  {
    hide AllStepsLeft, Step;
    if round != [] {
      var init, last := round[..|round| - 1], round[|round| - 1];
      assert round == init + [last];
      RoundGetsCloser(s, init);
      StepsRunOut(Run(s, init), last);
    }
  }

  function Rounds(rounds: seq<seq<nat>>): seq<nat> {
    if rounds == [] then [] else rounds[0] + Rounds(rounds[1..])
  }

  lemma {:induction false} FairRunsEnd(s: State, rounds: seq<seq<nat>>)
    requires Consistent(s) && AllStepsLeft(s.at) <= |rounds|
    requires forall round, t | round in rounds && t in s.at :: t in round
    ensures AllDone(Run(s, Rounds(rounds)))
    decreases |rounds|
  {
    hide AllStepsLeft, Step;
    NoStepsLeft(s.at);
    if rounds != [] {
      var next := Run(s, rounds[0]);
      RoundGetsCloser(s, rounds[0]);
      if AllStepsLeft(next.at) == AllStepsLeft(s.at) && !AllDone(s) {
        var t := SomeoneCanStep(s);
        assert false;
      }
      RunKeepsCalls(s, rounds[0]);
      FairRunsEnd(next, rounds[1..]);
      RunJoins(s, rounds[0], Rounds(rounds[1..]));
    }
  }

  lemma RunKeepsCalls(s: State, schedule: seq<nat>)
    requires Consistent(s)
    ensures Run(s, schedule).at.Keys == s.at.Keys
  {
  }

  /** No call waits forever: after six rounds per call, in each of which every call has a turn at some
      point, whatever other turns the rounds hold, every call has returned. */
  lemma FairRunsFinish(s: State, rounds: seq<seq<nat>>)
    requires Consistent(s) && 6 * |s.at| <= |rounds|
    requires forall round, t | round in rounds && t in s.at :: t in round
    ensures AllDone(Run(s, Rounds(rounds)))
  {
    NoStepsLeft(s.at);
    FairRunsEnd(s, rounds);
  }

  // ---- one call on its own ------------------------------------------------------------------

  /** The state of a factory that serves a single call. */
  function Alone(cache: map<string, Manager>, serial: nat, c: Call, p: Point): (s: State)
    ensures Consistent(s)
  {
    State(cache, map[0 := c], map[0 := p], serial)
  }

  lemma AloneHit(cache: map<string, Manager>, serial: nat, c: Call)
    requires c.key in cache
    ensures Thrice(Alone(cache, serial, c, Start), 0) == Alone(cache, serial, c, Done(cache[c.key]))
    ensures Thrice(Alone(cache, serial, c, Done(cache[c.key])), 0) == Alone(cache, serial, c, Done(cache[c.key]))
  {
    var s := Alone(cache, serial, c, Start);
    assert Step(s, 0) == Alone(cache, serial, c, Reading);
    assert Step(Step(s, 0), 0) == Alone(cache, serial, c, LookedUp(Some(cache[c.key])));
    assert Step(Step(Step(s, 0), 0), 0) == Alone(cache, serial, c, Done(cache[c.key]));
  }

  lemma AloneMiss(cache: map<string, Manager>, serial: nat, c: Call)
    requires c.key !in cache
    ensures Thrice(Alone(cache, serial, c, Start), 0) == Alone(cache, serial, c, Missed)
    ensures Thrice(Alone(cache, serial, c, Missed), 0)
            == Alone(cache[c.key := Built(c, serial)], serial + 1, c, Done(Built(c, serial)))
  {
    hide Thrice, Step;
    Misses(Alone(cache, serial, c, Start), 0);
    assert map[0 := Start][0 := Missed] == map[0 := Missed];
    Inserts(Alone(cache, serial, c, Missed), 0);
    assert map[0 := Missed][0 := Done(Built(c, serial))] == map[0 := Done(Built(c, serial))];
  }

  lemma AloneSteps(cache: map<string, Manager>, serial: nat, c: Call)
    ensures var m := if c.key in cache then cache[c.key] else Built(c, serial);
            Run(Alone(cache, serial, c, Start), [0, 0, 0] + [0, 0, 0])
            == Alone(cache[c.key := m], if c.key in cache then serial else serial + 1, c, Done(m))
  {
    var s := Alone(cache, serial, c, Start);
    RunJoins(s, [0, 0, 0], [0, 0, 0]);
    if c.key in cache {
      AloneHit(cache, serial, c);
      assert cache[c.key := cache[c.key]] == cache;
    } else {
      AloneMiss(cache, serial, c);
    }
  }

  class ResourceManagerFactory {
    var rmCache: map<string, Manager>
    var serial: nat

    /** Undisturbed, a call does what six of its steps do: look up and, on a miss, build and insert. */
    method ManagerFor(config: nat, id: string, region: string, roleARN: string) returns (rm: Manager)
      modifies this
      ensures var c := Call(id, region, roleARN, config, Key(id, region, roleARN));
              Alone(rmCache, serial, c, Done(rm))
              == Run(Alone(old(rmCache), old(serial), c, Start), [0, 0, 0] + [0, 0, 0])
      ensures var key := id + ['/'] + region + ['/'] + roleARN;
              && key in rmCache && rmCache[key] == rm
              && if key in old(rmCache) then rm == old(rmCache)[key]
                 else rm.account == id && rm.region == region && rm.config == config && rm.serial == old(serial)
      ensures old(rmCache.Keys) <= rmCache.Keys
      ensures forall k | k in old(rmCache) :: rmCache[k] == old(rmCache[k])
    {
      var rmId := Key(id, region, roleARN);
      AloneSteps(rmCache, serial, Call(id, region, roleARN, config, rmId));
      if rmId in rmCache {
        rm := rmCache[rmId];
        assert rmCache[rmId := rm] == rmCache;
        return;
      }
      rm := Manager(id, region, config, serial);
      serial := serial + 1;
      rmCache := rmCache[rmId := rm];
    }
  }

  // ---- one manager per key? -----------------------------------------------------------------

  /** Three steps of one call. */
  function Thrice(s: State, t: nat): (r: State)
    requires Consistent(s)
    ensures Consistent(r)
    ensures r == Run(s, [t, t, t])
  {
    assert [t, t, t][..2] == [t, t] && [t, t][..1] == [t] && [t][..0] == [];
    assert Run(s, []) == s;
    assert Run(s, [t]) == Step(s, t);
    assert Run(s, [t, t]) == Step(Step(s, t), t);
    Step(Step(Step(s, t), t), t)
  }

  /** Lock, look up in vain, unlock. */
  lemma Misses(s: State, t: nat)
    requires Consistent(s) && t in s.at && s.at[t].Start? && !SomeoneWrites(s) && s.calls[t].key !in s.cache
    ensures Thrice(s, t) == s.(at := s.at[t := Missed])
  {
    var s1 := Step(s, t);
    assert s1 == s.(at := s.at[t := Reading]);
    var s2 := Step(s1, t);
    assert s2 == s.(at := s.at[t := LookedUp(None)]);
  }

  /** Lock, build and insert, unlock. Whether the key has been inserted meanwhile is not asked. */
  lemma Inserts(s: State, t: nat)
    requires Consistent(s) && t in s.at && s.at[t].Missed? && !SomeoneWrites(s) && !SomeoneReads(s)
    ensures var m := Built(s.calls[t], s.serial);
            Thrice(s, t) == State(s.cache[s.calls[t].key := m], s.calls, s.at[t := Done(m)], s.serial + 1)
  {
    var m := Built(s.calls[t], s.serial);
    var s1 := Step(s, t);
    assert s1 == s.(at := s.at[t := Writing]);
    var s2 := Step(s1, t);
    assert s2 == State(s.cache[s.calls[t].key := m], s.calls, s.at[t := Stored(m)], s.serial + 1);
  }

  lemma BothMiss(s: State, t: nat, u: nat)
    requires Initial(s) && s.at.Keys == {t, u} && t != u
    ensures Run(s, [t, t, t] + [u, u, u]) == s.(at := s.at[t := Missed][u := Missed])
  {
    Misses(s, t);
    Misses(Thrice(s, t), u);
    RunJoins(s, [t, t, t], [u, u, u]);
    assert Thrice(Thrice(s, t), u) == Run(Run(s, [t, t, t]), [u, u, u]);
  }

  lemma InsertsFirst(s: State, t: nat, u: nat)
    requires Consistent(s) && s.at == map[t := Missed, u := Missed] && t != u
    ensures var m := Built(s.calls[t], s.serial);
            Thrice(s, t) == State(s.cache[s.calls[t].key := m], s.calls, map[t := Done(m), u := Missed], s.serial + 1)
  {
    hide Thrice, Step;
    Inserts(s, t);
    assert s.at[t := Done(Built(s.calls[t], s.serial))] == map[t := Done(Built(s.calls[t], s.serial)), u := Missed];
  }

  lemma InsertsSecond(s: State, u: nat, t: nat, m: Manager)
    requires Consistent(s) && s.at == map[t := Done(m), u := Missed] && t != u
    ensures var n := Built(s.calls[u], s.serial);
            Thrice(s, u) == State(s.cache[s.calls[u].key := n], s.calls, map[t := Done(m), u := Done(n)], s.serial + 1)
  {
    Inserts(s, u);
    assert s.at[u := Done(Built(s.calls[u], s.serial))] == map[t := Done(m), u := Done(Built(s.calls[u], s.serial))];
  }

  lemma BothInsert(s: State, t: nat, u: nat)
    requires Consistent(s) && s.at == map[t := Missed, u := Missed] && t != u
    ensures var m, n := Built(s.calls[t], s.serial), Built(s.calls[u], s.serial + 1);
            Run(s, [t, t, t] + [u, u, u])
            == State(s.cache[s.calls[t].key := m][s.calls[u].key := n], s.calls, map[t := Done(m), u := Done(n)],
                     s.serial + 2)
  {
    InsertsFirst(s, t, u);
    InsertsSecond(Thrice(s, t), u, t, Built(s.calls[t], s.serial));
    RunJoins(s, [t, t, t], [u, u, u]);
  }

  /** The lookup and the insertion are under different locks and the key is not looked up again, so
      two calls for one key that miss together both build a manager, and return different ones; the
      cache keeps the second. */
  lemma TwoManagersForOneKey(s: State, t: nat, u: nat)
    requires Initial(s) && s.at.Keys == {t, u} && t != u && s.calls[t].key == s.calls[u].key
    ensures var r := Run(s, [t, t, t] + [u, u, u] + ([t, t, t] + [u, u, u]));
            && r.at[t].Done? && r.at[u].Done?
            && r.at[t].manager != r.at[u].manager
            && r.cache == map[s.calls[t].key := r.at[u].manager]
  {
    hide Step, Thrice, Run;
    BothMiss(s, t, u);
    var missed := Run(s, [t, t, t] + [u, u, u]);
    assert missed.at == map[t := Missed, u := Missed];
    BothInsert(missed, t, u);
    RunJoins(s, [t, t, t] + [u, u, u], [t, t, t] + [u, u, u]);
  }

  /** The call has looked its key up in vain and has not inserted a manager yet. */
  predicate Building(p: Point) {
    p == LookedUp(None) || p.Missed? || p.Writing?
  }

  /** No two calls build a manager for one key at the same time. */
  predicate OneBuilder(s: State)
    requires Consistent(s)
  {
    forall t, u | t in s.at && u in s.at && t != u && s.calls[t].key == s.calls[u].key ::
      !(Building(s.at[t]) && Building(s.at[u]))
  }

  /** Every manager that a call holds is the cached one, and a call that missed still misses. */
  predicate Shared(s: State)
    requires Consistent(s)
  {
    forall t | t in s.at :: SharedBy(s, t)
  }

  predicate SharedBy(s: State, t: nat)
    requires Consistent(s) && t in s.at
  {
    var key := s.calls[t].key;
    && (Held(s.at[t]).Some? ==> key in s.cache && s.cache[key] == Held(s.at[t]).value)
    && (Building(s.at[t]) ==> key !in s.cache)
  }

  lemma StepKeepsShared(s: State, t: nat)
    requires Consistent(s) && OneBuilder(s) && Shared(s)
    ensures Shared(Step(s, t))
  {
    var r := Step(s, t);
    StepIsLocal(s, t);
    forall v | v in r.at
      ensures SharedBy(r, v)
    {
      assert SharedBy(s, v);
      if v != t && t in s.at && s.at[t].Writing? && s.calls[v].key == s.calls[t].key {
        assert SharedBy(s, t);
      }
    }
  }

  lemma SharedMeansSame(r: State)
    requires Consistent(r) && Shared(r)
    ensures OneManagerEach(r)
  {
    forall t, u | t in r.at && u in r.at && r.at[t].Done? && r.at[u].Done? && r.calls[t].key == r.calls[u].key
      ensures r.at[t].manager == r.at[u].manager
    {
      assert SharedBy(r, t) && SharedBy(r, u);
    }
  }

  /** At no moment of the run. */
  predicate NeverTwoBuilders(s: State, schedule: seq<nat>)
    requires Consistent(s)
    decreases |schedule|
  {
    OneBuilder(Run(s, schedule)) && (schedule == [] || NeverTwoBuilders(s, schedule[..|schedule| - 1]))
  }

  lemma {:induction false} RunKeepsShared(s: State, schedule: seq<nat>)
    requires Initial(s) && NeverTwoBuilders(s, schedule)
    ensures Shared(Run(s, schedule))
    decreases |schedule|
  {
    if schedule != [] {
      var init := schedule[..|schedule| - 1];
      RunKeepsShared(s, init);
      StepKeepsShared(Run(s, init), schedule[|schedule| - 1]);
    }
  }

  /** The call is building a manager or has built the one it holds. */
  predicate Builds(s: State, t: nat)
    requires t in s.at
  {
    var p := s.at[t];
    Building(p) || ((p.Stored? || p.Done?) && Held(p).value.serial < s.serial)
  }

  /** Both calls build a manager of their own. */
  predicate Rivals(s: State, t: nat, u: nat) {
    && t != u && t in s.at && u in s.at
    && Builds(s, t) && Builds(s, u)
    && (!Building(s.at[t]) && !Building(s.at[u]) ==> Held(s.at[t]).value.serial != Held(s.at[u]).value.serial)
  }

  lemma StepKeepsRivals(s: State, v: nat, t: nat, u: nat)
    requires Consistent(s) && Rivals(s, t, u)
    ensures Rivals(Step(s, v), t, u)
  {
    StepIsLocal(s, v);
  }

  /** All finished calls with one key hold the same manager. */
  predicate OneManagerEach(s: State)
    requires Consistent(s)
  {
    forall t, u | t in s.at && u in s.at && s.at[t].Done? && s.at[u].Done? && s.calls[t].key == s.calls[u].key ::
      s.at[t].manager == s.at[u].manager
  }

  lemma TwoBuilders(s: State) returns (t: nat, u: nat)
    requires Consistent(s) && !OneBuilder(s)
    ensures Rivals(s, t, u) && s.calls[t].key == s.calls[u].key
  {
    t, u :| t in s.at && u in s.at && t != u && s.calls[t].key == s.calls[u].key
            && Building(s.at[t]) && Building(s.at[u]);
  }

  /** Two calls that ever built a manager for one key together are rivals ever after. */
  lemma {:induction false} RivalsStay(s: State, schedule: seq<nat>) returns (t: nat, u: nat)
    requires Consistent(s) && !NeverTwoBuilders(s, schedule)
    ensures Rivals(Run(s, schedule), t, u) && s.calls[t].key == s.calls[u].key
    decreases |schedule|
  {
    if !OneBuilder(Run(s, schedule)) {
      t, u := TwoBuilders(Run(s, schedule));
    } else {
      var init := schedule[..|schedule| - 1];
      t, u := RivalsStay(s, init);
      StepKeepsRivals(Run(s, init), schedule[|schedule| - 1], t, u);
    }
  }

  /** Exactly when the calls with a key all return the very same manager, over every run in which all
      calls return: when no two of them were ever both between a vain lookup and their insertion. */
  lemma OneManagerPerKey(s: State, schedule: seq<nat>)
    requires Initial(s) && AllDone(Run(s, schedule))
    ensures OneManagerEach(Run(s, schedule)) <==> NeverTwoBuilders(s, schedule)
  {
    if NeverTwoBuilders(s, schedule) {
      RunKeepsShared(s, schedule);
      SharedMeansSame(Run(s, schedule));
    } else {
      var t, u := RivalsStay(s, schedule);
      assert Run(s, schedule).at[t].manager != Run(s, schedule).at[u].manager;
    }
  }
}
