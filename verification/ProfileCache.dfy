/**
 * health.profile.get: a versioned cache over a snapshot table that is not versioned. `Profile` values
 * stand for whole profiles; what a calculation yields is a parameter.
 */
module ProfileCache {
  datatype Key = Key(user: nat, period: string, version: nat)
  datatype Entry = Entry(profile: string, expiry: nat)
  datatype Slot = Slot(user: nat, period: string)

  datatype State = State(
    snapshots: map<Slot, string>,
    cache: map<Key, Entry>,
    versions: map<nat, nat>,
    now: nat,
    latest: map<Slot, string>,    // the most recently calculated profile
    calculations: nat)

  const EMPTY := State(map[], map[], map[], 0, map[], 0)

  function Version(s: State, user: nat): nat {
    if user in s.versions then s.versions[user] else 0
  }

  predicate Live(s: State, k: Key) {
    k in s.cache && s.now < s.cache[k].expiry
  }

  function CurrentKey(s: State, slot: Slot): Key {
    Key(slot.user, slot.period, Version(s, slot.user))
  }

  function StoreCache(s: State, k: Key, profile: string, ttl: int): State {
    if ttl <= 0 then s else s.(cache := s.cache[k := Entry(profile, s.now + ttl)])
  }

  function Calculate(s: State, slot: Slot, calculated: string): State {
    s.(snapshots := s.snapshots[slot := calculated],
       latest := s.latest[slot := calculated],
       calculations := s.calculations + 1)
  }

  /**
   * health_profile_ttl_seconds: `setting` is redis_health_cache_ttl_seconds, `remaining` the seconds left
   * of the period's month, zero or less when it is over or the period has no such form.
   */
  function Ttl(setting: int, remaining: int): int {
    if remaining > 0 then (if remaining < setting then remaining else setting) else setting
  }

  /** `calculated` is what a calculation would yield. */
  function Get(setting: int, s: State, slot: Slot, refresh: bool, remaining: int, calculated: string): (State, string) {
    var k, ttl := CurrentKey(s, slot), Ttl(setting, remaining);
    if !refresh && Live(s, k) then (s, s.cache[k].profile)
    else if !refresh && slot in s.snapshots then
      (StoreCache(s, k, s.snapshots[slot], ttl), s.snapshots[slot])
    else (StoreCache(Calculate(s, slot, calculated), k, calculated, ttl), calculated)
  }

  datatype Step =
    | Read(slot: Slot, refresh: bool, remaining: int, calculated: string)
    | Bump(user: nat)
    | Tick(d: nat)

  function Next(setting: int, s: State, step: Step): State {
    match step
    case Read(slot, refresh, remaining, calculated) => Get(setting, s, slot, refresh, remaining, calculated).0
    case Bump(user) => s.(versions := s.versions[user := Version(s, user) + 1])
    case Tick(d) => s.(now := s.now + d)
  }

  function Run(setting: int, steps: seq<Step>): State {
    if steps == [] then EMPTY else Next(setting, Run(setting, steps[..|steps| - 1]), steps[|steps| - 1])
  }

  class HealthScoreService {
    const ttlSetting: int
    var snapshots: map<Slot, string>
    var cache: map<Key, Entry>
    var versions: map<nat, nat>
    var now: nat
    ghost var latest: map<Slot, string>
    ghost var calculations: nat

    ghost function View(): State
      reads this
    {
      State(snapshots, cache, versions, now, latest, calculations)
    }

    constructor (ttlSetting: int)
      ensures View() == EMPTY && this.ttlSetting == ttlSetting
    {
      this.ttlSetting := ttlSetting;
      snapshots, cache, versions, now := map[], map[], map[], 0;
      latest, calculations := map[], 0;
    }

    method StoreSnapshot(slot: Slot, profile: string)
      modifies this`snapshots, this`latest, this`calculations
      ensures View() == Calculate(old(View()), slot, profile)
    {
      snapshots := snapshots[slot := profile];
      latest := latest[slot := profile];
      calculations := calculations + 1;
    }

    method StoreProfileCache(k: Key, profile: string, ttl: int)
      modifies this`cache
      ensures View() == StoreCache(old(View()), k, profile, ttl)
    {
      if ttl > 0 {
        cache := cache[k := Entry(profile, now + ttl)];
      }
    }

    method ProfileGet(slot: Slot, refresh: bool, remaining: int, calculated: string) returns (profile: string)
      modifies this
      ensures (View(), profile) == Get(ttlSetting, old(View()), slot, refresh, remaining, calculated)
    {
      var ttl := Ttl(ttlSetting, remaining);
      var version := if slot.user in versions then versions[slot.user] else 0;
      var k := Key(slot.user, slot.period, version);
      if !refresh && k in cache && now < cache[k].expiry {
        return cache[k].profile;
      }
      if !refresh && slot in snapshots {
        profile := snapshots[slot];
        StoreProfileCache(k, profile, ttl);
        return;
      }
      profile := calculated;
      StoreSnapshot(slot, profile);
      var current := if slot.user in versions then versions[slot.user] else 0;
      StoreProfileCache(Key(slot.user, slot.period, current), profile, ttl);
    }
  }

  /** The entry lies at or below its user's version, and at that version it holds the latest calculation. */
  predicate Fresh(latest: map<Slot, string>, version: nat, k: Key, e: Entry) {
    && k.version <= version
    && (k.version == version ==> Slot(k.user, k.period) in latest && e.profile == latest[Slot(k.user, k.period)])
  }

  /** The snapshot of a slot is its latest calculation, and every cache entry is fresh. */
  predicate Sticky(setting: int, s: State) {
    && s.snapshots == s.latest
    && (setting <= 0 ==> s.cache == map[])
    && (forall k <- s.cache :: Fresh(s.latest, Version(s, k.user), k, s.cache[k]))
  }

  lemma NextKeepsSticky(setting: int, s: State, step: Step)
    requires Sticky(setting, s)
    ensures Sticky(setting, Next(setting, s, step))
  {
    var s' := Next(setting, s, step);
    forall k <- s'.cache ensures Fresh(s'.latest, Version(s', k.user), k, s'.cache[k]) {
      if k in s.cache { assert Fresh(s.latest, Version(s, k.user), k, s.cache[k]); }
    }
  }

  lemma {:induction false} RunIsSticky(setting: int, steps: seq<Step>)
    ensures Sticky(setting, Run(setting, steps))
  {
    if steps != [] {
      RunIsSticky(setting, steps[..|steps| - 1]);
      NextKeepsSticky(setting, Run(setting, steps[..|steps| - 1]), steps[|steps| - 1]);
    }
  }

  /**
   * Stickiness: over every run of reads, refreshes, bumps and expiries, a read that does not refresh
   * returns the most recently calculated profile if there is one, however often the data version has
   * been bumped since, and calculates exactly when there is none; a refresh always calculates.
   */
  lemma ReadsAreSticky(setting: int, steps: seq<Step>, slot: Slot, refresh: bool, remaining: int, calculated: string)
    ensures var s := Run(setting, steps);
            var (s', profile) := Get(setting, s, slot, refresh, remaining, calculated);
            && profile == (if !refresh && slot in s.latest then s.latest[slot] else calculated)
            && (s'.calculations == s.calculations + 1 <==> refresh || slot !in s.latest)
            && (s'.calculations == s.calculations <==> !refresh && slot in s.latest)
            && s'.latest == (if refresh || slot !in s.latest then s.latest[slot := calculated] else s.latest)
  {
    RunIsSticky(setting, steps);
  }

  lemma StepKeepsLatest(setting: int, s: State, step: Step, slot: Slot)
    requires s.snapshots == s.latest && slot in s.latest
    requires step.Read? && step.slot == slot ==> !step.refresh
    ensures slot in Next(setting, s, step).latest && Next(setting, s, step).latest[slot] == s.latest[slot]
  {
  }

  lemma RunAppend(setting: int, steps: seq<Step>, last: Step)
    ensures Run(setting, steps + [last]) == Next(setting, Run(setting, steps), last)
    ensures Run(setting, steps).snapshots == Run(setting, steps).latest
  {
    assert (steps + [last])[..|steps|] == steps;
    RunIsSticky(setting, steps);
  }

  /** Only a refresh of the slot changes its latest profile. */
  lemma {:induction false} OthersKeepLatest(setting: int, steps: seq<Step>, slot: Slot, later: seq<Step>)
    requires slot in Run(setting, steps).latest
    requires forall step <- later :: step.Read? && step.slot == slot ==> !step.refresh
    ensures slot in Run(setting, steps + later).latest
    ensures Run(setting, steps + later).latest[slot] == Run(setting, steps).latest[slot]
  {
    if later == [] {
      assert steps + later == steps;
    } else {
      var before, last := later[..|later| - 1], later[|later| - 1];
      OthersKeepLatest(setting, steps, slot, before);
      assert last in later;
      assert steps + later == (steps + before) + [last];
      RunAppend(setting, steps + before, last);
      StepKeepsLatest(setting, Run(setting, steps + before), last, slot);
    }
  }

  /**
   * Once a profile has been calculated, every read of it returns that same profile until it is refreshed,
   * whatever data-version bumps, expiries and other users' reads come between.
   */
  lemma ProfileOutlivesBumps(setting: int, steps: seq<Step>, slot: Slot, later: seq<Step>,
                             remaining: int, calculated: string)
    requires slot in Run(setting, steps).latest
    requires forall step <- later :: step.Read? && step.slot == slot ==> !step.refresh
    ensures Get(setting, Run(setting, steps + later), slot, false, remaining, calculated).1
            == Run(setting, steps).latest[slot]
  {
    OthersKeepLatest(setting, steps, slot, later);
    ReadsAreSticky(setting, steps + later, slot, false, remaining, calculated);
  }

  /**
   * A profile that was just read past the cache is served from it for as long as the setting says, but for
   * the profile of a period that still runs no longer than to its end.
   */
  lemma CachedProfileLasts(setting: int, s: State, slot: Slot, refresh: bool, remaining: int, calculated: string,
                           d: nat)
    requires setting > 0 && (refresh || !Live(s, CurrentKey(s, slot)))
    ensures var read := Next(setting, s, Read(slot, refresh, remaining, calculated));
            var later, k := Next(setting, read, Tick(d)), CurrentKey(s, slot);
            && (Live(later, k) <==> d < setting && (remaining > 0 ==> d < remaining))
            && read.cache[k].profile == Get(setting, s, slot, refresh, remaining, calculated).1
  {
  }

  function Bumps(steps: seq<Step>, user: nat): nat {
    if steps == [] then 0
    else
      var last := steps[|steps| - 1];
      Bumps(steps[..|steps| - 1], user) + if last == Bump(user) then 1 else 0
  }

  /** In every run a user's version is the number of the user's bumps. */
  lemma {:induction false} VersionCountsBumps(setting: int, steps: seq<Step>, user: nat)
    ensures Version(Run(setting, steps), user) == Bumps(steps, user)
  {
    if steps != [] { VersionCountsBumps(setting, steps[..|steps| - 1], user); }
  }
}
