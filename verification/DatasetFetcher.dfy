/** Fetching a hub dataset through the shared cache, and what survives crashes of the worker. */
module DatasetFetcher {
  import opened Models
  import opened PathEncoding
  import opened DiskManager

  /** The hub's dataset repositories and their complete contents. */
  type Hub = map<string, Files>

  datatype FetchResult = Fetched(dir: string) | NotFound

  // ---- the states one fetch goes through ----------------------------------------------------

  /** `touch` on a finished entry. */
  function Touched(cache: Cache, name: string, now: Time): Cache
    requires name in cache
  {
    cache[name := cache[name].(mtime := now)]
  }

  /** What a temporary directory left behind by an interrupted download already holds. */
  function LeftOver(cache: Cache, id: string): Files {
    if TmpName(id) in cache then cache[TmpName(id)].files else map[]
  }

  /** The download overwrites the repository's files and leaves any others alone. */
  function Downloaded(cache: Cache, id: string, contents: Files, mtime: Time): Cache {
    cache[TmpName(id) := Directory(LeftOver(cache, id) + contents, mtime)]
  }

  /** The rename of the temporary directory to its final name. */
  function Published(cache: Cache, id: string, contents: Files, mtime: Time): Cache {
    var downloaded := Downloaded(cache, id, contents, mtime);
    (downloaded - {TmpName(id)})[FinalName(id) := downloaded[TmpName(id)]]
  }

  /** One whole fetch; `mtime` is the modification time the download gives the directory. */
  ghost predicate Fetches(hub: Hub, cap: int, before: Cache, after: Cache, id: string, now: Time, mtime: Time,
                          order: seq<CacheEntry>, k: nat)
  {
    if FinalName(id) in before then after == Touched(before, FinalName(id), now)
    else if id !in hub then after == before
    else Evicted(Published(before, id, hub[id], mtime), after, cap, order, k)
  }

  class DatasetFetcher {
    const disk: Disk
    const hub: Hub
    const cap: int

    constructor (disk: Disk, hub: Hub, cap: int)
      ensures this.disk == disk && this.hub == hub && this.cap == cap
    {
      this.disk, this.hub, this.cap := disk, hub, cap;
    }

    method FetchHfDataset(id: string, now: Time, mtime: Time)
      returns (r: FetchResult, ghost order: seq<CacheEntry>, ghost k: nat)
      modifies disk
      ensures Fetches(hub, cap, old(disk.cache), disk.cache, id, now, mtime, order, k)
      ensures r == Answer(hub, old(disk.cache), id)
      ensures r.NotFound? <==> FinalName(id) !in old(disk.cache) && id !in hub
      ensures r.Fetched? ==> r.dir == FinalName(id)
      ensures r.NotFound? ==> disk.cache == old(disk.cache)
    {
      hide Evicted;
      order, k := [], 0;
      var final := FinalName(id);
      if final in disk.cache {
        disk.cache := disk.cache[final := disk.cache[final].(mtime := now)];
        return Fetched(final), order, k;
      }
      var tmp := TmpName(id);
      if id !in hub {
        return NotFound, order, k;
      }
      var leftOver := if tmp in disk.cache then disk.cache[tmp].files else map[];
      disk.cache := disk.cache[tmp := Directory(leftOver + hub[id], mtime)];
      disk.cache := (disk.cache - {tmp})[final := disk.cache[tmp]];
      var removed, listed := disk.EvictLruUntilUnderCap(cap);
      order, k := listed, |removed|;
      r := Fetched(final);
    }
  }

  function Answer(hub: Hub, before: Cache, id: string): FetchResult {
    if FinalName(id) in before || id in hub then Fetched(FinalName(id)) else NotFound
  }

  // ---- runs of the cache, with crashes ------------------------------------------------------

  datatype CacheStep =
    | Fetch(id: string, now: Time, mtime: Time)
    | CrashInDownload(id: string, arrived: set<string>, mtime: Time)
    | CrashBeforeEviction(id: string, mtime: Time)
    | CrashBetweenRemovals(id: string, mtime: Time)
    | CleanUp(olderThan: int, now: Time)
    | TornRemoval(name: string, kept: set<string>)  // a crash inside the removal of one directory

  function FetchedId(step: CacheStep): Option<string> {
    match step
    case CleanUp(_, _) => None
    case TornRemoval(_, _) => None
    case _ => Some(step.id)
  }

  function Only(files: Files, kept: set<string>): Files {
    map path | path in files && path in kept :: files[path]
  }

  ghost predicate CacheNext(hub: Hub, cap: int, step: CacheStep, before: Cache, after: Cache) {
    match step
    case Fetch(id, now, mtime) =>
      exists order, k :: Fetches(hub, cap, before, after, id, now, mtime, order, k)
    case CrashInDownload(id, arrived, mtime) =>
      FinalName(id) !in before && id in hub && after == Downloaded(before, id, Only(hub[id], arrived), mtime)
    case CrashBeforeEviction(id, mtime) =>
      FinalName(id) !in before && id in hub && after == Published(before, id, hub[id], mtime)
    case CrashBetweenRemovals(id, mtime) =>
      && FinalName(id) !in before && id in hub
      && exists order, j :: RemovedSoFar(Published(before, id, hub[id], mtime), after, order, j)
    case CleanUp(olderThan, now) =>
      after == map name | name in before && !StaleTmp(before, name, olderThan, now) :: before[name]
    case TornRemoval(name, kept) =>
      name in before && after == before[name := before[name].(files := Only(before[name].files, kept))]
  }

  ghost predicate RemovedSoFar(before: Cache, after: Cache, order: seq<CacheEntry>, j: nat) {
    LruOrder(before, order) && j <= |order| && after == before - Names(order[..j])
  }

  ghost predicate CacheRun(hub: Hub, cap: int, steps: seq<CacheStep>, states: seq<Cache>) {
    && |states| == |steps| + 1
    && states[0] == map[]
    && forall i :: 0 <= i < |steps| ==> CacheNext(hub, cap, steps[i], states[i], states[i + 1])
  }

  // ---- what the cache holds for one id ------------------------------------------------------

  /** A finished entry is the complete repository; a temporary one holds nothing foreign. */
  ghost predicate Faithful(hub: Hub, cache: Cache, id: string) {
    && Serves(hub, cache, id)
    && (TmpName(id) in cache ==> id in hub && cache[TmpName(id)].files.Keys <= hub[id].Keys)
  }

  ghost predicate Serves(hub: Hub, cache: Cache, id: string) {
    FinalName(id) in cache ==> id in hub && cache[FinalName(id)].files == hub[id]
  }

  /** The step fetches id itself or an id kept apart from it, and tears no finished entry of id. */
  ghost predicate Harmless(hub: Hub, step: CacheStep, id: string) {
    && (FetchedId(step).Some? ==> FetchedId(step).value == id || Apart(FetchedId(step).value, id))
    && (step.TornRemoval? && step.name == FinalName(id) && id in hub ==> hub[id].Keys <= step.kept)
  }

  /** after is before without some of its directories. */
  ghost predicate Shrunk(before: Cache, after: Cache) {
    forall name :: name in after ==> name in before && after[name] == before[name]
  }

  lemma PublishedIsFaithful(hub: Hub, before: Cache, fetched: string, mtime: Time, id: string)
    requires fetched in hub && Faithful(hub, before, id) && (fetched == id || Apart(fetched, id))
    ensures Faithful(hub, Published(before, fetched, hub[fetched], mtime), id)
  {
    FinalIsNotOwnTmp(id);
    if fetched == id {
      assert LeftOver(before, id) + hub[id] == hub[id];
    }
  }

  lemma StepIsFaithful(hub: Hub, cap: int, step: CacheStep, before: Cache, after: Cache, id: string)
    requires CacheNext(hub, cap, step, before, after) && Harmless(hub, step, id) && Faithful(hub, before, id)
    ensures Faithful(hub, after, id)
  {
    hide Published, Lists;
    FinalIsNotOwnTmp(id);
    match step
    case Fetch(fetched, now, mtime) =>
      if FinalName(fetched) !in before && fetched in hub {
        PublishedIsFaithful(hub, before, fetched, mtime, id);
        assert Shrunk(Published(before, fetched, hub[fetched], mtime), after);
      }
    case CrashInDownload(fetched, arrived, mtime) =>
      if TmpName(fetched) == TmpName(id) {
        TmpNameDetermines(fetched, id);
      }
    case CrashBeforeEviction(fetched, mtime) =>
      PublishedIsFaithful(hub, before, fetched, mtime, id);
    case CrashBetweenRemovals(fetched, mtime) =>
      PublishedIsFaithful(hub, before, fetched, mtime, id);
      assert Shrunk(Published(before, fetched, hub[fetched], mtime), after);
    case CleanUp(_, _) =>
      assert Shrunk(before, after);
    case TornRemoval(name, kept) =>
      if name == FinalName(id) {
        assert Only(before[name].files, kept) == before[name].files;
      }
  }

  lemma {:induction false} RunIsFaithful(hub: Hub, cap: int, steps: seq<CacheStep>, states: seq<Cache>, id: string,
      i: nat)
    requires CacheRun(hub, cap, steps, states) && i <= |steps|
    requires forall step :: step in steps ==> Harmless(hub, step, id)
    ensures Faithful(hub, states[i], id)
  {
    if i > 0 {
      RunIsFaithful(hub, cap, steps, states, id, i - 1);
      StepIsFaithful(hub, cap, steps[i - 1], states[i - 1], states[i], id);
    }
  }

  // ---- a fetch through the cache is a download of the repository ----------------------------

  /** What a worker without a cache would get. */
  function Direct(hub: Hub, id: string): Option<Files> {
    if id in hub then Some(hub[id]) else None
  }

  /** What the caller finds in the directory it was given. */
  function Obtained(cache: Cache, r: FetchResult): Option<Files> {
    if r.Fetched? && r.dir in cache then Some(cache[r.dir].files) else None
  }

  /** In every run, crashes included, whatever a fetch finds is what a direct download gives, and it finds it
      exactly when the entry was there already or, with everything used no earlier, fits the cap. */
  lemma FetchIsDirectDownload(hub: Hub, cap: nat, steps: seq<CacheStep>, states: seq<Cache>, i: nat, id: string,
                              now: Time, mtime: Time, order: seq<CacheEntry>, k: nat)
    requires CacheRun(hub, cap, steps, states) && i < |steps|
    requires forall step :: step in steps ==> Harmless(hub, step, id)
    requires Fetches(hub, cap, states[i], states[i + 1], id, now, mtime, order, k) && !IsTmp(FinalName(id))
    ensures Answer(hub, states[i], id).NotFound? <==> id !in hub
    ensures FinalName(id) in states[i + 1] || id !in hub ==>
      Obtained(states[i + 1], Answer(hub, states[i], id)) == Direct(hub, id)
    ensures id in hub ==>
      (FinalName(id) in states[i + 1] <==> FinalName(id) in states[i] || Fits(order, FinalName(id), cap))
  {
    hide CacheNext, Lists;
    RunIsFaithful(hub, cap, steps, states, id, i);
    var before, after := states[i], states[i + 1];
    if FinalName(id) !in before && id in hub {
      PublishedIsFaithful(hub, before, id, mtime, id);
      EntryFits(Published(before, id, hub[id], mtime), after, cap, order, k, FinalName(id));
    }
  }

  /** The entry together with all entries that follow it in the eviction order. */
  ghost predicate Fits(order: seq<CacheEntry>, name: string, cap: nat) {
    exists i :: 0 <= i < |order| && order[i].name == name && Total(order[i..]) <= cap
  }

  lemma EntryFits(before: Cache, after: Cache, cap: nat, order: seq<CacheEntry>, k: nat, name: string)
    requires Evicted(before, after, cap, order, k) && name in before && !IsTmp(name)
    ensures name in after <==> Fits(order, name, cap)
    ensures name in after ==> after[name] == before[name]
  {
    assert EntryOf(before, name) in order;
    var i :| 0 <= i < |order| && order[i] == EntryOf(before, name);
    SurvivesIff(before, after, cap, order, k, i);
  }

  /** A dataset newer than every finished entry survives its own fetch exactly when it fits the cap alone. */
  lemma FreshestSurvivesIff(hub: Hub, cap: nat, before: Cache, after: Cache, id: string, now: Time, mtime: Time,
                            order: seq<CacheEntry>, k: nat)
    requires Fetches(hub, cap, before, after, id, now, mtime, order, k)
    requires FinalName(id) !in before && id in hub && !IsTmp(FinalName(id)) && Faithful(hub, before, id)
    requires forall name :: name in before && !IsTmp(name) ==> before[name].mtime < mtime
    ensures FinalName(id) in after <==> Size(hub[id]) <= cap
  {
    var published := Published(before, id, hub[id], mtime);
    PublishedIsFaithful(hub, before, id, mtime, id);
    FreshestIsLast(published, order, FinalName(id));
    LastSurvivesIff(published, after, cap, order, k);
  }

  lemma FreshestIsLast(cache: Cache, order: seq<CacheEntry>, name: string)
    requires LruOrder(cache, order) && name in cache && !IsTmp(name)
    requires forall other :: other in cache && !IsTmp(other) && other != name ==> cache[other].mtime < cache[name].mtime
    ensures order != [] && order[|order| - 1] == EntryOf(cache, name)
  {
  }

  // ---- what a fetch does to the eviction order ----------------------------------------------

  /** A hit moves the entry's modification time to now and does nothing else. */
  lemma HitIsExact(hub: Hub, cap: int, before: Cache, after: Cache, id: string, now: Time, mtime: Time,
                   order: seq<CacheEntry>, k: nat)
    requires Fetches(hub, cap, before, after, id, now, mtime, order, k) && FinalName(id) in before
    ensures after.Keys == before.Keys
    ensures after[FinalName(id)] == Directory(before[FinalName(id)].files, now)
    ensures forall name :: name in before && name != FinalName(id) ==> after[name] == before[name]
  {
  }

  /** So an entry that was hit goes last: an eviction removes it only after all others. */
  lemma HitGoesLast(hub: Hub, cap: int, before: Cache, after: Cache, id: string, now: Time, mtime: Time,
                    order: seq<CacheEntry>, k: nat, later: Cache, laterCap: nat, laterOrder: seq<CacheEntry>,
                      removed: nat)
    requires Fetches(hub, cap, before, after, id, now, mtime, order, k)
    requires FinalName(id) in before && !IsTmp(FinalName(id))
    requires forall name :: name in before && !IsTmp(name) && name != FinalName(id) ==> before[name].mtime < now
    requires Evicted(after, later, laterCap, laterOrder, removed)
    ensures laterOrder != [] && laterOrder[|laterOrder| - 1].name == FinalName(id)
    ensures FinalName(id) !in later ==> forall name :: name in later ==> IsTmp(name)
  {
    hide FinalName, IsTmp, Size;
    HitIsExact(hub, cap, before, after, id, now, mtime, order, k);
    FreshestIsLast(after, laterOrder, FinalName(id));
    EvictionIsLru(after, later, laterCap, laterOrder, removed);
    forall name | name in after && !IsTmp(name) && FinalName(id) !in later
      ensures name !in later
    {
      assert EntryOf(after, name) in laterOrder;
      var i :| 0 <= i < |laterOrder| && laterOrder[i] == EntryOf(after, name);
      assert laterOrder[i].name == name;
    }
  }

  /** A miss adds the repository to the finished entries and touches none of the others but by evicting it. */
  lemma MissIsExact(hub: Hub, cap: nat, before: Cache, after: Cache, id: string, now: Time, mtime: Time,
                    order: seq<CacheEntry>, k: nat)
    requires Fetches(hub, cap, before, after, id, now, mtime, order, k)
    requires FinalName(id) !in before && id in hub && !IsTmp(FinalName(id)) && Faithful(hub, before, id)
    ensures CacheEntry(FinalName(id), Size(hub[id]), mtime) in order
    ensures forall name :: name in before && !IsTmp(name) ==> EntryOf(before, name) in order
    ensures forall e :: e in order ==>
      e.name == FinalName(id) || (e.name in before && !IsTmp(e.name) && e == EntryOf(before, e.name))
    ensures forall name :: name in after && name != FinalName(id) ==> name in before && after[name] == before[name]
    ensures TmpName(id) !in after
    ensures forall name :: name in before && IsTmp(name) && name != TmpName(id) ==> name in after
  {
    hide Size, FinalName, TmpName, IsTmp, Published, ShortestPrefix;
    var published := Published(before, id, hub[id], mtime);
    FinalIsNotOwnTmp(id);
    TmpNameIsTmp(id);
    PublishedIsFaithful(hub, before, id, mtime, id);
    PublishedOthers(before, id, hub[id], mtime);
    assert EntryOf(published, FinalName(id)) in order;
    forall name | name in before && !IsTmp(name)
      ensures EntryOf(before, name) in order
    {
      assert EntryOf(published, name) in order;
    }
    EvictionIsLru(published, after, cap, order, k);
  }

  lemma PublishedOthers(cache: Cache, id: string, contents: Files, mtime: Time)
    requires FinalName(id) !in cache
    ensures var published := Published(cache, id, contents, mtime);
      && FinalName(id) in published && published[FinalName(id)].mtime == mtime
      && forall name :: name != FinalName(id) ==>
           ((name in published <==> name in cache && name != TmpName(id))
            && (name in published ==> published[name] == cache[name]))
  {
    FinalIsNotOwnTmp(id);
  }

  // ---- every finished entry -----------------------------------------------------------------

  /** A finished directory carries the name of some repository of the hub. */
  ghost predicate Named(hub: Hub, cache: Cache) {
    forall name :: name in cache && !IsTmp(name) ==> IdOf(name) in hub && FinalName(IdOf(name)) == name
  }

  ghost predicate TearsOnlyTmp(step: CacheStep) {
    step.TornRemoval? ==> IsTmp(step.name)
  }

  lemma StepIsNamed(hub: Hub, cap: int, step: CacheStep, before: Cache, after: Cache)
    requires CacheNext(hub, cap, step, before, after) && Named(hub, before)
    requires FetchedId(step).Some? ==> Cacheable(FetchedId(step).value)
    ensures Named(hub, after)
  {
    hide IdOf, FinalName, IsTmp, Cacheable, Lists;
    if FetchedId(step).Some? {
      var id := FetchedId(step).value;
      CacheableNames(id, id);
      TmpNameIsTmp(id);
    }
  }

  lemma {:induction false} RunIsNamed(hub: Hub, cap: int, steps: seq<CacheStep>, states: seq<Cache>, i: nat)
    requires CacheRun(hub, cap, steps, states) && i <= |steps|
    requires forall step :: step in steps && FetchedId(step).Some? ==> Cacheable(FetchedId(step).value)
    ensures Named(hub, states[i])
  {
    if i > 0 {
      RunIsNamed(hub, cap, steps, states, i - 1);
      StepIsNamed(hub, cap, steps[i - 1], states[i - 1], states[i]);
    }
  }

  /** When only cacheable ids are used, every finished entry is at all times the complete repository its name
      stands for, after a crash at any point of download, rename and eviction outside the removal of one entry. */
  lemma EveryEntryIsComplete(hub: Hub, cap: int, steps: seq<CacheStep>, states: seq<Cache>, i: nat, name: string)
    requires CacheRun(hub, cap, steps, states) && i <= |steps|
    requires forall id :: id in hub ==> Cacheable(id)
    requires forall step :: step in steps ==>
      TearsOnlyTmp(step) && (FetchedId(step).Some? ==> Cacheable(FetchedId(step).value))
    requires name in states[i] && !IsTmp(name)
    ensures IdOf(name) in hub && FinalName(IdOf(name)) == name && states[i][name].files == hub[IdOf(name)]
  {
    hide CacheRun, IdOf, FinalName, IsTmp, Cacheable;
    RunIsNamed(hub, cap, steps, states, i);
    var id := IdOf(name);
    forall step | step in steps
      ensures Harmless(hub, step, id)
    {
      if FetchedId(step).Some? {
        CacheableNames(FetchedId(step).value, id);
        CacheableNames(id, FetchedId(step).value);
      }
    }
    RunIsFaithful(hub, cap, steps, states, id, i);
  }

  // ---- the two premises are needed ----------------------------------------------------------

  /** A removal cut short keeps the cache faithful to id exactly when it spared the files of id's finished entry. */
  lemma TornKeepsIff(hub: Hub, cap: int, before: Cache, after: Cache, id: string, name: string, kept: set<string>)
    requires CacheNext(hub, cap, TornRemoval(name, kept), before, after) && Faithful(hub, before, id)
    ensures Faithful(hub, after, id) <==> (name == FinalName(id) ==> before[name].files.Keys <= kept)
  {
  }

  /** Whatever the hub holds and however runs of fetches of these ids crash, id's entry is never anything else. */
  ghost predicate NeverMixed(ids: set<string>, id: string) {
    forall hub, cap, steps, states :: CacheRun(hub, cap, steps, states) && Fetching(steps, ids) ==>
      Serves(hub, states[|steps|], id)
  }

  ghost predicate Fetching(steps: seq<CacheStep>, ids: set<string>) {
    forall step :: step in steps ==> !step.TornRemoval? && (FetchedId(step).Some? ==> FetchedId(step).value in ids)
  }

  /** An id's entry is safe exactly when no other id in use shares a directory name with it. */
  lemma NeverMixedIff(ids: set<string>, id: string)
    requires id in ids
    ensures NeverMixed(ids, id) <==> forall other :: other in ids && other != id ==> Apart(other, id)
  {
    if forall other :: other in ids && other != id ==> Apart(other, id) {
      forall hub, cap, steps, states | CacheRun(hub, cap, steps, states) && Fetching(steps, ids)
        ensures Serves(hub, states[|steps|], id)
      {
        RunIsFaithful(hub, cap, steps, states, id, |steps|);
      }
    } else {
      var other :| other in ids && other != id && !Apart(other, id);
      MixedRun(ids, id, other);
    }
  }

  lemma MixedRun(ids: set<string>, id: string, other: string)
    requires id in ids && other in ids && other != id && !Apart(other, id)
    ensures !NeverMixed(ids, id)
  {
    hide FinalName, TmpName;
    var hub: Hub := map[id := map["mine" := ""], other := map["other" := ""]];
    var crashed := CrashBeforeEviction(other, 0);
    var published := Published(map[], other, hub[other], 0);
    if FinalName(other) == FinalName(id) {
      assert "other" in published[FinalName(id)].files;
      Mixed(ids, id, hub, [crashed], [map[], published]);
    } else if TmpName(other) == FinalName(id) {
      var downloaded := Downloaded(map[], other, Only(hub[other], {}), 0);
      assert "mine" !in downloaded[FinalName(id)].files;
      Mixed(ids, id, hub, [CrashInDownload(other, {}, 0)], [map[], downloaded]);
    } else {
      FinalIsNotOwnTmp(id);
      var merged := Published(published, id, hub[id], 0);
      assert "other" in merged[FinalName(id)].files;
      Mixed(ids, id, hub, [crashed, CrashBeforeEviction(id, 0)], [map[], published, merged]);
    }
  }

  lemma Mixed(ids: set<string>, id: string, hub: Hub, steps: seq<CacheStep>, states: seq<Cache>)
    requires CacheRun(hub, 0, steps, states) && Fetching(steps, ids) && !Serves(hub, states[|steps|], id)
    ensures !NeverMixed(ids, id)
  {
  }
}
