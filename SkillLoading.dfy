/** The skill-data loader: a read-through cache of player-skill and mob-skill
    statistics keyed by skill id. A lookup consults the cache first and calls
    the loader of the concrete data source only on a miss; the loader puts
    what the source has for that id into the cache, and the lookup then
    returns whatever the cache holds (nothing when the source has no such
    skill). One loader is installed per process, chosen by the configured
    data-file type, and the first installation wins. */
module SkillLoading {
  import opened LittleEndian
  import opened Wrappers

  /** The statistics of one player skill and of one mob skill. Their fields
      are filled by the concrete loaders and are not part of this model, so
      they are carried as an uninterpreted payload. */
  datatype SkillStats = SkillStats(payload: seq<int>)
  datatype MobSkillStats = MobSkillStats(payload: seq<int>)

  /** The configured kind of data source. */
  datatype DataFileType = KVJ | MCDB

  /** The concrete loader a data-file type selects: the KVJ loader reads the
      files under a path, the MCDB loader a database. */
  datatype LoaderKind = Kvj(wzPath: string) | Mcdb

  function KindFor(wzType: DataFileType, wzPath: string): (k: LoaderKind)
    ensures k.Kvj? <==> wzType == KVJ
    ensures k.Kvj? ==> k.wzPath == wzPath
  {
    match wzType
    case KVJ => Kvj(wzPath)
    case MCDB => Mcdb
  }

  /** What the data source itself answers for an id, with no cache in
      between. */
  function Lookup<V>(store: map<int32, V>, id: int32): (r: Option<V>)
    ensures r.Some? <==> id in store
    ensures r.Some? ==> r.value == store[id]
  {
    if id in store then Some(store[id]) else None
  }

  /** Every cached entry is the source's entry for that id. */
  ghost predicate Coherent<V>(cache: map<int32, V>, store: map<int32, V>) {
    forall k :: k in cache ==> k in store && cache[k] == store[k]
  }

  /** One cached lookup: the answer and the cache afterwards. A hit answers
      from the cache and leaves it alone; a miss loads the id, which adds it
      when the source has it and adds nothing otherwise. */
  function ReadThrough<V>(cache: map<int32, V>, store: map<int32, V>, id: int32): (r: (Option<V>, map<int32, V>))
    ensures r.0.Some? <==> id in r.1
    ensures r.0.Some? ==> r.0.value == r.1[id]
  {
    if id in cache then (Some(cache[id]), cache)
    else if id in store then (Some(store[id]), cache[id := store[id]])
    else (None, cache)
  }

  /** The cache is transparent: while it only holds the source's own entries,
      a cached lookup answers exactly what the source does, and the cache
      stays coherent. */
  lemma ReadThroughTransparent<V>(cache: map<int32, V>, store: map<int32, V>, id: int32)
    requires Coherent(cache, store)
    ensures ReadThrough(cache, store, id).0 == Lookup(store, id)
    ensures Coherent(ReadThrough(cache, store, id).1, store)
  {
  }

  /** A lookup changes at most the requested id's entry, and never an entry
      that was already cached. */
  lemma ReadThroughTouchesOnlyId<V>(cache: map<int32, V>, store: map<int32, V>, id: int32)
    ensures var c := ReadThrough(cache, store, id).1;
            && c.Keys <= cache.Keys + {id}
            && forall k :: k in cache ==> k in c && c[k] == cache[k]
  {
  }

  /** Memoisation: repeating a lookup answers the same and is a hit, so it
      leaves the cache as the first lookup left it. */
  lemma ReadThroughIdempotent<V>(cache: map<int32, V>, store: map<int32, V>, id: int32)
    ensures var (a, c) := ReadThrough(cache, store, id);
            ReadThrough(c, store, id) == (a, c)
  {
  }

  /** The answers of a sequence of lookups, threading the cache through. */
  function ReadAll<V>(cache: map<int32, V>, store: map<int32, V>, ids: seq<int32>): (r: seq<Option<V>>)
    ensures |r| == |ids|
    decreases |ids|
  {
    if ids == [] then []
    else
      var (a, c) := ReadThrough(cache, store, ids[0]);
      [a] + ReadAll(c, store, ids[1..])
  }

  /** Starting from an empty (or any coherent) cache, every answer of every
      sequence of lookups is the source's answer for that id. */
  lemma {:induction false} ReadAllTransparent<V>(cache: map<int32, V>, store: map<int32, V>, ids: seq<int32>)
    requires Coherent(cache, store)
    ensures forall i :: 0 <= i < |ids| ==> ReadAll(cache, store, ids)[i] == Lookup(store, ids[i])
    decreases |ids|
  {
    if ids != [] {
      var (a, c) := ReadThrough(cache, store, ids[0]);
      ReadThroughTransparent(cache, store, ids[0]);
      ReadAllTransparent(c, store, ids[1..]);
      var rest := ReadAll(c, store, ids[1..]);
      assert ReadAll(cache, store, ids) == [a] + rest;
      forall i | 0 <= i < |ids|
        ensures ReadAll(cache, store, ids)[i] == Lookup(store, ids[i])
      {
        if i > 0 {
          assert ids[i] == ids[1..][i - 1];
        }
      }
    }
  }

  /** A loader over a data source given at construction. The two caches are
      independent maps; `playerLoads` and `mobLoads` record the calls made to
      the source's loaders. */
  class SkillDataLoader {
    const kind: LoaderKind
    const playerSource: map<int32, SkillStats>
    const mobSource: map<int32, MobSkillStats>
    var skillStats: map<int32, SkillStats>
    var mobSkillStats: map<int32, MobSkillStats>
    var playerLoads: seq<int32>
    var mobLoads: seq<int32>

    /** Both caches hold only what the source has. */
    ghost predicate Valid()
      reads this
    {
      Coherent(skillStats, playerSource) && Coherent(mobSkillStats, mobSource)
    }

    /** A new loader starts with both caches empty. */
    constructor(kind: LoaderKind, playerSource: map<int32, SkillStats>, mobSource: map<int32, MobSkillStats>)
      ensures this.kind == kind
      ensures this.playerSource == playerSource && this.mobSource == mobSource
      ensures skillStats == map[] && mobSkillStats == map[]
      ensures playerLoads == [] && mobLoads == []
      ensures Valid()
    {
      this.kind := kind;
      this.playerSource := playerSource;
      this.mobSource := mobSource;
      skillStats := map[];
      mobSkillStats := map[];
      playerLoads := [];
      mobLoads := [];
    }

    /** loadPlayerSkill: caches the source's entry for the id, if any. */
    method LoadPlayerSkill(skillId: int32)
      modifies this`skillStats, this`playerLoads
      ensures skillStats == if skillId in playerSource
                            then old(skillStats)[skillId := playerSource[skillId]]
                            else old(skillStats)
      ensures playerLoads == old(playerLoads) + [skillId]
    {
      if skillId in playerSource {
        skillStats := skillStats[skillId := playerSource[skillId]];
      }
      playerLoads := playerLoads + [skillId];
    }

    /** loadMobSkill: caches the source's entry for the id, if any. */
    method LoadMobSkill(skillId: int32)
      modifies this`mobSkillStats, this`mobLoads
      ensures mobSkillStats == if skillId in mobSource
                               then old(mobSkillStats)[skillId := mobSource[skillId]]
                               else old(mobSkillStats)
      ensures mobLoads == old(mobLoads) + [skillId]
    {
      if skillId in mobSource {
        mobSkillStats := mobSkillStats[skillId := mobSource[skillId]];
      }
      mobLoads := mobLoads + [skillId];
    }

    /** getSkill: loads on a miss only, then answers from the cache; the mob
        cache is not touched. */
    method GetSkill(skillId: int32) returns (r: Option<SkillStats>)
      requires Valid()
      modifies this`skillStats, this`playerLoads
      ensures (r, skillStats) == ReadThrough(old(skillStats), playerSource, skillId)
      ensures playerLoads == if skillId in old(skillStats) then old(playerLoads)
                             else old(playerLoads) + [skillId]
      ensures r == Lookup(playerSource, skillId)
      ensures Valid()
    {
      if skillId !in skillStats {
        LoadPlayerSkill(skillId);
      }
      r := if skillId in skillStats then Some(skillStats[skillId]) else None;
    }

    /** getMobSkill: loads on a miss only, then answers from the cache; the
        player cache is not touched. */
    method GetMobSkill(skillId: int32) returns (r: Option<MobSkillStats>)
      requires Valid()
      modifies this`mobSkillStats, this`mobLoads
      ensures (r, mobSkillStats) == ReadThrough(old(mobSkillStats), mobSource, skillId)
      ensures mobLoads == if skillId in old(mobSkillStats) then old(mobLoads)
                          else old(mobLoads) + [skillId]
      ensures r == Lookup(mobSource, skillId)
      ensures Valid()
    {
      if skillId !in mobSkillStats {
        LoadMobSkill(skillId);
      }
      r := if skillId in mobSkillStats then Some(mobSkillStats[skillId]) else None;
    }
  }

  /** The process-wide loader slot (the static `instance`). */
  class LoaderSlot {
    var instance: SkillDataLoader?

    constructor()
      ensures instance == null
    {
      instance := null;
    }

    /** setInstance: installs a new loader of the kind the type selects, but
        only while no loader is installed. */
    method SetInstance(wzType: DataFileType, wzPath: string,
                       playerSource: map<int32, SkillStats>, mobSource: map<int32, MobSkillStats>)
      modifies this
      ensures old(instance) != null ==> instance == old(instance)
      ensures old(instance) == null ==>
                && instance != null && fresh(instance)
                && instance.kind == KindFor(wzType, wzPath)
                && instance.playerSource == playerSource && instance.mobSource == mobSource
                && instance.skillStats == map[] && instance.mobSkillStats == map[]
                && instance.Valid()
    {
      if instance == null {
        instance := new SkillDataLoader(KindFor(wzType, wzPath), playerSource, mobSource);
      }
    }

    /** getInstance: the installed loader, null before the first
        setInstance. */
    method GetInstance() returns (r: SkillDataLoader?)
      ensures r == instance
    {
      r := instance;
    }
  }

  /** Whatever types later installations ask for, the loader that answers is
      the one the first setInstance chose. */
  method FirstInstallWins(firstType: DataFileType, laterType: DataFileType, wzPath: string, laterPath: string)
    returns (kind: LoaderKind)
    ensures kind == KindFor(firstType, wzPath)
  {
    var slot := new LoaderSlot();
    slot.SetInstance(firstType, wzPath, map[], map[]);
    slot.SetInstance(laterType, laterPath, map[], map[]);
    var loader := slot.GetInstance();
    kind := loader.kind;
  }

  /** A skill looked up twice is loaded once; a missing skill is loaded on
      every lookup, because a miss caches nothing. */
  method LoadsPerLookup(playerSource: map<int32, SkillStats>, skillId: int32)
    returns (answer: Option<SkillStats>, loads: nat)
    ensures answer == Lookup(playerSource, skillId)
    ensures loads == if skillId in playerSource then 1 else 2
  {
    var loader := new SkillDataLoader(Mcdb, playerSource, map[]);
    var first := loader.GetSkill(skillId);
    answer := loader.GetSkill(skillId);
    loads := |loader.playerLoads|;
  }
}
