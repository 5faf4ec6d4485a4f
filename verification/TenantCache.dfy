/**
 The critical sections of the cached tenant store. Every cache call may fail; a failed call leaves the
 state before it or after it, and a failed Invalidate leaves any part of the entries.
 */
module TenantCache {
  import opened Prelude

  type TenantId = string

  /** Tenant metadata; its contents do not matter here. */
  type Record = string

  /** A cache behind a pointer is known by its type and address; any other value only to the wrapper holding it. */
  datatype CacheId = Pointer(typ: nat, address: nat) | Value(wrapper: nat)

  /** One of the shared stripes, or a coordinator of a single wrapper. */
  datatype CoordinatorId = Stripe(index: nat) | Own(wrapper: nat)

  const STRIPES: nat := 64

  /** `sharedCacheCoordinator`: the address chooses the stripe. */
  function CoordinatorOf(cache: CacheId): CoordinatorId {
    match cache
    case Pointer(_, address) => Stripe(address / 8 % STRIPES)
    case Value(wrapper) => Own(wrapper)
  }

  datatype Fault = Works | FailsBefore | FailsAfter

  datatype Clearing = Clears | FailsKeeping(kept: set<TenantId>)

  /** How the cache calls of one critical section turn out. */
  datatype Faults = Faults(getFails: bool, onSet: Fault, onDelete: Fault, onInvalidate: Clearing)

  // ----- what one section sees and leaves: the shared generation, and one cache with its poison mark -----

  datatype Shared = Shared(generation: nat, poisoned: bool, entries: map<TenantId, Record>)

  function AfterSet(entries: map<TenantId, Record>, id: TenantId, record: Record, fault: Fault): map<TenantId, Record> {
    if fault.FailsBefore? then entries else entries[id := record]
  }

  function AfterDelete(entries: map<TenantId, Record>, id: TenantId, fault: Fault): map<TenantId, Record> {
    if fault.FailsBefore? then entries else entries - {id}
  }

  function AfterInvalidate(entries: map<TenantId, Record>, clearing: Clearing): map<TenantId, Record> {
    match clearing
    case Clears => map[]
    case FailsKeeping(kept) => map id | id in entries && id in kept :: entries[id]
  }

  function Poisoned(s: Shared): Shared {
    if s.poisoned then s else s.(poisoned := true, generation := s.generation + 1)
  }

  function Deleted(s: Shared, id: TenantId, fault: Fault): Shared {
    var next := s.(entries := AfterDelete(s.entries, id, fault));
    if fault.Works? then next else Poisoned(next)
  }

  function Recovered(s: Shared, clearing: Clearing): Shared {
    if !s.poisoned then s
    else if clearing.Clears? then Shared(s.generation + 1, false, map[])
    else s.(entries := AfterInvalidate(s.entries, clearing))
  }

  datatype Lookup = Lookup(shared: Shared, hit: Option<Record>, generation: nat)

  function LookedUp(s: Shared, id: TenantId, faults: Faults): Lookup {
    var next := Recovered(s, faults.onInvalidate);
    var hit := if next.poisoned || faults.getFails || id !in next.entries then None else Some(next.entries[id]);
    Lookup(next, hit, next.generation)
  }

  function Filled(s: Shared, id: TenantId, record: Record, generation: nat, faults: Faults): Shared {
    if generation != s.generation || s.poisoned then s
    else
      var next := s.(entries := AfterSet(s.entries, id, record, faults.onSet));
      if faults.onSet.Works? then next else Deleted(next, id, faults.onDelete)
  }

  function Invalidated(s: Shared, id: TenantId, faults: Faults): Shared {
    var next := s.(generation := s.generation + 1);
    if !next.poisoned then Deleted(next, id, faults.onDelete)
    else next.(poisoned := !faults.onInvalidate.Clears?, entries := AfterInvalidate(next.entries, faults.onInvalidate))
  }

  // ----- the objects -----

  class Cache {
    var entries: map<TenantId, Record>

    constructor ()
      ensures entries == map[]
    {
      entries := map[];
    }

    method Set(id: TenantId, record: Record, fault: Fault) returns (ok: bool)
      modifies this
      ensures ok == fault.Works? && entries == AfterSet(old(entries), id, record, fault)
    {
      if !fault.FailsBefore? {
        entries := entries[id := record];
      }
      return fault.Works?;
    }

    method Delete(id: TenantId, fault: Fault) returns (ok: bool)
      modifies this
      ensures ok == fault.Works? && entries == AfterDelete(old(entries), id, fault)
    {
      if !fault.FailsBefore? {
        entries := entries - {id};
      }
      return fault.Works?;
    }

    method Invalidate(clearing: Clearing) returns (ok: bool)
      modifies this
      ensures ok == clearing.Clears? && entries == AfterInvalidate(old(entries), clearing)
    {
      match clearing {
        case Clears => entries := map[];
        case FailsKeeping(kept) => entries := map id | id in entries && id in kept :: entries[id];
      }
      return clearing.Clears?;
    }
  }

  /** Shared by the wrappers of all caches that fall on one stripe. */
  class Coordinator {
    var generation: nat
    var poisoned: set<CacheId>

    constructor ()
      ensures generation == 0 && poisoned == {}
    {
      generation, poisoned := 0, {};
    }
  }

  class CachedStore {
    const coord: Coordinator
    const cache: Cache
    const cacheID: CacheId
    /** Without a stable identity the cache is bypassed. */
    const cacheReads: bool

    constructor (coord: Coordinator, cache: Cache, cacheID: CacheId)
      ensures this.coord == coord && this.cache == cache && this.cacheID == cacheID && cacheReads == cacheID.Pointer?
    {
      this.coord, this.cache, this.cacheID, cacheReads := coord, cache, cacheID, cacheID.Pointer?;
    }

    function State(): Shared
      reads coord, cache
    {
      Shared(coord.generation, cacheID in coord.poisoned, cache.entries)
    }

    /** Other caches on the stripe keep their poison marks. */
    twostate predicate OthersKept()
      reads coord
    {
      coord.poisoned - {cacheID} == old(coord.poisoned) - {cacheID}
    }

    method PoisonLocked()
      modifies coord
      ensures State() == Poisoned(old(State())) && OthersKept()
    {
      if cacheID in coord.poisoned {
        return;
      }
      coord.poisoned := coord.poisoned + {cacheID};
      coord.generation := coord.generation + 1;
    }

    method RecoverPoisonLocked(clearing: Clearing) returns (ok: bool)
      modifies coord, cache
      ensures State() == Recovered(old(State()), clearing) && ok == !State().poisoned && OthersKept()
    {
      if cacheID !in coord.poisoned {
        return true;
      }
      var cleared := cache.Invalidate(clearing);
      if !cleared {
        return false;
      }
      coord.poisoned := coord.poisoned - {cacheID};
      coord.generation := coord.generation + 1;
      return true;
    }

    method LookupCache(id: TenantId, faults: Faults) returns (hit: Option<Record>, generation: nat)
      modifies coord, cache
      ensures LookedUp(old(State()), id, faults) == Lookup(State(), hit, generation) && OthersKept()
    {
      var usable := RecoverPoisonLocked(faults.onInvalidate);
      if !usable {
        return None, coord.generation;
      }
      generation := coord.generation;
      if faults.getFails || id !in cache.entries {
        return None, generation;
      }
      return Some(cache.entries[id]), generation;
    }

    method FillIfUnchanged(id: TenantId, record: Record, generation: nat, faults: Faults)
      modifies coord, cache
      ensures State() == if cacheReads then Filled(old(State()), id, record, generation, faults) else old(State())
      ensures OthersKept()
    {
      if !cacheReads {
        return;
      }
      if generation != coord.generation || cacheID in coord.poisoned {
        return;
      }
      var stored := cache.Set(id, record, faults.onSet);
      if stored {
        return;
      }
      var deleted := cache.Delete(id, faults.onDelete);
      if !deleted {
        PoisonLocked();
      }
    }

    method Invalidate(id: TenantId, faults: Faults) returns (generation: nat)
      modifies coord, cache
      ensures State() == if cacheReads then Invalidated(old(State()), id, faults) else old(State())
      ensures generation == (if cacheReads then State().generation else 0) && OthersKept()
    {
      if !cacheReads {
        return 0;
      }
      coord.generation := coord.generation + 1;
      if cacheID in coord.poisoned {
        var cleared := cache.Invalidate(faults.onInvalidate);
        if cleared {
          coord.poisoned := coord.poisoned - {cacheID};
        }
        return coord.generation;
      }
      var deleted := cache.Delete(id, faults.onDelete);
      if !deleted {
        PoisonLocked();
      }
      return coord.generation;
    }
  }
}
