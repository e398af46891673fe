/** Sums of device memory: what the running services use, and what stopping some of them frees. */
module HubLoad {
  import opened Wrappers
  import opened HubTypes
  import opened HubStore
  import opened HubScheduler
  import opened Seqs

  type Services = map<Name, ServiceRuntime>

  // The memory of the listed services that do not run, summed over the configured names.
  function Freed(names: seq<Name>, list: seq<Name>, running: set<Name>, services: Services): int {
    if names == [] then 0
    else (if names[0] in list && names[0] !in running then Memory(services, names[0]) else 0)
         + Freed(names[1..], list, running, services)
  }

  // Configured memory is positive.
  ghost predicate Sized(services: Services) {
    forall n :: n in services ==> services[n].def.memory > 0
  }

  ghost predicate SameSizes(services: Services, r: Services) {
    services.Keys == r.Keys && forall n :: n in services ==> r[n].def == services[n].def
  }

  lemma {:induction false} SameLoadSizes(names: seq<Name>, running: set<Name>, services: Services, r: Services)
    requires SameSizes(services, r)
    ensures Load(names, running, r) == Load(names, running, services)
  {
    if names != [] {
      SameLoadSizes(names[1..], running, services, r);
    }
  }

  lemma {:induction false} SameFreedSizes(names: seq<Name>, list: seq<Name>, running: set<Name>, services: Services, r: Services)
    requires SameSizes(services, r)
    ensures Freed(names, list, running, r) == Freed(names, list, running, services)
  {
    if names != [] {
      SameFreedSizes(names[1..], list, running, services, r);
    }
  }

  lemma {:induction false} LoadShrinks(names: seq<Name>, running: set<Name>, fewer: set<Name>, services: Services)
    requires Sized(services) && fewer <= running
    ensures Load(names, fewer, services) <= Load(names, running, services)
  {
    if names != [] {
      LoadShrinks(names[1..], running, fewer, services);
    }
  }

  // A name that is not among them adds nothing; one that is among them once adds its memory.
  lemma {:induction false} LoadWithout(names: seq<Name>, running: set<Name>, n: Name, services: Services)
    requires n !in names
    ensures Load(names, running + {n}, services) == Load(names, running, services)
  {
    if names != [] {
      assert names[0] in names && names == [names[0]] + names[1..];
      LoadWithout(names[1..], running, n, services);
    }
  }

  // One service more costs at most its own memory.
  lemma {:induction false} LoadGrows(names: seq<Name>, running: set<Name>, n: Name, services: Services)
    requires NoDup(names) && Sized(services)
    ensures Load(names, running + {n}, services) <= Load(names, running, services) + Memory(services, n)
  {
    if names != [] {
      if names[0] == n {
        assert n !in names[1..];
        LoadWithout(names[1..], running, n, services);
      } else {
        LoadGrows(names[1..], running, n, services);
      }
    }
  }

  lemma {:induction false} LoadExact(names: seq<Name>, running: set<Name>, n: Name, services: Services)
    requires NoDup(names) && n in names && n !in running
    ensures Load(names, running + {n}, services) == Load(names, running, services) + Memory(services, n)
  {
    if names[0] == n {
      assert n !in names[1..];
      LoadWithout(names[1..], running, n, services);
    } else {
      LoadExact(names[1..], running, n, services);
    }
  }

  // What others stop frees at least as much as it adds to the listed services' share.
  lemma {:induction false} FreedGrows(names: seq<Name>, list: seq<Name>, running: set<Name>, fewer: set<Name>, services: Services)
    requires Sized(services) && fewer <= running
    ensures Freed(names, list, fewer, services) - Freed(names, list, running, services)
            <= Load(names, running, services) - Load(names, fewer, services)
  {
    if names != [] {
      FreedGrows(names[1..], list, running, fewer, services);
    }
  }

  lemma {:induction false} FreedAbsent(names: seq<Name>, list: seq<Name>, running: set<Name>, services: Services)
    requires list != [] && list[0] !in names
    ensures Freed(names, list, running, services) == Freed(names, list[1..], running, services)
  {
    if names != [] {
      assert names[0] in names && names == [names[0]] + names[1..];
      assert list == [list[0]] + list[1..];
      FreedAbsent(names[1..], list, running, services);
    }
  }

  // The first of the listed services, once stopped, accounts for its memory.
  lemma {:induction false} FreedFirst(names: seq<Name>, list: seq<Name>, running: set<Name>, services: Services)
    requires NoDup(names) && NoDup(list) && list != [] && list[0] in names && list[0] !in running
    ensures Freed(names, list, running, services) == Memory(services, list[0]) + Freed(names, list[1..], running, services)
  {
    assert list == [list[0]] + list[1..];
    if names[0] == list[0] {
      assert list[0] !in names[1..];
      assert list[0] !in list[1..];
      FreedAbsent(names[1..], list, running, services);
    } else {
      FreedFirst(names[1..], list, running, services);
    }
  }

  // Nothing is freed as long as all of them run.
  lemma {:induction false} NothingFreed(names: seq<Name>, list: seq<Name>, running: set<Name>, services: Services)
    requires forall n :: n in list ==> n in running
    ensures Freed(names, list, running, services) == 0
  {
    if names != [] {
      NothingFreed(names[1..], list, running, services);
    }
  }

  lemma {:induction false} FreedNonNegative(names: seq<Name>, list: seq<Name>, running: set<Name>, services: Services)
    requires Sized(services)
    ensures Freed(names, list, running, services) >= 0
  {
    if names != [] {
      FreedNonNegative(names[1..], list, running, services);
    }
  }
}
