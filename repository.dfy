/** The in-memory process store and unit of work that the integration tests
    bind to IProcessRepository and IUnitOfWork. */
module Repository {
  import opened Primitives
  import opened Processes

  /** Every process is filed under its own id. */
  ghost predicate FiledById(store: map<Guid, Process>) {
    forall k :: k in store ==> store[k].id == k
  }

  /** True when `all` lists the values of `store`, one per key, in the order
      of `keys`. */
  ghost predicate ListsValues(store: map<Guid, Process>, keys: seq<Guid>, all: seq<Process>) {
    && |keys| == |all|
    && (forall i, j :: 0 <= i < j < |keys| ==> keys[i] != keys[j])
    && (forall k :: k in store <==> k in keys)
    && (forall i :: 0 <= i < |keys| ==> keys[i] in store && all[i] == store[keys[i]])
  }

  /** MockProcessRepository: a dictionary from id to process. */
  class MockProcessRepository {
    var processes: map<Guid, Process>

    ghost predicate Valid()
      reads this
    {
      FiledById(processes)
    }

    constructor ()
      ensures Valid() && processes == map[]
    {
      processes := map[];
    }

    /** GetByIdAsync: the process filed under `id`, or null. */
    method GetById(id: Guid) returns (p: Option<Process>)
      ensures p.Some? <==> id in processes
      ensures p.Some? ==> p.value == processes[id]
    {
      p := if id in processes then Some(processes[id]) else None;
    }

    /** Add: files `p` under its id, overwriting any process already there. */
    method Add(p: Process)
      requires Valid()
      modifies this
      ensures Valid()
      ensures processes == old(processes)[p.id := p]
    {
      processes := processes[p.id := p];
    }

    /** Update: the same dictionary write as Add. */
    method Update(p: Process)
      requires Valid()
      modifies this
      ensures Valid()
      ensures processes == old(processes)[p.id := p]
    {
      processes := processes[p.id := p];
    }

    /** Delete: removes the entry under `p`'s id, if any. */
    method Delete(p: Process)
      requires Valid()
      modifies this
      ensures Valid()
      ensures processes == old(processes) - {p.id}
    {
      processes := processes - {p.id};
    }

    /** GetAllAsync: every stored process exactly once. */
    method GetAll() returns (all: seq<Process>, ghost keys: seq<Guid>)
      ensures |all| == |processes|
      ensures forall p :: p in all <==> p in processes.Values
      ensures ListsValues(processes, keys, all)
    {
      var rest := processes.Keys;
      all, keys := [], [];
      while rest != {}
        invariant rest <= processes.Keys
        invariant |keys| == |all|
        invariant forall i, j :: 0 <= i < j < |keys| ==> keys[i] != keys[j]
        invariant forall k :: k in processes ==> (k in keys <==> k !in rest)
        invariant forall i :: 0 <= i < |keys| ==> keys[i] in processes && all[i] == processes[keys[i]]
        invariant |keys| + |rest| == |processes|
        decreases rest
      {
        var k :| k in rest;
        all, keys := all + [processes[k]], keys + [k];
        rest := rest - {k};
      }
      forall p | p in processes.Values ensures p in all {
        var k :| k in processes && processes[k] == p;
        var i :| 0 <= i < |keys| && keys[i] == k;
        assert all[i] == p;
      }
    }
  }

  /** MockUnitOfWork: SaveChangesAsync always reports one affected row. The
      ghost counter records how often it was called. */
  class MockUnitOfWork {
    ghost var saves: nat

    constructor ()
      ensures saves == 0
    {
      saves := 0;
    }

    method SaveChanges() returns (affected: int)
      modifies this
      ensures affected == 1
      ensures saves == old(saves) + 1
    {
      affected := 1;
      saves := saves + 1;
    }
  }
}
