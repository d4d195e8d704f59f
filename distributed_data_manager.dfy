/** The rank-local index table of a distributed multibody system
    (ChDistributedDataManager): construction and global-to-local lookup. */
module DistributedData {
  import opened Common

  /** The rank-local body storage the owning system exposes (opaque here). */
  class ParallelDataManager {
    constructor () { }
  }

  /** The owning distributed system; only its `data_manager` member is observed. */
  class SystemDistributed {
    var dataManager: ParallelDataManager

    constructor (dm: ParallelDataManager)
      ensures dataManager == dm
    {
      dataManager := dm;
    }
  }

  /** The value returned by GetLocalIndex when a global id is not local. */
  const NotFound: int := -1

  class DistributedDataManager {
    var mySys: SystemDistributed
    var dataManager: ParallelDataManager
    /** Maps a body's global id to its slot in this rank's storage. */
    var gidToLocalid: map<uint32, int>
    /** Lowest slot that may be free; only initialised by the constructor. */
    var firstEmpty: int

    /** Stored local ids are slots, hence non-negative, and the cursor is a slot index. */
    ghost predicate Valid()
      reads this
    {
      && firstEmpty >= 0
      && forall gid :: gid in gidToLocalid ==> gidToLocalid[gid] >= 0
    }

    /** Binds the table to its owning system and that system's storage; the table
        starts empty with the cursor at slot 0. */
    constructor (mySys: SystemDistributed)
      ensures this.mySys == mySys
      ensures dataManager == mySys.dataManager
      ensures firstEmpty == 0
      ensures gidToLocalid == map[]
      ensures Valid()
    {
      this.mySys := mySys;
      dataManager := mySys.dataManager;
      firstEmpty := 0;
      gidToLocalid := map[];
    }

    /** The slot of body `gid`, or NotFound when the body is not held by this rank.
        A function: it reads the table and changes nothing. */
    function GetLocalIndex(gid: uint32): (r: int)
      reads this
      ensures gid in gidToLocalid ==> r == gidToLocalid[gid]
      ensures gid !in gidToLocalid ==> r == NotFound
    {
      if gid in gidToLocalid then gidToLocalid[gid] else NotFound
    }
  }

  /** Under the table invariant the sentinel is unambiguous: the lookup misses
      exactly when the id is not a key, and a hit is a real slot. */
  lemma SentinelMeansAbsent(d: DistributedDataManager, gid: uint32)
    requires d.Valid()
    ensures d.GetLocalIndex(gid) == NotFound <==> gid !in d.gidToLocalid
    ensures gid in d.gidToLocalid ==> d.GetLocalIndex(gid) >= 0
    ensures d.GetLocalIndex(gid) >= NotFound
  {
  }

  /** Without the invariant the sentinel is ambiguous: a stored -1 is
      indistinguishable from a miss. */
  lemma StoredMinusOneLooksAbsent(d: DistributedDataManager, gid: uint32)
    requires d.gidToLocalid == map[gid := -1]
    ensures d.GetLocalIndex(gid) == NotFound && gid in d.gidToLocalid
    ensures !d.Valid()
  {
  }

  /** A freshly constructed table misses on every global id. */
  lemma EmptyTableMissesEverywhere(d: DistributedDataManager)
    requires d.gidToLocalid == map[]
    ensures forall gid: uint32 :: d.GetLocalIndex(gid) == NotFound
  {
  }

  /** Client view: constructing a table and querying it. */
  method NewTableMisses(sys: SystemDistributed, gid: uint32) returns (r: int)
    ensures r == NotFound
  {
    var d := new DistributedDataManager(sys);
    r := d.GetLocalIndex(gid);
  }
}
