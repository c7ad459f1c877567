// The updater's staging area: one directory per download or broker attempt
// (backend/app/updater.py:106-180).
module Staging {
  import opened Common

  const STAGE_KEEP := 4

  datatype Artifact = Installer | Archive | PartialArchive

  /** A stage directory: its modification time and the downloaded artifacts still in it. */
  datatype Stage = Stage(modified: int, artifacts: set<Artifact>)

  type Disk = map<nat, Stage>

  predicate HasInstaller(disk: Disk, stage: nat) {
    stage in disk && Installer in disk[stage].artifacts
  }

  /** What a best-effort purge may leave behind: protected stages untouched, no directory
      removed, no artifact created. */
  ghost predicate Purged(before: Disk, protected: set<nat>, after: Disk) {
    && after.Keys == before.Keys
    && forall s | s in before ::
         && after[s].artifacts <= before[s].artifacts
         && (s in protected ==> after[s] == before[s])
  }

  function Unprotected(disk: Disk, protected: set<nat>): set<nat> {
    disk.Keys - protected
  }

  /** The order prune sorts by: modification time, then name. */
  predicate Later(disk: Disk, a: nat, b: nat)
    requires a in disk && b in disk
  {
    disk[a].modified > disk[b].modified || (disk[a].modified == disk[b].modified && a > b)
  }

  ghost function LaterStages(disk: Disk, protected: set<nat>, stage: nat): set<nat>
    requires stage in disk
  {
    set t | t in Unprotected(disk, protected) && Later(disk, t, stage)
  }

  /** The stages prune deletes: unprotected, with at least `keep` newer unprotected ones. */
  ghost function Excess(disk: Disk, protected: set<nat>, keep: nat): set<nat> {
    set s | s in Unprotected(disk, protected) && |LaterStages(disk, protected, s)| >= keep
  }

  /** What a best-effort prune may leave behind: only excess stages lose anything. */
  ghost predicate Pruned(before: Disk, protected: set<nat>, keep: nat, after: Disk) {
    && after.Keys <= before.Keys
    && before.Keys - after.Keys <= Excess(before, protected, keep)
    && forall s | s in after ::
         && after[s].artifacts <= before[s].artifacts
         && (s !in Excess(before, protected, keep) ==> after[s] == before[s])
  }

  /** `order` is the sorted candidate list prune works through. */
  ghost predicate Candidates(disk: Disk, protected: set<nat>, order: seq<nat>) {
    && Elements(order) == Unprotected(disk, protected)
    && forall i, j | 0 <= i < j < |order| :: order[i] in disk && order[j] in disk && Later(disk, order[j], order[i])
  }

  lemma CandidateRank(disk: Disk, protected: set<nat>, order: seq<nat>, k: nat)
    requires Candidates(disk, protected, order) && k < |order|
    ensures order[k] in disk
    ensures |LaterStages(disk, protected, order[k])| == |order| - 1 - k
  {
    var rest := order[k + 1..];
    assert order[k] in Elements(order);
    forall t | t in LaterStages(disk, protected, order[k])
      ensures t in rest
    {
      assert t in Elements(order);
      var i :| 0 <= i < |order| && order[i] == t;
      assert i > k;
      assert rest[i - k - 1] == t;
    }
    forall t | t in rest
      ensures t in LaterStages(disk, protected, order[k])
    {
      var i :| 0 <= i < |rest| && rest[i] == t;
      assert order[k + 1 + i] == t && t in Elements(order);
    }
    assert LaterStages(disk, protected, order[k]) == Elements(rest);
    DistinctSize(rest);
  }

  lemma CandidateInExcess(disk: Disk, protected: set<nat>, keep: nat, order: seq<nat>, k: nat)
    requires Candidates(disk, protected, order) && k < |order|
    ensures order[k] in Excess(disk, protected, keep) <==> k < |order| - keep
  {
    CandidateRank(disk, protected, order, k);
    assert order[k] in Elements(order);
  }

  lemma IndexOf<T>(s: seq<T>, x: T) returns (i: nat)
    requires x in Elements(s)
    ensures i < |s| && s[i] == x
  {
    i :| 0 <= i < |s| && s[i] == x;
  }

  /** Prune deletes exactly the oldest candidates beyond the newest `keep`. */
  lemma ExcessIsOldest(disk: Disk, protected: set<nat>, keep: nat, order: seq<nat>)
    requires Candidates(disk, protected, order)
    ensures Excess(disk, protected, keep) == Elements(order[..Max(0, |order| - keep)])
  {
    var oldest := order[..Max(0, |order| - keep)];
    forall s
      ensures s in Excess(disk, protected, keep) <==> s in oldest
    {
      if s in Excess(disk, protected, keep) {
        var i := IndexOf(order, s);
        CandidateInExcess(disk, protected, keep, order, i);
        assert oldest[i] == s;
      } else if s in oldest {
        var i := IndexOf(oldest, s);
        CandidateInExcess(disk, protected, keep, order, i);
      }
    }
  }

  /** Every survivor of a prune is newer than every deleted stage. */
  lemma SurvivorsAreNewer(disk: Disk, protected: set<nat>, keep: nat, order: seq<nat>, s: nat, t: nat)
    requires Candidates(disk, protected, order)
    requires s in Excess(disk, protected, keep)
    requires t in Unprotected(disk, protected) - Excess(disk, protected, keep)
    ensures Later(disk, t, s)
  {
    var i := IndexOf(order, s);
    CandidateInExcess(disk, protected, keep, order, i);
    var j := IndexOf(order, t);
    CandidateInExcess(disk, protected, keep, order, j);
  }

  /** A prune that meets no locked directory leaves `keep` unprotected stages, or all of them. */
  lemma SurvivorCount(disk: Disk, protected: set<nat>, keep: nat, order: seq<nat>)
    requires Candidates(disk, protected, order)
    ensures |Unprotected(disk, protected) - Excess(disk, protected, keep)| == Min(keep, |Unprotected(disk, protected)|)
  {
    var oldest := order[..Max(0, |order| - keep)];
    ExcessIsOldest(disk, protected, keep, order);
    CandidatesDistinct(disk, protected, order);
    DistinctSize(order);
    DistinctSize(oldest);
    assert Excess(disk, protected, keep) <= Unprotected(disk, protected);
  }

  lemma CandidatesDistinct(disk: Disk, protected: set<nat>, order: seq<nat>)
    requires Candidates(disk, protected, order)
    ensures Distinct(order)
  {
  }

  class StagingArea {
    var disk: Disk

    constructor ()
      ensures disk == map[]
    {
      disk := map[];
    }

    /** `purge_stale_artifacts`: unlink raises OSError for the artifacts in `stuck`, and the
        rest of that stage is then skipped. */
    method PurgeStaleArtifacts(protected: set<nat>, stuck: set<(nat, Artifact)>)
      modifies this
      ensures Purged(old(disk), protected, disk)
      ensures stuck == {} ==> forall s | s in disk && s !in protected :: disk[s].artifacts == {}
    {
      var stages := disk.Keys;
      ghost var before := disk;
      while stages != {}
        invariant stages <= before.Keys
        invariant Purged(before, protected, disk)
        invariant stuck == {} ==> forall s | s in disk && s !in protected && s !in stages :: disk[s].artifacts == {}
        decreases |stages|
      {
        var stage :| stage in stages;
        stages := stages - {stage};
        if stage !in protected {
          PurgeStage(stage, stuck);
        }
      }
    }

    method PurgeStage(stage: nat, stuck: set<(nat, Artifact)>)
      requires stage in disk
      modifies this
      ensures disk.Keys == old(disk).Keys
      ensures forall s | s in disk && s != stage :: disk[s] == old(disk)[s]
      ensures disk[stage].artifacts <= old(disk)[stage].artifacts
      ensures stuck == {} ==> disk[stage].artifacts == {}
    {
      var items := disk[stage].artifacts;
      while items != {}
        invariant disk.Keys == old(disk).Keys
        invariant forall s | s in disk && s != stage :: disk[s] == old(disk)[s]
        invariant items <= disk[stage].artifacts <= old(disk)[stage].artifacts
        invariant items == disk[stage].artifacts
        decreases |items|
      {
        var item :| item in items;
        if (stage, item) in stuck {
          return;
        }
        items := items - {item};
        disk := disk[stage := disk[stage].(artifacts := items)];
      }
    }

    /** `prune_stage_directories`: `order` is the result of sorting the candidates; rmtree
        raises OSError for the stages in `stuck`. */
    method PruneStageDirectories(protected: set<nat>, keep: nat, order: seq<nat>, stuck: set<nat>)
      requires Candidates(disk, protected, order)
      modifies this
      ensures Pruned(old(disk), protected, keep, disk)
      ensures disk == old(disk) - (Excess(old(disk), protected, keep) - stuck)
    {
      var excess := Max(0, |order| - keep);
      ExcessIsOldest(disk, protected, keep, order);
      for k := 0 to excess
        invariant disk == old(disk) - (Elements(order[..k]) - stuck)
      {
        assert order[..k + 1] == order[..k] + [order[k]];
        assert Elements(order[..k + 1]) == Elements(order[..k]) + {order[k]};
        if order[k] !in stuck {
          disk := disk - {order[k]};
        }
      }
    }
  }
}
