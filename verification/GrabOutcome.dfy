// The grabber an NZB makes, and what becomes of each of its files when everything
// has been grabbed.
module GrabOutcome {
  import opened Basics
  import opened GrabModel
  import opened GrabInvariant
  import opened GrabApi
  import opened GrabTermination
  import opened GrabRequests
  import opened GrabStranding
  import opened GrabTheorems
  import opened GrabBuild

  ghost function WantedFiles(specs: seq<FileSpec>, first: Option<nat>, k: nat): set<nat>
    requires k <= |specs|
  {
    set i: nat | i < k && Wanted(specs, first, i)
  }

  lemma OneMoreWanted(specs: seq<FileSpec>, first: Option<nat>, k: nat)
    requires k < |specs|
    ensures |WantedFiles(specs, first, k + 1)|
         == |WantedFiles(specs, first, k)| + if Wanted(specs, first, k) then 1 else 0
  {
    assert WantedFiles(specs, first, k + 1)
        == WantedFiles(specs, first, k) + if Wanted(specs, first, k) then {k} else {};
  }

  lemma {:induction false} OpenFiles(specs: seq<FileSpec>, first: Option<nat>, files: seq<File>, k: nat)
    requires |files| == |specs| && k <= |specs|
    requires forall i :: 0 <= i < |specs| ==> BuiltFrom(files[i], specs[i], Wanted(specs, first, i))
    ensures Sum(files[..k], OpenOne) == |WantedFiles(specs, first, k)|
  {
    if k > 0 {
      OpenFiles(specs, first, files, k - 1);
      OneMoreWanted(specs, first, k - 1);
      assert files[..k] == files[..k - 1] + [files[k - 1]];
      SumConcat(files[..k - 1], [files[k - 1]], OpenOne);
      assert [files[k - 1]][1..] == [];
    }
  }

  lemma AllBuilt(specs: seq<FileSpec>, servers: nat, maxRetry: int, first: Option<nat>)
    requires SmallestPar2(specs, first)
    ensures var w := FromNZB(specs, servers, maxRetry, first);
            && |w.files| == |specs|
            && forall i :: 0 <= i < |specs| ==> BuiltFrom(w.files[i], specs[i], Wanted(specs, first, i))
  {
    var w := FromNZB(specs, servers, maxRetry, first);
    forall i | 0 <= i < |specs| ensures BuiltFrom(w.files[i], specs[i], Wanted(specs, first, i)) {
      BuiltFile(specs, servers, maxRetry, first, i);
    }
  }

  // The built grabber: nothing started, queued or asked for; every wanted file
  // Pending and required, every other one Paused and not, with new segments like
  // it; and as many files required as are wanted.
  lemma Built(specs: seq<FileSpec>, servers: nat, maxRetry: int, first: Option<nat>)
    requires SmallestPar2(specs, first)
    ensures var w := FromNZB(specs, servers, maxRetry, first);
            && |w.files| == |specs|
            && (forall i :: 0 <= i < |specs| ==> BuiltFrom(w.files[i], specs[i], Wanted(specs, first, i)))
            && w == World(servers, maxRetry, Pending, w.files, [], |WantedFiles(specs, first, |specs|)|,
                          0, 0, [], [], [], [], {})
  {
    var w := FromNZB(specs, servers, maxRetry, first);
    AllBuilt(specs, servers, maxRetry, first);
    OpenFiles(specs, first, w.files, |specs|);
    assert w.files[..|specs|] == w.files;
    StartsOK(specs, servers, maxRetry, first);
  }

  // When everything has been grabbed, the files that are Done are the wanted ones
  // that have segments, the chosen par2 file among them. The rest of the par2 and
  // filtered files are as they were built, and nothing was asked for them.
  lemma GrabbedAreWanted(specs: seq<FileSpec>, servers: nat, maxRetry: int, first: Option<nat>,
                         es: seq<Event>, w: World, i: nat)
    requires SmallestPar2(specs, first) && i < |specs|
    requires NetworkRun(Step(FromNZB(specs, servers, maxRetry, first), GrabAll), es, w) && Quiet(w)
    ensures |w.files| == |specs|
    ensures w.files[i].state == Done <==> Wanted(specs, first, i) && specs[i].numbers != []
    ensures !Wanted(specs, first, i) ==> w.files[i].state == Paused && forall q :: q in w.log ==> q.ref.f != i
  {
    var w0 := FromNZB(specs, servers, maxRetry, first);
    var w1 := Step(w0, GrabAll);
    StartsOK(specs, servers, maxRetry, first);
    Built(specs, servers, maxRetry, first);
    assert BuiltFrom(w0.files[i], specs[i], Wanted(specs, first, i));
    StepKeeps(w0, GrabAll);
    GrabAllGrabs(w0, 0);
    RunSameDemand(w1, es, w);
    assert FileOK(w.files[i], w.state);
    if Wanted(specs, first, i) {
      QuietMeansDone(w, i);
      forall r: Ref | r.f == i ensures !Stranded(w, r) {
        StrandedAfter(w0, GrabAll, r);
        RunStrandsNone(w1, es, w, r);
      }
    }
  }

  // And whatever the servers answer and in whatever order, it comes to that.
  lemma EverythingGrabbed(specs: seq<FileSpec>, servers: nat, maxRetry: int, first: Option<nat>,
                          pick: Scheduler, n: nat) returns (es: seq<Event>, w: World)
    requires SmallestPar2(specs, first) && Fair(pick)
    ensures Drains(pick, n, Step(FromNZB(specs, servers, maxRetry, first), GrabAll), es, w) && Quiet(w)
    ensures |w.files| == |specs| && forall i: nat :: i < |specs| ==>
              (w.files[i].state == Done <==> Wanted(specs, first, i) && specs[i].numbers != [])
  {
    var w0 := FromNZB(specs, servers, maxRetry, first);
    StartsOK(specs, servers, maxRetry, first);
    Built(specs, servers, maxRetry, first);
    es, w := GrabAllCompletes(w0, pick, n);
    StepKeeps(w0, GrabAll);
    DrainIsRun(pick, n, Step(w0, GrabAll), es, w);
    RunSameDemand(Step(w0, GrabAll), es, w);
    GrabAllGrabs(w0, 0);
    forall i: nat | i < |specs|
      ensures w.files[i].state == Done <==> Wanted(specs, first, i) && specs[i].numbers != []
    {
      GrabbedAreWanted(specs, servers, maxRetry, first, es, w, i);
    }
  }
}
