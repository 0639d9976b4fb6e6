// The files of a grabber made from an NZB, in terms of the NZB alone.
module GrabBuild {
  import opened Basics
  import opened GrabModel

  // Every file but par2 and filtered ones is wanted, and of the par2 files the one
  // chosen.
  predicate Wanted(specs: seq<FileSpec>, first: Option<nat>, i: nat)
    requires i < |specs|
  {
    first == Some(i) || !(specs[i].par2 || specs[i].filtered)
  }

  ghost predicate BuiltFrom(f: File, spec: FileSpec, wanted: bool) {
    && f.groups == spec.groups && f.done == 0
    && f.required == wanted && f.state == (if wanted then Pending else Paused)
    && |f.segs| == |spec.numbers|
    && forall j :: 0 <= j < |f.segs| ==>
         f.segs[j] == Seg(spec.numbers[j], if wanted then Pending else Paused, None, {}, {}, 0)
  }

  lemma NewFileBuilt(spec: FileSpec)
    ensures BuiltFrom(NewFile(spec), spec, !(spec.par2 || spec.filtered))
  {
  }

  lemma ResumedBuilt(f: File, spec: FileSpec, wanted: bool)
    requires BuiltFrom(f, spec, wanted)
    ensures BuiltFrom(FileResume(f), spec, true)
  {
  }

  lemma BuiltFile(specs: seq<FileSpec>, servers: nat, maxRetry: int, first: Option<nat>, i: nat)
    requires SmallestPar2(specs, first) && i < |specs|
    ensures var w := FromNZB(specs, servers, maxRetry, first);
            |w.files| == |specs| && BuiltFrom(w.files[i], specs[i], Wanted(specs, first, i))
  {
    var w := NewGrabber(specs, servers, maxRetry);
    NewFileBuilt(specs[i]);
    if first == Some(i) {
      ResumedBuilt(w.files[i], specs[i], false);
      assert w.files[i].state == Paused;
    }
  }
}
