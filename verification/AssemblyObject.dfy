// The post-processed file as an object working on a volume.
module AssemblyObject {
  import opened Assembly

  datatype State = Unprocessed | Assembled | Repaired | Extracted

  // A file as the grabber hands it over.
  class GrabbedFile {
    var segments: seq<Segment>
    const filename: string
    const hash: string
    const filetype: FileType

    constructor (segments: seq<Segment>, filename: string, hash: string, filetype: FileType)
      ensures this.segments == segments && this.filename == filename && this.hash == hash && this.filetype == filetype
    {
      this.segments, this.filename, this.hash, this.filetype := segments, filename, hash, filetype;
    }

    // Segments are almost always sorted already.
    method SortSegments()
      modifies this
      ensures Sorted(segments) && multiset(segments) == multiset(old(segments))
      ensures Sorted(old(segments)) ==> segments == old(segments)
    {
      if Sorted(segments) { return; }
      SortSorts(segments);
      segments := Sort(segments);
    }
  }

  class Volume {
    var files: Disk

    constructor ()
      ensures files == map[]
    {
      files := map[];
    }
  }

  class File {
    var segPaths: seq<string>
    var filename: string
    var filepath: string
    var filetype: FileType
    var state: State

    // Paths are taken after the segments have been sorted.
    constructor (wd: string, gf: GrabbedFile)
      modifies gf
      ensures Sorted(gf.segments) && multiset(gf.segments) == multiset(old(gf.segments))
      ensures segPaths == Paths(gf.segments, wd) && |segPaths| == |gf.segments|
      ensures forall i :: 0 <= i < |segPaths| ==> segPaths[i] == wd + "/" + gf.segments[i].workingFilename
      ensures filetype == gf.filetype && state == Unprocessed
      ensures filename == if gf.filename != "" then gf.filename
                          else if gf.filetype == Par2 then gf.hash + ".par2" else gf.hash
      ensures filepath == wd + "/" + filename
    {
      segPaths, filename, filepath := [], "", "";
      filetype, state := gf.filetype, Unprocessed;
      new;
      gf.SortSegments();
      ghost var segs := gf.segments;
      for i := 0 to |gf.segments|
        invariant gf.segments == segs && segPaths == Paths(segs, wd)[..i]
        invariant filetype == gf.filetype && state == Unprocessed
      {
        segPaths := segPaths + [JoinPath(wd, gf.segments[i].workingFilename)];
      }
      if gf.filename != "" {
        filename := gf.filename;
      } else if IsPar2() {
        filename := gf.hash + ".par2";
      } else {
        filename := gf.hash;
      }
      filepath := JoinPath(wd, filename);
    }

    predicate IsPar2()
      reads this
    {
      filetype == Par2
    }

    method AppendSegment(v: Volume, path: string) returns (ok: bool)
      requires filepath in v.files && path != filepath
      modifies v
      ensures ok <==> path in old(v.files)
      ensures v.files == if ok then old(v.files)[filepath := old(v.files)[filepath] + old(v.files)[path]] - {path}
                         else old(v.files)
    {
      if path !in v.files { return false; }
      v.files := v.files[filepath := v.files[filepath] + v.files[path]];
      v.files := v.files - {path};
      return true;
    }

    // `creatable` is whether the destination could be created.
    method Assemble(v: Volume, creatable: bool) returns (ok: bool)
      requires filepath !in segPaths
      modifies this`state, v
      ensures old(state) != Unprocessed || !creatable ==> state == old(state) && v.files == old(v.files)
      ensures old(state) != Unprocessed ==> ok
      ensures old(state) == Unprocessed && !creatable ==> !ok
      ensures old(state) == Unprocessed && creatable ==>
                && (v.files, ok) == AssembleTo(old(v.files), filepath, segPaths)
                && state == if ok then Assembled else Unprocessed
    {
      if state != Unprocessed { return true; }
      if !creatable { return false; }
      v.files := v.files[filepath := []];
      ghost var start := v.files;
      for i := 0 to |segPaths|
        invariant filepath in v.files && state == Unprocessed
        invariant AppendAll(start, filepath, segPaths) == AppendAll(v.files, filepath, segPaths[i..])
      {
        assert segPaths[i] in segPaths;
        assert segPaths[i..][0] == segPaths[i] && segPaths[i..][1..] == segPaths[i + 1..];
        var appended := AppendSegment(v, segPaths[i]);
        if !appended { return false; }
      }
      state := Assembled;
      return true;
    }
  }
}
