/** The loops that split files, working on the task's output directory. */
module WorkDir {
  import opened Bytes
  import C = Chunks

  class WorkDir {
    var files: C.Files

    constructor (files: C.Files)
      ensures this.files == files
    {
      this.files := files;
    }

    /** `fh.read(max)` at `pos`: at most max bytes, empty at the end of the file. */
    static function Read(content: File, pos: nat, max: nat): File
      requires pos <= |content|
    {
      if |content| - pos <= max then content[pos..] else content[pos..pos + max]
    }

    method SplitBinaryChunks(stem: string, ext: string, max: nat) returns (chunks: seq<string>)
      requires stem + ext in files
      modifies this
      ensures files == C.SplitOne(old(files), stem, ext, max).0
      ensures chunks == C.SplitOne(old(files), stem, ext, max).1
    {
      hide C.PartName;
      var content := files[stem + ext];
      assert content[0..] == content;
      if |content| <= max {
        return [stem + ext];
      }
      chunks := [];
      var part, pos := 0, 0;
      while true
        invariant pos <= |content|
        invariant C.WriteParts(files, stem, ext, C.Parts(content[pos..], max), part)
               == C.WriteParts(old(files), stem, ext, C.Parts(content, max), 0)
        invariant chunks + C.PartNames(stem, ext, part, |C.Parts(content[pos..], max)|)
               == C.PartNames(stem, ext, 0, |C.Parts(content, max)|)
        decreases |content| - pos
      {
        hide C.Parts, C.WriteParts, C.PartNames;
        var data := Read(content, pos, max);
        ghost var rest := content[pos..];
        if |data| == 0 {
          break;
        }
        C.NextPart(rest, max);
        C.NextName(stem, ext, part, |C.Parts(rest, max)|);
        assert data == C.Parts(rest, max)[0];
        files := files[C.PartName(stem, part, ext) := data];
        chunks := chunks + [C.PartName(stem, part, ext)];
        part, pos := part + 1, pos + |data|;
        assert rest[|data|..] == content[pos..];
      }
      assert C.Parts(content[pos..], max) == [];
      assert C.WriteParts(files, stem, ext, [], part) == files;
      assert chunks + C.PartNames(stem, ext, part, 0) == chunks;
    }

    method SplitXktChunks(stems: seq<string>, max: nat) returns (result: seq<string>)
      requires forall i | 0 <= i < |stems| :: stems[i] + C.XKT in files
      modifies this
      ensures files == C.SplitAll(old(files), stems, max).0
      ensures result == C.SplitAll(old(files), stems, max).1
    {
      result := [];
      assert stems[0..] == stems;
      for i := 0 to |stems|
        invariant forall j | 0 <= j < |stems| :: stems[j] + C.XKT in files
        invariant C.SplitAll(files, stems[i..], max).0 == C.SplitAll(old(files), stems, max).0
        invariant result + C.SplitAll(files, stems[i..], max).1 == C.SplitAll(old(files), stems, max).1
      {
        C.AllNames(files, stems[i..], max);
        assert stems[i..][0] == stems[i] && stems[i..][1..] == stems[i + 1..];
        var chunks := SplitBinaryChunks(stems[i], C.XKT, max);
        result := result + chunks;
      }
      assert stems[|stems|..] == [] && C.SplitAll(files, [], max) == (files, []);
    }
  }
}
