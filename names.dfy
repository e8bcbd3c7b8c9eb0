/** The file names of a background job (backend/server.py): the output in
    `outputs/`, the numbered chunk files and the concat manifest in `temp/`,
    all under the backend's root directory. */
module Names {
  import opened Common

  /** `f"{project_id}_{art_style}_output.mp4"` */
  function OutputName(id: string, style: string): string {
    id + "_" + style + "_output.mp4"
  }

  function OutputPath(root: string, id: string, style: string): (p: string)
    ensures EndsWith(p, ".mp4")
  {
    var p := root + "/outputs/" + OutputName(id, style);
    assert p[|p| - 4..] == ".mp4";
    p
  }

  /** `TEMP_DIR / f"{project_id}_chunk_{chunk_number:03d}.mp4"` */
  function ChunkPath(root: string, id: string, n: nat): string {
    root + "/temp/" + id + "_chunk_" + Format03(n) + ".mp4"
  }

  /** `TEMP_DIR / f"{project_id}_concat.txt"` */
  function ConcatPath(root: string, id: string): string {
    root + "/temp/" + id + "_concat.txt"
  }

  /** Distinct chunk numbers give distinct chunk files, so a later chunk
      never overwrites an earlier one. */
  lemma ChunkPathInjective(root: string, id: string, n: nat, m: nat)
    requires ChunkPath(root, id, n) == ChunkPath(root, id, m)
    ensures n == m
  {
    var pre := root + "/temp/" + id + "_chunk_";
    var s := ChunkPath(root, id, n);
    var t := ChunkPath(root, id, m);
    assert s == pre + Format03(n) + ".mp4";
    assert t == pre + Format03(m) + ".mp4";
    assert s[|pre|..|s| - 4] == Format03(n);
    assert t[|pre|..|t| - 4] == Format03(m);
    Format03Injective(n, m);
  }

  /** The output, the chunk files and the manifest are three different
      files: cleaning up the temporaries never removes the output. */
  lemma PathsDistinct(root: string, id: string, style: string, n: nat)
    ensures ChunkPath(root, id, n) != OutputPath(root, id, style)
    ensures ChunkPath(root, id, n) != ConcatPath(root, id)
    ensures ConcatPath(root, id) != OutputPath(root, id, style)
  {
    var c := ChunkPath(root, id, n);
    var o := OutputPath(root, id, style);
    var m := ConcatPath(root, id);
    assert c[|root| + 1] == 't' && m[|root| + 1] == 't' && o[|root| + 1] == 'o';
    assert c[|root| + 6 + |id| + 2] == 'h';
    assert m[|root| + 6 + |id| + 2] == 'o';
  }
}
