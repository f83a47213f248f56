/** File names under the data directory (paths are relative to it). */
module Paths {
  import opened Common
  import opened JobTable

  const OUTPUTS := "outputs"
  const THUMBS := "thumbs"
  const PREVIEWS := "previews"
  const CACHE_INPUTS := "cache/inputs"

  predicate ValidFilename(f: string) {
    && f != ""
    && '/' !in f
    && '\\' !in f
    && (forall i :: 0 <= i < |f| - 1 && f[i] == '.' ==> f[i + 1] != '.')
  }

  /** `data_path`: refuses a name that could leave its directory. */
  function DataPath(subdir: string, filename: string): Option<string> {
    if ValidFilename(filename) then Some(subdir + "/" + filename) else None
  }

  /** Exactly the non-empty names without a separator and without `..` are accepted, under their directory. */
  lemma DataPathIs(subdir: string, f: string)
    ensures DataPath(subdir, f).Some? <==>
      f != "" && '/' !in f && '\\' !in f && forall a, b :: f != a + ".." + b
    ensures DataPath(subdir, f).Some? ==> DataPath(subdir, f).value == subdir + "/" + f
  {
    if i :| 0 <= i < |f| - 1 && f[i] == '.' && f[i + 1] == '.' {
      assert f == f[..i] + ".." + f[i + 2..];
    }
    forall a, b | f == a + ".." + b ensures !ValidFilename(f) {
      assert f[|a|] == '.' && f[|a| + 1] == '.';
    }
  }

  /** The names on disk, spelled out. */
  lemma NamesAre(id: string)
    ensures OutputPrefix(id) == "zun_" + id
    ensures forall path :: IsOutputOf(id, path) <==> "outputs/zun_" + id <= path
    ensures RenditionPath(id, Thumb, "jpg") == "thumbs/" + id + ".jpg"
    ensures RenditionPath(id, Thumb, "avif") == "thumbs/" + id + ".avif"
    ensures RenditionPath(id, Preview, "jpg") == "previews/" + id + ".jpg"
    ensures RenditionPath(id, Preview, "avif") == "previews/" + id + ".avif"
  {
    assert OUTPUTS + "/" + OutputPrefix(id) == "outputs/zun_" + id;
  }

  /** The text form of a UUID: 36 characters, lower-case hex digits and dashes. */
  predicate IsUuid(id: string) {
    |id| == 36 && forall i :: 0 <= i < |id| ==> '0' <= id[i] <= '9' || 'a' <= id[i] <= 'f' || id[i] == '-'
  }

  /** The prefix the worker asks ComfyUI to give a job's output files. */
  function OutputPrefix(id: string): string { "zun_" + id }

  predicate IsOutputOf(id: string, path: string) {
    OUTPUTS + "/" + OutputPrefix(id) <= path
  }

  function RenditionPath(id: string, tier: Tier, ext: string): string {
    (if tier.Thumb? then THUMBS else PREVIEWS) + "/" + id + "." + ext
  }

  /** Position of the last `c` in `s`, or `|s|` when there is none. */
  function LastIndex(s: string, c: char): (i: nat)
    ensures i <= |s|
    ensures i < |s| ==> s[i] == c
    ensures forall k :: i < k < |s| ==> s[k] != c
    ensures i == |s| ==> c !in s
  {
    if c !in s then |s|
    else if s[|s| - 1] == c then |s| - 1
    else
      assert s == s[..|s| - 1] + [s[|s| - 1]];
      LastIndex(s[..|s| - 1], c)
  }

  /** `Path::with_extension` on a relative file path without a trailing slash. */
  function WithExtension(path: string, ext: string): string {
    var slash := LastIndex(path, '/');
    var start := if slash == |path| then 0 else slash + 1;
    var name := path[start..];
    var dot := LastIndex(name, '.');
    if name == "" || name == ".." then path
    else if dot == |name| || dot == 0 then path + "." + ext
    else path[..start] + name[..dot] + "." + ext
  }

  function AvifSibling(jpegPath: string): string { WithExtension(jpegPath, "avif") }

  lemma LastIndexIs(s: string, c: char, i: nat)
    requires i < |s| && s[i] == c && forall k :: i < k < |s| ==> s[k] != c
    ensures LastIndex(s, c) == i
  {
  }

  lemma WithExtensionIs(dir: string, stem: string, was: string, ext: string)
    requires stem != "" && '/' !in stem && '.' !in stem && '/' !in was && '.' !in was
    ensures WithExtension(dir + "/" + stem + "." + was, ext) == dir + "/" + stem + "." + ext
  {
    var name := stem + "." + was;
    var path := dir + "/" + name;
    assert path == dir + "/" + stem + "." + was;
    LastIndexIs(path, '/', |dir|);
    assert path[|dir| + 1..] == name && path[..|dir| + 1] == dir + "/";
    LastIndexIs(name, '.', |stem|);
    assert name[..|stem|] == stem;
  }

  /** `purge` finds the AVIF file the renderer wrote beside a recorded JPEG. */
  lemma AvifSiblingOfRendition(id: string, tier: Tier)
    requires IsUuid(id)
    ensures AvifSibling(RenditionPath(id, tier, "jpg")) == RenditionPath(id, tier, "avif")
  {
    WithExtensionIs(if tier.Thumb? then THUMBS else PREVIEWS, id, "jpg", "avif");
  }

  function Optionally(p: Option<string>): seq<string> { if p.Some? then [p.value] else [] }

  function AvifOf(p: Option<string>): seq<string> { if p.Some? then [AvifSibling(p.value)] else [] }

  /** What purge unlinks for one row, in its order. */
  function JobFiles(output: Option<string>, thumb: Option<string>, preview: Option<string>): seq<string> {
    Optionally(output) + Optionally(thumb) + Optionally(preview) + AvifOf(thumb) + AvifOf(preview)
  }

  /** Purge unlinks all five: output, thumb, preview, and the AVIF files beside the last two; and nothing else. */
  lemma JobFilesAre(output: Option<string>, thumb: Option<string>, preview: Option<string>)
    ensures forall p :: p in JobFiles(output, thumb, preview) <==>
      || output == Some(p) || thumb == Some(p) || preview == Some(p)
      || (thumb.Some? && p == AvifSibling(thumb.value)) || (preview.Some? && p == AvifSibling(preview.value))
    ensures |JobFiles(output, thumb, preview)| ==
      (if output.Some? then 1 else 0) + (if thumb.Some? then 2 else 0) + (if preview.Some? then 2 else 0)
  {
    forall p ensures p in JobFiles(output, thumb, preview) <==>
      || p in Optionally(output) || p in Optionally(thumb) || p in Optionally(preview)
      || p in AvifOf(thumb) || p in AvifOf(preview) {}
  }

  /** A row records `p`, or `p` is the AVIF file beside the thumb or preview it records. */
  predicate IsFileOf(r: Row, p: string) {
    || r.outputPath == Some(p) || r.thumbPath == Some(p) || r.previewPath == Some(p)
    || (r.thumbPath.Some? && p == AvifSibling(r.thumbPath.value))
    || (r.previewPath.Some? && p == AvifSibling(r.previewPath.value))
  }

  /** The names a row of job `id` may carry. */
  predicate NamesOwnFiles(id: string, output: Option<string>, thumb: Option<string>, preview: Option<string>) {
    && (output.Some? ==> IsOutputOf(id, output.value))
    && (thumb.Some? ==> thumb.value == RenditionPath(id, Thumb, "jpg"))
    && (preview.Some? ==> preview.value == RenditionPath(id, Preview, "jpg"))
  }

  /** `path` follows the naming of exactly the files of job `id`. */
  predicate OwnedBy(id: string, path: string) {
    || IsOutputOf(id, path)
    || path == RenditionPath(id, Thumb, "jpg") || path == RenditionPath(id, Thumb, "avif")
    || path == RenditionPath(id, Preview, "jpg") || path == RenditionPath(id, Preview, "avif")
  }

  lemma JobFilesAreOwned(id: string, output: Option<string>, thumb: Option<string>, preview: Option<string>,
                         path: string)
    requires IsUuid(id) && NamesOwnFiles(id, output, thumb, preview)
    requires path in JobFiles(output, thumb, preview)
    ensures OwnedBy(id, path)
  {
    AvifSiblingOfRendition(id, Thumb);
    AvifSiblingOfRendition(id, Preview);
    assert path in Optionally(output) || path in Optionally(thumb) || path in Optionally(preview)
        || path in AvifOf(thumb) || path in AvifOf(preview);
  }

  /** Fixed-length ids make ownership unambiguous: no path belongs to two jobs. */
  lemma OwnerIsUnique(a: string, b: string, path: string)
    requires IsUuid(a) && IsUuid(b) && OwnedBy(a, path) && OwnedBy(b, path)
    ensures a == b
  {
    OwnerAt(a, path);
    OwnerAt(b, path);
  }

  /** The owner can be read off the path at a fixed place. */
  lemma OwnerAt(id: string, path: string)
    requires IsUuid(id) && OwnedBy(id, path)
    ensures |path| >= 43 && path[0] in "otp"
    ensures path[0] == 'o' ==> |path| >= 48 && id == path[12..48]
    ensures path[0] == 't' ==> id == path[7..43]
    ensures path[0] == 'p' ==> |path| >= 45 && id == path[9..45]
  {
    if IsOutputOf(id, path) {
      assert id == (OUTPUTS + "/" + OutputPrefix(id))[12..48];
    }
  }

  /** Purging jobs never touches the input cache. */
  lemma CacheIsNobodys(id: string, filename: string)
    requires IsUuid(id)
    ensures !OwnedBy(id, CACHE_INPUTS + "/" + filename)
  {
    var path := CACHE_INPUTS + "/" + filename;
    assert path[0] == 'c';
    if OwnedBy(id, path) { OwnerAt(id, path); }
  }
}
