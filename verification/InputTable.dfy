/** The `inputs` table: one row per image ever uploaded, keyed by its content hash. */
module InputTable {
  import opened Common
  import opened Paths

  datatype Input = Input(sha256: string, path: Option<string>, createdAt: int, lastUsedAt: int)

  type Inputs = map<int, Input>

  /** 64 lower-case hex digits; anything else is refused before the table is asked. */
  predicate IsSha(s: string) {
    |s| == 64 && forall i :: 0 <= i < |s| ==> '0' <= s[i] <= '9' || 'a' <= s[i] <= 'f'
  }

  /** The two image types an upload may have. */
  predicate IsExt(ext: string) { ext == "jpg" || ext == "png" }

  function CachePath(sha: string, ext: string): string { CACHE_INPUTS + "/" + sha + "." + ext }

  predicate IsCachePathOf(sha: string, path: string) {
    path == CachePath(sha, "jpg") || path == CachePath(sha, "png")
  }

  predicate ShasAreUnique(t: Inputs) {
    forall a, b :: a in t && b in t && t[a].sha256 == t[b].sha256 ==> a == b
  }

  /** Every row is named by a hash, and points nowhere but at that hash's place in the cache. */
  predicate WellNamedInputs(t: Inputs) {
    && ShasAreUnique(t)
    && forall id :: id in t ==>
         IsSha(t[id].sha256) && (t[id].path.Some? ==> IsCachePathOf(t[id].sha256, t[id].path.value))
  }

  /** A cache path can be read backwards. */
  lemma CachePathOwner(a: string, b: string, path: string)
    requires IsSha(a) && IsSha(b) && IsCachePathOf(a, path) && IsCachePathOf(b, path)
    ensures a == b
  {
    CachePathAt(a, path);
    CachePathAt(b, path);
  }

  lemma CachePathAt(sha: string, path: string)
    requires IsSha(sha) && IsCachePathOf(sha, path)
    ensures |path| == 81 && path[0] == 'c' && path[13..77] == sha
  {
    assert |CACHE_INPUTS| == 12;
  }

  /** `data_path` accepts every cache file name. */
  lemma CachePathIsLegal(sha: string, ext: string)
    requires IsSha(sha) && IsExt(ext)
    ensures DataPath(CACHE_INPUTS, sha + "." + ext) == Some(CachePath(sha, ext))
    ensures CachePath(sha, ext) == "cache/inputs/" + sha + "." + ext
  {
    assert CACHE_INPUTS + "/" + (sha + "." + ext) == CachePath(sha, ext);
  }

  /** What purge's second SELECT reads of a row. */
  datatype IdleInput = IdleInput(id: int, path: string)

  // ---- statements ----

  predicate PathIsSome(t: Inputs, id: int) { id in t && t[id].path.Some? }

  /** `SELECT id, path FROM inputs WHERE sha256 = ?`: at most one row can match. */
  predicate IsRowOf(t: Inputs, sha: string, id: int) { id in t && t[id].sha256 == sha }

  function Stamp(t: Inputs, id: int, now: int): Inputs {
    if id in t then t[id := t[id].(lastUsedAt := now)] else t
  }

  function ClearPath(t: Inputs, id: int): Inputs {
    if id in t then t[id := t[id].(path := None)] else t
  }

  function StorePath(t: Inputs, id: int, path: string, now: int): Inputs {
    if id in t then t[id := t[id].(path := Some(path), lastUsedAt := now)] else t
  }

  /** `UNIQUE (sha256)` refuses a second row for a hash. */
  predicate Insertable(t: Inputs, sha: string) { forall id :: id in t ==> t[id].sha256 != sha }

  function InsertInput(t: Inputs, id: int, sha: string, path: string, now: int): Inputs {
    t[id := Input(sha, Some(path), now, now)]
  }
}
