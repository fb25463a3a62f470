/**
 * The part of the file system the pipeline steps touch: a map from paths to
 * documents, where a document either parses as JSON or does not.  Paths
 * that cannot be opened for writing (a missing directory, no permission)
 * form the set `unwritable`; the empty path can never be opened.
 */
module Files {
  import opened JsonValues

  /** What `json.load` makes of a file's content. */
  datatype Doc = Json(value: Json) | NotJson

  class FileSystem {
    var files: map<string, Doc>
    var unwritable: set<string>

    /** `os.path.exists("")` is false, so no file sits at the empty path. */
    predicate Valid()
      reads this
    {
      "" !in files
    }

    constructor(files: map<string, Doc>, unwritable: set<string>)
      requires "" !in files
      ensures Valid()
      ensures this.files == files && this.unwritable == unwritable
    {
      this.files := files;
      this.unwritable := unwritable;
    }

    /** `os.path.exists(path)`. */
    predicate Exists(path: string)
      reads this
    {
      path in files
    }

    /** Whether `open(path, "w")` succeeds. */
    predicate CanWrite(path: string)
      reads this
    {
      path != "" && path !in unwritable
    }

    /**
     * `with open(path, "w") as f: json.dump(j, f)`: on success the path
     * holds `j` and nothing else changes; on failure nothing changes.
     */
    method Write(path: string, j: Json) returns (ok: bool)
      requires Valid()
      modifies this
      ensures Valid()
      ensures ok == old(CanWrite(path))
      ensures files == if ok then old(files)[path := Json(j)] else old(files)
      ensures unwritable == old(unwritable)
    {
      ok := CanWrite(path);
      if ok {
        files := files[path := Json(j)];
      }
    }

    /**
     * `os.rename(src, dst)` on an existing `src`: when `dst` can be created
     * the content moves there, replacing whatever was there, and `src`
     * disappears; otherwise `OSError` and nothing changes.
     */
    method Rename(src: string, dst: string) returns (ok: bool)
      requires Valid() && src in files
      modifies this
      ensures Valid()
      ensures ok == old(CanWrite(dst))
      ensures files == if ok then (old(files) - {src})[dst := old(files)[src]] else old(files)
      ensures unwritable == old(unwritable)
    {
      ok := CanWrite(dst);
      if ok {
        var doc := files[src];
        files := (files - {src})[dst := doc];
      }
    }
  }
}
