/**
 * The dataset registry: one JSON entry per dataset under the registry's
 * `datasets` directory, listing its files with their SHA-256 digests at
 * registration time, and the check that those files are still present and
 * unchanged.
 */
module Datasets {
  import opened Wrappers
  import opened Text
  import opened Json
  import opened Fs

  /** `list_datasets()` over the directory listing `paths`. */
  method ListDatasets(t: Tree, paths: seq<string>) returns (items: seq<Json>)
    requires Enumerates(t, DatasetsDir, paths)
    ensures items == Loaded(t, paths)
    ensures forall v :: v in items <==> exists i :: 0 <= i < |paths| && LoadJson(t, paths[i]) == Success(v)
  {
    items := ListJson(t, paths);
    LoadedComplete(t, paths);
  }

  /**
   * The entry registered for file `f`: its path relative to the root, and its
   * digest, or null when nothing exists at the path. Hashing a directory raises.
   * A relative `f` is resolved against the root, where Python resolves it
   * against the process's working directory; every caller passes absolute paths.
   */
  function FileEntry(t: Tree, f: string): (r: Result<Json>)
    ensures r.Success? ==> (r.value.JObj? && r.value.fields.Keys == {"path", "sha256"}
      && r.value.fields["path"] == JStr(ToRel(f))
      && (r.value.fields["sha256"] == JNull <==> !Exists(t, Resolve(f))))
    ensures r.Success? && Exists(t, Resolve(f)) ==> (IsFile(t, Resolve(f))
      && r.value.fields["sha256"] == JStr(t[Resolve(f)].sha))
    ensures r.Failure? <==> Exists(t, Resolve(f)) && !IsFile(t, Resolve(f))
  {
    var p := Resolve(f);
    if Exists(t, p) then
      var h :- Sha256(t, p);
      Success(JObj(map["path" := JStr(ToRel(f)), "sha256" := JStr(h)]))
    else
      Success(JObj(map["path" := JStr(ToRel(f)), "sha256" := JNull]))
  }

  /** The file entries of `files`, in order, or the first error. */
  function FileEntries(t: Tree, files: seq<string>): Result<seq<Json>> {
    if |files| == 0 then Success([])
    else
      var e :- FileEntry(t, files[0]);
      var rest :- FileEntries(t, files[1..]);
      Success([e] + rest)
  }

  /** Registration succeeds with one entry per file, in order, exactly when no file path names a directory. */
  lemma {:induction false} FileEntriesShape(t: Tree, files: seq<string>)
    ensures FileEntries(t, files).Success? <==>
      forall i :: 0 <= i < |files| ==> FileEntry(t, files[i]).Success?
    ensures FileEntries(t, files).Success? ==>
      var es := FileEntries(t, files).value;
      |es| == |files| && forall i :: 0 <= i < |files| ==> Success(es[i]) == FileEntry(t, files[i])
  {
    if |files| > 0 {
      FileEntriesShape(t, files[1..]);
      if FileEntries(t, files).Success? {
        var es := FileEntries(t, files).value;
        forall i | 0 <= i < |files| ensures Success(es[i]) == FileEntry(t, files[i]) {
          if i > 0 {
            assert files[i] == files[1..][i - 1];
          }
        }
      } else if FileEntry(t, files[0]).Success? {
        var i :| 0 <= i < |files[1..]| && !FileEntry(t, files[1..][i]).Success?;
        assert files[1..][i] == files[i + 1];
      }
    }
  }

  /** One step of `FileEntries` from position `i`. */
  lemma FileEntriesStep(t: Tree, files: seq<string>, i: nat)
    requires i < |files|
    ensures FileEntries(t, files[i..]) ==
      if FileEntry(t, files[i]).Failure? then Failure(FileEntry(t, files[i]).error)
      else Prepend([FileEntry(t, files[i]).value], FileEntries(t, files[i + 1..]))
  {
    assert files[i..][1..] == files[i + 1..];
    assert files[i..][0] == files[i];
  }

  /** The `file_entries` loop of `register_dataset`. */
  method BuildFileEntries(t: Tree, files: seq<string>) returns (r: Result<seq<Json>>)
    ensures r == FileEntries(t, files)
  {
    var entries: seq<Json> := [];
    var i := 0;
    assert files[i..] == files;
    PrependNil(FileEntries(t, files));
    while i < |files|
      invariant 0 <= i <= |files|
      invariant FileEntries(t, files) == Prepend(entries, FileEntries(t, files[i..]))
    {
      FileEntriesStep(t, files, i);
      var e := FileEntry(t, files[i]);
      if e.Failure? {
        return Failure(e.error);
      }
      PrependAssoc(entries, [e.value], FileEntries(t, files[i + 1..]));
      entries := entries + [e.value];
      i := i + 1;
    }
    assert files[i..] == [];
    assert entries + [] == entries;
    return Success(entries);
  }

  /** `{"id": ds_id, "name": name, "files": file_entries}`. */
  function DatasetEntry(t: Tree, dsId: string, name: string, files: seq<string>): (r: Result<Json>)
    ensures r.Success? ==> (r.value.JObj? && r.value.fields.Keys == {"id", "name", "files"}
      && r.value.fields["id"] == JStr(dsId) && r.value.fields["name"] == JStr(name)
      && FileEntries(t, files).Success? && r.value.fields["files"] == JArr(FileEntries(t, files).value))
    ensures r.Failure? <==> FileEntries(t, files).Failure?
  {
    var es :- FileEntries(t, files);
    Success(JObj(map["id" := JStr(dsId), "name" := JStr(name), "files" := JArr(es)]))
  }

  /**
   * `register_dataset(ds_id, name, files)`: the entry overwrites whatever was
   * stored under the id and is returned as stored; nothing is written when
   * hashing a file raises.
   */
  method RegisterDataset(store: Store, dsId: string, name: string, files: seq<string>) returns (r: Result<Json>)
    modifies store
    ensures r == DatasetEntry(old(store.tree), dsId, name, files)
    ensures r.Success? ==>
      store.tree == old(store.tree)[EntryPath(DatasetsDir, dsId) := store.enc.Node(r.value)]
      && store.writes == old(store.writes) + [(EntryPath(DatasetsDir, dsId), r.value)]
      && LoadJson(store.tree, EntryPath(DatasetsDir, dsId)) == r
    ensures r.Failure? ==> store.tree == old(store.tree) && store.writes == old(store.writes)
  {
    var es := BuildFileEntries(store.tree, files);
    if es.Failure? {
      return Failure(es.error);
    }
    var entry := JObj(map["id" := JStr(dsId), "name" := JStr(name), "files" := JArr(es.value)]);
    store.WriteJson(EntryPath(DatasetsDir, dsId), entry);
    return Success(entry);
  }

  // ---------------------------------------------------------------- verify

  /** The values `for fdesc in entry.get("files", [])` visits; a non-empty dict or string yields items without `.get`. */
  function FileDescs(files: Json): Result<seq<Json>> {
    match files
    case JArr(items) => Success(items)
    case JStr(s) => if |s| == 0 then Success([]) else Failure(NoGet("str"))
    case JObj(m) => if |m| == 0 then Success([]) else Failure(NoGet("str"))
    case _ => Failure("'" + TypeName(files) + "' object is not iterable")
  }

  /**
   * The problems one file description contributes: "missing" when nothing
   * exists at its resolved path, "checksum_mismatch" when a recorded digest
   * differs from the current one ignoring case, none otherwise.
   */
  function FileProblem(t: Tree, fdesc: Json): Result<seq<Json>> {
    if !fdesc.JObj? then Failure(NoGet(TypeName(fdesc)))
    else
      var raw := Get(fdesc.fields, "path", JStr(""));
      if !raw.JStr? then Failure("expected str, bytes or os.PathLike object, not " + TypeName(raw))
      else
        var p := Resolve(raw.s);
        if !Exists(t, p) then Success([JObj(map["error" := JStr("missing"), "path" := JStr(p)])])
        else
          var sha := Get(fdesc.fields, "sha256", JNull);
          if !Truthy(sha) then Success([])
          else
            var digest :- Sha256(t, p);
            if !sha.JStr? then Failure("'" + TypeName(sha) + "' object has no attribute 'lower'")
            else if Lower(digest) != Lower(sha.s) then
              Success([JObj(map["error" := JStr("checksum_mismatch"), "path" := JStr(p),
                                "expected" := sha, "actual" := JStr(digest)])])
            else Success([])
  }

  /** The problems of a list of file descriptions, in order, or the first error. */
  function ProblemsOf(t: Tree, descs: seq<Json>): Result<seq<Json>> {
    if |descs| == 0 then Success([])
    else
      var ps :- FileProblem(t, descs[0]);
      var rest :- ProblemsOf(t, descs[1..]);
      Success(ps + rest)
  }

  /** `verify_dataset(entry)`. */
  function Problems(t: Tree, entry: map<string, Json>): Result<seq<Json>> {
    var descs :- FileDescs(Get(entry, "files", JArr([])));
    ProblemsOf(t, descs)
  }

  /** The `problems` loop of `verify_dataset`. */
  method VerifyDataset(t: Tree, entry: map<string, Json>) returns (r: Result<seq<Json>>)
    ensures r == Problems(t, entry)
  {
    var descs := FileDescs(Get(entry, "files", JArr([])));
    if descs.Failure? {
      return Failure(descs.error);
    }
    var ds := descs.value;
    var problems: seq<Json> := [];
    var i := 0;
    assert ds[i..] == ds;
    PrependNil(ProblemsOf(t, ds));
    while i < |ds|
      invariant 0 <= i <= |ds|
      invariant ProblemsOf(t, ds) == Prepend(problems, ProblemsOf(t, ds[i..]))
    {
      assert ds[i..][1..] == ds[i + 1..];
      assert ds[i..][0] == ds[i];
      var ps := FileProblem(t, ds[i]);
      if ps.Failure? {
        return Failure(ps.error);
      }
      PrependAssoc(problems, ps.value, ProblemsOf(t, ds[i + 1..]));
      problems := problems + ps.value;
      i := i + 1;
    }
    assert ds[i..] == [];
    assert problems + [] == problems;
    return Success(problems);
  }

  /** A file that is absent yields exactly one "missing" problem and its digest is not compared. */
  lemma MissingFile(t: Tree, fdesc: map<string, Json>, path: string)
    requires Get(fdesc, "path", JStr("")) == JStr(path)
    requires !Exists(t, Resolve(path))
    ensures FileProblem(t, JObj(fdesc)) == Success([JObj(map["error" := JStr("missing"), "path" := JStr(Resolve(path))])])
  {
  }

  /** A present file with a recorded digest: a mismatch problem exactly when the digests differ ignoring case. */
  lemma ChecksumRule(t: Tree, fdesc: map<string, Json>, path: string, sha: string)
    requires Get(fdesc, "path", JStr("")) == JStr(path)
    requires IsFile(t, Resolve(path))
    requires Get(fdesc, "sha256", JNull) == JStr(sha) && sha != ""
    ensures FileProblem(t, JObj(fdesc)).Success?
    ensures FileProblem(t, JObj(fdesc)).value == [] <==> Lower(t[Resolve(path)].sha) == Lower(sha)
    ensures FileProblem(t, JObj(fdesc)).value != [] ==>
      FileProblem(t, JObj(fdesc)).value[0].fields["expected"] == JStr(sha)
      && FileProblem(t, JObj(fdesc)).value[0].fields["actual"] == JStr(t[Resolve(path)].sha)
  {
  }

  /** Files whose resolved path, existence and node are the same in two trees. */
  predicate Agree(t: Tree, t': Tree, files: seq<string>) {
    forall i :: 0 <= i < |files| ==>
      Exists(t, Resolve(files[i])) && Resolve(files[i]) in t && Resolve(files[i]) in t'
      && t'[Resolve(files[i])] == t[Resolve(files[i])]
  }

  /** Relativising a registered path and resolving it again gives the path the file was hashed at. */
  lemma ReResolve(f: string)
    requires IsAbsolute(f) ==> Normal(f)
    ensures Resolve(ToRel(f)) == Resolve(f)
  {
    if IsAbsolute(f) {
      ResolveToRel(f);
    } else {
      assert !HasPrefix(f, Root + "/");
    }
  }

  /**
   * Registering files that exist and then verifying the entry against a tree
   * in which those files are unchanged reports no problem.
   */
  lemma {:induction false} RegisterThenVerifyFiles(t: Tree, t': Tree, files: seq<string>)
    requires forall i :: 0 <= i < |files| ==> IsAbsolute(files[i]) ==> Normal(files[i])
    requires Agree(t, t', files)
    requires FileEntries(t, files).Success?
    ensures ProblemsOf(t', FileEntries(t, files).value) == Success([])
  {
    if |files| > 0 {
      var f := files[0];
      ReResolve(f);
      assert Agree(t, t', files[1..]) by {
        forall i | 0 <= i < |files[1..]| ensures files[1..][i] == files[i + 1] { }
      }
      assert forall i :: 0 <= i < |files[1..]| ==> IsAbsolute(files[1..][i]) ==> Normal(files[1..][i]) by {
        forall i | 0 <= i < |files[1..]| ensures files[1..][i] == files[i + 1] { }
      }
      RegisterThenVerifyFiles(t, t', files[1..]);
      var e := FileEntry(t, f).value;
      var p := Resolve(f);
      assert Exists(t, p) && p in t && p in t' && t'[p] == t[p];
      assert Exists(t', p);
      assert FileProblem(t', e) == Success([]);
      var es := FileEntries(t, files).value;
      assert es == [e] + FileEntries(t, files[1..]).value;
      assert es[0] == e && es[1..] == FileEntries(t, files[1..]).value;
      assert ProblemsOf(t', es) == Prepend([], ProblemsOf(t', es[1..]));
      var none: seq<Json> := [];
      assert none + none == none;
    }
  }

  /** `Problems(register(...)) == []` for the whole entry. */
  lemma RegisterThenVerify(t: Tree, t': Tree, dsId: string, name: string, files: seq<string>)
    requires forall i :: 0 <= i < |files| ==> IsAbsolute(files[i]) ==> Normal(files[i])
    requires Agree(t, t', files)
    requires DatasetEntry(t, dsId, name, files).Success?
    ensures Problems(t', DatasetEntry(t, dsId, name, files).value.fields) == Success([])
  {
    RegisterThenVerifyFiles(t, t', files);
  }

  /** Writing the registry entry keeps the files unchanged unless one of them is the entry itself. */
  lemma WriteKeepsFiles(t: Tree, files: seq<string>, p: string, n: Node)
    requires forall i :: 0 <= i < |files| ==> Exists(t, Resolve(files[i])) && Resolve(files[i]) in t && Resolve(files[i]) != p
    ensures Agree(t, t[p := n], files)
  {
  }
}
