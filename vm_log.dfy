// Where a VM job's log goes: the cache key marking a running VM job, and the
// object-storage path its log is uploaded to once the job finishes.

module VMLog {
  import opened Common

  /** vmJobKey: the cache key of a VM job. */
  function VMJobKey(key: string): (r: string)
    ensures |r| == |key| + 7 && r[7..] == key
  {
    "vm-job-" + key
  }

  /** Different jobs never share a cache key. */
  lemma VMJobKeyInjective(k1: string, k2: string)
    requires VMJobKey(k1) == VMJobKey(k2)
    ensures k1 == k2
  {
    assert k1 == VMJobKey(k1)[7..];
  }

  // ---------------------------------------------------------------------
  // filepath.Join on a slash-separated (Unix) path

  /** strings.Split on '/': the pieces between the slashes, empty ones included. */
  function SplitSlash(s: string): (r: seq<string>)
    ensures |r| >= 1
    ensures forall k :: 0 <= k < |r| ==> '/' !in r[k]
  {
    if |s| == 0 then [""]
    else
      var rest := SplitSlash(s[1..]);
      if s[0] == '/' then [""] + rest else [[s[0]] + rest[0]] + rest[1..]
  }

  /** The pieces joined back with '/'. */
  function JoinSlash(parts: seq<string>): string
  {
    if |parts| == 0 then ""
    else if |parts| == 1 then parts[0]
    else JoinSlash(parts[..|parts| - 1]) + "/" + parts[|parts| - 1]
  }

  /**
   * Lexical cleaning of the path elements, left to right: empty and "."
   * elements go, ".." removes the element before it when there is one to
   * remove, and otherwise stays (or, in a rooted path, goes).
   */
  function CleanElems(elems: seq<string>, rooted: bool): (r: seq<string>)
    ensures forall k :: 0 <= k < |r| ==> r[k] != "" && r[k] != "." && r[k] in elems
    ensures forall k :: 0 <= k < |r| && r[k] == ".." ==> !rooted && forall j :: 0 <= j < k ==> r[j] == ".."
  {
    if |elems| == 0 then []
    else
      var st := CleanElems(elems[..|elems| - 1], rooted);
      var e := elems[|elems| - 1];
      assert forall k :: 0 <= k < |st| ==> st[k] in elems by {
        forall k | 0 <= k < |st| ensures st[k] in elems {
          var j :| 0 <= j < |elems| - 1 && elems[..|elems| - 1][j] == st[k];
          assert elems[j] == st[k];
        }
      }
      if e == "" || e == "." then st
      else if e == ".." then
        (if |st| > 0 && st[|st| - 1] != ".." then st[..|st| - 1]
         else if rooted then st
         else st + [".."])
      else st + [e]
  }

  /** path.Clean: the shortest equivalent path; "." for an empty result. */
  function Clean(p: string): (r: string)
    ensures |r| > 0
  {
    var rooted := |p| > 0 && p[0] == '/';
    var body := JoinSlash(CleanElems(SplitSlash(p), rooted));
    var r := (if rooted then "/" else "") + body;
    if r == "" then "." else r
  }

  /** filepath.Join of two elements, the first not empty. */
  function Join(dir: string, name: string): string
  {
    if name == "" then Clean(dir) else Clean(dir + "/" + name)
  }

  /** GetObjectPath: the object key never starts with '/'; only a non-empty folder goes through Join. */
  function GetObjectPath(subFolder: string, name: string): (r: string)
    ensures |r| == 0 || r[0] != '/'
    ensures subFolder == "" ==> r == TrimLeftChar(name, '/')
  {
    if subFolder != "" then TrimLeftChar(Join(subFolder, name), '/') else TrimLeftChar(name, '/')
  }

  /** Without a folder, the leading slashes go and nothing else changes: "//a//b" becomes "a//b". */
  lemma GetObjectPathNoFolder(name: string)
    ensures exists k :: 0 <= k <= |name| && GetObjectPath("", name) == name[k..]
                        && forall i :: 0 <= i < k ==> name[i] == '/'
  {
    var r := GetObjectPath("", name);
    var k := |name| - |r|;
    assert name[k..] == r;
  }

  /** A piece without '/' followed by a slash splits off as one element. */
  lemma {:induction false} SplitSlashPiece(w: string, s: string)
    requires '/' !in w
    ensures SplitSlash(w + "/" + s) == [w] + SplitSlash(s)
    decreases |w|
  {
    if |w| == 0 {
      assert ("" + "/" + s)[1..] == s;
    } else {
      SplitSlashPiece(w[1..], s);
      assert (w + "/" + s)[1..] == w[1..] + "/" + s;
      assert [w[0]] + w[1..] == w;
    }
  }

  /** A piece without '/' is a single element. */
  lemma {:induction false} SplitSlashWord(w: string)
    requires '/' !in w
    ensures SplitSlash(w) == [w]
    decreases |w|
  {
    if |w| > 0 {
      SplitSlashWord(w[1..]);
      assert [w[0]] + w[1..] == w;
    }
  }

  lemma ExampleSplit()
    ensures SplitSlash("/a///b") == ["", "a", "", "", "b"]
  {
    SplitSlashWord("b");
    SplitSlashPiece("", "b");
    SplitSlashPiece("", "/b");
    SplitSlashPiece("a", "//b");
    SplitSlashPiece("", "a///b");
  }

  lemma ExampleCleanElems()
    ensures CleanElems(["", "a", "", "", "b"], true) == ["a", "b"]
  {
    var parts := ["", "a", "", "", "b"];
    var p1: seq<string> := [""];
    var p2 := p1 + ["a"];
    var p3 := p2 + [""];
    var p4 := p3 + [""];
    assert p1[..0] == [] && p2[..1] == p1 && p3[..2] == p2 && p4[..3] == p3 && parts[..4] == p4;
    assert CleanElems(p1, true) == [];
    assert CleanElems(p2, true) == ["a"];
    assert CleanElems(p4, true) == ["a"];
  }

  lemma ExampleClean()
    ensures Clean("/a///b") == "/a/b"
  {
    ExampleSplit();
    ExampleCleanElems();
    var es := ["a", "b"];
    assert es[..1] == ["a"];
    assert JoinSlash(es) == "a/b";
  }

  /** With a folder the pieces are joined cleanly: folder "/a//" and name "b" give "a/b". */
  lemma GetObjectPathExample()
    ensures GetObjectPath("/a//", "b") == "a/b"
  {
    assert "/a//" + "/" + "b" == "/a///b";
    ExampleClean();
    assert Join("/a//", "b") == "/a/b";
    assert "/a/b"[1..] == "a/b";
    assert TrimLeftChar("a/b", '/') == "a/b";
  }

  /** Cleaning keeps no empty or "." element, and ".." only leading an unrooted path. */
  lemma CleanElements(p: string)
    ensures var rooted := |p| > 0 && p[0] == '/';
      var es := CleanElems(SplitSlash(p), rooted);
      (forall k :: 0 <= k < |es| ==> es[k] != "" && es[k] != "." && '/' !in es[k])
      && (forall k :: 0 <= k < |es| && es[k] == ".." ==> !rooted && forall j :: 0 <= j < k ==> es[j] == "..")
  {
    var rooted := |p| > 0 && p[0] == '/';
    var parts := SplitSlash(p);
    var es := CleanElems(parts, rooted);
    forall k | 0 <= k < |es| ensures '/' !in es[k] {
      var j :| 0 <= j < |parts| && parts[j] == es[k];
    }
  }

  // ---------------------------------------------------------------------
  // Uploading a finished job's log

  /** The folder a job's log goes to: under the storage's own folder, when it has one. */
  function UploadSubfolder(storeSubfolder: string, workflowName: string, taskID: int): (r: string)
    ensures storeSubfolder != "" ==> |r| > |storeSubfolder| && r[..|storeSubfolder| + 1] == storeSubfolder + "/"
    ensures |r| >= 4 && r[|r| - 4..] == "/log"
  {
    var tail := ToLower(workflowName) + "/" + IntToString(taskID) + "/log";
    if storeSubfolder != "" then storeSubfolder + "/" + tail else tail
  }

  /** The log's file name: the job name in lower case, '_' turned into '-', with ".log" after. */
  function LogFileName(jobName: string): string
  {
    ReplaceAll(ToLower(jobName), "_", "-") + ".log"
  }

  /** A log file name has no '_', ends in ".log", and has no upper-case ASCII letter. */
  lemma LogFileNameShape(jobName: string)
    ensures '_' !in LogFileName(jobName)
    ensures |LogFileName(jobName)| >= 4 && LogFileName(jobName)[|LogFileName(jobName)| - 4..] == ".log"
    ensures forall c :: c in LogFileName(jobName) ==> !('A' <= c <= 'Z')
  {
    var l := ToLower(jobName);
    ReplaceAllRemovesChar(l, '_', "-");
    forall c | 'A' <= c <= 'Z' ensures c !in ReplaceAll(l, "_", "-") {
      assert c !in l;
      ReplaceAllKeepsAbsent(l, "_", "-", c);
    }
  }

  /** A VM job as the upload sees it. */
  datatype VMJob = VMJob(workflowName: string, taskID: int, jobName: string, logFile: string)

  /** The default storage: its bucket and folder. */
  datatype S3Storage = S3Storage(bucket: string, subfolder: string)

  /** An upload: the bucket, the local log file and the object key. */
  datatype Upload = Upload(bucket: string, localFile: string, objectKey: string)

  const StorageErrorPrefix := "failed to get default s3 storage: "

  /**
   * uploadVMJobLog2S3 up to the transfer itself: `store` is the default
   * storage's lookup. Without a log file nothing is uploaded.
   */
  function UploadPlan(job: VMJob, store: Result<S3Storage>): (r: Result<Option<Upload>>)
    ensures store.Err? ==> r == Err(StorageErrorPrefix + store.msg)
    ensures store.Ok? && job.logFile == "" ==> r == Ok(None)
    ensures r.Ok? && r.value.Some? ==>
      r.value.value.localFile == job.logFile && r.value.value.bucket == store.value.bucket
      && (|r.value.value.objectKey| == 0 || r.value.value.objectKey[0] != '/')
  {
    if store.Err? then Err(StorageErrorPrefix + store.msg)
    else if job.logFile == "" then Ok(None)
    else
      var folder := UploadSubfolder(store.value.subfolder, job.workflowName, job.taskID);
      Ok(Some(Upload(store.value.bucket, job.logFile, GetObjectPath(folder, LogFileName(job.jobName)))))
  }
}
