/** Uploading a recording to Dropbox: the remote path built from the local one, the plan of upload
    calls (one call for a small file; otherwise a session start, 4 MiB appends and one finish),
    which share link is returned, and the direct-download form of that link. The Dropbox SDK calls
    themselves are outside; their outcomes are parameters. */
module DropboxUpload {
  import opened Wrappers
  import opened TextUtil

  const ChunkSize: nat := 4 * 1024 * 1024

  /** The remote directory: everything before the last '/', made to start and end with '/'. */
  function RemoteDir(localPath: string): (d: string)
    ensures |d| > 0 && d[0] == '/' && d[|d| - 1] == '/'
  {
    var dir := BeforeLast(localPath, '/');
    var rooted := if StartsWith(dir, "/") then dir else "/" + dir;
    if EndsWith(rooted, "/") then rooted else rooted + "/"
  }

  function RemotePath(localPath: string): string {
    RemoteDir(localPath) + AfterLast(localPath, '/')
  }

  /** The remote path is built by reassigning `dropbox_dir` step by step, as the upload does. */
  method DropboxPath(localPath: string) returns (path: string)
    ensures path == RemotePath(localPath)
    ensures |path| > 0 && path[0] == '/'
    ensures EndsWith(path, "/" + AfterLast(localPath, '/'))
  {
    var dropboxDir := BeforeLast(localPath, '/');
    var filename := AfterLast(localPath, '/');
    if !StartsWith(dropboxDir, "/") {
      dropboxDir := "/" + dropboxDir;
    }
    if !EndsWith(dropboxDir, "/") {
      dropboxDir := dropboxDir + "/";
    }
    path := dropboxDir + filename;
    assert path[|path| - |filename| - 1..] == "/" + filename;
  }

  /** A file name alone goes to the root: "x.mkv" becomes "/x.mkv". */
  lemma BareNameGoesToRoot(localPath: string)
    requires '/' !in localPath
    ensures RemotePath(localPath) == "/" + localPath
  {
    assert LastIndexOf(localPath, '/') == -1;
    assert BeforeLast(localPath, '/') == "";
    assert !StartsWith("", "/");
    assert EndsWith("/", "/");
    assert RemoteDir(localPath) == "/";
    assert AfterLast(localPath, '/') == localPath;
  }

  /** An absolute path whose directory part does not end in '/' is kept as it is. */
  lemma AbsolutePathKept(localPath: string)
    requires '/' in localPath && StartsWith(localPath, "/")
    requires !EndsWith(BeforeLast(localPath, '/'), "/")
    ensures RemotePath(localPath) == localPath
  {
    SplitAtLast(localPath, '/');
    var dir := BeforeLast(localPath, '/');
    if |dir| > 0 {
      assert dir[0] == localPath[0];
      assert StartsWith(dir, "/");
    }
  }

  /** A relative path whose directory part has no leading or trailing '/' gains only a leading '/'. */
  lemma RelativePathRooted(localPath: string)
    requires '/' in localPath
    requires var dir := BeforeLast(localPath, '/'); |dir| > 0 && dir[0] != '/' && dir[|dir| - 1] != '/'
    ensures RemotePath(localPath) == "/" + localPath
  {
    SplitAtLast(localPath, '/');
    var dir := BeforeLast(localPath, '/');
    assert !StartsWith(dir, "/");
    var rooted := "/" + dir;
    assert rooted[|rooted| - 1] == dir[|dir| - 1];
    assert !EndsWith(rooted, "/");
  }

  /** One call to the Dropbox API, with the number of bytes it carries and the cursor offset it sends. */
  datatype Call =
    | Upload(size: nat)
    | SessionStart(size: nat)
    | Append(size: nat, offset: nat)
    | Finish(size: nat, offset: nat)

  function Sent(calls: seq<Call>): nat {
    if calls == [] then 0 else Sent(calls[..|calls| - 1]) + calls[|calls| - 1].size
  }

  /** `f.read(n)` at position `tell` of a file of `fileSize` bytes returns this many bytes. */
  function ReadLength(fileSize: nat, tell: nat, n: nat): (k: nat)
    requires tell <= fileSize
    ensures k <= n && tell + k <= fileSize
    ensures k == n || tell + k == fileSize
  {
    if fileSize - tell < n then fileSize - tell else n
  }

  /** Every call after the first carries the cursor offset that equals the bytes sent before it. */
  ghost predicate OffsetsMatch(calls: seq<Call>) {
    forall k :: 0 < k < |calls| ==> (calls[k].Append? || calls[k].Finish?) && calls[k].offset == Sent(calls[..k])
  }

  /** The calls for a file of `fileSize` bytes: a single upload up to one chunk, otherwise a session
      start with the first chunk and then the calls from offset `ChunkSize` on. */
  function Plan(fileSize: nat): seq<Call> {
    if fileSize <= ChunkSize then [Upload(fileSize)]
    else [SessionStart(ChunkSize)] + PlanFrom(fileSize, ChunkSize)
  }

  /** The session calls from offset `tell`: whole-chunk appends while more than a chunk is left,
      then a finish with the rest. */
  function PlanFrom(fileSize: nat, tell: nat): seq<Call>
    requires tell < fileSize
    decreases fileSize - tell
  {
    if fileSize - tell <= ChunkSize then [Finish(fileSize - tell, tell)]
    else [Append(ChunkSize, tell)] + PlanFrom(fileSize, tell + ChunkSize)
  }

  /** The bytes of two runs of calls add up. */
  lemma {:induction false} SentConcat(a: seq<Call>, b: seq<Call>)
    ensures Sent(a + b) == Sent(a) + Sent(b)
    decreases |b|
  {
    if b == [] {
      assert a + b == a;
    } else {
      assert (a + b)[..|a + b| - 1] == a + b[..|b| - 1];
      SentConcat(a, b[..|b| - 1]);
    }
  }

  /** The session calls from `tell` on are whole-chunk appends and a final finish of at most a chunk;
      they carry the remaining bytes, and each call's offset is `tell` plus the bytes before it. */
  lemma {:induction false} PlanFromShape(fileSize: nat, tell: nat)
    requires tell < fileSize
    ensures var r := PlanFrom(fileSize, tell);
      && |r| >= 1
      && (forall k :: 0 <= k < |r| - 1 ==> r[k].Append? && r[k].size == ChunkSize)
      && r[|r| - 1].Finish? && 0 < r[|r| - 1].size <= ChunkSize
      && Sent(r) == fileSize - tell
      && (forall k :: 0 <= k < |r| ==> (r[k].Append? || r[k].Finish?) && r[k].offset == tell + Sent(r[..k]))
    decreases fileSize - tell
  {
    var r := PlanFrom(fileSize, tell);
    if fileSize - tell <= ChunkSize {
      assert Sent(r) == Sent([]) + (fileSize - tell);
      assert r[..0] == [];
    } else {
      var head := [Append(ChunkSize, tell)];
      var rest := PlanFrom(fileSize, tell + ChunkSize);
      PlanFromShape(fileSize, tell + ChunkSize);
      assert r == head + rest;
      SentConcat(head, rest);
      assert Sent(head) == Sent([]) + ChunkSize;
      forall k | 0 <= k < |r| ensures (r[k].Append? || r[k].Finish?) && r[k].offset == tell + Sent(r[..k]) {
        if k == 0 {
          assert r[..0] == [];
        } else {
          assert r[k] == rest[k - 1];
          assert r[..k] == head + rest[..k - 1];
          SentConcat(head, rest[..k - 1]);
        }
      }
    }
  }

  /** A file of more than a chunk goes through a session: a start with a full chunk, whole-chunk
      appends and a finish of at most a chunk, each carrying the bytes sent before it as its offset. */
  lemma SessionPlanShape(fileSize: nat)
    requires fileSize > ChunkSize
    ensures var calls := Plan(fileSize);
      && |calls| >= 2
      && calls[0] == SessionStart(ChunkSize)
      && (forall k :: 0 < k < |calls| - 1 ==> calls[k].Append? && calls[k].size == ChunkSize)
      && calls[|calls| - 1].Finish?
      && 0 < calls[|calls| - 1].size <= ChunkSize
      && OffsetsMatch(calls)
      && Sent(calls) == fileSize
  {
    var calls := Plan(fileSize);
    var head := [SessionStart(ChunkSize)];
    var rest := PlanFrom(fileSize, ChunkSize);
    PlanFromShape(fileSize, ChunkSize);
    assert calls == head + rest;
    SentConcat(head, rest);
    assert Sent(head) == Sent([]) + ChunkSize;
    forall k | 0 < k < |calls| ensures (calls[k].Append? || calls[k].Finish?) && calls[k].offset == Sent(calls[..k]) {
      assert calls[k] == rest[k - 1];
      assert calls[..k] == head + rest[..k - 1];
      SentConcat(head, rest[..k - 1]);
    }
  }

  /** The plan sends the whole file; a file of at most a chunk goes in one upload call. */
  lemma PlanShape(fileSize: nat)
    ensures Sent(Plan(fileSize)) == fileSize
    ensures fileSize <= ChunkSize ==> Plan(fileSize) == [Upload(fileSize)]
    ensures fileSize > ChunkSize ==>
      Plan(fileSize)[0] == SessionStart(ChunkSize) && Plan(fileSize)[|Plan(fileSize)| - 1].Finish? && OffsetsMatch(Plan(fileSize))
  {
    if fileSize <= ChunkSize {
      assert Sent(Plan(fileSize)) == Sent([]) + fileSize;
    } else {
      SessionPlanShape(fileSize);
    }
  }

  /** The sequence of calls `upload_to_dropbox` makes for a file of `fileSize` bytes (the file is
      assumed not to change while it is read). */
  method UploadPlan(fileSize: nat) returns (calls: seq<Call>)
    ensures calls == Plan(fileSize)
  {
    if fileSize <= ChunkSize {
      calls := [Upload(fileSize)];
      return;
    }
    var tell: nat := ReadLength(fileSize, 0, ChunkSize);
    calls := [SessionStart(tell)];
    var offset: nat := tell;
    var finished := false;
    while tell < fileSize
      invariant ChunkSize <= tell <= fileSize
      invariant !finished ==> offset == tell && tell < fileSize && calls + PlanFrom(fileSize, tell) == Plan(fileSize)
      invariant finished ==> tell == fileSize && calls == Plan(fileSize)
      decreases fileSize - tell
    {
      if fileSize - tell <= ChunkSize {
        var n := ReadLength(fileSize, tell, ChunkSize);
        assert PlanFrom(fileSize, tell) == [Finish(n, offset)];
        calls := calls + [Finish(n, offset)];
        tell := tell + n;
        finished := true;
      } else {
        var n := ReadLength(fileSize, tell, ChunkSize);
        assert n == ChunkSize;
        assert PlanFrom(fileSize, tell) == [Append(n, offset)] + PlanFrom(fileSize, tell + n);
        ghost var before := calls;
        calls := calls + [Append(n, offset)];
        assert calls + PlanFrom(fileSize, tell + n) == before + PlanFrom(fileSize, tell);
        tell := tell + n;
        offset := tell;
      }
    }
  }

  /** The outcome of one SDK call that can raise `ApiError`; `alreadyExists` is what the error's
      `is_shared_link_already_exists()` answers, where the error has that test. */
  datatype Api<T> = Ok(value: T) | ApiError(alreadyExists: bool)

  /** The listing found no link and creating one raised "a shared link already exists". */
  predicate AlreadyExists(listed: Api<seq<string>>, created: Api<string>) {
    listed.Ok? && |listed.value| == 0 && created.ApiError? && created.alreadyExists
  }

  /** The share-link step: the first existing link, or a newly created one; when creating reports that
      a link already exists, the first link of a second listing; `None` after any other API error from
      creating. A listing error has no "already exists" test, so asking it raises `AttributeError` out
      of the handler, and a second failing listing inside the handler raises out of the upload. */
  function ShareLink(listed: Api<seq<string>>, created: Api<string>, relisted: Api<seq<string>>):
    (r: Result<Option<string>, string>)
    ensures listed.ApiError? ==> r == Failure("AttributeError")
    ensures listed.Ok? && |listed.value| > 0 ==> r == Success(Some(listed.value[0]))
    ensures listed.Ok? && |listed.value| == 0 && created.Ok? ==> r == Success(Some(created.value))
    ensures listed.Ok? && |listed.value| == 0 && created.ApiError? && !created.alreadyExists ==> r == Success(None)
    ensures AlreadyExists(listed, created) && relisted.Ok? && |relisted.value| > 0 ==> r == Success(Some(relisted.value[0]))
    ensures AlreadyExists(listed, created) && relisted.Ok? && |relisted.value| == 0 ==> r == Success(None)
    ensures AlreadyExists(listed, created) && relisted.ApiError? ==> r == Failure("ApiError")
    ensures r.Failure? <==> listed.ApiError? || (AlreadyExists(listed, created) && relisted.ApiError?)
    ensures r == Success(None) ==>
      listed.Ok? && created.ApiError? && (!created.alreadyExists || (relisted.Ok? && |relisted.value| == 0))
  {
    if listed.ApiError? then Failure("AttributeError")
    else if |listed.value| > 0 then Success(Some(listed.value[0]))
    else
      match created
      case Ok(url) => Success(Some(url))
      case ApiError(exists_) =>
        if !exists_ then Success(None)
        else
          match relisted
          case ApiError(_) => Failure("ApiError")
          case Ok(links) => if |links| > 0 then Success(Some(links[0])) else Success(None)
  }

  /** The bytes carried by a prefix of the calls never exceed those of all of them. */
  lemma {:induction false} SentPrefix(calls: seq<Call>, k: nat)
    requires k <= |calls|
    ensures Sent(calls[..k]) <= Sent(calls)
    decreases |calls|
  {
    if k < |calls| {
      assert calls[..|calls| - 1][..k] == calls[..k];
      SentPrefix(calls[..|calls| - 1], k);
    } else {
      assert calls[..k] == calls;
    }
  }

  /** `upload_to_dropbox`: the remote path, then the file's size (a missing local file raises
      `FileNotFoundError` before anything is uploaded), then the upload calls (an exception at call
      `failAt` ends the upload after that call and is swallowed), then the share-link step, which runs
      however the upload went and whose outcome is what is returned. */
  method UploadToDropbox(localPath: string, fileSize: Option<nat>, failAt: Option<nat>,
                         listed: Api<seq<string>>, created: Api<string>, relisted: Api<seq<string>>)
    returns (remote: string, calls: seq<Call>, r: Result<Option<string>, string>)
    ensures remote == RemotePath(localPath)
    ensures fileSize.None? ==> calls == [] && r == Failure("FileNotFoundError")
    ensures fileSize.Some? ==> r == ShareLink(listed, created, relisted)
    ensures fileSize.Some? && failAt.None? ==> Sent(calls) == fileSize.value
    ensures fileSize.Some? && failAt.None? && fileSize.value <= ChunkSize ==> calls == [Upload(fileSize.value)]
    ensures fileSize.Some? && failAt.None? && fileSize.value > ChunkSize ==>
      calls[0] == SessionStart(ChunkSize) && calls[|calls| - 1].Finish? && OffsetsMatch(calls)
    ensures fileSize.Some? && failAt.Some? ==> |calls| <= failAt.value + 1 && Sent(calls) <= fileSize.value
    ensures fileSize.Some? && failAt.None? ==> calls == Plan(fileSize.value)
    ensures fileSize.Some? && failAt.Some? ==>
      var plan := Plan(fileSize.value);
      calls == plan[..if failAt.value + 1 < |plan| then failAt.value + 1 else |plan|]
  {
    remote := DropboxPath(localPath);
    if fileSize.None? {
      return remote, [], Failure("FileNotFoundError");
    }
    var plan := UploadPlan(fileSize.value);
    PlanShape(fileSize.value);
    calls := plan;
    if failAt.Some? && failAt.value + 1 < |plan| {
      calls := plan[..failAt.value + 1];
      SentPrefix(plan, failAt.value + 1);
    }
    r := ShareLink(listed, created, relisted);
  }

  /** The direct-download link: every 'dl=0' of the share link becomes 'dl=1'. */
  function DirectUrl(shareUrl: string): string {
    ReplaceAll(shareUrl, "dl=0", "dl=1")
  }

  lemma {:induction false} ReplaceKeepsLength(s: string)
    ensures |DirectUrl(s)| == |s|
    decreases |s|
  {
    if |s| >= 4 {
      if s[..4] == "dl=0" { ReplaceKeepsLength(s[4..]); } else { ReplaceKeepsLength(s[1..]); }
    }
  }

  /** The rewrite keeps the first character: an occurrence replaced at the front starts with 'd' too. */
  lemma DirectUrlFirst(s: string)
    requires |s| > 0
    ensures |DirectUrl(s)| > 0 && DirectUrl(s)[0] == s[0]
  {
    if |s| >= 4 && s[..4] == "dl=0" {
      assert s[0] == s[..4][0];
    }
  }

  /** Rewriting never introduces a 'd', so a prefix without 'd' of the result was already there. */
  lemma {:induction false} PrefixWithoutD(s: string, q: string)
    requires 'd' !in q
    requires StartsWith(DirectUrl(s), q)
    ensures StartsWith(s, q)
    decreases |s|
  {
    if |q| == 0 {
    } else if |s| < 4 {
      assert DirectUrl(s) == s;
    } else if s[..4] != "dl=0" {
      var rest := DirectUrl(s[1..]);
      assert DirectUrl(s) == [s[0]] + rest;
      assert StartsWith(rest, q[1..]);
      PrefixWithoutD(s[1..], q[1..]);
    } else {
      DirectUrlFirst(s);
      assert false;
    }
  }

  /** After the rewrite no 'dl=0' is left in the link. */
  lemma {:induction false} DirectUrlHasNoDl0(s: string)
    ensures !Contains(DirectUrl(s), "dl=0")
    decreases |s|
  {
    var t := DirectUrl(s);
    if |s| < 4 {
      assert |t| < 4;
    } else if s[..4] == "dl=0" {
      DirectUrlHasNoDl0(s[4..]);
      var rest := DirectUrl(s[4..]);
      assert t == "dl=1" + rest;
      assert t[4..] == rest;
      forall i | 0 <= i <= |t| ensures !OccursAt(t, "dl=0", i) {
        if i >= 4 && i + 4 <= |t| {
          assert t[i..i + 4] == rest[i - 4..i];
          assert !OccursAt(rest, "dl=0", i - 4);
        } else if i < 4 && i + 4 <= |t| {
          assert t[i] != 'd' || t[i + 3] != '0';
        }
      }
    } else {
      DirectUrlHasNoDl0(s[1..]);
      var rest := DirectUrl(s[1..]);
      assert t == [s[0]] + rest;
      assert t[1..] == rest;
      forall i | 0 <= i <= |t| ensures !OccursAt(t, "dl=0", i) {
        if i >= 1 && i + 4 <= |t| {
          assert t[i..i + 4] == rest[i - 1..i + 3];
          assert !OccursAt(rest, "dl=0", i - 1);
        } else if i == 0 && OccursAt(t, "dl=0", 0) {
          assert rest[..3] == t[1..4];
          PrefixWithoutD(s[1..], "l=0");
          assert false;
        }
      }
    }
  }

  /** A link without 'dl=0' is returned unchanged. */
  lemma {:induction false} DirectUrlUnchanged(s: string)
    requires !Contains(s, "dl=0")
    ensures DirectUrl(s) == s
    decreases |s|
  {
    if |s| >= 4 {
      assert !OccursAt(s, "dl=0", 0);
      assert !Contains(s[1..], "dl=0") by {
        forall i | 0 <= i <= |s[1..]| && OccursAt(s[1..], "dl=0", i) ensures false {
          assert s[i + 1..i + 1 + 4] == s[1..][i..i + 4];
          assert OccursAt(s, "dl=0", i + 1);
        }
      }
      DirectUrlUnchanged(s[1..]);
    }
  }
}
