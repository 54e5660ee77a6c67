/** `DGV_Backend::handle_upload`: the fail-fast pipeline nonce, file present, temporary file on
    disk, move into the upload base directory, Vimeo upload, delete the staged file, insert the
    post, write its meta, respond. */
module Upload {
  import opened Wrappers
  import opened Php
  import opened FailFast
  import opened Vimeo
  import opened WordPress

  /** The outcomes of the calls the handler makes into code it cannot see:
      `move_uploaded_file`, the Vimeo client's `upload`, and `wp_insert_post`. */
  datatype Oracle = Oracle(moveOk: bool, remote: UploadResult, insert: InsertResult)

  const NoFileMessage := "No file uploaded..."
  const TmpMissingMessage := "File does not exists on the server."
  const MoveFailedMessage := "Error uploading file. Please check your disk space or permissionss."
  const UploadedMessage := "Video uploaded successfully!"
  const DefaultPrivacyView := "anybody"
  const PublishStatus := "publish"
  const PrivacyMetaKey := "dgv_privacy"
  const ResponseMetaKey := "dgv_response"

  /** The nonce as the upload handler reads it: from `$_POST` only. */
  function UploadNonce(req: Request): string {
    ValueOrBlank(req.post, "nonce")
  }

  /** An optional form field: its value when submitted and not `empty()`, else `default`. */
  function FieldOr(post: map<string, string>, k: string, default: string): string {
    if k in post && !IsEmpty(post[k]) then post[k] else default
  }

  /** The parameters handed to the Vimeo client: each optional field is taken as submitted
      unless it is absent or `empty()`, in which case the name and the description are blank
      and the privacy view is "anybody"; so the view is never `empty()`. */
  function BuildParams(post: map<string, string>): (p: UploadParams)
    ensures "title" in post && !IsEmpty(post["title"]) ==> p.name == post["title"]
    ensures "title" !in post || IsEmpty(post["title"]) ==> p.name == ""
    ensures "description" in post && !IsEmpty(post["description"]) ==> p.description == post["description"]
    ensures "description" !in post || IsEmpty(post["description"]) ==> p.description == ""
    ensures "privacy_view" in post && !IsEmpty(post["privacy_view"]) ==> p.privacy.view == post["privacy_view"]
    ensures "privacy_view" !in post || IsEmpty(post["privacy_view"]) ==> p.privacy.view == "anybody"
    ensures !IsEmpty(p.privacy.view)
  {
    UploadParams(
      FieldOr(post, "title", ""),
      FieldOr(post, "description", ""),
      Privacy(FieldOr(post, "privacy_view", DefaultPrivacyView)))
  }

  /** Where the uploaded file is staged: the upload base directory, the directory separator,
      then the client-supplied file name as given. */
  function StagedPath(env: Env, file: UploadedFile): (path: string)
    ensures |path| == |env.uploadBaseDir| + |env.directorySeparator| + |file.name|
    ensures path[..|env.uploadBaseDir|] == env.uploadBaseDir
    ensures path[|env.uploadBaseDir|..|env.uploadBaseDir| + |env.directorySeparator|] == env.directorySeparator
    ensures path[|path| - |file.name|..] == file.name
  {
    var path := env.uploadBaseDir + env.directorySeparator + file.name;
    assert path[..|env.uploadBaseDir|] == env.uploadBaseDir;
    assert path[|path| - |file.name|..] == file.name;
    path
  }

  /** The `mkdir` of the upload base directory, attempted only when it does not exist. */
  function DirLog(env: Env, site: Site): seq<Effect> {
    if env.uploadBaseDir in site.files then [] else [MakeDir(env.uploadBaseDir)]
  }

  /** The post recorded for a finished upload. */
  function RecordPost(env: Env, params: UploadParams): Post {
    Post(env.stripAllTags(params.name), params.description, PublishStatus, env.postType, env.currentUser)
  }

  /** The meta writes after the insertion: none when it returned a `WP_Error`. */
  function MetaLog(insert: InsertResult, params: UploadParams, response: string): seq<Effect> {
    match insert
    case Inserted(id) => [
      UpdatePostMeta(id, PrivacyMetaKey, PrivacyMeta(params.privacy)),
      UpdatePostMeta(id, ResponseMetaKey, ResponseMeta(response))]
    case InsertError(_) => []
  }

  /** The handler. The temporary file's existence is read from the files on disk. */
  function HandleUpload(env: Env, req: Request, site: Site, io: Oracle): (r: Outcome)
    ensures !Authorized(env, UploadNonce(req)) ==> r == Outcome(Error(UnauthorizedMessage), [])
    ensures r.response.Success? ==> io.remote.Uploaded? && r.response == Success(UploadedMessage, Some(io.remote.response))
    ensures forall i :: 0 <= i < |r.log| ==> !r.log[i].UpdateOption?
  {
    if !Authorized(env, UploadNonce(req)) then
      Outcome(Error(UnauthorizedMessage), [])
    else if req.file.None? then
      Outcome(Error(NoFileMessage), [])
    else if req.file.value.tmpName !in site.files then
      Outcome(Error(TmpMissingMessage), [])
    else
      var file := req.file.value;
      var path := StagedPath(env, file);
      var dir := DirLog(env, site);
      if !io.moveOk then
        Outcome(Error(MoveFailedMessage), dir)
      else
        var params := BuildParams(req.post);
        var staged := dir + [MoveUploadedFile(file.tmpName, path), RemoteUpload(path, params)];
        match io.remote
        case RequestException(m) => Outcome(Error(m), staged)
        case UploadException(m) => Outcome(Error(m), staged)
        case Uploaded(response) =>
          Outcome(Success(UploadedMessage, Some(response)),
            staged + [Unlink(path), InsertPost(RecordPost(env, params), io.insert)] + MetaLog(io.insert, params, response))
  }

  // ----- The order of the checks, as an independent reference -----

  /** The checks the handler makes, each of which can end the request with an error. */
  datatype Check = NonceCheck | FileCheck | TmpFileCheck | MoveCheck | RemoteCheck

  /** The checks in the order the handler makes them. */
  const Checks: seq<Check> := [NonceCheck, FileCheck, TmpFileCheck, MoveCheck, RemoteCheck]

  predicate Passes(env: Env, req: Request, site: Site, io: Oracle, c: Check) {
    match c
    case NonceCheck => Authorized(env, UploadNonce(req))
    case FileCheck => req.file.Some?
    case TmpFileCheck => req.file.Some? && req.file.value.tmpName in site.files
    case MoveCheck => io.moveOk
    case RemoteCheck => io.remote.Uploaded?
  }

  /** The error message a failing check produces. */
  function FailureMessage(c: Check, io: Oracle): string {
    match c
    case NonceCheck => UnauthorizedMessage
    case FileCheck => NoFileMessage
    case TmpFileCheck => TmpMissingMessage
    case MoveCheck => MoveFailedMessage
    case RemoteCheck => if io.remote.Uploaded? then "" else io.remote.message
  }

  /** The position in `Checks` of the first check that fails, if any. */
  function FirstFailedCheck(env: Env, req: Request, site: Site, io: Oracle): (r: Option<nat>)
    ensures r.Some? ==> r.value < |Checks| && !Passes(env, req, site, io, Checks[r.value])
    ensures r.Some? ==> forall j :: 0 <= j < r.value ==> Passes(env, req, site, io, Checks[j])
    ensures r.None? <==> forall j :: 0 <= j < |Checks| ==> Passes(env, req, site, io, Checks[j])
  {
    FirstFailing(Checks, (c: Check) => Passes(env, req, site, io, c))
  }

  /** The handler fails fast: it succeeds exactly when every check passes, and otherwise
      responds with the message of the first check that fails. */
  lemma UploadFailsAtFirstFailingCheck(env: Env, req: Request, site: Site, io: Oracle)
    ensures FirstFailedCheck(env, req, site, io).None? <==> HandleUpload(env, req, site, io).response.Success?
    ensures var first := FirstFailedCheck(env, req, site, io);
      first.Some? ==> HandleUpload(env, req, site, io).response == Error(FailureMessage(Checks[first.value], io))
  {
    var first := FirstFailedCheck(env, req, site, io);
    if first.Some? {
      var i := first.value;
      if i >= 1 { assert Passes(env, req, site, io, Checks[0]); }
      if i >= 2 { assert Passes(env, req, site, io, Checks[1]); }
      if i >= 3 { assert Passes(env, req, site, io, Checks[2]); }
      if i >= 4 { assert Passes(env, req, site, io, Checks[3]); }
    } else {
      assert Passes(env, req, site, io, Checks[0]);
      assert Passes(env, req, site, io, Checks[1]);
      assert Passes(env, req, site, io, Checks[2]);
      assert Passes(env, req, site, io, Checks[3]);
      assert Passes(env, req, site, io, Checks[4]);
    }
  }

  // ----- Effects on the stores, path by path -----

  /** The stores after the staging part of the pipeline: the base directory exists, the
      temporary file has moved to the staged path, and the remote call changed nothing local. */
  lemma ApplyStaging(env: Env, site: Site, tmp: string, path: string, params: UploadParams)
    ensures Apply(site, DirLog(env, site) + [MoveUploadedFile(tmp, path), RemoteUpload(path, params)])
      == site.(files := site.files + {env.uploadBaseDir} - {tmp} + {path})
  {
    var dir := DirLog(env, site);
    var tail := [MoveUploadedFile(tmp, path), RemoteUpload(path, params)];
    ApplyAppend(site, dir, tail);
    var s1 := Apply(site, dir);
    assert s1 == site.(files := site.files + {env.uploadBaseDir});
    ApplyPair(s1, tail[0], tail[1]);
  }

  /** A rejected nonce, a missing `file` part or a missing temporary file ends the request
      before anything is done: no directory, no move, no remote call, no post, no meta. */
  lemma UploadNoEffectBeforeStaging(env: Env, req: Request, site: Site, io: Oracle)
    requires !Authorized(env, UploadNonce(req)) || req.file.None? || req.file.value.tmpName !in site.files
    ensures HandleUpload(env, req, site, io).response.Error?
    ensures HandleUpload(env, req, site, io).log == []
    ensures Apply(site, HandleUpload(env, req, site, io).log) == site
  {
  }

  /** A failed move ends the request with its own error; the only possible effect is the
      creation of the upload base directory, and no remote call is made. */
  lemma UploadMoveFailure(env: Env, req: Request, site: Site, io: Oracle)
    requires Authorized(env, UploadNonce(req)) && req.file.Some? && req.file.value.tmpName in site.files
    requires !io.moveOk
    ensures HandleUpload(env, req, site, io).response == Error(MoveFailedMessage)
    ensures Apply(site, HandleUpload(env, req, site, io).log) == site.(files := site.files + {env.uploadBaseDir})
    ensures forall e :: e in HandleUpload(env, req, site, io).log ==> e == MakeDir(env.uploadBaseDir)
  {
  }

  /** When the Vimeo client throws, the response carries the exception's message and the
      staged file is left on disk: the temporary file has moved to the staged path, the base
      directory exists, no other file changes, and there is no unlink, post or meta. */
  lemma RemoteFailureLeavesStagedFile(env: Env, req: Request, site: Site, io: Oracle)
    requires Authorized(env, UploadNonce(req)) && req.file.Some? && req.file.value.tmpName in site.files
    requires io.moveOk && !io.remote.Uploaded?
    ensures HandleUpload(env, req, site, io).response == Error(io.remote.message)
    ensures var s' := Apply(site, HandleUpload(env, req, site, io).log);
      && StagedPath(env, req.file.value) in s'.files
      && s'.files == site.files + {env.uploadBaseDir} - {req.file.value.tmpName} + {StagedPath(env, req.file.value)}
      && s'.posts == site.posts && s'.meta == site.meta && s'.options == site.options
  {
    var file := req.file.value;
    ApplyStaging(env, site, file.tmpName, StagedPath(env, file), BuildParams(req.post));
  }

  /** After a successful remote upload the staged file is deleted (so of the files on disk only
      the temporary file is gone and the base directory exists), exactly one post is
      inserted (the stripped title, the description, published, of the plugin's post type, by
      the current user), the privacy and the remote response are stored as its meta unless the
      insertion returned a `WP_Error`, and the response reports success either way. */
  lemma UploadSuccessRecord(env: Env, req: Request, site: Site, io: Oracle)
    requires Authorized(env, UploadNonce(req)) && req.file.Some? && req.file.value.tmpName in site.files
    requires io.moveOk && io.remote.Uploaded?
    ensures HandleUpload(env, req, site, io).response == Success(UploadedMessage, Some(io.remote.response))
    ensures var s' := Apply(site, HandleUpload(env, req, site, io).log);
      var post := Post(env.stripAllTags(BuildParams(req.post).name), BuildParams(req.post).description,
                       "publish", env.postType, env.currentUser);
      && StagedPath(env, req.file.value) !in s'.files
      && s'.files == site.files + {env.uploadBaseDir} - {req.file.value.tmpName} + {StagedPath(env, req.file.value)}
                       - {StagedPath(env, req.file.value)}
      && s'.options == site.options
      && (io.insert.Inserted? ==> s'.posts == site.posts[io.insert.id := post])
      && (io.insert.Inserted? ==> s'.meta == site.meta
            [(io.insert.id, "dgv_privacy") := PrivacyMeta(BuildParams(req.post).privacy)]
            [(io.insert.id, "dgv_response") := ResponseMeta(io.remote.response)])
      && (io.insert.InsertError? ==> s'.posts == site.posts && s'.meta == site.meta)
  {
    var file := req.file.value;
    var path := StagedPath(env, file);
    var params := BuildParams(req.post);
    var staged := DirLog(env, site) + [MoveUploadedFile(file.tmpName, path), RemoteUpload(path, params)];
    var record := [Unlink(path), InsertPost(RecordPost(env, params), io.insert)];
    var meta := MetaLog(io.insert, params, io.remote.response);
    ApplyStaging(env, site, file.tmpName, path, params);
    ApplyAppend(site, staged + record, meta);
    ApplyAppend(site, staged, record);
    var s2 := Apply(site, staged);
    ApplyPair(s2, record[0], record[1]);
    var s3 := Apply(s2, record);
    ApplyKeepsFiles(s3, meta);
    match io.insert {
      case Inserted(id) =>
        ApplyPair(s3, meta[0], meta[1]);
      case InsertError(_) =>
    }
  }

  /** A newly inserted post is one more post on the site. */
  lemma UploadAddsOnePost(env: Env, req: Request, site: Site, io: Oracle)
    requires Authorized(env, UploadNonce(req)) && req.file.Some? && req.file.value.tmpName in site.files
    requires io.moveOk && io.remote.Uploaded? && io.insert.Inserted? && io.insert.id !in site.posts
    ensures |Apply(site, HandleUpload(env, req, site, io).log).posts| == |site.posts| + 1
  {
    UploadSuccessRecord(env, req, site, io);
  }

  /** Staged paths collide exactly when the client-supplied file names are equal: the path
      neither depends on the temporary file nor disambiguates a repeated name. */
  lemma StagedPathIdentifiesName(env: Env, a: UploadedFile, b: UploadedFile)
    ensures StagedPath(env, a) == StagedPath(env, b) <==> a.name == b.name
  {
    if StagedPath(env, a) == StagedPath(env, b) {
      var p := StagedPath(env, a);
      assert a.name == p[|p| - |a.name|..];
    }
  }

  /** The Vimeo client is called exactly when the nonce, file, temporary-file and move checks
      all pass, and then exactly once, on the staged path, with the parameters built from the
      form. */
  lemma UploadRemoteCall(env: Env, req: Request, site: Site, io: Oracle)
    ensures var log := HandleUpload(env, req, site, io).log;
      (exists i :: 0 <= i < |log| && log[i].RemoteUpload?) <==>
        Authorized(env, UploadNonce(req)) && req.file.Some? && req.file.value.tmpName in site.files && io.moveOk
    ensures var log := HandleUpload(env, req, site, io).log;
      forall i, j :: 0 <= i < |log| && 0 <= j < |log| && log[i].RemoteUpload? && log[j].RemoteUpload? ==> i == j
    ensures var log := HandleUpload(env, req, site, io).log;
      forall i :: 0 <= i < |log| && log[i].RemoteUpload? ==>
        log[i] == RemoteUpload(StagedPath(env, req.file.value), BuildParams(req.post))
  {
    var log := HandleUpload(env, req, site, io).log;
    if Authorized(env, UploadNonce(req)) && req.file.Some? && req.file.value.tmpName in site.files && io.moveOk {
      var k := |DirLog(env, site)| + 1;
      assert log[k] == RemoteUpload(StagedPath(env, req.file.value), BuildParams(req.post));
      assert forall i :: 0 <= i < |log| && i != k ==> !log[i].RemoteUpload?;
    } else {
      assert forall i :: 0 <= i < |log| ==> log[i].MakeDir?;
    }
  }

  /** The oracle of the run in which the move and the remote call succeed: the remote
      response is `response` unless `io` already carries one. */
  function Succeeding(io: Oracle, response: string): Oracle {
    Oracle(true, if io.remote.Uploaded? then io.remote else Uploaded(response), io.insert)
  }

  /** Failures only cut the pipeline short: the effects of any run are the opening effects,
      in the same order, of the run that gets past every check. */
  lemma FailureTruncatesPipeline(env: Env, req: Request, site: Site, io: Oracle, response: string)
    ensures HandleUpload(env, req, site, io).log <= HandleUpload(env, req, site, Succeeding(io, response)).log
  {
  }

  /** The upload handler never writes an option. */
  lemma UploadKeepsOptions(env: Env, req: Request, site: Site, io: Oracle)
    ensures Apply(site, HandleUpload(env, req, site, io).log).options == site.options
  {
    ApplyKeepsOptions(site, HandleUpload(env, req, site, io).log);
  }

  /** Meta is only ever written for the post just inserted, so every meta row keeps
      belonging to an existing post. */
  lemma UploadPreservesMetaOwnership(env: Env, req: Request, site: Site, io: Oracle)
    requires MetaBelongsToPosts(site)
    ensures MetaBelongsToPosts(Apply(site, HandleUpload(env, req, site, io).log))
  {
    var log := HandleUpload(env, req, site, io).log;
    if Authorized(env, UploadNonce(req)) && req.file.Some? && req.file.value.tmpName in site.files && io.moveOk {
      if io.remote.Uploaded? {
        UploadSuccessRecord(env, req, site, io);
      } else {
        RemoteFailureLeavesStagedFile(env, req, site, io);
      }
    } else {
      ApplyKeepsPosts(site, log);
      ApplyKeepsMeta(site, log);
    }
  }
}
