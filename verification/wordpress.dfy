/** The WordPress host as the handlers see it: the request, the per-site environment, the
    stores a handler can change (options, files on disk, posts, post meta), and the JSON
    response. A handler does not change the stores directly: it returns a log of the effects
    it performs, in order, and `Apply` replays that log on the stores. */
module WordPress {
  import opened Wrappers
  import opened Vimeo

  /** A post id. `wp_insert_post` never hands out 0: without `$wp_error` it returns 0 to
      report a failure, which the model records as `InsertError`. */
  type PostId = n: nat | n > 0 witness 1

  /** A row written by `wp_insert_post`. */
  datatype Post = Post(title: string, content: string, status: string, postType: string, author: nat)

  /** What `wp_insert_post` returns: the new post's id, or a failure (a `WP_Error`, or the 0
      it returns in its place when called without `$wp_error`). */
  datatype InsertResult = Inserted(id: PostId) | InsertError(message: string)

  /** The values the plugin stores as post meta. */
  datatype MetaValue = PrivacyMeta(privacy: Privacy) | ResponseMeta(response: string)

  /** The stores a request can change: the option table, the paths that exist on disk,
      the posts and their meta, keyed by (post id, meta key). */
  datatype Site = Site(
    options: map<string, string>,
    files: set<string>,
    posts: map<PostId, Post>,
    meta: map<(PostId, string), MetaValue>)

  /** One side effect of a handler, in the order it is performed. */
  datatype Effect =
    | UpdateOption(key: string, value: string)
    | MakeDir(path: string)
    | MoveUploadedFile(from: string, to: string)
    | RemoteUpload(path: string, params: UploadParams)
    | Unlink(path: string)
    | InsertPost(post: Post, result: InsertResult)
    | UpdatePostMeta(postId: PostId, metaKey: string, metaValue: MetaValue)
  {
    /** Effects that can change which paths exist on disk. */
    predicate TouchesFiles() {
      MakeDir? || MoveUploadedFile? || Unlink?
    }
  }

  /** The stores after one effect. The remote upload changes nothing local; a failed post
      insertion changes nothing. */
  function Step(site: Site, e: Effect): Site {
    match e
    case UpdateOption(k, v) => site.(options := site.options[k := v])
    case MakeDir(p) => site.(files := site.files + {p})
    case MoveUploadedFile(from, to) => site.(files := site.files - {from} + {to})
    case RemoteUpload(_, _) => site
    case Unlink(p) => site.(files := site.files - {p})
    case InsertPost(post, result) =>
      (match result
       case Inserted(id) => site.(posts := site.posts[id := post])
       case InsertError(_) => site)
    case UpdatePostMeta(id, k, v) => site.(meta := site.meta[(id, k) := v])
  }

  /** The stores after replaying `log` from the first effect to the last. */
  function Apply(site: Site, log: seq<Effect>): Site
    decreases |log|
  {
    if |log| == 0 then site else Apply(Step(site, log[0]), log[1..])
  }

  /** Replaying two logs one after the other is replaying their concatenation. */
  lemma {:induction false} ApplyAppend(site: Site, a: seq<Effect>, b: seq<Effect>)
    ensures Apply(site, a + b) == Apply(Apply(site, a), b)
    decreases |a|
  {
    if |a| == 0 {
      assert a + b == b;
    } else {
      assert (a + b)[0] == a[0];
      assert (a + b)[1..] == a[1..] + b;
      ApplyAppend(Step(site, a[0]), a[1..], b);
    }
  }

  /** Replaying a two-effect log is performing the two effects in order. */
  lemma ApplyPair(site: Site, a: Effect, b: Effect)
    ensures Apply(site, [a, b]) == Step(Step(site, a), b)
  {
    assert [a, b][1..] == [b];
    assert Apply(Step(site, a), [b]) == Apply(Step(Step(site, a), b), []);
  }

  /** A log without option writes leaves the options as they were. */
  lemma {:induction false} ApplyKeepsOptions(site: Site, log: seq<Effect>)
    requires forall i :: 0 <= i < |log| ==> !log[i].UpdateOption?
    ensures Apply(site, log).options == site.options
    decreases |log|
  {
    if |log| > 0 {
      assert forall i :: 0 <= i < |log| - 1 ==> log[1..][i] == log[i + 1];
      ApplyKeepsOptions(Step(site, log[0]), log[1..]);
    }
  }

  /** A log without file effects leaves the files on disk as they were. */
  lemma {:induction false} ApplyKeepsFiles(site: Site, log: seq<Effect>)
    requires forall i :: 0 <= i < |log| ==> !log[i].TouchesFiles()
    ensures Apply(site, log).files == site.files
    decreases |log|
  {
    if |log| > 0 {
      assert forall i :: 0 <= i < |log| - 1 ==> log[1..][i] == log[i + 1];
      ApplyKeepsFiles(Step(site, log[0]), log[1..]);
    }
  }

  /** A log without post insertions leaves the posts as they were. */
  lemma {:induction false} ApplyKeepsPosts(site: Site, log: seq<Effect>)
    requires forall i :: 0 <= i < |log| ==> !log[i].InsertPost?
    ensures Apply(site, log).posts == site.posts
    decreases |log|
  {
    if |log| > 0 {
      assert forall i :: 0 <= i < |log| - 1 ==> log[1..][i] == log[i + 1];
      ApplyKeepsPosts(Step(site, log[0]), log[1..]);
    }
  }

  /** A log without meta writes leaves the post meta as it was. */
  lemma {:induction false} ApplyKeepsMeta(site: Site, log: seq<Effect>)
    requires forall i :: 0 <= i < |log| ==> !log[i].UpdatePostMeta?
    ensures Apply(site, log).meta == site.meta
    decreases |log|
  {
    if |log| > 0 {
      assert forall i :: 0 <= i < |log| - 1 ==> log[1..][i] == log[i + 1];
      ApplyKeepsMeta(Step(site, log[0]), log[1..]);
    }
  }

  /** The option keys a log writes. */
  function WrittenKeys(log: seq<Effect>): set<string> {
    set i | 0 <= i < |log| && log[i].UpdateOption? :: log[i].key
  }

  /** A log of option writes, each writing the value `values` holds for its key, sets exactly
      the keys it names to those values and changes nothing else. */
  lemma {:induction false} ApplyOptionWrites(site: Site, log: seq<Effect>, values: map<string, string>)
    requires forall i :: 0 <= i < |log| ==> log[i].UpdateOption? && log[i].key in values && log[i].value == values[log[i].key]
    ensures Apply(site, log).options.Keys == site.options.Keys + WrittenKeys(log)
    ensures forall k :: k in WrittenKeys(log) ==> Apply(site, log).options[k] == values[k]
    ensures forall k :: k in site.options && k !in WrittenKeys(log) ==> Apply(site, log).options[k] == site.options[k]
    ensures Apply(site, log).files == site.files
    ensures Apply(site, log).posts == site.posts
    ensures Apply(site, log).meta == site.meta
    decreases |log|
  {
    ApplyKeepsFiles(site, log);
    ApplyKeepsPosts(site, log);
    ApplyKeepsMeta(site, log);
    if |log| > 0 {
      var rest := log[1..];
      assert forall i :: 0 <= i < |rest| ==> rest[i] == log[i + 1];
      ApplyOptionWrites(Step(site, log[0]), rest, values);
      assert WrittenKeys(log) == {log[0].key} + WrittenKeys(rest) by {
        forall k | k in WrittenKeys(log) ensures k in {log[0].key} + WrittenKeys(rest) {
          var i :| 0 <= i < |log| && log[i].UpdateOption? && log[i].key == k;
          if i > 0 {
            assert rest[i - 1] == log[i];
          }
        }
        forall k | k in WrittenKeys(rest) ensures k in WrittenKeys(log) {
          var i :| 0 <= i < |rest| && rest[i].UpdateOption? && rest[i].key == k;
          assert log[i + 1] == rest[i];
        }
      }
    }
  }

  /** Every meta row belongs to a post that exists. */
  ghost predicate MetaBelongsToPosts(site: Site) {
    forall id, k :: (id, k) in site.meta ==> id in site.posts
  }

  /** A file staged by the upload form: the client-supplied name and PHP's temporary path. */
  datatype UploadedFile = UploadedFile(name: string, tmpName: string)

  /** An admin-ajax request: its query string (`$_GET`), its form body (`$_POST`) and the
      `file` part of `$_FILES`, if present. Values are what PHP exposes in those arrays. */
  datatype Request = Request(query: map<string, string>, post: map<string, string>, file: Option<UploadedFile>)

  /** `$_REQUEST` as WordPress builds it: the query merged with the form body, the form body
      winning on a shared key. */
  function RequestVars(req: Request): (vars: map<string, string>)
    ensures vars.Keys == req.query.Keys + req.post.Keys
    ensures forall k :: k in req.post ==> vars[k] == req.post[k]
    ensures forall k :: k in req.query && k !in req.post ==> vars[k] == req.query[k]
  {
    req.query + req.post
  }

  /** `isset($a[$k]) ? $a[$k] : ''`. */
  function ValueOrBlank(vars: map<string, string>, k: string): string {
    if k in vars then vars[k] else ""
  }

  /** The nonce action both handlers verify against (`DGV_Backend::NONCE`). */
  const NonceAction := "DGV"

  /** What a handler learns from the WordPress runtime rather than from the request:
      whether `wp_verify_nonce` accepts a token for an action, the upload base directory
      (`wp_upload_dir()['basedir']`), PHP's `DIRECTORY_SEPARATOR`, the post type the plugin
      registers (`DGV_PT_VU`), the current user (`get_current_user_id()`) and
      `wp_strip_all_tags`, which is left uninterpreted. */
  datatype Env = Env(
    verifyNonce: (string, string) -> bool,
    uploadBaseDir: string,
    directorySeparator: string,
    postType: string,
    currentUser: nat,
    stripAllTags: string -> string)

  predicate Authorized(env: Env, nonce: string) {
    env.verifyNonce(nonce, NonceAction)
  }

  /** The JSON body sent by `wp_send_json_error` (`{success: false, data: {message}}`) or
      `wp_send_json_success` (`{success: true, data: {message[, response]}}`). */
  datatype Response = Error(message: string) | Success(message: string, payload: Option<string>)

  /** What a handler produces: the response and the effects performed before sending it. */
  datatype Outcome = Outcome(response: Response, log: seq<Effect>)

  const UnauthorizedMessage := "Unauthorized action"
}
