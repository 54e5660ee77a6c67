# DGV Vimeo upload plugin: the AJAX request handlers

This project models the two admin-ajax handlers of the WordPress plugin's `DGV_Backend` class
and proves properties of them in Dafny.

- `handle_settings` checks the request's nonce. It then validates the three Vimeo API
  credential fields in a fixed order: client id, client secret, access token. Only when all
  three pass does it save them as options.
- `handle_upload` is a fail-fast pipeline: nonce, `file` part present, temporary file on disk,
  move into the upload base directory, Vimeo upload, delete the staged file, insert a post,
  write its meta, respond.

Both handlers are pure functions. Each takes the request, the runtime environment, the current
stores and, for the upload, the outcomes of the calls it cannot see (an oracle). Each returns
an `Outcome`: the JSON response and the ordered log of effects it performed. `WordPress.Apply`
replays a log on the stores: options, files on disk, posts and post meta. The frame
properties ("nothing else changes") are lemmas over `Apply`.

Modules:

- `Wrappers`: `Option`.
- `Php`: `empty()` on strings and `trim()` with its default character list.
- `FailFast`: the first failing check in an ordered list. Settings validation and the upload
  pipeline's reference ordering both use it.
- `Vimeo`: the upload parameters and the client's result, which is a response or one of two
  exception kinds.
- `WordPress`: the request, environment, stores, effects, `Apply` and the JSON response.
- `Settings` and `Upload`: the two handlers and their properties.

Messages are reproduced as the code spells them: "File does not exists on the server." and
"Error uploading file. Please check your disk space or permissionss.".

The upload handler does not check that the credentials are set. Missing credentials only
show up as a failed remote call, which is part of the oracle here.

Two further details of the code are modelled as written:

- The settings test is `empty(trim(v))` after `empty(v)`. A field submitted as `" 0 "`
  therefore counts as missing, and the untrimmed test adds nothing to the trimmed one.
- The settings nonce is read from `$_REQUEST`: the query merged with the form body, the body
  winning. The upload nonce is read from `$_POST` only.

## Model

| member | source | states |
|---|---|---|
| `FailFast.FirstFailing` | includes/classes/DGV_Backend.php:155-162 | the checks are tried in order; the result is the first failing one (all before it pass) and there is none exactly when every check passes |
| `Php.Trim` | includes/classes/DGV_Backend.php:156 | `trim()` yields "" exactly when the value is all trim characters; otherwise its result starts and ends with a kept character and the value is the result padded on both sides with trim characters |
| `WordPress.RequestVars` | includes/classes/DGV_Backend.php:142 | `$_REQUEST` has the keys of the query and the form body; a form-body value wins over a query value |
| `WordPress.ApplyOptionWrites` | includes/classes/DGV_Backend.php:164-166 | a log of `update_option` writes sets exactly the keys it names to the given values; other options, files, posts and meta are unchanged |
| `Settings.Validate` | includes/classes/DGV_Backend.php:149-162 | the validation pass reports the first missing field of client id, client secret, access token, and none exactly when all three are present |
| `Settings.HandleSettings` | includes/classes/DGV_Backend.php:140-170 | a rejected nonce gives "Unauthorized action" and no effect; every error comes with an empty effect log; success is "Settings saved successfully!" and implies no field is missing; only options are written |
| `Settings.MissingIff` | includes/classes/DGV_Backend.php:156 | a field is missing exactly when it is absent, all trim characters, or "0" after trimming |
| `Settings.SettingsValidationOrder` | includes/classes/DGV_Backend.php:149-161 | a missing client id is reported first, then a missing secret, then a missing token, as "Error: <label> is required.", with no effect |
| `Settings.SettingsSucceedsIffAllPresent` | includes/classes/DGV_Backend.php:155-169 | with a valid nonce the handler succeeds exactly when none of the three fields is missing |
| `Settings.SettingsErrorChangesNothing` | includes/classes/DGV_Backend.php:143-161 | when the handler answers with an error (rejected nonce or missing field) no store changes |
| `Settings.SettingsSaveAll` | includes/classes/DGV_Backend.php:163-169 | with a valid nonce and all three fields present, exactly the three option keys are set, to the untrimmed submitted values, and every other option, file, post and meta row is unchanged |
| `Settings.SettingsUnauthorized` | includes/classes/DGV_Backend.php:142-148 | a rejected nonce gives "Unauthorized action" and leaves every store unchanged |
| `Settings.PaddedZeroIsMissing` | includes/classes/DGV_Backend.php:156 | " 0 " counts as missing because `empty()` sees the trimmed "0"; "00" does not |
| `Upload.HandleUpload` | includes/classes/DGV_Backend.php:73-138 | a rejected nonce gives "Unauthorized action" with no effect; success happens only after a successful remote call and carries "Video uploaded successfully!" and the remote response; no option is ever written |
| `Upload.FirstFailedCheck` | includes/classes/DGV_Backend.php:74-137 | the first failing check among nonce, file present, temporary file exists, move, remote call, with all earlier ones passing |
| `Upload.UploadFailsAtFirstFailingCheck` | includes/classes/DGV_Backend.php:74-137 | the upload succeeds exactly when all five checks pass; otherwise the error message is the first failing check's: "Unauthorized action", "No file uploaded...", "File does not exists on the server.", the move error, or the exception's message |
| `Upload.BuildParams` | includes/classes/DGV_Backend.php:101-108 | name and description are the submitted title and description unless absent or `empty()` (then ""); the privacy view is the submitted one unless absent or `empty()` (then "anybody"), so it is never `empty()` |
| `Upload.StagedPath` | includes/classes/DGV_Backend.php:93-98 | the staged path is the upload base directory, then the directory separator, then the client's file name verbatim |
| `Upload.StagedPathIdentifiesName` | includes/classes/DGV_Backend.php:98 | two uploads get the same staged path exactly when their client file names are equal |
| `Upload.UploadNoEffectBeforeStaging` | includes/classes/DGV_Backend.php:74-92 | a rejected nonce, a missing `file` part or a missing temporary file gives an error and no effect at all |
| `Upload.UploadMoveFailure` | includes/classes/DGV_Backend.php:93-99 | a failed move gives the move error; the only possible effect is creating the upload base directory; no remote call |
| `Upload.UploadRemoteCall` | includes/classes/DGV_Backend.php:99-109 | the Vimeo client is called exactly when the first four checks pass, then once, on the staged path, with the parameters built from the form |
| `Upload.RemoteFailureLeavesStagedFile` | includes/classes/DGV_Backend.php:109-134 | when the client throws, the error carries the exception's message, the staged file stays on disk (files are exactly the old ones plus the base directory and staged path, minus the temporary file), and no post, meta or option changes |
| `Upload.UploadSuccessRecord` | includes/classes/DGV_Backend.php:110-129 | after a successful remote call the staged file is gone and the files on disk are exactly the old ones plus the base directory, minus the temporary and staged files; one post is inserted (stripped title, description, "publish", plugin post type, current user); privacy and response meta are written only when insertion did not return a `WP_Error`; the response is success either way |
| `Upload.UploadAddsOnePost` | includes/classes/DGV_Backend.php:111-117 | a successful upload whose insertion returns a fresh id adds exactly one post |
| `Upload.FailureTruncatesPipeline` | includes/classes/DGV_Backend.php:73-138 | the effects of any run are a prefix of the effects of the run whose move and remote call succeed: a failure only cuts the pipeline short |
| `Upload.UploadKeepsOptions` | includes/classes/DGV_Backend.php:73-138 | the upload handler leaves every option unchanged |
| `Upload.UploadPreservesMetaOwnership` | includes/classes/DGV_Backend.php:111-125 | if every meta row belongs to an existing post before the upload, the same holds after it |

## Left out

- Hook and bootstrap wiring: the singleton `instance()`, the constructor's `add_action` calls,
  `register_post_types`, `admin_menu` and `admin_page`. They only register callbacks with
  WordPress. The plugin's main class routes the same actions to an AJAX handler class that is
  not part of this model. The handlers here are the ones `DGV_Backend` registers.
- `init_api` and the Vimeo client's `upload`. The resumable transfer lives in a vendor library.
  Its result is the oracle `Vimeo.UploadResult`: a response or a request or upload exception.
  Other exception kinds, which the handler would not catch, are not modelled.
- Asset enqueueing (`admin_enqueue_scripts`, `wp_enqueue_scripts`) and the settings view markup.
  These are calls into WordPress with no logic of their own.
- The runtime is taken as parameters or oracles. `wp_verify_nonce` is `Env.verifyNonce`.
  `wp_upload_dir`, `DIRECTORY_SEPARATOR`, the post-type constant and `get_current_user_id` are
  `Env` fields. `wp_strip_all_tags` is an uninterpreted `Env` function. `__()` is the identity.
  `move_uploaded_file` success and the `wp_insert_post` result are oracle values. The request
  values are what PHP exposes in `$_GET`/`$_POST`, after any slashing WordPress applies.
- The filesystem is a set of existing paths. `file_exists` reads it. `mkdir` is modelled as
  always creating the base directory: its errors are suppressed, and a failed `mkdir` shows
  up only as a failed move. `unlink` is modelled as always removing the staged file: its
  failures are ignored by the handler.
- `wp_insert_post` is modelled as returning a positive post id or a failure. Called without
  `$wp_error`, it reports a failure as 0. `is_wp_error(0)` is false, so the handler would go on
  to call `update_post_meta(0, …)`, which writes nothing. The model gives exactly that outcome
  by recording the 0 return as `InsertError`: no post and no meta.
- The insertion oracle is trusted to return a fresh id. An `Inserted` id that names an
  existing post would overwrite it in the model; `UploadAddsOnePost` assumes freshness.
- `Post` and `MetaValue` hold the arguments as the handler passes them. `wp_insert_post` and
  `update_post_meta` unslash and sanitize them, and the model does not.
- `wp_send_json_*` ends the request. The model returns the response as the handler's value.
- The meta loop over the one-element list `privacy` is written as a single meta write with
  key "dgv_privacy".
- Form values are strings. PHP arrays submitted as form fields are not modelled.
- `Settings.SettingsValidationOrder`: names the error through `RequiredMessage("Client ID")` and
  so on, rather than the spelled-out strings; `RequiredMessage` is
  "Error: " + label + " is required.".
