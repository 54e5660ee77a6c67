/** `DGV_Backend::handle_settings`: check the nonce, validate the three API credential fields
    in order, and only when all three pass save them as options. */
module Settings {
  import opened Wrappers
  import opened Php
  import opened FailFast
  import opened WordPress

  /** A required settings field: its form and option key, and the caption named in its error. */
  datatype Field = Field(key: string, caption: string)

  /** The required fields, in the order they are validated and saved. */
  const Fields: seq<Field> := [
    Field("dgv_client_id", "Client ID"),
    Field("dgv_client_secret", "Client Secret"),
    Field("dgv_access_token", "Access Token")]

  const FieldKeys: set<string> := {"dgv_client_id", "dgv_client_secret", "dgv_access_token"}

  /** The validation test on one field: not submitted, `empty()`, or `empty()` once trimmed. */
  predicate Missing(post: map<string, string>, key: string) {
    key !in post || IsEmpty(post[key]) || IsEmpty(Trim(post[key]))
  }

  /** The error for a missing field (`sprintf('Error: %s is required.", $field)`). */
  function RequiredMessage(caption: string): string {
    "Error: " + caption + " is required."
  }

  const SavedMessage := "Settings saved successfully!"

  /** The save pass: one option write per field, in field order, of the submitted value. */
  function SaveLog(post: map<string, string>): (log: seq<Effect>)
    requires forall i :: 0 <= i < |Fields| ==> Fields[i].key in post
  {
    seq(|Fields|, i requires 0 <= i < |Fields| => UpdateOption(Fields[i].key, post[Fields[i].key]))
  }

  /** The validation pass: the position in `Fields` of the first missing field, if any. */
  function Validate(post: map<string, string>): (r: Option<nat>)
    ensures r.Some? ==> r.value < |Fields| && Missing(post, Fields[r.value].key)
    ensures r.Some? ==> forall j :: 0 <= j < r.value ==> !Missing(post, Fields[j].key)
    ensures r.None? <==> forall j :: 0 <= j < |Fields| ==> !Missing(post, Fields[j].key)
  {
    FirstFailing(Fields, (f: Field) => !Missing(post, f.key))
  }

  /** The save pass writes exactly the three field keys. */
  lemma SaveLogKeys(post: map<string, string>)
    requires forall i :: 0 <= i < |Fields| ==> Fields[i].key in post
    ensures WrittenKeys(SaveLog(post)) == FieldKeys
  {
    var log := SaveLog(post);
    assert log[0].key == Fields[0].key;
    assert log[1].key == Fields[1].key;
    assert log[2].key == Fields[2].key;
    assert forall i :: 0 <= i < |log| ==> log[i].key == Fields[i].key;
  }

  /** The handler. The nonce comes from `$_REQUEST`, the fields from `$_POST`. */
  function HandleSettings(env: Env, req: Request): (r: Outcome)
    ensures !Authorized(env, ValueOrBlank(RequestVars(req), "nonce")) ==> r == Outcome(Error(UnauthorizedMessage), [])
    ensures r.response.Error? ==> r.log == []
    ensures r.response.Success? ==> r.response == Success(SavedMessage, None)
    ensures r.response.Success? ==> forall i :: 0 <= i < |Fields| ==> !Missing(req.post, Fields[i].key)
    ensures forall i :: 0 <= i < |r.log| ==> r.log[i].UpdateOption?
  {
    var nonce := ValueOrBlank(RequestVars(req), "nonce");
    if !Authorized(env, nonce) then
      Outcome(Error(UnauthorizedMessage), [])
    else
      match Validate(req.post)
      case Some(i) => Outcome(Error(RequiredMessage(Fields[i].caption)), [])
      case None => Outcome(Success(SavedMessage, None), SaveLog(req.post))
  }

  /** A field counts as missing exactly when it is absent, consists of trim characters only,
      or is "0" once trimmed; the untrimmed `empty()` test adds nothing to the trimmed one. */
  lemma MissingIff(post: map<string, string>, key: string)
    ensures Missing(post, key) <==> key !in post || AllTrimChars(post[key]) || Trim(post[key]) == "0"
  {
    if key in post && post[key] == "0" {
      var t := Trim("0");
      assert !AllTrimChars("0") by {
        assert !IsTrimChar("0"[0]);
      }
      assert t == "0";
    }
  }

  /** The fields are validated in order and the error names the first one that is missing. */
  lemma SettingsValidationOrder(env: Env, req: Request)
    requires Authorized(env, ValueOrBlank(RequestVars(req), "nonce"))
    ensures Missing(req.post, "dgv_client_id") ==>
      HandleSettings(env, req) == Outcome(Error(RequiredMessage("Client ID")), [])
    ensures !Missing(req.post, "dgv_client_id") && Missing(req.post, "dgv_client_secret") ==>
      HandleSettings(env, req) == Outcome(Error(RequiredMessage("Client Secret")), [])
    ensures !Missing(req.post, "dgv_client_id") && !Missing(req.post, "dgv_client_secret") && Missing(req.post, "dgv_access_token") ==>
      HandleSettings(env, req) == Outcome(Error(RequiredMessage("Access Token")), [])
  {
    var r := Validate(req.post);
    if Missing(req.post, "dgv_client_id") {
      assert r.Some? && r.value == 0;
    } else if Missing(req.post, "dgv_client_secret") {
      assert !Missing(req.post, Fields[0].key);
      assert r.Some? && r.value == 1;
    } else if Missing(req.post, "dgv_access_token") {
      assert !Missing(req.post, Fields[0].key) && !Missing(req.post, Fields[1].key);
      assert r.Some? && r.value == 2;
    }
  }

  /** With a valid nonce the handler succeeds exactly when none of the fields is missing. */
  lemma SettingsSucceedsIffAllPresent(env: Env, req: Request)
    requires Authorized(env, ValueOrBlank(RequestVars(req), "nonce"))
    ensures HandleSettings(env, req).response.Success? <==>
      !Missing(req.post, "dgv_client_id") && !Missing(req.post, "dgv_client_secret") && !Missing(req.post, "dgv_access_token")
  {
    if Validate(req.post).None? {
      assert !Missing(req.post, Fields[0].key) && !Missing(req.post, Fields[1].key) && !Missing(req.post, Fields[2].key);
    }
  }

  /** A rejected nonce or a missing field leaves every store as it was. */
  lemma SettingsErrorChangesNothing(env: Env, req: Request, site: Site)
    requires HandleSettings(env, req).response.Error?
    ensures Apply(site, HandleSettings(env, req).log) == site
  {
  }

  /** With a valid nonce and all three fields present, exactly the three option keys are set,
      to the submitted values as given (not trimmed); every other option keeps its value, and
      files, posts and meta are untouched. */
  lemma SettingsSaveAll(env: Env, req: Request, site: Site)
    requires Authorized(env, ValueOrBlank(RequestVars(req), "nonce"))
    requires !Missing(req.post, "dgv_client_id") && !Missing(req.post, "dgv_client_secret") && !Missing(req.post, "dgv_access_token")
    ensures var s' := Apply(site, HandleSettings(env, req).log);
      && s'.options.Keys == site.options.Keys + FieldKeys
      && (forall k :: k in FieldKeys ==> k in req.post && s'.options[k] == req.post[k])
      && (forall k :: k in site.options && k !in FieldKeys ==> s'.options[k] == site.options[k])
      && s'.files == site.files && s'.posts == site.posts && s'.meta == site.meta
  {
    SettingsSucceedsIffAllPresent(env, req);
    var r := HandleSettings(env, req);
    assert forall i :: 0 <= i < |Fields| ==> Fields[i].key in req.post;
    ApplyOptionWrites(site, r.log, req.post);
    SaveLogKeys(req.post);
  }

  /** A rejected nonce stops the handler before anything else: the error is
      "Unauthorized action" and no store changes. */
  lemma SettingsUnauthorized(env: Env, req: Request, site: Site)
    requires !Authorized(env, ValueOrBlank(RequestVars(req), "nonce"))
    ensures HandleSettings(env, req).response == Error("Unauthorized action")
    ensures Apply(site, HandleSettings(env, req).log) == site
  {
  }

  /** `empty()` is applied after `trim()`, so a field submitted as " 0 " counts as missing,
      while "00" does not. */
  lemma PaddedZeroIsMissing(post: map<string, string>)
    requires "dgv_client_id" in post && post["dgv_client_id"] == " 0 "
    ensures Missing(post, "dgv_client_id")
    ensures !Missing(post["dgv_client_id" := "00"], "dgv_client_id")
  {
    var s := " 0 ";
    assert s[1..] == "0 " && s[..2] == " 0";
    assert LeadingTrim(s) == 1;
    assert TrailingTrimEnd(s) == 2;
    assert Trim(s) == "0";
    assert Trim("00") == "00";
  }
}
