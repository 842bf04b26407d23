/**
 * The worker environment's responses: the page a client is sent to next,
 * and the envelopes of a failed or finished worker step, filed under the
 * worker's topic.
 */
module OzonEnv {
  import opened Values
  import opened BaseModels
  import opened OzonOrm

  /**
   * `next_client_url`: the default, unless the parameters configure a next
   * page for the response type; then its `list` as it is, or else its
   * `form` followed by `/` and the record reference. A configured entry
   * that is not a dictionary raises on `.get`.
   */
  function NextClientUrl(params: seq<(string, Value)>, typeResp: string, recRef: string,
                         defaultUrl: Value, ext: Externals): Result<Value>
  {
    var pages := GetOr(params, "action_next_page", VNone);
    if !Truthy(pages) then Ok(defaultUrl)
    else match DictGet(pages, typeResp, VDict([]))
      case Fail(e) => Fail(e)
      case Ok(cfg) =>
        if !Truthy(cfg) then Ok(defaultUrl)
        else if !cfg.VDict? then Fail("AttributeError: object has no attribute 'get'")
        else if Truthy(GetOr(cfg.entries, "list", VNone)) then Ok(GetOr(cfg.entries, "list", VNone))
        else if Truthy(GetOr(cfg.entries, "form", VNone)) then Ok(VStr(PyStr(GetOr(cfg.entries, "form", VNone), ext) + "/" + recRef))
        else Ok(defaultUrl)
  }

  /** The page configured for a response type, when there is one. */
  function PageConfig(params: seq<(string, Value)>, typeResp: string): Value
  {
    var pages := GetOr(params, "action_next_page", VNone);
    if pages.VDict? then GetOr(pages.entries, typeResp, VDict([])) else VNone
  }

  /** Without a configured page for the response type, the default is returned. */
  lemma NextUrlDefault(params: seq<(string, Value)>, typeResp: string, recRef: string, defaultUrl: Value, ext: Externals)
    requires GetOr(params, "action_next_page", VNone).VDict? || !Truthy(GetOr(params, "action_next_page", VNone))
    requires !Truthy(PageConfig(params, typeResp))
    ensures NextClientUrl(params, typeResp, recRef, defaultUrl, ext) == Ok(defaultUrl)
  {
  }

  /** A configured `list` wins over a `form`; a `form` alone gives `<form>/<rec_ref>`. */
  lemma NextUrlConfigured(params: seq<(string, Value)>, typeResp: string, recRef: string, defaultUrl: Value, ext: Externals)
    requires GetOr(params, "action_next_page", VNone).VDict?
    requires PageConfig(params, typeResp).VDict? && Truthy(PageConfig(params, typeResp))
    ensures var cfg := PageConfig(params, typeResp).entries;
      NextClientUrl(params, typeResp, recRef, defaultUrl, ext)
      == if Truthy(GetOr(cfg, "list", VNone)) then Ok(GetOr(cfg, "list", VNone))
         else if Truthy(GetOr(cfg, "form", VNone)) then Ok(VStr(PyStr(GetOr(cfg, "form", VNone), ext) + "/" + recRef))
         else Ok(defaultUrl)
  {
  }

  /**
   * With only a `success` page configured, the error response falls back
   * to the default and the success response goes to `<form>/<rec_ref>`.
   */
  lemma OnlySuccessConfigured(form: string, recRef: string, defaultUrl: Value, ext: Externals)
    ensures var params := [("action_next_page", VDict([("success", VDict([("form", VStr(form))]))]))];
      NextClientUrl(params, "error", recRef, defaultUrl, ext) == Ok(defaultUrl)
      && (form != "" ==> NextClientUrl(params, "success", recRef, defaultUrl, ext) == Ok(VStr(form + "/" + recRef)))
  {
    var cfg := [("form", VStr(form))];
    var pages := [("success", VDict(cfg))];
    var params := [("action_next_page", VDict(pages))];
    assert GetOr(params, "action_next_page", VNone) == VDict(pages);
    assert pages[0].0 != "error" by { assert "success"[0] != "error"[0]; }
    assert pages[1..] == [];
    assert Lookup(pages, "error") == Lookup(pages[1..], "error");
    assert GetOr(pages, "error", VDict([])) == VDict([]);
    assert GetOr(pages, "success", VDict([])) == VDict(cfg);
    assert cfg[0].0 != "list" by { assert "form"[0] != "list"[0]; }
    assert cfg[1..] == [];
    assert Lookup(cfg, "list") == Lookup(cfg[1..], "list");
    assert GetOr(cfg, "list", VNone) == VNone;
    assert GetOr(cfg, "form", VNone) == VStr(form);
  }

  /** The result a worker files under its topic. */
  function WorkerResult(error: bool, msg: string, docType: Value, model: Value, url: Value): seq<(string, Value)>
  {
    [("done", VBool(true)), ("error", VBool(error)), ("msg", VStr(msg)), ("document_type", docType),
     ("model", model), ("next_action", VStr("redirect")), ("next_page", url)]
  }

  /** `worker_exception_response`: a failure whose data holds the result under the topic, plus `err_details`. */
  function WorkerExceptionResponse(topic: string, docType: Value, model: Value, err: string,
                                   errDetails: string, redirectUrl: Value): BasicReturn
  {
    FailResponse(err, errDetails, [(topic, VDict(WorkerResult(true, err, docType, model, redirectUrl)))])
  }

  /** `worker_success_default_response`: a success whose data holds the result under the topic. */
  function WorkerSuccessResponse(topic: string, docType: Value, model: Value, msg: string, redirectUrl: Value): BasicReturn
  {
    SuccessResponse(msg, [(topic, VDict(WorkerResult(false, msg, docType, model, redirectUrl)))])
  }

  /** The fields of a worker result. */
  lemma WorkerResultFields(error: bool, msg: string, docType: Value, model: Value, url: Value)
    ensures var r := WorkerResult(error, msg, docType, model, url);
      Lookup(r, "done") == Some(VBool(true)) && Lookup(r, "error") == Some(VBool(error))
      && Lookup(r, "msg") == Some(VStr(msg)) && Lookup(r, "next_action") == Some(VStr("redirect"))
      && Lookup(r, "next_page") == Some(url)
      && KeysOf(r) == ["done", "error", "msg", "document_type", "model", "next_action", "next_page"]
  {
    var r := WorkerResult(error, msg, docType, model, url);
    LookupAt(r, 2);
    LookupAt(r, 5);
    LookupAt(r, 6);
  }

  /** The first entry with a key is the one a lookup finds. */
  lemma {:induction false} LookupAt(d: seq<(string, Value)>, i: nat)
    requires i < |d| && forall j :: 0 <= j < i ==> d[j].0 != d[i].0
    ensures Lookup(d, d[i].0) == Some(d[i].1)
  {
    if i > 0 {
      LookupAt(d[1..], i - 1);
    }
  }

  /**
   * The exception envelope: failed, with the error as message, the result
   * under the topic, and `err_details` beside it unless the topic itself is
   * called `err_details`, whose result then keeps the key.
   */
  lemma WorkerExceptionShape(topic: string, docType: Value, model: Value, err: string, errDetails: string, url: Value)
    ensures var r := WorkerExceptionResponse(topic, docType, model, err, errDetails, url);
      r.fail && r.msg == err
      && Lookup(r.data, topic) == Some(VDict(WorkerResult(true, err, docType, model, url)))
      && KeysOf(r.data) == (if topic == "err_details" then [topic] else [topic, "err_details"])
      && (topic != "err_details" ==> Lookup(r.data, "err_details") == Some(VStr(errDetails)))
  {
    var data := [(topic, VDict(WorkerResult(true, err, docType, model, url)))];
    FailResponseLookup(err, errDetails, data, topic);
    FailResponseLookup(err, errDetails, data, "err_details");
    assert KeysOf(data) == [topic];
  }

  /** The success envelope: not failed, with the message and the result under the topic. */
  lemma WorkerSuccessShape(topic: string, docType: Value, model: Value, msg: string, url: Value)
    ensures var r := WorkerSuccessResponse(topic, docType, model, msg, url);
      !r.fail && r.msg == msg && KeysOf(r.data) == [topic]
      && Lookup(r.data, topic) == Some(VDict(WorkerResult(false, msg, docType, model, url)))
  {
  }

  /** The worker's state the responses read: the document type, the topic, the model and the request parameters. */
  datatype WorkerEnv = WorkerEnv(docType: Value, topicName: string, model: Value, params: seq<(string, Value)>)

  /** `exception_response`: the exception envelope sent to the page configured for errors. */
  function ExceptionResponse(env: WorkerEnv, err: string, errDetails: string, redirectUrl: Value,
                             recRef: string, ext: Externals): (r: Result<BasicReturn>)
    ensures r.Ok? <==> NextClientUrl(env.params, "error", recRef, redirectUrl, ext).Ok?
  {
    match NextClientUrl(env.params, "error", recRef, redirectUrl, ext)
    case Fail(e) => Fail(e)
    case Ok(url) => Ok(WorkerExceptionResponse(env.topicName, env.docType, env.model, err, errDetails, url))
  }

  /** `default_response`: the success envelope sent to the page configured for successes. */
  function DefaultResponse(env: WorkerEnv, msg: string, redirectUrl: Value, recRef: string, ext: Externals): (r: Result<BasicReturn>)
    ensures r.Ok? <==> NextClientUrl(env.params, "success", recRef, redirectUrl, ext).Ok?
  {
    match NextClientUrl(env.params, "success", recRef, redirectUrl, ext)
    case Fail(e) => Fail(e)
    case Ok(url) => Ok(WorkerSuccessResponse(env.topicName, env.docType, env.model, msg, url))
  }

  /**
   * A worker whose parameters configure only a success page still reports
   * an error with the given redirect, `self` by default, as its next page.
   */
  lemma ExceptionFallsBack(env: WorkerEnv, form: string, err: string, recRef: string, ext: Externals)
    requires env.params == [("action_next_page", VDict([("success", VDict([("form", VStr(form))]))]))]
    ensures ExceptionResponse(env, err, "", VStr("self"), recRef, ext)
         == Ok(WorkerExceptionResponse(env.topicName, env.docType, env.model, err, "", VStr("self")))
  {
    OnlySuccessConfigured(form, recRef, VStr("self"), ext);
  }
}
