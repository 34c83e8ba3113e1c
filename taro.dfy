/** The Taro request adapter for axios: it plans which Taro primitive to call
    (`uploadFile` or `request`), normalises both response shapes to one axios
    response, translates upload progress, and settles the caller's promise once. */
module TaroAdapter {
  import opened Js

  const ContentType := "Content-Type"
  const FormUrlencoded := "application/x-www-form-urlencoded"
  const NetworkErrorMessage := "Network Error"

  // ---------------------------------------------------------------------------
  // Request description
  // ---------------------------------------------------------------------------

  /** A headers object. It is updated in place, and it may be the caller's own
      `config.headers`, so the update is visible to the caller. */
  class HeaderBag {
    var fields: map<string, string>

    constructor ()
      ensures fields == map[]
    {
      fields := map[];
    }

    /** `headers[name] = value`. */
    method Set(name: string, value: string)
      modifies this
      ensures fields == old(fields)[name := value]
    {
      fields := fields[name := value];
    }
  }

  /** The request body `config.data`: a `PostData` instance, already split by
      `getParsedPostData` into plain fields and file fields (name to file path),
      or any other value. */
  datatype Body =
    | PostData(normalData: Dict<Value>, fileData: Dict<string>)
    | Raw(value: Value)

  /** The parts of the axios request config the adapter reads. The URL enters
      already built by `buildURL`. */
  datatype Config = Config(
    httpMethod: Option<string>,   // config.method, when it is a string
    headers: HeaderBag?,          // config.headers, when it is an object
    data: Body,
    responseType: Option<string>, // config.responseType, None when undefined
    onUploadProgress: bool,       // config.onUploadProgress is a function
    cancelToken: bool)            // config.cancelToken is set

  /** The one call the adapter makes into Taro, with the arguments it passes. */
  datatype NativeCall =
    | UploadFile(url: string, header: map<string, string>, name: string, filePath: string, formData: Dict<Value>)
    | Request(httpMethod: string, url: string, header: map<string, string>, data: Body,
              responseType: string, dataType: Option<string>)

  // ---------------------------------------------------------------------------
  // Planning
  // ---------------------------------------------------------------------------

  /** The method sent to Taro: `config.method` upper-cased, `GET` when it is not a string. */
  function RequestMethod(httpMethod: Option<string>): (r: string)
    ensures httpMethod.None? ==> r == "GET"
    ensures httpMethod.Some? ==> |r| == |httpMethod.value|
    ensures httpMethod.Some? ==> forall i :: 0 <= i < |r| ==> r[i] == UpperChar(httpMethod.value[i])
    ensures forall i :: 0 <= i < |r| ==> !IsLowerAscii(r[i])
  {
    var m := match httpMethod case Some(m) => m case None => "GET";
    UpperAsciiFixesUpper("GET");
    UpperAscii(m)
  }

  /** The starting headers: `config.headers` when it is an object, otherwise `{}`. */
  function InitialHeaders(config: Config): (h: map<string, string>)
    reads config.headers
    ensures config.headers != null ==> h == config.headers.fields
    ensures config.headers == null ==> h == map[]
  {
    if config.headers != null then config.headers.fields else map[]
  }

  /** The body is a `PostData` with at least one file field. */
  predicate IsUpload(data: Body) {
    data.PostData? && |Keys(data.fileData)| > 0
  }

  /** The headers after classification: a `PostData` body without files forces
      the form-urlencoded content type. */
  function HeadersAfter(headers: map<string, string>, data: Body): (h: map<string, string>)
    ensures data.PostData? && data.fileData == [] ==> ContentType in h && h[ContentType] == FormUrlencoded
    ensures !(data.PostData? && data.fileData == []) ==> h == headers
    ensures forall k :: k != ContentType ==> (k in h <==> k in headers)
    ensures forall k :: k != ContentType && k in headers ==> h[k] == headers[k]
  {
    if data.PostData? && !IsUpload(data) then headers[ContentType := FormUrlencoded] else headers
  }

  /** The body of a plain request: a `PostData` without files degrades to its plain fields. */
  function EffectiveBody(data: Body): (b: Body)
    requires !IsUpload(data)
    ensures data.PostData? ==> b == Raw(Obj(data.normalData))
    ensures data.Raw? ==> b == data
  {
    if data.PostData? then Raw(Obj(data.normalData)) else data
  }

  /** Only POST, PUT and PATCH carry a body. */
  function SendsBody(requestMethod: string): (b: bool)
    ensures b <==> requestMethod in ["POST", "PUT", "PATCH"]
  {
    requestMethod == "POST" || requestMethod == "PUT" || requestMethod == "PATCH"
  }

  /** Taro's `responseType` argument: it only knows `arraybuffer` and `text`. */
  function ResponseTypeOf(hint: Option<string>): (r: string)
    ensures r == "arraybuffer" <==> hint == Some("arraybuffer")
    ensures r != "arraybuffer" ==> r == "text"
  {
    if hint == Some("arraybuffer") then "arraybuffer" else "text"
  }

  /** Taro's `dataType` argument: `json` for `json`, otherwise the hint itself. */
  function DataTypeOf(hint: Option<string>): (r: Option<string>)
    ensures r == hint
  {
    if hint == Some("json") then Some("json") else hint
  }

  /** The native call the adapter makes for a request, given the built URL and
      the starting headers. */
  function Plan(httpMethod: Option<string>, url: string, headers: map<string, string>,
                data: Body, hint: Option<string>): (call: NativeCall)
    ensures call.UploadFile? <==> data.PostData? && data.fileData != []
    ensures call.UploadFile? ==>
      call == UploadFile(url, headers, data.fileData[0].0, data.fileData[0].1, data.normalData)
    ensures call.Request? ==>
      && call.httpMethod == RequestMethod(httpMethod)
      && call.url == url
      && call.responseType == ResponseTypeOf(hint)
      && call.dataType == hint
      && call.header == HeadersAfter(headers, data)
      && call.data == (if SendsBody(call.httpMethod) then EffectiveBody(data) else Raw(Str("")))
  {
    if IsUpload(data) then
      var fileName := Keys(data.fileData)[0];
      var filePath := Lookup(data.fileData, fileName).value;
      UploadFile(url, headers, fileName, filePath, data.normalData)
    else
      var requestMethod := RequestMethod(httpMethod);
      Request(requestMethod, url, HeadersAfter(headers, data),
              if SendsBody(requestMethod) then EffectiveBody(data) else Raw(Str("")),
              ResponseTypeOf(hint), DataTypeOf(hint))
  }

  /** The upload branch depends on neither the method nor the response-type hint. */
  lemma UploadIgnoresMethodAndHint(m1: Option<string>, m2: Option<string>, url: string,
                                   headers: map<string, string>, data: Body,
                                   h1: Option<string>, h2: Option<string>)
    requires data.PostData? && data.fileData != []
    ensures Plan(m1, url, headers, data, h1).UploadFile?
    ensures Plan(m1, url, headers, data, h1) == Plan(m2, url, headers, data, h2)
  {
  }

  /** The uploaded field is the first one `Object.keys` lists: when any file
      field is named by an array index, it is the one with the smallest index,
      whatever order the fields were added in. */
  lemma UploadPicksSmallestIndexField(httpMethod: Option<string>, url: string, headers: map<string, string>,
                                      data: Body, hint: Option<string>, i: nat)
    requires data.PostData? && i < |data.fileData| && IsArrayIndex(data.fileData[i].0)
    ensures var call := Plan(httpMethod, url, headers, data, hint);
      && call.UploadFile?
      && IsArrayIndex(call.name)
      && (i > 0 ==> DigitsValue(call.name) < DigitsValue(data.fileData[i].0))
  {
  }

  /** A `PostData` body without files becomes a plain request whose body is the
      plain fields and whose `Content-Type` is form-urlencoded; no other header changes. */
  lemma UrlencodedFallback(httpMethod: Option<string>, url: string, headers: map<string, string>,
                           data: Body, hint: Option<string>)
    requires data.PostData? && data.fileData == []
    ensures var call := Plan(httpMethod, url, headers, data, hint);
      && call.Request?
      && ContentType in call.header && call.header[ContentType] == FormUrlencoded
      && (forall k :: k != ContentType ==> (k in call.header <==> k in headers))
      && (forall k :: k != ContentType && k in headers ==> call.header[k] == headers[k])
      && call.data == if SendsBody(call.httpMethod) then Raw(Obj(data.normalData)) else Raw(Str(""))
  {
  }

  /** A plain request carries its effective body exactly for POST, PUT and
      PATCH, and the empty string for every other method. */
  lemma BodyOnlyForPostPutPatch(httpMethod: Option<string>, url: string, headers: map<string, string>,
                                data: Body, hint: Option<string>)
    requires !(data.PostData? && data.fileData != [])
    ensures var call := Plan(httpMethod, url, headers, data, hint);
      && call.Request?
      && (SendsBody(call.httpMethod) ==> call.data == EffectiveBody(data))
      && (!SendsBody(call.httpMethod) ==> call.data == Raw(Str("")))
      && (data.Raw? ==> call.header == headers)
  {
  }

  /** The method is compared after upper-casing, so a lower-case `post` still sends its body. */
  lemma LowerCasePostSendsBody()
    ensures RequestMethod(Some("post")) == "POST"
    ensures SendsBody(RequestMethod(Some("post")))
    ensures !SendsBody(RequestMethod(Some("delete")))
  {
    var r := RequestMethod(Some("post"));
    assert r[0] == 'P' && r[1] == 'O' && r[2] == 'S' && r[3] == 'T';
    var d := RequestMethod(Some("delete"));
    assert d[0] == 'D';
  }

  // ---------------------------------------------------------------------------
  // Progress
  // ---------------------------------------------------------------------------

  /** The XMLHttpRequest-style progress fields read off a native upload progress event. */
  function ProgressShape(e: map<string, Value>): map<string, Value> {
    map["total" := Field(e, "totalBytesExpectedToSend"), "loaded" := Field(e, "totalBytesSent")]
  }

  /** The event passed to `onUploadProgress`: the native event merged with the
      progress shape, whose fields take precedence. */
  function Forwarded(e: map<string, Value>): (f: map<string, Value>)
    ensures f.Keys == e.Keys + {"total", "loaded"}
    ensures f["total"] == Field(e, "totalBytesExpectedToSend")
    ensures f["loaded"] == Field(e, "totalBytesSent")
    ensures forall k :: k in e && k != "total" && k != "loaded" ==> f[k] == e[k]
  {
    e + ProgressShape(e)
  }

  /** A native event of 250 of 1000 bytes is forwarded as `{total: 1000, loaded: 250}`
      with its own fields kept. */
  lemma ProgressExample()
    ensures var e := map["totalBytesExpectedToSend" := Num(1000), "totalBytesSent" := Num(250)];
      && Forwarded(e)["total"] == Num(1000)
      && Forwarded(e)["loaded"] == Num(250)
      && Forwarded(e)["totalBytesSent"] == Num(250)
  {
  }

  // ---------------------------------------------------------------------------
  // Responses
  // ---------------------------------------------------------------------------

  /** What a Taro task resolves with: a status code, a body and, for `request`,
      the response headers. `uploadFile` gives no headers and a string body; the
      upload branch never reads `header`. */
  datatype NativeResult = NativeResult(statusCode: int, data: Value, header: map<string, string>)

  /** The axios response handed to `settle`. The back-reference to the config is not modelled. */
  datatype Response = Response(data: Value, status: int, statusText: string,
                               headers: map<string, string>, request: NativeCall)

  /** The response of an upload: the body is JSON-decoded when the hint is
      `json` and decoding succeeds, and kept raw otherwise; headers are empty. */
  function UploadResponse(res: NativeResult, hint: Option<string>, parse: Value -> Option<Value>,
                          task: NativeCall): (r: Response)
    ensures r.status == res.statusCode && r.statusText == "" && r.headers == map[] && r.request == task
    ensures hint == Some("json") && parse(res.data).Some? ==> r.data == parse(res.data).value
    ensures hint != Some("json") || parse(res.data).None? ==> r.data == res.data
  {
    var data := if hint == Some("json") then
                  match parse(res.data)
                  case Some(v) => v
                  case None => res.data
                else res.data;
    Response(data, res.statusCode, "", map[], task)
  }

  /** The response of a plain request: body and headers as Taro returns them. */
  function PlainResponse(res: NativeResult, task: NativeCall): (r: Response)
    ensures r.data == res.data && r.status == res.statusCode && r.statusText == ""
    ensures r.headers == res.header && r.request == task
  {
    Response(res.data, res.statusCode, "", res.header, task)
  }

  /** A body that is not valid JSON is kept as the raw string, not turned into an error. */
  lemma LenientJsonDecoding(res: NativeResult, parse: Value -> Option<Value>, task: NativeCall)
    requires parse(res.data) == None
    ensures UploadResponse(res, Some("json"), parse, task).data == res.data
  {
  }

  // ---------------------------------------------------------------------------
  // Outcome: one promise, settled once by competing producers
  // ---------------------------------------------------------------------------

  datatype Rejection =
    | NetworkError(message: string, task: NativeCall)  // the fixed network error, carrying the task
    | StatusRejected(response: Response)               // settle's policy refused the status
    | Cancelled(reason: Value)                         // the cancel token's value

  datatype Settled = Resolved(response: Response) | Rejected(error: Rejection)

  /** What can happen after dispatch, in any order. `accepted` is the verdict of
      axios's `settle` on the response status. */
  datatype Event =
    | TaskResolved(result: NativeResult, accepted: bool)
    | TaskRejected(cause: Value)
    | CancelFired(reason: Value)
    | UploadProgress(event: map<string, Value>)

  /** How the dispatched request is wired: the native task, the response-type
      hint, whether an abort function was captured, and the two subscriptions. */
  datatype Wiring = Wiring(task: NativeCall, hint: Option<string>, abortCaptured: bool,
                           cancelSubscribed: bool, progressSubscribed: bool)

  /** The observable state: the promise's outcome, how often abort ran, and
      the progress events delivered to `onUploadProgress`. */
  datatype Cell = Cell(outcome: Option<Settled>, aborts: nat, delivered: seq<map<string, Value>>)

  /** The wiring the adapter sets up: abort is whatever the native task exposes,
      the cancel subscription follows the token, and progress is subscribed only
      for an upload with a progress function. */
  function Wire(config: Config, task: NativeCall, nativeAbort: bool): (w: Wiring)
    ensures w.task == task && w.hint == config.responseType && w.abortCaptured == nativeAbort
    ensures w.cancelSubscribed <==> config.cancelToken
    ensures w.progressSubscribed <==> task.UploadFile? && config.onUploadProgress
  {
    Wiring(task, config.responseType, nativeAbort, config.cancelToken,
           task.UploadFile? && config.onUploadProgress)
  }

  /** The axios response built by the continuation attached to the native task:
      the upload one for `uploadFile`, the plain one for `request`. */
  function BuildResponse(w: Wiring, parse: Value -> Option<Value>, res: NativeResult): (r: Response)
    ensures w.task.UploadFile? ==> r == UploadResponse(res, w.hint, parse, w.task)
    ensures w.task.Request? ==> r == PlainResponse(res, w.task)
    ensures w.task.UploadFile? ==> r.headers == map[]
    ensures w.task.Request? ==> r.headers == res.header && r.data == res.data
    ensures r.status == res.statusCode && r.statusText == "" && r.request == w.task
  {
    if w.task.UploadFile? then UploadResponse(res, w.hint, parse, w.task) else PlainResponse(res, w.task)
  }

  /** The settlement an event asks for, if any. */
  function Verdict(w: Wiring, parse: Value -> Option<Value>, e: Event): (v: Option<Settled>)
    ensures e.UploadProgress? ==> v == None
    ensures e.TaskRejected? ==> v == Some(Rejected(NetworkError(NetworkErrorMessage, w.task)))
    ensures e.CancelFired? ==> (v.Some? <==> w.cancelSubscribed)
    ensures e.CancelFired? && v.Some? ==> v.value == Rejected(Cancelled(e.reason))
    ensures e.TaskResolved? ==> v.Some? && (v.value.Resolved? <==> e.accepted)
    ensures e.TaskResolved? ==>
      v == Some(if e.accepted then Resolved(BuildResponse(w, parse, e.result))
                else Rejected(StatusRejected(BuildResponse(w, parse, e.result))))
  {
    match e
    case TaskResolved(res, accepted) =>
      var response := BuildResponse(w, parse, res);
      Some(if accepted then Resolved(response) else Rejected(StatusRejected(response)))
    case TaskRejected(_) => Some(Rejected(NetworkError(NetworkErrorMessage, w.task)))
    case CancelFired(reason) => if w.cancelSubscribed then Some(Rejected(Cancelled(reason))) else None
    case UploadProgress(_) => None
  }

  /** A promise settles once: a settled outcome is kept, otherwise the first verdict is taken. */
  function Settle(outcome: Option<Settled>, verdict: Option<Settled>): (r: Option<Settled>)
    ensures outcome.Some? ==> r == outcome
    ensures outcome.None? ==> r == verdict
  {
    if outcome.Some? then outcome else verdict
  }

  /** The effect of one event on the observable state. */
  function Step(w: Wiring, parse: Value -> Option<Value>, c: Cell, e: Event): (d: Cell)
    ensures c.outcome.Some? ==> d.outcome == c.outcome
    ensures c.outcome.None? ==> d.outcome == Verdict(w, parse, e)
    ensures d.aborts == c.aborts + (if e.CancelFired? && w.cancelSubscribed && w.abortCaptured then 1 else 0)
    ensures d.delivered == c.delivered + (if e.UploadProgress? && w.progressSubscribed then [Forwarded(e.event)] else [])
  {
    Cell(Settle(c.outcome, Verdict(w, parse, e)),
         if e.CancelFired? && w.cancelSubscribed && w.abortCaptured then c.aborts + 1 else c.aborts,
         if e.UploadProgress? && w.progressSubscribed then c.delivered + [Forwarded(e.event)] else c.delivered)
  }

  /** The state after a sequence of events, in the order they happen. */
  function Run(w: Wiring, parse: Value -> Option<Value>, c: Cell, es: seq<Event>): (d: Cell)
    ensures es == [] ==> d == c
    ensures c.aborts <= d.aborts
    ensures c.delivered <= d.delivered
    decreases |es|
  {
    if es == [] then c else Run(w, parse, Step(w, parse, c, es[0]), es[1..])
  }

  /** The number of fired cancel tokens among the events. */
  function CancelCount(es: seq<Event>): nat {
    if es == [] then 0 else (if es[0].CancelFired? then 1 else 0) + CancelCount(es[1..])
  }

  /** The progress events, translated, in order. */
  function ForwardedEvents(es: seq<Event>): seq<map<string, Value>> {
    if es == [] then []
    else (if es[0].UploadProgress? then [Forwarded(es[0].event)] else []) + ForwardedEvents(es[1..])
  }

  /** Once settled, no later event changes the outcome. */
  lemma {:induction false} SettledOutcomeIsFinal(w: Wiring, parse: Value -> Option<Value>, c: Cell, es: seq<Event>)
    requires c.outcome.Some?
    ensures Run(w, parse, c, es).outcome == c.outcome
    decreases |es|
  {
    if es != [] {
      SettledOutcomeIsFinal(w, parse, Step(w, parse, c, es[0]), es[1..]);
    }
  }

  /** The first event with a verdict decides the outcome. */
  lemma {:induction false} FirstVerdictWins(w: Wiring, parse: Value -> Option<Value>, c: Cell, es: seq<Event>, i: nat)
    requires c.outcome.None?
    requires i < |es| && Verdict(w, parse, es[i]).Some?
    requires forall j :: 0 <= j < i ==> Verdict(w, parse, es[j]).None?
    ensures Run(w, parse, c, es).outcome == Verdict(w, parse, es[i])
    decreases i
  {
    var d := Step(w, parse, c, es[0]);
    if i == 0 {
      SettledOutcomeIsFinal(w, parse, d, es[1..]);
    } else {
      assert Verdict(w, parse, es[0]).None?;
      assert forall j :: 0 <= j < i - 1 ==> es[1..][j] == es[j + 1];
      FirstVerdictWins(w, parse, d, es[1..], i - 1);
    }
  }

  /** Without an event that asks for a settlement, the outcome stays as it was. */
  lemma {:induction false} NoVerdictNoOutcome(w: Wiring, parse: Value -> Option<Value>, c: Cell, es: seq<Event>)
    requires forall j :: 0 <= j < |es| ==> Verdict(w, parse, es[j]).None?
    ensures Run(w, parse, c, es).outcome == c.outcome
    decreases |es|
  {
    if es != [] {
      assert forall j :: 0 <= j < |es| - 1 ==> es[1..][j] == es[j + 1];
      NoVerdictNoOutcome(w, parse, Step(w, parse, c, es[0]), es[1..]);
    }
  }

  /** Progress events alone never settle the promise. */
  lemma ProgressNeverSettles(w: Wiring, parse: Value -> Option<Value>, c: Cell, es: seq<Event>)
    requires forall j :: 0 <= j < |es| ==> es[j].UploadProgress?
    ensures Run(w, parse, c, es).outcome == c.outcome
  {
    NoVerdictNoOutcome(w, parse, c, es);
  }

  /** A cancel that fires first rejects with its reason, whatever the transport does later. */
  lemma CancelBeforeTransport(w: Wiring, parse: Value -> Option<Value>, c: Cell, reason: Value, later: seq<Event>)
    requires c.outcome.None? && w.cancelSubscribed
    ensures Run(w, parse, c, [CancelFired(reason)] + later).outcome == Some(Rejected(Cancelled(reason)))
  {
    FirstVerdictWins(w, parse, c, [CancelFired(reason)] + later, 0);
  }

  /** A task rejection that comes first rejects with the fixed network error, whatever its cause. */
  lemma TransportFailureIsNetworkError(w: Wiring, parse: Value -> Option<Value>, c: Cell,
                                       cause: Value, later: seq<Event>)
    requires c.outcome.None?
    ensures Run(w, parse, c, [TaskRejected(cause)] + later).outcome
         == Some(Rejected(NetworkError("Network Error", w.task)))
  {
    FirstVerdictWins(w, parse, c, [TaskRejected(cause)] + later, 0);
  }

  /** A plain request whose task succeeds first, with a status `settle` accepts,
      resolves with the native data and headers, whatever happens later. */
  lemma PlainSuccessResolves(w: Wiring, parse: Value -> Option<Value>, c: Cell,
                             res: NativeResult, later: seq<Event>)
    requires c.outcome.None? && w.task.Request?
    ensures Run(w, parse, c, [TaskResolved(res, true)] + later).outcome
         == Some(Resolved(Response(res.data, res.statusCode, "", res.header, w.task)))
  {
    FirstVerdictWins(w, parse, c, [TaskResolved(res, true)] + later, 0);
  }

  /** An upload whose task succeeds first resolves with empty headers and the
      leniently decoded body, whatever happens later. */
  lemma UploadSuccessResolves(w: Wiring, parse: Value -> Option<Value>, c: Cell,
                              res: NativeResult, later: seq<Event>)
    requires c.outcome.None? && w.task.UploadFile?
    ensures var o := Run(w, parse, c, [TaskResolved(res, true)] + later).outcome;
      && o.Some? && o.value.Resolved?
      && o.value.response.headers == map[]
      && o.value.response.status == res.statusCode
      && o.value.response.data
         == (if w.hint == Some("json") && parse(res.data).Some? then parse(res.data).value else res.data)
  {
    FirstVerdictWins(w, parse, c, [TaskResolved(res, true)] + later, 0);
  }

  /** Abort runs once per fired cancel token, and only when a token was given
      and an abort function was captured. */
  lemma {:induction false} AbortsCountCancels(w: Wiring, parse: Value -> Option<Value>, c: Cell, es: seq<Event>)
    ensures Run(w, parse, c, es).aborts
         == c.aborts + (if w.cancelSubscribed && w.abortCaptured then CancelCount(es) else 0)
    decreases |es|
  {
    if es != [] {
      AbortsCountCancels(w, parse, Step(w, parse, c, es[0]), es[1..]);
    }
  }

  /** Every progress event is forwarded, translated and in order, exactly when
      a progress callback was subscribed. */
  lemma {:induction false} ProgressDelivery(w: Wiring, parse: Value -> Option<Value>, c: Cell, es: seq<Event>)
    ensures Run(w, parse, c, es).delivered
         == c.delivered + (if w.progressSubscribed then ForwardedEvents(es) else [])
    decreases |es|
  {
    if es != [] {
      ProgressDelivery(w, parse, Step(w, parse, c, es[0]), es[1..]);
    }
  }

  // ---------------------------------------------------------------------------
  // The adapter
  // ---------------------------------------------------------------------------

  /** One call of the adapter: the synchronous part runs in the constructor,
      the asynchronous producers are the methods. */
  class Invocation {
    const wiring: Wiring
    const requestHeaders: HeaderBag
    const parse: Value -> Option<Value>
    var outcome: Option<Settled>
    var aborts: nat
    var delivered: seq<map<string, Value>>

    function State(): Cell
      reads this
    {
      Cell(outcome, aborts, delivered)
    }

    /** Classify the body, adjust body and headers, and call one Taro primitive.
        `requestUrl` is the URL `buildURL` made; `nativeAbort` says whether the
        native task exposes `abort`; `parse` stands for `JSON.parse`. */
    constructor (config: Config, requestUrl: string, nativeAbort: bool, parse: Value -> Option<Value>)
      modifies config.headers
      ensures wiring.task == Plan(config.httpMethod, requestUrl, old(InitialHeaders(config)), config.data, config.responseType)
      ensures requestHeaders.fields == HeadersAfter(old(InitialHeaders(config)), config.data)
      ensures config.headers != null ==> requestHeaders == config.headers
      ensures config.headers == null ==> fresh(requestHeaders)
      ensures wiring == Wire(config, wiring.task, nativeAbort)
      ensures this.parse == parse
      ensures State() == Cell(None, 0, [])
    {
      var requestMethod := RequestMethod(config.httpMethod);
      var headers: HeaderBag;
      if config.headers != null {
        headers := config.headers;
      } else {
        headers := new HeaderBag();
      }
      var requestData := config.data;
      var requestTask: Option<NativeCall> := None;
      var abortTask := false;
      var progress := false;

      if requestData.PostData? {
        var normalData, fileData := requestData.normalData, requestData.fileData;
        if |Keys(fileData)| > 0 {
          var fileName := Keys(fileData)[0];
          var filePath := Lookup(fileData, fileName).value;
          requestTask := Some(UploadFile(requestUrl, headers.fields, fileName, filePath, normalData));
          abortTask := nativeAbort;
          progress := config.onUploadProgress;
        } else {
          requestData := Raw(Obj(normalData));
          headers.Set(ContentType, FormUrlencoded);
        }
      }

      if requestTask.None? {
        var data := if SendsBody(requestMethod) then requestData else Raw(Str(""));
        requestTask := Some(Request(requestMethod, requestUrl, headers.fields, data,
                                    ResponseTypeOf(config.responseType), DataTypeOf(config.responseType)));
        abortTask := nativeAbort;
      }

      wiring := Wiring(requestTask.value, config.responseType, abortTask, config.cancelToken, progress);
      requestHeaders := headers;
      this.parse := parse;
      outcome := None;
      aborts := 0;
      delivered := [];
    }

    /** The promise's `resolve`: it has an effect only on an unsettled promise. */
    method Resolve(response: Response)
      modifies this
      ensures outcome == Settle(old(outcome), Some(Resolved(response)))
      ensures aborts == old(aborts) && delivered == old(delivered)
    {
      if outcome.None? {
        outcome := Some(Resolved(response));
      }
    }

    /** The promise's `reject`: it has an effect only on an unsettled promise. */
    method Reject(error: Rejection)
      modifies this
      ensures outcome == Settle(old(outcome), Some(Rejected(error)))
      ensures aborts == old(aborts) && delivered == old(delivered)
    {
      if outcome.None? {
        outcome := Some(Rejected(error));
      }
    }

    /** The native task resolved: build the response and pass it to `settle`. */
    method OnTaskResolved(res: NativeResult, accepted: bool)
      modifies this
      ensures State() == Step(wiring, parse, old(State()), TaskResolved(res, accepted))
    {
      var response := BuildResponse(wiring, parse, res);
      if accepted {
        Resolve(response);
      } else {
        Reject(StatusRejected(response));
      }
    }

    /** The native task rejected: reject with the network error, ignoring the cause. */
    method OnTaskRejected(cause: Value)
      modifies this
      ensures State() == Step(wiring, parse, old(State()), TaskRejected(cause))
    {
      Reject(NetworkError(NetworkErrorMessage, wiring.task));
    }

    /** The cancel token fired: abort when possible, then reject with the reason. */
    method OnCancel(reason: Value)
      modifies this
      ensures State() == Step(wiring, parse, old(State()), CancelFired(reason))
    {
      if wiring.cancelSubscribed {
        if wiring.abortCaptured {
          aborts := aborts + 1;
        }
        Reject(Cancelled(reason));
      }
    }

    /** A native upload progress event arrived. */
    method OnUploadProgress(e: map<string, Value>)
      modifies this
      ensures State() == Step(wiring, parse, old(State()), UploadProgress(e))
    {
      if wiring.progressSubscribed {
        delivered := delivered + [Forwarded(e)];
      }
    }
  }

  /** A client of the adapter: when the cancel token fires before the task
      completes, the late response is ignored and the caller sees the reason. */
  method CancelThenLateResponse(config: Config, requestUrl: string, nativeAbort: bool,
                                parse: Value -> Option<Value>, reason: Value, late: NativeResult)
    returns (inv: Invocation)
    requires config.cancelToken
    modifies config.headers
    ensures inv.outcome == Some(Rejected(Cancelled(reason)))
    ensures inv.aborts == if nativeAbort then 1 else 0
  {
    inv := new Invocation(config, requestUrl, nativeAbort, parse);
    inv.OnCancel(reason);
    inv.OnTaskResolved(late, true);
    inv.OnTaskRejected(Null);
  }
}
