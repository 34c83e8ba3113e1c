# Taro adapter for axios, modelled in Dafny

`taroAdapter` (`src/adapters/taro.ts`) lets axios run on Taro, where there is no
XMLHttpRequest. For each request it:

- normalises the method and the headers;
- decides between Taro's `uploadFile` (the body is a `PostData` with at least one
  file field) and Taro's `request`;
- degrades a `PostData` body without files to URL-encoded form data;
- maps the axios response-type hint onto Taro's `responseType` and `dataType`;
- translates upload progress events into the XMLHttpRequest shape;
- turns both native response shapes into one axios response;
- settles the caller's promise once, from three competing producers:
  task success (through `settle`), task failure (a fixed `Network Error`) and
  the cancel token (abort, then reject with the cancel value).

The project has two modules:

- `js.dfy`, module `Js`: the JavaScript values the adapter touches. This covers
  objects listed in the order `Object.keys` enumerates them, `Object.keys`,
  property lookup and ASCII upper-casing. That order puts array-index keys
  (`"0"`, `"12"`) first, ascending, and then the other keys in insertion order.
- `taro.dfy`, module `TaroAdapter`: the adapter itself.
  - Request planning is a pure function, `Plan`, from the request description to
    the one native call made. Lemmas state its branch rules.
  - Progress translation is the function `Forwarded`.
  - Response construction is `UploadResponse` and `PlainResponse`.
  - The settle-once outcome is a fold, `Run`, of `Step` over any sequence of
    events. Lemmas say that the first verdict wins and later events change
    nothing, and how often abort runs and which progress events are delivered.
  - The class `Invocation` is the adapter as the source writes it. Its
    constructor is the synchronous body: it reassigns the request data, task and
    abort locals and updates the headers object in place. That object may be the
    caller's own `config.headers`. Its methods are the asynchronous producers,
    and each is specified by `Step`.

Abort runs whenever the cancel token fires, even after the promise has settled,
provided an abort function was captured (`src/adapters/taro.ts:113-117`). The
rejection that follows then has no effect. `Step` and `AbortsCountCancels`
state this.

## Model

| member | source | states |
|---|---|---|
| `Js.Keys` | src/adapters/taro.ts:28-30 | `Object.keys` lists the keys in the object's own-key order, one per field |
| `Js.IndexKeysComeFirst` | src/adapters/taro.ts:30 | a field named `1` is listed before a field named `doc`, whichever was added first; the reverse order is not an object's key order |
| `Js.Lookup` | src/adapters/taro.ts:31 | a lookup succeeds exactly for a present key and returns the value stored under that key; keys are unique, as in a JavaScript object |
| `Js.Field` | src/adapters/taro.ts:47-48 | property access reads `undefined` for a missing property and the stored value otherwise |
| `Js.UpperChar` | src/adapters/taro.ts:12 | upper-casing a character maps `a`-`z` to `A`-`Z` (code minus 32), keeps every other character, and never yields a lower-case letter |
| `Js.UpperAscii` | src/adapters/taro.ts:12 | upper-casing keeps the length and upper-cases each character in place |
| `Js.UpperAsciiIdempotent` | src/adapters/taro.ts:12 | upper-casing an upper-cased method changes nothing |
| `Js.UpperAsciiFixesUpper` | src/adapters/taro.ts:12 | a string without lower-case letters, such as the default `GET`, is its own upper-case form |
| `TaroAdapter.RequestMethod` | src/adapters/taro.ts:12 | the method is `GET` when `config.method` is not a string, else the method upper-cased character by character; it never contains a lower-case letter |
| `TaroAdapter.InitialHeaders` | src/adapters/taro.ts:14 | the starting headers are `config.headers` when it is an object, and empty otherwise |
| `TaroAdapter.HeadersAfter` | src/adapters/taro.ts:71-72 | a `PostData` body without files forces `Content-Type` to form-urlencoded; any other body leaves the headers as given; no other header key or value ever changes |
| `TaroAdapter.EffectiveBody` | src/adapters/taro.ts:71 | a `PostData` body without files is replaced by its plain fields; any other body is kept |
| `TaroAdapter.SendsBody` | src/adapters/taro.ts:83 | a body is sent exactly for the methods POST, PUT and PATCH |
| `TaroAdapter.HeaderBag.constructor` | src/adapters/taro.ts:14 | the fallback headers object starts empty |
| `TaroAdapter.HeaderBag.Set` | src/adapters/taro.ts:72 | writing a header changes that name only, in place |
| `TaroAdapter.ResponseTypeOf` | src/adapters/taro.ts:85 | Taro's `responseType` is `arraybuffer` exactly when the hint is `arraybuffer`, otherwise `text` |
| `TaroAdapter.DataTypeOf` | src/adapters/taro.ts:87 | Taro's `dataType` always equals the hint unchanged, including an undefined hint |
| `TaroAdapter.Plan` | src/adapters/taro.ts:26-88 | the upload branch is chosen exactly for a `PostData` with a file field. It uploads the first file field `Object.keys` lists, with that field's path, the plain fields as form data, and the unchanged headers and URL. Otherwise `Taro.request` gets the normalised method, the URL, the headers as `HeadersAfter` leaves them, the effective body for POST, PUT and PATCH and `''` for any other method, and the mapped `responseType` and `dataType` |
| `TaroAdapter.UploadPicksSmallestIndexField` | src/adapters/taro.ts:30-31 | when some file field is named by an array index, the uploaded field is an array-index field with the smallest index, whatever order the fields were added in |
| `TaroAdapter.UploadIgnoresMethodAndHint` | src/adapters/taro.ts:26-38 | with a file field present, the upload is chosen and its arguments do not depend on the method or the response-type hint |
| `TaroAdapter.UrlencodedFallback` | src/adapters/taro.ts:70-72 | a `PostData` without files goes through `Taro.request` with `Content-Type` set to form-urlencoded and every other header key and value untouched. Its body is the plain fields for POST, PUT and PATCH and `''` otherwise |
| `TaroAdapter.BodyOnlyForPostPutPatch` | src/adapters/taro.ts:82-83 | a plain request carries the effective body exactly when the normalised method is POST, PUT or PATCH and `''` for every other method; a non-`PostData` body leaves the headers as given |
| `TaroAdapter.LowerCasePostSendsBody` | src/adapters/taro.ts:83 | the body rule compares the upper-cased method: `post` becomes `POST` and sends its body, `delete` does not |
| `TaroAdapter.Forwarded` | src/adapters/taro.ts:40-51 | the forwarded progress event has `total` = `totalBytesExpectedToSend` and `loaded` = `totalBytesSent`, keeps every other native field, and adds exactly these two keys |
| `TaroAdapter.ProgressExample` | src/adapters/taro.ts:46-49 | a native event of 250 of 1000 bytes is forwarded as `total` 1000 and `loaded` 250, with the native fields kept |
| `TaroAdapter.UploadResponse` | src/adapters/taro.ts:54-69 | an upload response has the native status, an empty status text and empty headers. Its data is the parsed JSON when the hint is `json` and parsing succeeds, and the raw native body in every other case |
| `TaroAdapter.LenientJsonDecoding` | src/adapters/taro.ts:56-59 | a body that fails to parse under the `json` hint is kept raw, not turned into an error |
| `TaroAdapter.PlainResponse` | src/adapters/taro.ts:90-99 | a plain response keeps the native data, status and headers, with an empty status text |
| `TaroAdapter.Wire` | src/adapters/taro.ts:39-113 | abort is captured as the native task exposes it (`:39`, `:89`), progress is subscribed exactly for an upload with a progress function (`:40-41`), and the cancel subscription exists exactly when a token was given (`:113`) |
| `TaroAdapter.BuildResponse` | src/adapters/taro.ts:54-99 | the response handed to `settle` is built by the upload continuation for an upload (empty headers, lenient JSON) and by the plain continuation for a plain request (native headers and data), always with the native status and an empty status text |
| `TaroAdapter.Verdict` | src/adapters/taro.ts:103-117 | a task rejection asks for the fixed `Network Error` whatever its cause. A cancel asks for a rejection with its value exactly when a token was given. A resolved task asks to resolve with the response built for the branch when `settle` accepts, and to reject with that response otherwise. A progress event asks for nothing |
| `TaroAdapter.Settle` | src/adapters/taro.ts:11 | a settled promise keeps its outcome; an unsettled one takes the verdict |
| `TaroAdapter.Step` | src/adapters/taro.ts:40-117 | one event settles an unsettled promise with its verdict and never changes a settled one. Abort runs on every subscribed cancel with a captured abort. Progress is delivered, translated, only when subscribed |
| `TaroAdapter.Run` | src/adapters/taro.ts:103-117 | applying no events changes nothing; events only add aborts and only append delivered progress events |
| `TaroAdapter.SettledOutcomeIsFinal` | src/adapters/taro.ts:103-117 | once the promise is settled, no sequence of later events changes the outcome |
| `TaroAdapter.FirstVerdictWins` | src/adapters/taro.ts:103-117 | the outcome is the verdict of the first event that has one, whatever follows |
| `TaroAdapter.NoVerdictNoOutcome` | src/adapters/taro.ts:103-117 | without an event that has a verdict, the outcome stays as it was |
| `TaroAdapter.ProgressNeverSettles` | src/adapters/taro.ts:40-52 | progress events alone never settle the promise |
| `TaroAdapter.CancelBeforeTransport` | src/adapters/taro.ts:113-117 | a cancel that fires first rejects with the cancel value, whatever the task does later |
| `TaroAdapter.TransportFailureIsNetworkError` | src/adapters/taro.ts:107-110 | a task rejection that comes first rejects with `Network Error` and the task, whatever the rejection carried |
| `TaroAdapter.PlainSuccessResolves` | src/adapters/taro.ts:90-105 | a plain request whose task succeeds first, with a status `settle` accepts, resolves with the native data, status and headers, whatever happens later |
| `TaroAdapter.UploadSuccessResolves` | src/adapters/taro.ts:54-105 | an upload whose task succeeds first, with a status `settle` accepts, resolves with empty headers, the native status, and the body decoded as JSON under the `json` hint when parsing succeeds and raw otherwise |
| `TaroAdapter.AbortsCountCancels` | src/adapters/taro.ts:113-116 | abort runs once per fired cancel token when a token was given and abort was captured, and never otherwise |
| `TaroAdapter.ProgressDelivery` | src/adapters/taro.ts:40-52 | the callback receives every progress event, translated and in order, exactly when it was subscribed (an upload with a progress function), and nothing otherwise |
| `TaroAdapter.Invocation.constructor` | src/adapters/taro.ts:12-100 | the adapter makes exactly the native call `Plan` gives for the starting headers. The headers object afterwards is those headers as classification leaves them, and it is the caller's own object when `config.headers` is one. Abort and the subscriptions are wired as passed, and the promise starts unsettled |
| `TaroAdapter.Invocation.Resolve` | src/adapters/taro.ts:11 | `resolve` settles only an unsettled promise and touches nothing else |
| `TaroAdapter.Invocation.Reject` | src/adapters/taro.ts:11 | `reject` settles only an unsettled promise and touches nothing else |
| `TaroAdapter.Invocation.OnTaskResolved` | src/adapters/taro.ts:103-106 | a resolved task changes the state exactly as `Step` says: the built response goes to `settle` |
| `TaroAdapter.Invocation.OnTaskRejected` | src/adapters/taro.ts:107-110 | a rejected task changes the state exactly as `Step` says: the network error |
| `TaroAdapter.Invocation.OnCancel` | src/adapters/taro.ts:113-117 | a fired token changes the state exactly as `Step` says: abort if captured, then reject with the value |
| `TaroAdapter.Invocation.OnUploadProgress` | src/adapters/taro.ts:40-52 | a native progress event changes the state exactly as `Step` says |
| `TaroAdapter.CancelThenLateResponse` | src/adapters/taro.ts:103-117 | a caller that cancels before the task completes sees the cancel value, even after a late success and a late failure; abort ran once if it was available |

## Left out

- The Taro primitives `Taro.uploadFile` and `Taro.request` are not executed. The
  model records the call's arguments as a `NativeCall` value. Their completion,
  failure and progress are events.
- `buildURL` is an input: the constructor takes the built URL.
- The status policy of `settle` is not visible here. Each success event carries
  its verdict as `accepted`. The rejection it builds is modelled as
  `StatusRejected(response)`, without its message.
- `createError`'s other arguments are not modelled: the config and the undefined
  code. The network error keeps the message and, as its task, the native call.
  The source passes the promise chained onto the native task at `:54` or `:90`.
- The response's `config` back-reference is not modelled. Its `request` field
  holds the native call, not the native task object.
- `getParsedPostData` is not modelled: a `PostData` body is given by its result,
  the plain fields and the file fields, each in the order `Object.keys` lists them.
- `isString` and `isObject` are not modelled: a method that is not a string is
  `None`, and headers that are not an object are `null`.
- Forwarded: `merge` from `../utils` is not part of this model. It is taken to be
  a shallow merge where the second argument's fields win, so the forwarded event
  keeps the native fields and adds `total` and `loaded`.
- `JSON.parse` is the parameter `parse`, a partial function returning `Option`.
  `None` stands for a thrown exception. It is applied to the native body value,
  which `uploadFile` delivers as a string.
- Both native results share one shape: status, body and headers. The upload
  continuation never reads the headers, since `uploadFile` supplies none.
- The `.catch` at `src/adapters/taro.ts:107` follows the `.then` at `:104`, so an
  exception thrown inside `settle` (a throwing `validateStatus`, say) also becomes
  `Network Error`. The model has no throwing `settle`. That outcome appears only
  as a `TaskRejected` event.
- RequestMethod: upper-cases ASCII letters only and leaves every other character
  unchanged, whereas `toUpperCase` also maps non-ASCII letters.
- Numbers are integers. The adapter copies them and never computes with them.
- Asynchrony is not modelled: promise scheduling, the timing of progress
  callbacks and concurrency. The race is any order of events applied one at a
  time. Whether abort actually stops the native task is not modelled.
- Abort is captured as `request.abort` in one branch and `(request as any).abort`
  in the other. The model gives both the single input `nativeAbort`: whether the
  native task exposes `abort`.
- Classifying the same body twice gives the same branch. This holds because
  `Plan` is a function, so no lemma states it.
