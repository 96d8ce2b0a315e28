/**
 * The API client of lib/api.ts: request construction, the classification of
 * responses by handleResponse, the stored session token it clears on a 401,
 * and the wrappers get, post and upload that turn every failure into null.
 *
 * The transport is not modelled: each call takes the response `fetch`
 * resolved to (None when `fetch` itself rejected) as an input, and the
 * result of JSON.parse on the body text as a field of that response.
 */
module Api {
  import opened Wrappers
  import opened Json

  /** A response as the Fetch API delivers it. `json` is JSON.parse(text), None when that throws. */
  datatype HttpResponse = HttpResponse(status: int, statusText: string, text: string, json: Option<Value>)
  {
    /** `res.ok` of the Fetch standard: the status lies in 200-299. */
    predicate Ok() {
      200 <= status <= 299
    }

    /** A status that is neither ok nor 401: handleResponse rejects. */
    predicate ErrorStatus() {
      status != 401 && !Ok()
    }
  }

  /** Why handleResponse rejected. */
  datatype Failure =
    | Thrown(message: string)  // `throw new Error(message)` at the end of the non-ok branch
    | NullErrorData            // a non-ok body that parses to null: reading `errorData.error` raises a TypeError
    | Unconvertible            // `new Error(errorData.error)` raises the TypeError of String() on that value
    | MalformedBody            // `res.json()` rejects on a 2xx body that is not JSON

  /** What the promise of handleResponse settles to. */
  datatype Handled = Resolved(body: Value) | Rejected(failure: Failure)

  /** The generic message "API Error: <status> <statusText>". */
  function StatusMessage(res: HttpResponse): string {
    "API Error: " + IntToString(res.status) + " " + res.statusText
  }

  /**
   * handleResponse without its side effect: a 401 resolves to null, another
   * non-ok status rejects with the message of the fallback chain, an ok
   * status resolves to the parsed body.
   */
  function Classify(res: HttpResponse): (h: Handled)
    ensures res.status == 401 ==> h == Resolved(Null)
    ensures h.Resolved? && res.status != 401 ==> res.Ok() && res.json == Some(h.body)
    ensures res.Ok() && res.json.Some? ==> h == Resolved(res.json.value)
    ensures res.Ok() && res.json.None? ==> h == Rejected(MalformedBody)
    ensures res.ErrorStatus() ==> h.Rejected?
    // the fallback chain of the error message
    ensures res.ErrorStatus() && res.json.Some? && TruthyMember(res.json.value, "error") ==>
              h == match ToJsString(res.json.value.fields["error"])
                   case Some(message) => Rejected(Thrown(message))
                   case None => Rejected(Unconvertible)
    ensures res.ErrorStatus() && res.json.Some? && TruthyMember(res.json.value, "error")
            && res.json.value.fields["error"].Str? ==>
              h == Rejected(Thrown(res.json.value.fields["error"].s))
    ensures res.ErrorStatus() && res.json.None? && res.text != "" ==> h == Rejected(Thrown(res.text))
    ensures res.ErrorStatus() && res.json.None? && res.text == "" ==> h == Rejected(Thrown(StatusMessage(res)))
    ensures res.ErrorStatus() && res.json.Some? && res.json.value != Null && !TruthyMember(res.json.value, "error") ==>
              h == Rejected(Thrown(StatusMessage(res)))
    ensures res.ErrorStatus() && res.json == Some(Null) ==> h == Rejected(NullErrorData)
  {
    if res.status == 401 then Resolved(Null)
    else if !res.Ok() then
      match res.json
      case None =>
        // the catch builds { error: errorText || <status message> }
        Rejected(Thrown(if res.text != "" then res.text else StatusMessage(res)))
      case Some(data) =>
        if data == Null then Rejected(NullErrorData)
        else if TruthyMember(data, "error") then
          match ToJsString(data.fields["error"])
          case Some(message) => Rejected(Thrown(message))
          case None => Rejected(Unconvertible)
        else Rejected(Thrown(StatusMessage(res)))
    else
      match res.json
      case None => Rejected(MalformedBody)
      case Some(v) => Resolved(v)
  }

  /**
   * A rejection always carries a readable message, except when the body's
   * `error` is an array, whose String() may be empty.
   */
  lemma RejectionMessageNonEmpty(res: HttpResponse)
    requires Classify(res).Rejected? && Classify(res).failure.Thrown?
    requires !(res.json.Some? && Member(res.json.value, "error").Some? && Member(res.json.value, "error").value.Arr?)
    ensures |Classify(res).failure.message| > 0
  {
  }

  /**
   * What get and post return once the try/catch has absorbed every failure:
   * the parsed body of an ok response, and null for a rejected fetch, a 401,
   * another non-ok status or a body that is not JSON.
   */
  function Settle(reply: Option<HttpResponse>): (r: Value)
    ensures r != Null ==> reply.Some? && reply.value.Ok() && reply.value.json == Some(r)
    ensures reply.Some? && reply.value.Ok() && reply.value.json.Some? ==> r == reply.value.json.value
    ensures reply.None? || !reply.value.Ok() || reply.value.json.None? ==> r == Null
  {
    match reply
    case None => Null
    case Some(res) =>
      match Classify(res)
      case Resolved(v) => v
      case Rejected(_) => Null
  }

  /**
   * What upload returns: `data.url` of an ok response whose body has a truthy
   * `url`; null for everything else, including the 'Upload failed' error it
   * throws itself.
   */
  function UploadResult(reply: Option<HttpResponse>): (url: Option<Value>)
    ensures url.Some? <==> reply.Some? && reply.value.Ok() && reply.value.json.Some?
                           && TruthyMember(reply.value.json.value, "url")
    ensures url.Some? ==> Truthy(url.value) && Member(reply.value.json.value, "url") == url
  {
    match reply
    case None => None
    case Some(res) =>
      match Classify(res)
      case Resolved(data) => if TruthyMember(data, "url") then Member(data, "url") else None
      case Rejected(_) => None
  }

  /** The query of get: `{ action, ...params }`, in which a `params` entry named action wins. */
  function GetQuery(action: string, params: map<string, string>): (q: map<string, string>)
    ensures q.Keys == params.Keys + {"action"}
    ensures q["action"] == if "action" in params then params["action"] else action
    ensures forall k :: k in params ==> q[k] == params[k]
  {
    map["action" := action] + params
  }

  datatype Payload = NoBody | JsonBody(body: Value) | FileForm

  /** A request as handed to `fetch`. */
  datatype Request = Request(verb: string, query: map<string, string>, headers: map<string, string>, payload: Payload)

  class Client {
    /** The `skyline_token` entry of localStorage. */
    var token: Option<string>

    constructor (stored: Option<string>)
      ensures token == stored
    {
      token := stored;
    }

    /** `token ?` of getHeaders: a stored, non-empty string. */
    predicate HasToken()
      reads this
    {
      token.Some? && token.value != ""
    }

    /** getHeaders: one Authorization header carrying the bearer token when one is stored, none otherwise. */
    function Headers(): (h: map<string, string>)
      reads this
      ensures h.Keys <= {"Authorization"}
      ensures "Authorization" in h <==> HasToken()
      ensures HasToken() ==> h["Authorization"] == "Bearer " + token.value
    {
      if HasToken() then map["Authorization" := "Bearer " + token.value] else map[]
    }

    /** handleResponse: a 401 removes the stored token; no other response touches it. */
    method HandleResponse(res: HttpResponse) returns (h: Handled)
      modifies this
      ensures h == Classify(res)
      ensures token == if res.status == 401 then None else old(token)
    {
      if res.status == 401 {
        token := None;
        return Resolved(Null);
      }
      h := Classify(res);
    }

    /** The response handling shared by the three wrappers; a rejected fetch never reaches handleResponse. */
    method Receive(reply: Option<HttpResponse>) returns (h: Option<Handled>)
      modifies this
      ensures h == if reply.None? then None else Some(Classify(reply.value))
      ensures token == if reply.Some? && reply.value.status == 401 then None else old(token)
    {
      if reply.None? {
        return None;
      }
      var handled := HandleResponse(reply.value);
      h := Some(handled);
    }

    /** api.get: the request it sends and the value it resolves to, which is null on every failure. */
    method Get(action: string, params: map<string, string>, reply: Option<HttpResponse>)
      returns (request: Request, r: Value)
      modifies this
      ensures request == Request("GET", GetQuery(action, params), old(Headers()), NoBody)
      ensures r == Settle(reply)
      ensures token == if reply.Some? && reply.value.status == 401 then None else old(token)
    {
      request := Request("GET", GetQuery(action, params), Headers(), NoBody);
      var h := Receive(reply);
      r := if h.Some? && h.value.Resolved? then h.value.body else Null;
    }

    /** api.post: a JSON body, the action in the query, and null on every failure. */
    method Post(action: string, body: Value, reply: Option<HttpResponse>)
      returns (request: Request, r: Value)
      modifies this
      ensures request == Request("POST", map["action" := action],
                                 map["Content-Type" := "application/json"] + old(Headers()), JsonBody(body))
      ensures r == Settle(reply)
      ensures token == if reply.Some? && reply.value.status == 401 then None else old(token)
    {
      request := Request("POST", map["action" := action],
                         map["Content-Type" := "application/json"] + Headers(), JsonBody(body));
      var h := Receive(reply);
      r := if h.Some? && h.value.Resolved? then h.value.body else Null;
    }

    /** api.upload: the file as a form field, and the uploaded file's url or null. */
    method Upload(reply: Option<HttpResponse>) returns (request: Request, url: Option<Value>)
      modifies this
      ensures request == Request("POST", map["action" := "upload_file"], old(Headers()), FileForm)
      ensures url == UploadResult(reply)
      ensures token == if reply.Some? && reply.value.status == 401 then None else old(token)
    {
      request := Request("POST", map["action" := "upload_file"], Headers(), FileForm);
      var h := Receive(reply);
      if h.Some? && h.value.Resolved? && TruthyMember(h.value.body, "url") {
        url := Member(h.value.body, "url");
      } else {
        url := None;
      }
    }
  }

  /**
   * After a 401 the token is gone, and every request that follows, whichever
   * wrapper sends it and whatever it is answered, goes out anonymous.
   */
  method UnauthorizedThenAnonymous(c: Client, res: HttpResponse, action: string, params: map<string, string>,
                                   body: Value, replies: seq<Option<HttpResponse>>)
    returns (get: Request, post: Request, upload: Request)
    requires res.status == 401 && |replies| == 3
    modifies c
    ensures c.token == None
    ensures "Authorization" !in get.headers
    ensures "Authorization" !in post.headers
    ensures "Authorization" !in upload.headers
  {
    var h := c.HandleResponse(res);
    var r, u;
    get, r := c.Get(action, params, replies[0]);
    post, r := c.Post(action, body, replies[1]);
    upload, u := c.Upload(replies[2]);
  }
}
