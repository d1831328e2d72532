/** The request/response vocabulary shared by the route handlers and the
    osu! API clients: outgoing requests and what the upstream yields, JSON
    replies, redirects, the session cookie, and URLSearchParams. */
module Http {
  import opened Js

  /** A request sent to the osu! API; a form-encoded body is kept as its
      name/value pairs, in the order the code lists them. */
  datatype Request = Request(verb: string, url: string, headers: seq<(string, string)>, form: seq<(string, string)>)

  /** What `fetch` and `response.json()` yield: a parsed 2xx body, a 2xx body
      that is not JSON, a non-2xx status with its body text, or a rejected
      fetch (network failure). */
  datatype Response<T> =
    | Delivered(body: T)
    | BadJson(reason: string)
    | HttpError(status: int, text: string)
    | NetworkFailure(reason: string)

  /** A value, or the message of the Error that was thrown. */
  datatype Result<T> = Ok(value: T) | Err(message: string)

  /** What an upstream operation produced and the requests it sent, in order. */
  datatype Exchange<T> = Exchange(result: Result<T>, sent: seq<Request>)

  datatype CookieAttributes = CookieAttributes(httpOnly: bool, secure: bool, sameSite: string, maxAge: int, path: string)

  /** What a response does to the `user_session` cookie. */
  datatype CookieAction = Keep | SetSession(value: Json, attributes: CookieAttributes) | DeleteSession

  const SessionCookieName := "user_session"

  /** A `NextResponse.json` reply. */
  datatype Reply = Reply(status: int, body: Json, cookie: CookieAction)

  function ErrorBody(message: string): Json
  {
    JObj(map["error" := JStr(message)])
  }

  function ErrorReply(status: int, message: string): Reply
  {
    Reply(status, ErrorBody(message), Keep)
  }

  /** A `NextResponse.redirect`: the target path, its (decoded) query, and
      what it does to the session cookie. */
  datatype Redirect = Redirect(path: string, query: seq<(string, string)>, cookie: CookieAction)

  /** What the browser's cookie jar holds for `user_session` after a
      response; `stringify` stands for `JSON.stringify`. */
  function ApplyCookie(jar: Option<string>, action: CookieAction, stringify: Json -> string): (r: Option<string>)
    ensures action.Keep? ==> r == jar
    ensures action.DeleteSession? ==> r == None
    ensures action.SetSession? ==> r == Some(stringify(action.value))
  {
    match action
    case Keep => jar
    case DeleteSession => None
    case SetSession(v, _) => Some(stringify(v))
  }

  // ---------------------------------------------------------------------
  // URLSearchParams

  /** `params.get(name)`: the value of the first pair with that name. */
  function QueryGet(q: seq<(string, string)>, name: string): Option<string>
  {
    if q == [] then None
    else if q[0].0 == name then Some(q[0].1)
    else QueryGet(q[1..], name)
  }

  /** `get` finds the first pair with the name. */
  lemma {:induction false} QueryGetFirst(q: seq<(string, string)>, name: string, i: nat)
    requires i < |q| && q[i].0 == name
    requires forall j :: 0 <= j < i ==> q[j].0 != name
    ensures QueryGet(q, name) == Some(q[i].1)
  {
    if i > 0 {
      QueryGetFirst(q[1..], name, i - 1);
    }
  }

  /** `get` of a name no pair carries is null. */
  lemma {:induction false} QueryGetAbsent(q: seq<(string, string)>, name: string)
    requires forall j :: 0 <= j < |q| ==> q[j].0 != name
    ensures QueryGet(q, name).None?
  {
    if q != [] {
      QueryGetAbsent(q[1..], name);
    }
  }

  function RemoveAll(q: seq<(string, string)>, name: string): (r: seq<(string, string)>)
    ensures forall i :: 0 <= i < |r| ==> r[i].0 != name
  {
    if q == [] then []
    else if q[0].0 == name then RemoveAll(q[1..], name)
    else [q[0]] + RemoveAll(q[1..], name)
  }

  /** `params.set(name, value)`: the first pair with that name takes the
      value and the others are removed; with no such pair, one is appended. */
  function SetParam(q: seq<(string, string)>, name: string, value: string): seq<(string, string)>
  {
    if q == [] then [(name, value)]
    else if q[0].0 == name then [(name, value)] + RemoveAll(q[1..], name)
    else [q[0]] + SetParam(q[1..], name, value)
  }

  lemma {:induction false} QueryGetRemoveAll(q: seq<(string, string)>, name: string, other: string)
    requires other != name
    ensures QueryGet(RemoveAll(q, name), other) == QueryGet(q, other)
  {
    if q != [] {
      QueryGetRemoveAll(q[1..], name, other);
    }
  }

  /** After `set`, `get` of that name yields the new value and every other
      name reads as before. */
  lemma {:induction false} SetThenGet(q: seq<(string, string)>, name: string, value: string, other: string)
    ensures QueryGet(SetParam(q, name, value), name) == Some(value)
    ensures other != name ==> QueryGet(SetParam(q, name, value), other) == QueryGet(q, other)
  {
    if q != [] {
      if q[0].0 == name {
        if other != name { QueryGetRemoveAll(q[1..], name, other); }
      } else {
        SetThenGet(q[1..], name, value, other);
      }
    }
  }

  /** Setting a name that is not yet present appends one pair. */
  lemma {:induction false} SetAbsentAppends(q: seq<(string, string)>, name: string, value: string)
    requires forall i :: 0 <= i < |q| ==> q[i].0 != name
    ensures SetParam(q, name, value) == q + [(name, value)]
  {
    if q != [] {
      SetAbsentAppends(q[1..], name, value);
      assert q == [q[0]] + q[1..];
    }
  }

  /** The query of a URL the handler edits in place (`url.searchParams`). */
  class SearchParams {
    var entries: seq<(string, string)>

    constructor ()
      ensures entries == []
    {
      entries := [];
    }

    method Set(name: string, value: string)
      modifies this
      ensures entries == SetParam(old(entries), name, value)
    {
      entries := SetParam(entries, name, value);
    }
  }
}
