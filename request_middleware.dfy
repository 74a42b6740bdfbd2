/**
  The two request middlewares of the chat project. The logging middleware
  writes one line per request, naming the user (the username, or
  `Anonymous`) and the path, then hands the request on. The time middleware
  hands a request on only between 06:00 and 20:59 and otherwise answers 403
  itself.

  The next handler (`get_response`) is an object that records the requests
  it receives and answers each with a fixed function of the request. The
  clock is a parameter: `now` is the text of `datetime.now()`, `hour` its
  hour.
 */
module RequestMiddleware {
  import opened Tables

  datatype RequestUser = AnonymousUser | AuthenticatedUser(username: string)

  datatype HttpRequest = HttpRequest(user: RequestUser, path: string)

  datatype HttpResponse = HttpResponse(status: int, error: string)

  /** The rest of the middleware chain and the view. */
  class Downstream {
    var received: seq<HttpRequest>
    const respond: HttpRequest -> HttpResponse

    constructor (respond: HttpRequest -> HttpResponse)
      ensures received == [] && this.respond == respond
    {
      received := [];
      this.respond := respond;
    }

    method GetResponse(request: HttpRequest) returns (response: HttpResponse)
      modifies this
      ensures received == old(received) + [request]
      ensures response == respond(request)
    {
      received := received + [request];
      response := respond(request);
    }
  }

  /** The user as the log names them. */
  function UserLabel(user: RequestUser): (shown: string)
    ensures user.AuthenticatedUser? ==> shown == user.username
    ensures user.AnonymousUser? ==> shown == "Anonymous"
  {
    match user
    case AnonymousUser => "Anonymous"
    case AuthenticatedUser(name) => name
  }

  function LogLine(now: string, request: HttpRequest): string
  {
    now + " - User: " + UserLabel(request.user) + " - Path: " + request.path
  }

  /** `part` occurs in `text` starting at index `k`. */
  predicate OccursAt(text: string, part: string, k: int)
  {
    0 <= k <= |text| - |part| && text[k..k + |part|] == part
  }

  ghost predicate Contains(text: string, part: string)
  {
    exists k :: OccursAt(text, part, k)
  }

  /** Every logged line names the user and the path of its request. */
  lemma LogLineMentions(now: string, request: HttpRequest)
    ensures Contains(LogLine(now, request), "User: " + UserLabel(request.user))
    ensures Contains(LogLine(now, request), "Path: " + request.path)
  {
    var line := LogLine(now, request);
    var user := "User: " + UserLabel(request.user);
    var path := "Path: " + request.path;
    assert line == now + " - " + user + " - " + path;
    var k := |now| + 3;
    assert OccursAt(line, user, k);
    var j := |line| - |path|;
    assert OccursAt(line, path, j);
  }

  class RequestLoggingMiddleware {
    const getResponse: Downstream
    /** The lines written to the request log. */
    var log: seq<string>

    constructor (getResponse: Downstream)
      ensures this.getResponse == getResponse && log == []
    {
      this.getResponse := getResponse;
      log := [];
    }

    /** One line logged, the request handed on exactly once, its response returned unchanged. */
    method Call(request: HttpRequest, now: string) returns (response: HttpResponse)
      modifies this, getResponse
      ensures log == old(log) + [LogLine(now, request)]
      ensures getResponse.received == old(getResponse.received) + [request]
      ensures response == getResponse.respond(request)
    {
      log := log + [LogLine(now, request)];
      response := getResponse.GetResponse(request);
    }
  }

  /** The answer outside the opening hours, if the hour is outside them. */
  function TimeGate(hour: int): (refusal: Option<HttpResponse>)
    ensures refusal.None? <==> 6 <= hour < 21
    ensures refusal.Some? ==> refusal.value == HttpResponse(403, "Chat access restricted outside 6AM\U{2013}9PM")
  {
    if !(6 <= hour < 21) then Some(HttpResponse(403, "Chat access restricted outside 6AM\U{2013}9PM")) else None
  }

  /** The window's edges: 6:00 opens it, 21:00 closes it. */
  lemma WindowEdges()
    ensures TimeGate(6).None? && TimeGate(20).None?
    ensures TimeGate(5).Some? && TimeGate(21).Some?
  {
  }

  class RestrictAccessByTimeMiddleware {
    const getResponse: Downstream

    constructor (getResponse: Downstream)
      ensures this.getResponse == getResponse
    {
      this.getResponse := getResponse;
    }

    /** Inside the window the request goes on; outside it, 403 and `get_response` is never called. */
    method Call(request: HttpRequest, hour: int) returns (response: HttpResponse)
      modifies getResponse
      ensures 6 <= hour < 21 ==> getResponse.received == old(getResponse.received) + [request]
      ensures 6 <= hour < 21 ==> response == getResponse.respond(request)
      ensures !(6 <= hour < 21) ==> getResponse.received == old(getResponse.received)
      ensures !(6 <= hour < 21) ==> response == TimeGate(hour).value
    {
      var refusal := TimeGate(hour);
      if refusal.Some? {
        return refusal.value;
      }
      response := getResponse.GetResponse(request);
    }
  }
}
