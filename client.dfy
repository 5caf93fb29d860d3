/**
 * The client: its connection target, built from defaults and functional
 * options, and the request pipeline every resource call goes through
 * (build the request, send it, classify the status, decode the body).
 */
module Pipeline {
  import opened Wrappers
  import opened UrlValues
  import opened AccountModel
  import opened Http

  const ApiVersion: string := "v1"
  const ContentType: string := "application/vnd.Form3+json"
  const DefaultScheme: string := "http"
  const DefaultHost: string := "localhost:8080"

  /** The content-negotiation headers set on every request. */
  const NegotiationHeader: Values := map["Accept" := [ContentType], "Content-Type" := [ContentType]]

  /** The kinds of error the client returns. */
  datatype Error =
    | TransportError(reason: string)   // no response was obtained
    | StatusError(status: string)      // the status line of a non-2xx response
    | ReadError(reason: string)        // the response body could not be read to the end
    | DecodeError(reason: string)      // the body did not unmarshal into the destination
    | OptionError(reason: string)      // a client option refused to apply

  /** The part of a client that options configure. */
  datatype Settings = Settings(scheme: string, host: string)

  /** A functional option: SetScheme, SetHost, or a caller-written option that returns an error. */
  datatype ClientOption =
    | SetScheme(scheme: string)
    | SetHost(host: string)
    | Rejecting(reason: string)

  const DefaultSettings: Settings := Settings(DefaultScheme, DefaultHost)

  /** What one option does to the settings, or the error it returns. */
  function ApplyOption(s: Settings, option: ClientOption): (r: Result<Settings, Error>)
    ensures r.Success? <==> !option.Rejecting?
    ensures option.SetScheme? ==> r.value == Settings(option.scheme, s.host)
    ensures option.SetHost? ==> r.value == Settings(s.scheme, option.host)
    ensures option.Rejecting? ==> r.error == OptionError(option.reason)
  {
    match option
    case SetScheme(scheme) => Success(s.(scheme := scheme))
    case SetHost(host) => Success(s.(host := host))
    case Rejecting(reason) => Failure(OptionError(reason))
  }

  /** Applies options left to right, stopping at the first error. */
  function ApplyOptions(s: Settings, options: seq<ClientOption>): (r: Result<Settings, Error>)
    ensures r.Failure? ==> exists i | 0 <= i < |options| :: options[i].Rejecting? && r.error == OptionError(options[i].reason)
    decreases |options|
  {
    if options == [] then Success(s)
    else match ApplyOption(s, options[0])
      case Failure(e) => Failure(e)
      case Success(t) => ApplyOptions(t, options[1..])
  }

  /**
   * The settings NewClient ends with, or the error it returns: the defaults
   * overridden by the last SetScheme and the last SetHost, or the error of a
   * failing option.
   */
  function Configure(options: seq<ClientOption>): (r: Result<Settings, Error>)
    ensures NoRejecting(options) ==> r == Success(Settings(LastScheme(options, DefaultScheme), LastHost(options, DefaultHost)))
    ensures r.Failure? ==> exists i | 0 <= i < |options| :: options[i].Rejecting? && r.error == OptionError(options[i].reason)
  {
    // Both branches are the same value; the first only brings LastSettersWin in for the first ensures.
    if NoRejecting(options) then
      LastSettersWin(DefaultSettings, options);
      ApplyOptions(DefaultSettings, options)
    else
      ApplyOptions(DefaultSettings, options)
  }

  /** Reference reading of the options: the scheme of the last SetScheme, if any. */
  function LastScheme(options: seq<ClientOption>, fallback: string): string
    decreases |options|
  {
    if options == [] then fallback
    else if options[|options| - 1].SetScheme? then options[|options| - 1].scheme
    else LastScheme(options[..|options| - 1], fallback)
  }

  /** Reference reading of the options: the host of the last SetHost, if any. */
  function LastHost(options: seq<ClientOption>, fallback: string): string
    decreases |options|
  {
    if options == [] then fallback
    else if options[|options| - 1].SetHost? then options[|options| - 1].host
    else LastHost(options[..|options| - 1], fallback)
  }

  predicate NoRejecting(options: seq<ClientOption>) {
    forall i | 0 <= i < |options| :: !options[i].Rejecting?
  }

  /** Applying a + b is applying a, then b to what a produced. */
  lemma {:induction false} ApplyOptionsAppend(s: Settings, a: seq<ClientOption>, b: seq<ClientOption>)
    ensures ApplyOptions(s, a + b) ==
      match ApplyOptions(s, a)
      case Failure(e) => Failure(e)
      case Success(t) => ApplyOptions(t, b)
    decreases |a|
  {
    if a == [] {
      assert a + b == b;
    } else {
      assert (a + b)[0] == a[0];
      assert (a + b)[1..] == a[1..] + b;
      match ApplyOption(s, a[0])
      case Failure(e) =>
      case Success(t) => ApplyOptionsAppend(t, a[1..], b);
    }
  }

  /** Without a failing option, the last SetScheme and the last SetHost decide the settings. */
  lemma {:induction false} LastSettersWin(s: Settings, options: seq<ClientOption>)
    requires NoRejecting(options)
    ensures ApplyOptions(s, options) == Success(Settings(LastScheme(options, s.scheme), LastHost(options, s.host)))
    decreases |options|
  {
    if options != [] {
      var init, last := options[..|options| - 1], options[|options| - 1];
      assert options == init + [last];
      LastSettersWin(s, init);
      ApplyOptionsAppend(s, init, [last]);
    }
  }

  /** The first failing option aborts: its error is the result, whatever follows it. */
  lemma FirstRejectionAborts(s: Settings, a: seq<ClientOption>, reason: string, b: seq<ClientOption>)
    requires NoRejecting(a)
    ensures ApplyOptions(s, a + [Rejecting(reason)] + b) == Failure(OptionError(reason))
  {
    LastSettersWin(s, a);
    assert a + [Rejecting(reason)] + b == a + ([Rejecting(reason)] + b);
    ApplyOptionsAppend(s, a, [Rejecting(reason)] + b);
  }

  /** Construction fails exactly when some option fails. */
  lemma {:induction false} FailsIffSomeRejecting(s: Settings, options: seq<ClientOption>)
    ensures ApplyOptions(s, options).Failure? <==> exists i | 0 <= i < |options| :: options[i].Rejecting?
    decreases |options|
  {
    if options != [] && !options[0].Rejecting? {
      var t := ApplyOption(s, options[0]).value;
      FailsIffSomeRejecting(t, options[1..]);
      if exists i | 0 <= i < |options| :: options[i].Rejecting? {
        var i :| 0 <= i < |options| && options[i].Rejecting?;
        assert options[1..][i - 1].Rejecting?;
      }
      if exists j | 0 <= j < |options[1..]| :: options[1..][j].Rejecting? {
        var j :| 0 <= j < |options[1..]| && options[1..][j].Rejecting?;
        assert options[j + 1].Rejecting?;
      }
    }
  }

  /** With no options, the client talks http to localhost:8080. */
  lemma DefaultsWithoutOptions()
    ensures Configure([]) == Success(Settings("http", "localhost:8080"))
  {
  }

  /** The statuses the client accepts: 200 to 299. */
  predicate IsSuccessStatus(code: int) {
    200 <= code <= 299
  }

  /** checkResponse: no error exactly for a 2xx status; otherwise the status line. */
  function CheckResponse(r: Response): (err: Option<Error>)
    ensures err.None? <==> IsSuccessStatus(r.statusCode)
    ensures err.Some? ==> err.value == StatusError(r.status)
  {
    if IsSuccessStatus(r.statusCode) then None else Some(StatusError(r.status))
  }

  /**
   * Client.Decode: reads the whole body and unmarshals it; the status code is
   * not looked at. It succeeds exactly when the body was read to the end and
   * unmarshalled.
   */
  function Decode<T>(r: Response, unmarshal: seq<byte> -> Result<T, string>): (d: Result<T, Error>)
    ensures d.Success? <==> r.body.Complete? && unmarshal(r.body.bytes).Success?
    ensures d.Success? ==> d.value == unmarshal(r.body.bytes).value
    ensures r.body.Broken? ==> d == Failure(ReadError(r.body.reason))
    ensures r.body.Complete? && unmarshal(r.body.bytes).Failure? ==> d == Failure(DecodeError(unmarshal(r.body.bytes).error))
  {
    match r.body
    case Broken(reason) => Failure(ReadError(reason))
    case Complete(bytes) =>
      match unmarshal(bytes)
      case Success(v) => Success(v)
      case Failure(e) => Failure(DecodeError(e))
  }

  /** MakeRequestOptions: method, resource path, query parameters and an optional body. */
  datatype RequestOptions = RequestOptions(verb: string, path: string, params: Values, body: Option<CreatePayload>)

  class Client {
    var scheme: string
    var host: string

    /** The scheme and host this client sends requests to. */
    function Target(): Settings
      reads this
    {
      Settings(scheme, host)
    }

    constructor ()
      ensures Target() == DefaultSettings
    {
      scheme := DefaultScheme;
      host := DefaultHost;
    }

    /** Runs one option against this client. */
    method Apply(option: ClientOption) returns (err: Option<Error>)
      modifies this
      ensures match ApplyOption(old(Target()), option)
        case Success(s) => err == None && Target() == s
        case Failure(e) => err == Some(e) && Target() == old(Target())
    {
      match option
      case SetScheme(s) =>
        scheme := s;
        err := None;
      case SetHost(h) =>
        host := h;
        err := None;
      case Rejecting(reason) =>
        err := Some(OptionError(reason));
    }

    /**
     * MakeRequest: sends opt to v1 + opt.path with opt.params as the query and
     * the vendor JSON content type. A body that does not marshal is sent as an
     * empty body. A transport error comes back without a response; otherwise
     * the response always comes back, with a status error when it is not 2xx.
     */
    method MakeRequest(transport: Transport, json: Codec, opt: RequestOptions)
      returns (res: Option<Response>, err: Option<Error>, ghost sent: Request)
      ensures sent.verb == opt.verb
      ensures sent.url == Url(scheme, host, ApiVersion + opt.path, opt.params)
      ensures sent.header == NegotiationHeader
      ensures opt.body.None? ==> sent.body == []
      ensures opt.body.Some? && json.marshal(opt.body.value).Success? ==> sent.body == json.marshal(opt.body.value).value
      ensures opt.body.Some? && json.marshal(opt.body.value).Failure? ==> sent.body == []
      ensures match transport(sent)
        case Failed(reason) => res == None && err == Some(TransportError(reason))
        case Received(r) => res == Some(r) && err == CheckResponse(r)
      ensures err.None? || err.value.StatusError? ==> res.Some?
      ensures res.None? ==> err.Some? && err.value.TransportError?
    {
      var u := Url(scheme, host, ApiVersion + opt.path, opt.params);

      var payload: seq<byte> := [];
      if opt.body.Some? {
        var marshalled := json.marshal(opt.body.value);
        if marshalled.Success? {
          payload := marshalled.value;
        }
      }

      var header: Values := map[];
      header := Add(header, "Accept", ContentType);
      header := Add(header, "Content-Type", ContentType);
      var request := Request(opt.verb, u, header, payload);
      sent := request;

      var exchange := transport(request);
      if exchange.Failed? {
        return None, Some(TransportError(exchange.reason)), sent;
      }

      var response := exchange.response;
      err := CheckResponse(response);
      if err.Some? {
        return Some(response), err, sent;
      }

      res := Some(response);
    }
  }

  /**
   * NewClient: starts from the defaults and runs the options in order; the
   * first option that returns an error aborts, and no client is returned.
   */
  method NewClient(options: seq<ClientOption>) returns (c: Client?, err: Option<Error>)
    ensures match Configure(options)
      case Success(s) => err == None && c != null && fresh(c) && c.Target() == s
      case Failure(e) => err == Some(e) && c == null
  {
    var client := new Client();
    var i := 0;
    while i < |options|
      invariant 0 <= i <= |options|
      invariant ApplyOptions(client.Target(), options[i..]) == Configure(options)
    {
      assert options[i..][0] == options[i] && options[i..][1..] == options[i + 1..];
      var e := client.Apply(options[i]);
      if e.Some? {
        return null, e;
      }
      i := i + 1;
    }
    assert options[i..] == [];
    c, err := client, None;
  }
}
