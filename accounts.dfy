/**
 * The accounts resource service: Fetch, List, Create and Delete against
 * /organisation/accounts, each composing the request pipeline with decoding,
 * and the fluent Number and Size setters of the service's pagination.
 */
module AccountsApi {
  import opened Wrappers
  import opened Strconv
  import opened UrlValues
  import opened AccountModel
  import opened Http
  import opened Paging
  import opened Pipeline

  const VersionKey: string := "version"

  class AccountsService {
    const client: Client
    var pagination: Pagination

    /** NewAccountsService: a service over client, starting at the default page. */
    constructor (client: Client)
      ensures this.client == client
      ensures pagination == NewPagination()
    {
      this.client := client;
      pagination := NewPagination();
    }

    /**
     * Fetch: GET v1/organisation/accounts/{id}. The response is returned
     * whenever there is one; the account only when the status is 2xx and the
     * body decodes.
     */
    method Fetch(transport: Transport, json: Codec, id: string)
      returns (account: Option<Account>, res: Option<Response>, err: Option<Error>, ghost sent: Request)
      ensures sent == Request("GET", Url(client.scheme, client.host, ApiVersion + AccountsPath + "/" + id, map[]), NegotiationHeader, [])
      ensures account.Some? <==> err.None?
      ensures match transport(sent)
        case Failed(reason) => res == None && err == Some(TransportError(reason))
        case Received(r) =>
          && res == Some(r)
          && (!IsSuccessStatus(r.statusCode) ==> err == Some(StatusError(r.status)))
          && (IsSuccessStatus(r.statusCode) ==>
                match Decode(r, json.unmarshalAccount)
                case Failure(e) => err == Some(e)
                case Success(envelope) => account == Some(envelope.data))
    {
      var opt := RequestOptions("GET", AccountsPath + "/" + id, map[], None);
      res, err, sent := client.MakeRequest(transport, json, opt);
      assert ApiVersion + (AccountsPath + "/" + id) == ApiVersion + AccountsPath + "/" + id;
      if err.Some? {
        return None, res, err, sent;
      }

      var decoded := Decode(res.value, json.unmarshalAccount);
      if decoded.Failure? {
        return None, res, Some(decoded.error), sent;
      }

      account := Some(decoded.value.data);
    }

    /**
     * List: GET v1/organisation/accounts with the current pagination as the
     * query. Unlike Fetch and Create, on any error it returns no response.
     */
    method List(transport: Transport, json: Codec)
      returns (accounts: Option<seq<Account>>, res: Option<Response>, err: Option<Error>, ghost sent: Request)
      ensures sent == Request("GET", Url(client.scheme, client.host, ApiVersion + AccountsPath, Rendered(pagination)), NegotiationHeader, [])
      ensures accounts.Some? <==> err.None?
      ensures res.Some? <==> err.None?
      ensures match transport(sent)
        case Failed(reason) => err == Some(TransportError(reason))
        case Received(r) =>
          && (!IsSuccessStatus(r.statusCode) ==> err == Some(StatusError(r.status)))
          && (IsSuccessStatus(r.statusCode) ==>
                match Decode(r, json.unmarshalAccounts)
                case Failure(e) => err == Some(e)
                case Success(envelope) => accounts == Some(envelope.data) && res == Some(r))
    {
      var params := Params(pagination);
      var opt := RequestOptions("GET", AccountsPath, params, None);
      var pipelineErr;
      res, pipelineErr, sent := client.MakeRequest(transport, json, opt);
      if pipelineErr.Some? {
        return None, None, pipelineErr, sent;
      }

      var decoded := Decode(res.value, json.unmarshalAccounts);
      if decoded.Failure? {
        return None, None, Some(decoded.error), sent;
      }

      accounts, err := Some(decoded.value.data), None;
    }

    /**
     * Create: POST v1/organisation/accounts with {data: account} as the body.
     * The response is returned whenever there is one; the created account only
     * when the status is 2xx and the body decodes.
     */
    method Create(transport: Transport, json: Codec, account: Account)
      returns (created: Option<Account>, res: Option<Response>, err: Option<Error>, ghost sent: Request)
      ensures sent.verb == "POST"
      ensures sent.url == Url(client.scheme, client.host, ApiVersion + AccountsPath, map[])
      ensures sent.header == NegotiationHeader
      ensures json.marshal(CreatePayload(account)).Success? ==> sent.body == json.marshal(CreatePayload(account)).value
      ensures json.marshal(CreatePayload(account)).Failure? ==> sent.body == []
      ensures created.Some? <==> err.None?
      ensures match transport(sent)
        case Failed(reason) => res == None && err == Some(TransportError(reason))
        case Received(r) =>
          && res == Some(r)
          && (!IsSuccessStatus(r.statusCode) ==> err == Some(StatusError(r.status)))
          && (IsSuccessStatus(r.statusCode) ==>
                match Decode(r, json.unmarshalAccount)
                case Failure(e) => err == Some(e)
                case Success(envelope) => created == Some(envelope.data))
    {
      var data := CreatePayload(account);
      var opt := RequestOptions("POST", AccountsPath, map[], Some(data));
      res, err, sent := client.MakeRequest(transport, json, opt);
      if err.Some? {
        return None, res, err, sent;
      }

      var decoded := Decode(res.value, json.unmarshalAccount);
      if decoded.Failure? {
        return None, res, Some(decoded.error), sent;
      }

      created := Some(decoded.value.data);
    }

    /**
     * Delete: DELETE v1/organisation/accounts/{id}?version={version}. No body
     * is read; ok is true exactly when the pipeline reported no error.
     */
    method Delete(transport: Transport, json: Codec, id: string, version: int64)
      returns (ok: bool, res: Option<Response>, err: Option<Error>, ghost sent: Request)
      ensures sent == Request("DELETE",
        Url(client.scheme, client.host, ApiVersion + AccountsPath + "/" + id, map[VersionKey := [Itoa(version as int)]]),
        NegotiationHeader, [])
      ensures ParseDecimal(sent.url.query[VersionKey][0]) == Some(version as int)
      ensures ok <==> err.None?
      ensures match transport(sent)
        case Failed(reason) => res == None && err == Some(TransportError(reason))
        case Received(r) =>
          && res == Some(r)
          && (ok <==> IsSuccessStatus(r.statusCode))
          && (!ok ==> err == Some(StatusError(r.status)))
    {
      var params: Values := map[];
      params := Add(params, VersionKey, Itoa(version as int));
      ItoaRoundTrip(version as int);

      var opt := RequestOptions("DELETE", AccountsPath + "/" + id, params, None);
      res, err, sent := client.MakeRequest(transport, json, opt);
      assert ApiVersion + (AccountsPath + "/" + id) == ApiVersion + AccountsPath + "/" + id;
      if err.Some? {
        return false, res, err, sent;
      }

      ok := true;
    }

    /** Number: sets the page number and nothing else; returns this service for chaining. */
    method Number(number: int64) returns (s: AccountsService)
      modifies this
      ensures s == this
      ensures pagination == old(pagination).(number := number)
    {
      pagination := pagination.(number := number);
      s := this;
    }

    /** Size: sets the page size and nothing else; returns this service for chaining. */
    method Size(size: int64) returns (s: AccountsService)
      modifies this
      ensures s == this
      ensures pagination == old(pagination).(size := size)
    {
      pagination := pagination.(size := size);
      s := this;
    }
  }

  /** Client.Accounts: a new service on every call, so no pagination carries over. */
  method Accounts(client: Client) returns (s: AccountsService)
    ensures fresh(s)
    ensures s.client == client
    ensures s.pagination == NewPagination()
  {
    s := new AccountsService(client);
  }

  /**
   * client.Accounts().Number(number).Size(size).List(...): the page requested
   * depends on number and size alone, whatever earlier services of the same
   * client were set to; the outcome is List's for that request.
   */
  method ListPage(client: Client, transport: Transport, json: Codec, number: int64, size: int64)
    returns (accounts: Option<seq<Account>>, res: Option<Response>, err: Option<Error>, ghost sent: Request)
    ensures sent == Request("GET", Url(client.scheme, client.host, ApiVersion + AccountsPath, Rendered(Pagination(number, size))), NegotiationHeader, [])
    ensures accounts.Some? <==> err.None?
    ensures res.Some? <==> err.None?
    ensures match transport(sent)
      case Failed(reason) => err == Some(TransportError(reason))
      case Received(r) =>
        && (!IsSuccessStatus(r.statusCode) ==> err == Some(StatusError(r.status)))
        && (IsSuccessStatus(r.statusCode) ==>
              match Decode(r, json.unmarshalAccounts)
              case Failure(e) => err == Some(e)
              case Success(envelope) => accounts == Some(envelope.data) && res == Some(r))
    ensures ParseDecimal(sent.url.query[NumberKey][0]) == Some(if number < 0 then 0 else number as int)
    ensures ParseDecimal(sent.url.query[SizeKey][0]) == Some(if size <= 0 then 100 else size as int)
  {
    var service := Accounts(client);
    service := service.Number(number);
    service := service.Size(size);
    accounts, res, err, sent := service.List(transport, json);
  }
}
