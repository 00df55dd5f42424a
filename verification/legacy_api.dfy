/** The older client variant (the SchedulizeSocial target). Its `APIError`
    has the same cases as the current one but no `errorDescription`; its
    request classification is written out again in that file and is
    modelled here from it, then shown to agree with the current client. */
module LegacyApi {
  import opened Wrappers
  import opened Models
  import Api

  /** `performRequest` of the older client, as one pass over the exchange
      with the `catch` chain folded in. */
  function PerformRequest<T>(x: Api.Exchange<T>): (r: Result<T, Api.ApiError>)
    ensures x.HttpResponse? && x.status == 401 ==> r == Err(Api.Unauthorized)
    ensures x.HttpResponse? && x.status != 401 && !Api.IsSuccess(x.status) && x.errorBody.Some? ==>
      r == Err(Api.ServerError(x.errorBody.value.error))
    ensures x.HttpResponse? && x.status != 401 && !Api.IsSuccess(x.status) && x.errorBody.None? ==>
      r == Err(Api.ServerError(Api.HttpStatusText(x.status)))
    ensures r.Ok? <==> x.HttpResponse? && Api.IsSuccess(x.status) && x.decoded.Ok?
    ensures x.HttpResponse? && Api.IsSuccess(x.status) && x.decoded.Err? ==> r == Err(Api.DecodingError(x.decoded.error))
    ensures !x.HttpResponse? ==> r.Err? && r.error.NetworkError?
  {
    match x
    case TransportFailure(d) => Err(Api.NetworkError(d))
    case NonHttpResponse => Err(Api.NetworkError(Api.InvalidResponseDetail))
    case HttpResponse(status, body, decoded) =>
      if status == 401 then Err(Api.Unauthorized)
      else if !(200 <= status <= 299) then
        Err(Api.ServerError(if body.Some? then body.value.error else Api.HttpStatusText(status)))
      else if decoded.Ok? then Ok(decoded.value)
      else Err(Api.DecodingError(decoded.error))
  }

  /** `delete` of the older client: no `catch` chain, body never read. */
  function Delete(urlParses: bool, x: Api.DeleteExchange): (r: Outcome<Api.Thrown>)
    ensures urlParses && x.DeleteResponse? && x.status == 401 ==> r == Fail(Api.ApiFailure(Api.Unauthorized))
    ensures urlParses && x.DeleteResponse? && x.status != 401 && !Api.IsSuccess(x.status) ==>
      r == Fail(Api.ApiFailure(Api.ServerError(Api.HttpStatusText(x.status))))
    ensures r.Pass? <==> urlParses && x.DeleteResponse? && Api.IsSuccess(x.status)
  {
    if !urlParses then Fail(Api.ApiFailure(Api.InvalidUrl))
    else match x
      case DeleteTransportFailure(d) => Fail(Api.OtherFailure(d))
      case DeleteNonHttpResponse => Fail(Api.ApiFailure(Api.NetworkError(Api.InvalidResponseDetail)))
      case DeleteResponse(status) =>
        if status == 401 then Fail(Api.ApiFailure(Api.Unauthorized))
        else if !(200 <= status <= 299) then Fail(Api.ApiFailure(Api.ServerError(Api.HttpStatusText(status))))
        else Pass
  }

  /** Both client variants classify every exchange identically. */
  lemma AgreesWithCurrentClient<T>(x: Api.Exchange<T>, urlParses: bool, d: Api.DeleteExchange)
    ensures PerformRequest(x) == Api.PerformRequest(x)
    ensures Delete(urlParses, d) == Api.Delete(urlParses, d)
  {
  }

  /** `deleteScheduledPost` of the older client. */
  function DeleteScheduledPostPath(postId: string): string {
    "/api/v1/posts/scheduled/" + postId
  }

  /** The older client targets the same post path as the current one, with
      the id verbatim after the prefix. */
  lemma DeletePathMatchesCurrentClient(postId: string)
    ensures DeleteScheduledPostPath(postId) == Api.DeleteScheduledPostPath(postId)
    ensures Api.Between(DeleteScheduledPostPath(postId), Api.ScheduledPostPrefix, "") == Some(postId)
  {
    Api.DeletePathCarriesTheId(postId);
  }
}
