/** Values exchanged between the cached poao-tilgang client, its callers and
    the remote poao-tilgang client. All of them are immutable values; the
    policy input is the key of the decision cache, so only its structural
    equality matters here. */
module ApiTypes {

  /** Textual form of a java.util.UUID (Azure AD object ids, request ids). */
  type Uuid = string

  /** Norwegian national identity number ("norsk ident"). */
  type NorskIdent = string

  type RequestId = Uuid

  datatype Option<T> = None | Some(value: T)

  datatype TilgangType = Lese | Skrive

  /** Policy inputs: "who wants to do what to whom". The variants are the
      eight policy kinds the client's tests construct; the source's own
      `PolicyInput` declaration is not among the modelled files. */
  datatype PolicyInput =
    | NavAnsattTilgangTilEksternBruker(navAnsattAzureId: Uuid, tilgangType: TilgangType, norskIdent: NorskIdent)
    | NavAnsattTilgangTilModia(navAnsattAzureId: Uuid)
    | EksternBrukerTilgangTilEksternBruker(rekvirentNorskIdent: NorskIdent, ressursNorskIdent: NorskIdent)
    | NavAnsattTilgangTilNavEnhet(navAnsattAzureId: Uuid, navEnhetId: string)
    | NavAnsattTilgangTilNavEnhetMedSperre(navAnsattAzureId: Uuid, navEnhetId: string)
    | NavAnsattBehandleStrengtFortroligBrukere(navAnsattAzureId: Uuid)
    | NavAnsattBehandleFortroligBrukere(navAnsattAzureId: Uuid)
    | NavAnsattBehandleSkjermedePersoner(navAnsattAzureId: Uuid)

  /** Outcome of one policy evaluation. */
  datatype Decision = Permit | Deny(message: string, reason: string)

  /** A policy input tagged with a caller-chosen correlation id. */
  datatype PolicyRequest = PolicyRequest(requestId: RequestId, policyInput: PolicyInput)

  /** The decision for the request carrying the same request id. */
  datatype PolicyResult = PolicyResult(requestId: RequestId, decision: Decision)

  datatype AdGruppe = AdGruppe(id: Uuid, navn: string)

  /** The two failures the remote client reports: the network call itself
      failed, or the server answered with a status that is not a success. */
  datatype ApiError =
    | NetworkApiError(message: string)
    | BadHttpStatusApiError(httpStatus: int, responseBody: string)

  /** `ApiResult<T>`: success with a value, or failure with an error. */
  datatype ApiResult<T> = Success(value: T) | Failure(error: ApiError)

  /** The request ids of `requests`, in order. */
  function RequestIds(requests: seq<PolicyRequest>): seq<RequestId>
  {
    seq(|requests|, k requires 0 <= k < |requests| => requests[k].requestId)
  }

  /** The request ids of `results`, in order. */
  function ResultIds(results: seq<PolicyResult>): seq<RequestId>
  {
    seq(|results|, k requires 0 <= k < |results| => results[k].requestId)
  }
}
