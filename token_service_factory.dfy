/** `ITokenCalculationService` and `TokenServiceFactory`: the two calculators and the choice
    between them by the request's `stream` flag. */
module TokenServiceFactory {
  import opened Results
  import opened OpenAiApiEvent
  import opened Collaborators
  import Int32
  import StreamTokenInfoService
  import NonStreamTokenService

  /** The two implementations of `ITokenCalculationService` the service provider holds. */
  datatype TokenCalculationService = StreamTokenInfo | NonStreamToken

  /** `GetStreamService`: the streaming calculator for a streamed call, the other one
      otherwise. The choice is total, has no failure case, and depends on the flag alone. */
  function GetStreamService(isStream: bool): (service: TokenCalculationService)
    ensures isStream <==> service == StreamTokenInfo
    ensures !isStream <==> service == NonStreamToken
  {
    if isStream then StreamTokenInfo else NonStreamToken
  }

  /** Every calculator is chosen by exactly one value of the flag. */
  lemma EachServiceChosen(service: TokenCalculationService)
    ensures GetStreamService(service == StreamTokenInfo) == service
    ensures GetStreamService(service != StreamTokenInfo) != service
  {
  }

  /** `CalculatePromptTokens` through the interface: the chosen implementation's count. */
  function CalculatePromptTokens(service: TokenCalculationService, ext: Externals, event: OpenAiApiEvent): (r: Result<Int32.int32>)
    ensures service == StreamTokenInfo ==> r == StreamTokenInfoService.CalculatePromptTokens(ext, event)
    ensures service == NonStreamToken ==> r == NonStreamTokenService.CalculatePromptTokens(ext, event)
  {
    match service
    case StreamTokenInfo =>
      (match StreamTokenInfoService.CalculatePromptTokens(ext, event)
       case Ok(n) => Ok(n)
       case Err(e) => Err(e))
    case NonStreamToken => NonStreamTokenService.CalculatePromptTokens(ext, event)
  }

  /** What `CalculateCompletionTokens` through the interface returns: the chosen
      implementation's count, and with a null response both fail alike. */
  function CompletionTokens(service: TokenCalculationService, ext: Externals, event: OpenAiApiEvent): (r: Result<Int32.int32>)
    ensures service == StreamTokenInfo ==> r == StreamTokenInfoService.CompletionTokens(ext, event)
    ensures service == NonStreamToken ==> r == NonStreamTokenService.CalculateCompletionTokens(ext, event)
    ensures event.response.None? ==> r == Err(ArgumentNull)
  {
    match service
    case StreamTokenInfo => StreamTokenInfoService.CompletionTokens(ext, event)
    case NonStreamToken => NonStreamTokenService.CalculateCompletionTokens(ext, event)
  }

  /** `CalculateCompletionTokens` through the interface: the streaming one runs its loop. */
  method CalculateCompletionTokens(service: TokenCalculationService, ext: Externals, event: OpenAiApiEvent)
    returns (r: Result<Int32.int32>)
    ensures r == CompletionTokens(service, ext, event)
  {
    match service
    case StreamTokenInfo =>
      r := StreamTokenInfoService.CalculateCompletionTokens(ext, event);
    case NonStreamToken =>
      r := NonStreamTokenService.CalculateCompletionTokens(ext, event);
  }
}
