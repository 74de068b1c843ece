/**
 * The gateway's settings and the processor endpoints it talks to. Every endpoint
 * exists twice, as the same path on the live host and on the test host, and the
 * `testmode` setting alone decides which of the two is used.
 */
module Endpoints {

  const LiveHost := "https://simplepays.com"
  const TestHost := "https://test.simplepays.com"

  const TokenPath := "/frontend/GenerateToken"
  const FormPath := "/frontend/widget/v3/widget.js?language=en&style=card"
  const StatusPath := "/frontend/GetStatus;jsessionid="

  const TokenLiveUrl := LiveHost + TokenPath
  const TokenTestUrl := TestHost + TokenPath
  const FormLiveUrl := LiveHost + FormPath
  const FormTestUrl := TestHost + FormPath
  const StatusLiveUrl := LiveHost + StatusPath
  const StatusTestUrl := TestHost + StatusPath

  /** The option values the gateway reads once, when it is constructed. */
  datatype Settings = Settings(
    testmode: string,
    securitySender: string,
    transactionChannel: string,
    transactionMode: string,
    userLogin: string,
    userPwd: string,
    paymentType: string,
    acceptedBrands: seq<string>)

  /** Strict comparison with the checkbox value "yes"; anything else is live mode. */
  predicate InTestMode(s: Settings) {
    s.testmode == "yes"
  }

  function Host(s: Settings): string {
    if InTestMode(s) then TestHost else LiveHost
  }

  function TokenUrl(s: Settings): (u: string)
    ensures u == TokenTestUrl <==> s.testmode == "yes"
    ensures u == TokenLiveUrl <==> s.testmode != "yes"
    ensures u == Host(s) + TokenPath
  {
    if InTestMode(s) then TokenTestUrl else TokenLiveUrl
  }

  function FormUrl(s: Settings): (u: string)
    ensures u == FormTestUrl <==> s.testmode == "yes"
    ensures u == FormLiveUrl <==> s.testmode != "yes"
    ensures u == Host(s) + FormPath
  {
    if InTestMode(s) then FormTestUrl else FormLiveUrl
  }

  /** The status endpoint without its token: it ends in the session qualifier `;jsessionid=`. */
  function StatusUrl(s: Settings): (u: string)
    ensures u == StatusTestUrl <==> s.testmode == "yes"
    ensures u == StatusLiveUrl <==> s.testmode != "yes"
    ensures u == Host(s) + StatusPath
  {
    if InTestMode(s) then StatusTestUrl else StatusLiveUrl
  }

  /**
   * The URL the status check fetches: the mode's status endpoint with the token
   * appended and nothing in between, so the token can be read back from it.
   */
  function StatusRequestUrl(s: Settings, token: string): (u: string)
    ensures |u| == |StatusUrl(s)| + |token|
    ensures u[..|StatusUrl(s)|] == StatusUrl(s)
    ensures u[|StatusUrl(s)|..] == token
  {
    StatusUrl(s) + token
  }
}
