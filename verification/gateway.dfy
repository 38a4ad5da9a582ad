/**
 * The actuator gateway: the base address the controller registers and the
 * outcome of sending it one command. The HTTP request itself is not modelled;
 * its outcome arrives as an `ActuatorReply` parameter.
 */
module Gateway {
  import opened Wrappers

  /**
   * What a dispatch reports: `ok` is the transport's success status and
   * `response` the reply body (or the text of a thrown transport error).
   */
  datatype ActuatorReply = ActuatorReply(ok: bool, response: string)

  /** A request attempted over the network, and where to; the transport may have failed. */
  datatype Transmission = Transmission(baseUrl: string, cmd: string)

  const NotRegisteredMessage := "ESP32 not registered. Call /api/esp32/register first."
  const HttpScheme := "http://"

  /** The base address stored for a registering controller. */
  function BaseUrlFor(ip: string): (url: string)
    ensures |url| == |HttpScheme| + |ip|
    ensures url[..|HttpScheme|] == HttpScheme && url[|HttpScheme|..] == ip
  {
    HttpScheme + ip
  }

  /**
   * Outcome of sending a command: without a registered address it is a fixed
   * refusal; with one it is whatever the transport reported, passed through.
   */
  function Dispatch(baseUrl: Option<string>, transport: ActuatorReply): (r: ActuatorReply)
    ensures r.ok ==> baseUrl.Some?
    ensures baseUrl.None? ==> r.response == NotRegisteredMessage
    ensures baseUrl.Some? ==> r == transport
  {
    if baseUrl.None? then ActuatorReply(false, NotRegisteredMessage) else transport
  }

  /** The network traffic a dispatch attempts: one request when registered, none otherwise. */
  function Transmitted(baseUrl: Option<string>, cmd: string): (t: seq<Transmission>)
    ensures |t| <= 1
    ensures t == [] <==> baseUrl.None?
    ensures t != [] ==> t[0] == Transmission(baseUrl.value, cmd)
  {
    if baseUrl.None? then [] else [Transmission(baseUrl.value, cmd)]
  }
}
