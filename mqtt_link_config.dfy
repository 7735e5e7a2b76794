/**
 * The configuration of an MQTT link: broker host and port, the topic prefix
 * (always kept with a trailing "/") and the client id.
 */
module Mqtt {
  import opened Wrappers

  /** A Java `int`. */
  newtype JavaInt = x: int | -0x8000_0000 <= x < 0x8000_0000

  /** The exception a setter ends with, if any. */
  datatype Outcome = Returned | NullPointerException(message: Option<string>)

  const LOCALHOST: string := "localhost"
  const DEFAULT_PORT: JavaInt := 1883
  const DEFAULT_TOPIC: string := "home/devices/ardulink/"
  const DEFAULT_CLIENT_ID: string := "ardulink-mqtt-link"

  predicate EndsWithSlash(s: string)
  {
    |s| > 0 && s[|s| - 1] == '/'
  }

  /**
   * `normalize`: the topic with a trailing "/", added only when it is not
   * already there.
   */
  function Normalize(topic: string): (r: string)
    ensures EndsWithSlash(r)
    ensures topic <= r && |r| <= |topic| + 1
    ensures r == topic <==> EndsWithSlash(topic)
  {
    if EndsWithSlash(topic) then topic else topic + "/"
  }

  /** A topic without the trailing "/" gets exactly one appended. */
  lemma NormalizeAppendsOneSlash(topic: string)
    requires !EndsWithSlash(topic)
    ensures Normalize(topic) == topic + "/"
  {
  }

  /** Normalizing twice is normalizing once. */
  lemma NormalizeIdempotent(topic: string)
    ensures Normalize(Normalize(topic)) == Normalize(topic)
  {
  }

  /** No string that extends `topic` and ends with "/" is shorter than `Normalize(topic)`. */
  lemma NormalizeIsShortest(topic: string, s: string)
    requires topic <= s && EndsWithSlash(s)
    ensures |Normalize(topic)| <= |s|
  {
  }

  /**
   * The upper bound the `port` field declares, `2 << 16 - 1`, evaluated as
   * Java does: subtraction binds tighter than the shift, so it is `2 << 15`.
   */
  const DECLARED_MAX_PORT: int := ((2 as bv32) << (16 - 1)) as int

  /** The declared bounds of the `port` field, as written. */
  predicate DeclaredPortBounds(port: int)
  {
    1 <= port <= DECLARED_MAX_PORT
  }

  /** The largest TCP port, 2^16 - 1. */
  const MAX_PORT: int := 0xFFFF

  /** The bounds the `port` field is meant to declare: a nonzero TCP port. */
  predicate PortInRange(port: int)
  {
    1 <= port <= MAX_PORT
  }

  /** As written, the declared bounds admit 65536, which is not a TCP port. */
  lemma DeclaredBoundsAdmitPort65536()
    ensures DECLARED_MAX_PORT == 65536
    ensures DeclaredPortBounds(65536) && !PortInRange(65536)
  {
  }

  /**
   * The intended bounds admit exactly the nonzero values of a 16-bit port
   * field: those the declared bounds admit, except 65536.
   */
  lemma PortInRangeIsNonzeroSixteenBit(port: int)
    ensures PortInRange(port) <==> 0 < port < 0x1_0000
    ensures PortInRange(port) <==> DeclaredPortBounds(port) && port != DECLARED_MAX_PORT
  {
    DeclaredBoundsAdmitPort65536();
  }

  /** Settings of an MQTT link, with the defaults of a new configuration. */
  class MqttLinkConfig {
    var host: string
    var port: JavaInt
    var topic: string
    var clientId: string

    /** The topic is always kept normalized. */
    ghost predicate Valid()
      reads this
    {
      EndsWithSlash(topic)
    }

    constructor ()
      ensures Valid()
      ensures host == LOCALHOST && port == DEFAULT_PORT
      ensures topic == DEFAULT_TOPIC && clientId == DEFAULT_CLIENT_ID
      ensures PortInRange(port as int)
    {
      host := LOCALHOST;
      port := DEFAULT_PORT;
      topic := Normalize(DEFAULT_TOPIC);
      clientId := DEFAULT_CLIENT_ID;
    }

    function GetHost(): (r: string)
      reads this
      ensures r == host
    {
      host
    }

    function GetPort(): (r: JavaInt)
      reads this
      ensures r == port
    {
      port
    }

    function GetTopic(): (r: string)
      reads this
      ensures r == topic
      ensures Valid() ==> EndsWithSlash(r)
    {
      topic
    }

    function GetClientId(): (r: string)
      reads this
      ensures r == clientId
    {
      clientId
    }

    /** `setHost`: a null host selects "localhost"; any other value is stored as given. */
    method SetHost(value: Option<string>)
      modifies this`host
      ensures GetHost() == if value.Some? then value.value else LOCALHOST
    {
      host := if value.None? then LOCALHOST else value.value;
    }

    /** `setPort`: stores the value as given; the declared bounds are not checked here. */
    method SetPort(value: JavaInt)
      modifies this`port
      ensures GetPort() == value
    {
      port := value;
    }

    /**
     * `setTopic`: stores the normalized topic. A null topic fails inside
     * `normalize` with a NullPointerException without a message, before the
     * null check with its message is reached, and leaves the topic unchanged.
     */
    method SetTopic(value: Option<string>) returns (outcome: Outcome)
      requires Valid()
      modifies this`topic
      ensures Valid()
      ensures value.None? ==> outcome == NullPointerException(None) && topic == old(topic)
      ensures value.Some? ==> outcome == Returned && GetTopic() == Normalize(value.value)
    {
      if value.None? {
        return NullPointerException(None);
      }
      topic := Normalize(value.value);
      outcome := Returned;
    }

    /** `setClientId`: a null id is rejected and leaves the id unchanged; any other is stored as given. */
    method SetClientId(value: Option<string>) returns (outcome: Outcome)
      modifies this`clientId
      ensures value.None? ==> outcome == NullPointerException(Some("clientId must not be null")) && clientId == old(clientId)
      ensures value.Some? ==> outcome == Returned && GetClientId() == value.value
    {
      if value.None? {
        return NullPointerException(Some("clientId must not be null"));
      }
      clientId := value.value;
      outcome := Returned;
    }
  }
}
