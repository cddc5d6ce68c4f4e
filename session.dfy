/** The AWS session configuration and the values it hands to the SDK. */
module Session {
  import opened Wrappers

  datatype SessionConfig = SessionConfig(region: string, retries: int)

  /** The region handed to the SDK: unset when the configured region is empty. */
  function Region(c: SessionConfig): (r: Option<string>)
    ensures r.None? <==> c.region == ""
    ensures r.Some? ==> r.value == c.region
  {
    if c.region != "" then Some(c.region) else None
  }

  /** The retry count handed to the SDK: the configured count when positive, otherwise -1. */
  function Retries(c: SessionConfig): (r: int)
    ensures c.retries > 0 ==> r == c.retries
    ensures c.retries <= 0 ==> r == -1
  {
    if c.retries > 0 then c.retries else -1
  }

  /** Retries never hands the SDK zero, nor any non-positive value other than -1. */
  lemma RetriesNeverZero(c: SessionConfig)
    ensures Retries(c) > 0 || Retries(c) == -1
    ensures Retries(c) != 0
  {
  }
}
