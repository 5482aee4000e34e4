/**
 * What the Cloud Controller (CAPI) client hands back to the two lifecycle
 * handlers, and the rules both handlers apply to it.
 */
module Capi {
  import opened GoStrings

  /** The `VCAP_APPLICATION` document both handlers are configured from. */
  datatype VcapApplication = VcapApplication(
    capiAddr: string,
    applicationID: string,
    applicationName: string,
    spaceID: string,
    applicationURIs: seq<string>)

  /** Time as Go's `time.Time`, in nanoseconds since an arbitrary epoch. */
  type Time = int

  /** One resource of a `LastEvent` answer: its entity type and when it was created. */
  datatype EventResource = EventResource(entityType: string, createdAt: Time)

  /** The cooldown both handlers honour: 30 seconds. */
  const Cooldown: int := 30 * 1_000_000_000

  /**
   * The newest event is of type `kind` and `CreatedAt.After(now - 30s)`; only
   * the first resource is ever looked at.
   */
  predicate RecentEventOfType(resources: seq<EventResource>, kind: string, now: Time): (r: bool)
    ensures r <==> (
      && |resources| > 0
      && resources[0].entityType == kind
      && now - resources[0].createdAt < Cooldown)
  {
    |resources| > 0 && resources[0].entityType == kind && resources[0].createdAt > now - Cooldown
  }

  /** The proxy rewrite every `LoadConfig` applies to the CAPI address. */
  function HttpAddr(addr: string): (r: string)
    ensures (forall i :: !OccursAt(addr, "https", i)) ==> r == addr
    ensures forall i :: FirstOccurrence(addr, "https", i) ==> r == addr[..i] + "http" + addr[i + 5..]
  {
    ReplaceFirst(addr, "https", "http")
  }

  /** An `https` address becomes `http`, and a later `https` in it is left alone. */
  lemma HttpAddrOfHttps(rest: string)
    ensures HttpAddr("https" + rest) == "http" + rest
  {
    ReplaceFirstAtFront("https", "http", rest);
  }
}
