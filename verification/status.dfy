/** The health value reported for the Monero daemon and its wire spelling. */
module Status {
  import opened Wrappers

  /** The three values of the status enumeration. */
  datatype MoneroDStatus = Online | Offline | Syncing

  /** A character the JSON encoder copies into a string value unchanged. */
  predicate IsPlain(c: char) {
    ('a' <= c <= 'z') || ('A' <= c <= 'Z')
  }

  /** The string constant behind each status. The syncing value keeps the
      spelling "Syning" because that is what consumers receive. */
  function Wire(s: MoneroDStatus): (w: string)
    ensures 0 < |w|
    ensures forall i :: 0 <= i < |w| ==> IsPlain(w[i])
  {
    match s
    case Online => "online"
    case Offline => "offline"
    case Syncing => "Syning"
  }

  /** Reads a wire string back into a status; None for any other string. */
  function ParseWire(w: string): (r: Option<MoneroDStatus>)
    ensures r.Some? ==> Wire(r.value) == w
  {
    if w == "online" then Some(Online)
    else if w == "offline" then Some(Offline)
    else if w == "Syning" then Some(Syncing)
    else None
  }

  /** Every status survives a trip through its wire string. */
  lemma ParseWireOfWire(s: MoneroDStatus)
    ensures ParseWire(Wire(s)) == Some(s)
  {
  }

  /** Distinct statuses have distinct wire strings, so a consumer can tell them apart. */
  lemma WireInjective(a: MoneroDStatus, b: MoneroDStatus)
    ensures Wire(a) == Wire(b) <==> a == b
  {
  }

  /** The wire string of each status; the syncing value is the misspelled
      "Syning", and "syncing" is not a status string. */
  lemma WireTable()
    ensures Wire(Online) == "online"
    ensures Wire(Offline) == "offline"
    ensures Wire(Syncing) == "Syning"
    ensures ParseWire("syncing") == None
  {
  }
}
