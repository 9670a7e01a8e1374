/** state.py: the lease records that the dhcpcd hook leaves in the state directory. */
module State {
  import opened Wrappers

  datatype Ipv4State = Ipv4State(gateway: string, address: string)

  datatype RaState = RaState(gateway: string, lifetime: int, timestamp: int, address: string, prefix: string, plen: int) {
    /** 0 means infinite and is passed on as 0. */
    function Remaining(now: int): int {
      if lifetime == 0 then 0 else NonNegative(lifetime - (now - timestamp))
    }
  }

  datatype NaState = NaState(address: string)

  datatype PdState = PdState(prefix: string, length: int, vltime: int, pltime: int, timestamp: int) {
    function RemainingVltime(now: int): int { NonNegative(vltime - (now - timestamp)) }

    function RemainingPltime(now: int): int { NonNegative(pltime - (now - timestamp)) }
  }

  /** `max(0, n)`. */
  function NonNegative(n: int): (r: int)
    ensures r >= 0 && r >= n && (r == 0 || r == n)
  {
    if n < 0 then 0 else n
  }

  /** What one pass reads for one uplink: its four records, the clock, and the number `ipaddress` makes of the
      delegated prefix (None where it raises ValueError). */
  datatype Leases = Leases(v4: Option<Ipv4State>, ra: Option<RaState>, pd: Option<PdState>, na: Option<NaState>,
                           pdAddress: Option<nat>, now: int)

  const NO_LEASES := Leases(None, None, None, None, None, 0)

  /** What one pass over all uplinks reads, by uplink name; every file is read at most once in a pass, so any
      interleaving with the hook is some value of this type. */
  type Snapshot = map<string, Leases>

  function Read(files: Snapshot, name: string): Leases { GetOr(files, name, NO_LEASES) }
}
