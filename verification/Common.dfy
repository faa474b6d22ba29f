/** What several parts of the gateway share: ipsec.h and ipsec-secgw.h. */
module Common {
  datatype Option<T> = None | Some(value: T)
  {
    function UnwrapOr(other: T): T
    {
      if Some? then value else other
    }
  }

  /** Policy results that name no SA. */
  const DISCARD: nat := 0
  const BYPASS: nat := 0xffff_ffff

  /** Packets of one burst, and descriptors of one crypto queue pair. */
  const MAX_PKT_BURST: nat := 32
  const CDEV_QUEUE_DESC: nat := 2048

  function Min(a: nat, b: nat): nat
  {
    if a < b then a else b
  }

  function Max(a: nat, b: nat): nat
  {
    if a > b then a else b
  }
}
