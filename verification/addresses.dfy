/** The address gate applied to every externally supplied address string. */
module Addresses {
  import opened Results

  /** `toAddr`: reject the string unless the address predicate accepts it,
      otherwise hand back the very same string (no case normalisation). */
  function ToAddr(isAddress: string -> bool, v: string): (r: Result<string>)
    ensures r.Ok? <==> isAddress(v)
    ensures r.Ok? ==> r.value == v
    ensures r.Err? ==> r.error == InvalidAddress && Message(r.error) == "Invalid address"
  {
    if !isAddress(v) then Err(InvalidAddress) else Ok(v)
  }
}
