/** The audit records that callers of the chain serialise with `json.Marshal`
    before appending them as block data. Strings are written between quotes
    without escaping, integers in decimal, and times as their integer value. */
module Records {

  function Digit(d: nat): char
    requires d < 10
  {
    "0123456789"[d]
  }

  function NatToDecimal(n: nat): string
    decreases n
  {
    if n < 10 then [Digit(n)] else NatToDecimal(n / 10) + [Digit(n % 10)]
  }

  function IntToDecimal(i: int): string
  {
    if i < 0 then "-" + NatToDecimal(-i) else NatToDecimal(i)
  }

  function Str(s: string): string
  {
    "\"" + s + "\""
  }

  function Bool(b: bool): string
  {
    if b then "true" else "false"
  }

  /** The members of a JSON object, separated by commas; values are already encoded. */
  function Members(fields: seq<(string, string)>): string
  {
    if fields == [] then ""
    else
      Str(fields[0].0) + ":" + fields[0].1
      + (if |fields| > 1 then "," else "") + Members(fields[1..])
  }

  /** A JSON object with the given members, in the order of the Go struct's fields. */
  function Json(fields: seq<(string, string)>): string
  {
    "{" + Members(fields) + "}"
  }
}
