/** The module parameters (x/futchain/types/params.go). */
module FutchainParams {
  import opened Wrappers
  import opened GoInts
  import opened Errors

  /** The timezone handed to the feed, and the block interval between fetches. */
  datatype Params = Params(timezone: string, fetchModulo: Int64)

  const DefaultTimezone: string := "Europe/Istanbul"

  /** `NewParams` sets the timezone only; `FetchModulo` keeps its zero value. */
  function NewParams(timezone: string): (p: Params)
    ensures p.timezone == timezone && p.fetchModulo == 0
  {
    Params(timezone, 0)
  }

  function DefaultParams(): (p: Params)
    ensures p.timezone == DefaultTimezone && p.fetchModulo == 0
  {
    NewParams(DefaultTimezone)
  }

  /** `validateTimezone` accepts every string. */
  function ValidateTimezone(v: string): (err: Option<Error>)
    ensures err == None
  {
    None
  }

  /** So `Validate` accepts every parameter set, an empty timezone and a zero modulo included. */
  function Validate(p: Params): (err: Option<Error>)
    ensures err == None
  {
    var err := ValidateTimezone(p.timezone);
    if err.Some? then err else None
  }
}
