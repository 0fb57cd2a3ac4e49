/** Amtrak station codes: every key of the time-zone tables is three
    characters long, so a table key is kept as its three characters. */
module StationCodes {
  import opened Wrappers

  datatype Code = Code(c0: char, c1: char, c2: char)

  /** The code spelt by a station string, if it has the length of one. */
  function CodeOf(station: string): (code: Option<Code>)
    ensures code.Some? <==> |station| == 3
    ensures code.Some? ==> CodeText(code.value) == station
  {
    if |station| == 3 then Some(Code(station[0], station[1], station[2])) else None
  }

  function CodeText(code: Code): (text: string)
    ensures |text| == 3
  {
    [code.c0, code.c1, code.c2]
  }
}
