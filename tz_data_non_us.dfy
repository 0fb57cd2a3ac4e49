/** Time zones of Amtrak stations outside the United States. */
module TzDataNonUs {
  import opened StationCodes

  const TimeZoneVancouver := "America/Vancouver"
  const TimeZoneToronto := "America/Toronto"

  /** The fixed table of Canadian station codes and their IANA zones. */
  const TzDataNonUsTable: map<Code, string> := map[
    Code('V', 'A', 'C') := TimeZoneVancouver,
    Code('M', 'T', 'R') := TimeZoneToronto,
    Code('S', 'L', 'Q') := TimeZoneToronto,
    Code('T', 'C', 'T') := TimeZoneToronto,
    Code('T', 'W', 'O') := TimeZoneToronto,
    Code('V', 'B', 'C') := TimeZoneVancouver,
    Code('V', 'I', 'F') := TimeZoneVancouver
  ]

  /** The getter hands out the fixed table: seven Canadian stations, each in
      Vancouver's or Toronto's zone. */
  function GetTzDataNonUs(): (table: map<Code, string>)
    ensures table.Keys == {Code('V', 'A', 'C'), Code('M', 'T', 'R'), Code('S', 'L', 'Q'), Code('T', 'C', 'T'), Code('T', 'W', 'O'), Code('V', 'B', 'C'), Code('V', 'I', 'F')}
    ensures |table| == 7
    ensures table[Code('V', 'A', 'C')] == table[Code('V', 'B', 'C')] == table[Code('V', 'I', 'F')] == TimeZoneVancouver
    ensures table[Code('M', 'T', 'R')] == table[Code('S', 'L', 'Q')] == table[Code('T', 'C', 'T')] == table[Code('T', 'W', 'O')] == TimeZoneToronto
  {
    TzDataNonUsTable
  }
}
