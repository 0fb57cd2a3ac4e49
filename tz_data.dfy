/** Station code to IANA time zone resolution: the generated table of
    Amtrak stations (mostly in the United States) and the lookup that
    consults the non-US table first. */
module TzData {
  import opened Wrappers
  import opened StationCodes
  import TzDataNonUs

  /** The zones that occur in the generated table. */
  const TzDataZones: set<string> := {
    "America/Chicago",
    "America/Denver",
    "America/Detroit",
    "America/Indiana/Indianapolis",
    "America/Los_Angeles",
    "America/New_York",
    "America/Ojinaga",
    "America/Phoenix",
    "America/Toronto"
  }

  /** The generated table, one case per entry in the source's order; a code
      the table does not hold has no zone. */
  function TzDataTable(code: Code): Option<string>
  {
    match code
    case Code('N', 'Y', 'P') => Some("America/New_York")
    case Code('W', 'A', 'S') => Some("America/New_York")
    case Code('P', 'H', 'L') => Some("America/New_York")
    case Code('C', 'H', 'I') => Some("America/Chicago")
    case Code('B', 'O', 'S') => Some("America/New_York")
    case Code('L', 'A', 'X') => Some("America/Los_Angeles")
    case Code('S', 'A', 'C') => Some("America/Los_Angeles")
    case Code('B', 'A', 'L') => Some("America/New_York")
    case Code('A', 'L', 'B') => Some("America/New_York")
    case Code('P', 'V', 'D') => Some("America/New_York")
    case Code('S', 'A', 'N') => Some("America/Los_Angeles")
    case Code('W', 'I', 'L') => Some("America/New_York")
    case Code('B', 'W', 'I') => Some("America/New_York")
    case Code('N', 'W', 'K') => Some("America/New_York")
    case Code('S', 'E', 'A') => Some("America/Los_Angeles")
    case Code('N', 'H', 'V') => Some("America/New_York")
    case Code('B', 'B', 'Y') => Some("America/New_York")
    case Code('M', 'K', 'E') => Some("America/Chicago")
    case Code('P', 'D', 'X') => Some("America/Los_Angeles")
    case Code('E', 'M', 'Y') => Some("America/Los_Angeles")
    case Code('L', 'N', 'C') => Some("America/New_York")
    case Code('H', 'A', 'R') => Some("America/New_York")
    case Code('B', 'F', 'D') => Some("America/Los_Angeles")
    case Code('R', 'T', 'E') => Some("America/New_York")
    case Code('T', 'R', 'E') => Some("America/New_York")
    case Code('B', 'O', 'N') => Some("America/New_York")
    case Code('S', 'T', 'M') => Some("America/New_York")
    case Code('S', 'O', 'L') => Some("America/Los_Angeles")
    case Code('D', 'A', 'V') => Some("America/Los_Angeles")
    case Code('M', 'E', 'T') => Some("America/New_York")
    case Code('F', 'N', 'O') => Some("America/Los_Angeles")
    case Code('M', 'T', 'Z') => Some("America/Los_Angeles")
    case Code('I', 'R', 'V') => Some("America/Los_Angeles")
    case Code('R', 'V', 'R') => Some("America/New_York")
    case Code('O', 'K', 'J') => Some("America/Los_Angeles")
    case Code('S', 'B', 'A') => Some("America/Los_Angeles")
    case Code('S', 'T', 'L') => Some("America/Chicago")
    case Code('O', 'S', 'D') => Some("America/Los_Angeles")
    case Code('F', 'U', 'L') => Some("America/Los_Angeles")
    case Code('S', 'K', 'N') => Some("America/Los_Angeles")
    case Code('R', 'I', 'C') => Some("America/Los_Angeles")
    case Code('O', 'L', 'T') => Some("America/Los_Angeles")
    case Code('A', 'N', 'A') => Some("America/Los_Angeles")
    case Code('L', 'O', 'R') => Some("America/New_York")
    case Code('S', 'F', 'A') => Some("America/New_York")
    case Code('B', 'N', 'L') => Some("America/Chicago")
    case Code('S', 'J', 'C') => Some("America/Los_Angeles")
    case Code('S', 'N', 'C') => Some("America/Los_Angeles")
    case Code('H', 'U', 'D') => Some("America/New_York")
    case Code('R', 'H', 'I') => Some("America/New_York")
    case Code('P', 'A', 'O') => Some("America/New_York")
    case Code('H', 'N', 'F') => Some("America/Los_Angeles")
    case Code('A', 'L', 'X') => Some("America/New_York")
    case Code('N', 'O', 'L') => Some("America/Chicago")
    case Code('C', 'L', 'T') => Some("America/New_York")
    case Code('N', 'C', 'R') => Some("America/New_York")
    case Code('S', 'U', 'I') => Some("America/Los_Angeles")
    case Code('P', 'O', 'R') => Some("America/New_York")
    case Code('S', 'P', 'I') => Some("America/Chicago")
    case Code('K', 'I', 'N') => Some("America/New_York")
    case Code('C', 'H', 'M') => Some("America/Chicago")
    case Code('M', 'K', 'A') => Some("America/Chicago")
    case Code('N', 'L', 'C') => Some("America/New_York")
    case Code('R', 'G', 'H') => Some("America/New_York")
    case Code('G', 'A', 'C') => Some("America/Los_Angeles")
    case Code('K', 'C', 'Y') => Some("America/Chicago")
    case Code('B', 'K', 'Y') => Some("America/Los_Angeles")
    case Code('S', 'N', 'A') => Some("America/Los_Angeles")
    case Code('P', 'G', 'H') => Some("America/New_York")
    case Code('E', 'W', 'R') => Some("America/New_York")
    case Code('H', 'F', 'D') => Some("America/New_York")
    case Code('D', 'E', 'N') => Some("America/Denver")
    case Code('C', 'V', 'S') => Some("America/New_York")
    case Code('O', 'R', 'L') => Some("America/New_York")
    case Code('E', 'X', 'T') => Some("America/New_York")
    case Code('A', 'R', 'B') => Some("America/Detroit")
    case Code('S', 'Y', 'R') => Some("America/New_York")
    case Code('R', 'O', 'C') => Some("America/New_York")
    case Code('M', 'C', 'D') => Some("America/Los_Angeles")
    case Code('T', 'A', 'C') => Some("America/Los_Angeles")
    case Code('M', 'O', 'D') => Some("America/Los_Angeles")
    case Code('G', 'R', 'O') => Some("America/New_York")
    case Code('K', 'A', 'L') => Some("America/Detroit")
    case Code('S', 'L', 'O') => Some("America/Los_Angeles")
    case Code('B', 'U', 'F') => Some("America/New_York")
    case Code('N', 'P', 'N') => Some("America/New_York")
    case Code('T', 'P', 'A') => Some("America/New_York")
    case Code('E', 'L', 'T') => Some("America/New_York")
    case Code('F', 'T', 'W') => Some("America/Chicago")
    case Code('P', 'O', 'U') => Some("America/New_York")
    case Code('C', 'D', 'L') => Some("America/Chicago")
    case Code('G', 'B', 'B') => Some("America/Chicago")
    case Code('V', 'A', 'N') => Some("America/Los_Angeles")
    case Code('M', 'S', 'P') => Some("America/Chicago")
    case Code('S', 'P', 'G') => Some("America/New_York")
    case Code('E', 'U', 'G') => Some("America/Los_Angeles")
    case Code('N', 'R', 'O') => Some("America/New_York")
    case Code('C', 'Y', 'N') => Some("America/New_York")
    case Code('O', 'X', 'N') => Some("America/Los_Angeles")
    case Code('B', 'R', 'P') => Some("America/New_York")
    case Code('L', 'Y', 'H') => Some("America/New_York")
    case Code('E', 'X', 'R') => Some("America/New_York")
    case Code('A', 'T', 'L') => Some("America/New_York")
    case Code('D', 'O', 'W') => Some("America/New_York")
    case Code('S', 'V', 'T') => Some("America/Chicago")
    case Code('G', 'T', 'A') => Some("America/Los_Angeles")
    case Code('A', 'B', 'Q') => Some("America/Denver")
    case Code('V', 'N', 'C') => Some("America/Los_Angeles")
    case Code('D', 'N', 'C') => Some("America/New_York")
    case Code('M', 'E', 'M') => Some("America/Chicago")
    case Code('O', 'A', 'C') => Some("America/Los_Angeles")
    case Code('J', 'A', 'X') => Some("America/New_York")
    case Code('R', 'N', 'O') => Some("America/Los_Angeles")
    case Code('A', 'R', 'D') => Some("America/New_York")
    case Code('M', 'I', 'D') => Some("America/New_York")
    case Code('M', 'A', 'C') => Some("America/Chicago")
    case Code('D', 'E', 'R') => Some("America/Detroit")
    case Code('L', 'N', 'S') => Some("America/Detroit")
    case Code('V', 'E', 'C') => Some("America/Los_Angeles")
    case Code('M', 'I', 'A') => Some("America/New_York")
    case Code('D', 'H', 'M') => Some("America/New_York")
    case Code('O', 'L', 'W') => Some("America/Los_Angeles")
    case Code('O', 'S', 'B') => Some("America/New_York")
    case Code('C', 'H', 'S') => Some("America/New_York")
    case Code('C', 'W', 'T') => Some("America/Los_Angeles")
    case Code('S', 'L', 'M') => Some("America/Los_Angeles")
    case Code('B', 'U', 'R') => Some("America/Los_Angeles")
    case Code('A', 'L', 'N') => Some("America/Chicago")
    case Code('W', 'B', 'G') => Some("America/New_York")
    case Code('U', 'C', 'A') => Some("America/New_York")
    case Code('J', 'O', 'L') => Some("America/Chicago")
    case Code('W', 'L', 'N') => Some("America/New_York")
    case Code('F', 'B', 'G') => Some("America/New_York")
    case Code('W', 'P', 'B') => Some("America/New_York")
    case Code('S', 'A', 'V') => Some("America/New_York")
    case Code('G', 'L', 'N') => Some("America/Chicago")
    case Code('T', 'O', 'L') => Some("America/New_York")
    case Code('K', 'W', 'D') => Some("America/Chicago")
    case Code('S', 'D', 'Y') => Some("America/New_York")
    case Code('W', 'F', 'H') => Some("America/Denver")
    case Code('R', 'M', 'T') => Some("America/New_York")
    case Code('F', 'A', 'Y') => Some("America/New_York")
    case Code('D', 'O', 'V') => Some("America/New_York")
    case Code('S', 'A', 'S') => Some("America/Chicago")
    case Code('M', 'J', 'Y') => Some("America/New_York")
    case Code('B', 'E', 'L') => Some("America/Los_Angeles")
    case Code('D', 'E', 'T') => Some("America/Detroit")
    case Code('S', 'P', 'K') => Some("America/Los_Angeles")
    case Code('W', 'E', 'M') => Some("America/New_York")
    case Code('H', 'A', 'Y') => Some("America/Los_Angeles")
    case Code('C', 'L', 'E') => Some("America/New_York")
    case Code('P', 'A', 'R') => Some("America/New_York")
    case Code('J', 'A', 'N') => Some("America/Chicago")
    case Code('N', 'P', 'V') => Some("America/Chicago")
    case Code('C', 'M', 'L') => Some("America/Los_Angeles")
    case Code('G', 'S', 'C') => Some("America/Denver")
    case Code('F', 'L', 'O') => Some("America/New_York")
    case Code('G', 'D', 'L') => Some("America/Los_Angeles")
    case Code('C', 'R', 'T') => Some("America/New_York")
    case Code('H', 'H', 'L') => Some("America/New_York")
    case Code('O', 'K', 'C') => Some("America/Chicago")
    case Code('N', 'F', 'K') => Some("America/New_York")
    case Code('S', 'A', 'O') => Some("America/New_York")
    case Code('S', 'I', 'M') => Some("America/Los_Angeles")
    case Code('S', 'C', 'C') => Some("America/Los_Angeles")
    case Code('W', 'L', 'Y') => Some("America/New_York")
    case Code('R', 'V', 'M') => Some("America/New_York")
    case Code('P', 'J', 'C') => Some("America/New_York")
    case Code('B', 'H', 'M') => Some("America/Chicago")
    case Code('F', 'T', 'L') => Some("America/New_York")
    case Code('D', 'A', 'L') => Some("America/Chicago")
    case Code('E', 'V', 'R') => Some("America/Los_Angeles")
    case Code('Q', 'C', 'Y') => Some("America/Chicago")
    case Code('S', 'L', 'C') => Some("America/Denver")
    case Code('F', 'M', 'T') => Some("America/Los_Angeles")
    case Code('W', 'A', 'C') => Some("America/Los_Angeles")
    case Code('F', 'L', 'G') => Some("America/Phoenix")
    case Code('J', 'E', 'F') => Some("America/Chicago")
    case Code('A', 'C', 'A') => Some("America/Los_Angeles")
    case Code('R', 'S', 'V') => Some("America/Los_Angeles")
    case Code('B', 'T', 'L') => Some("America/Detroit")
    case Code('G', 'R', 'R') => Some("America/Detroit")
    case Code('S', 'K', 'T') => Some("America/Los_Angeles")
    case Code('B', 'F', 'X') => Some("America/New_York")
    case Code('K', 'I', 'S') => Some("America/New_York")
    case Code('A', 'B', 'E') => Some("America/New_York")
    case Code('M', 'A', 'T') => Some("America/Chicago")
    case Code('H', 'M', 'W') => Some("America/Chicago")
    case Code('S', 'A', 'R') => Some("America/New_York")
    case Code('P', 'C', 'T') => Some("America/Chicago")
    case Code('H', 'O', 'M') => Some("America/Detroit")
    case Code('A', 'L', 'Y') => Some("America/Los_Angeles")
    case Code('K', 'F', 'S') => Some("America/Los_Angeles")
    case Code('H', 'P', 'T') => Some("America/New_York")
    case Code('C', 'L', 'B') => Some("America/New_York")
    case Code('G', 'J', 'T') => Some("America/Denver")
    case Code('K', 'E', 'L') => Some("America/Los_Angeles")
    case Code('C', 'P', 'N') => Some("America/Los_Angeles")
    case Code('A', 'U', 'S') => Some("America/Chicago")
    case Code('I', 'N', 'D') => Some("America/Indiana/Indianapolis")
    case Code('E', 'D', 'M') => Some("America/Los_Angeles")
    case Code('C', 'O', 'C') => Some("America/Los_Angeles")
    case Code('P', 'T', 'B') => Some("America/New_York")
    case Code('T', 'U', 'K') => Some("America/Los_Angeles")
    case Code('O', 'M', 'A') => Some("America/Chicago")
    case Code('M', 'O', 'T') => Some("America/Chicago")
    case Code('F', 'L', 'N') => Some("America/Detroit")
    case Code('T', 'R', 'K') => Some("America/Los_Angeles")
    case Code('N', 'F', 'L') => Some("America/New_York")
    case Code('L', 'V', 'W') => Some("America/Chicago")
    case Code('W', 'P', 'K') => Some("America/New_York")
    case Code('A', 'S', 'D') => Some("America/New_York")
    case Code('W', 'T', 'N') => Some("America/Chicago")
    case Code('M', 'D', 'R') => Some("America/Los_Angeles")
    case Code('T', 'U', 'S') => Some("America/Phoenix")
    case Code('B', 'R', 'K') => Some("America/New_York")
    case Code('L', 'E', 'E') => Some("America/Chicago")
    case Code('R', 'O', 'Y') => Some("America/Detroit")
    case Code('L', 'S', 'E') => Some("America/Chicago")
    case Code('E', 'F', 'G') => Some("America/Chicago")
    case Code('C', 'T', 'L') => Some("America/Los_Angeles")
    case Code('H', 'O', 'L') => Some("America/New_York")
    case Code('M', 'Y', 'S') => Some("America/New_York")
    case Code('Y', 'N', 'Y') => Some("America/New_York")
    case Code('D', 'F', 'B') => Some("America/New_York")
    case Code('H', 'E', 'M') => Some("America/Chicago")
    case Code('B', 'N', 'C') => Some("America/New_York")
    case Code('M', 'D', 'T') => Some("America/Chicago")
    case Code('T', 'R', 'M') => Some("America/Detroit")
    case Code('P', 'S', 'C') => Some("America/Los_Angeles")
    case Code('J', 'X', 'N') => Some("America/Detroit")
    case Code('D', 'L', 'D') => Some("America/New_York")
    case Code('J', 'S', 'T') => Some("America/New_York")
    case Code('A', 'L', 'T') => Some("America/New_York")
    case Code('W', 'T', 'H') => Some("America/New_York")
    case Code('S', 'A', 'L') => Some("America/New_York")
    case Code('M', 'S', 'S') => Some("America/New_York")
    case Code('F', 'A', 'R') => Some("America/Chicago")
    case Code('W', 'O', 'B') => Some("America/New_York")
    case Code('S', 'N', 'S') => Some("America/Los_Angeles")
    case Code('S', 'O', 'B') => Some("America/Indiana/Indianapolis")
    case Code('E', 'K', 'H') => Some("America/Indiana/Indianapolis")
    case Code('C', 'E', 'N') => Some("America/Chicago")
    case Code('L', 'C', 'N') => Some("America/Chicago")
    case Code('N', 'B', 'U') => Some("America/Detroit")
    case Code('W', 'T', 'I') => Some("America/Detroit")
    case Code('P', 'T', 'H') => Some("America/Detroit")
    case Code('K', 'K', 'I') => Some("America/Chicago")
    case Code('H', 'O', 'S') => Some("America/Chicago")
    case Code('G', 'V', 'B') => Some("America/Los_Angeles")
    case Code('E', 'S', 'X') => Some("America/New_York")
    case Code('W', 'I', 'N') => Some("America/Chicago")
    case Code('S', 'R', 'B') => Some("America/Los_Angeles")
    case Code('Q', 'A', 'N') => Some("America/New_York")
    case Code('K', 'A', 'N') => Some("America/New_York")
    case Code('M', 'V', 'W') => Some("America/Los_Angeles")
    case Code('L', 'A', 'F') => Some("America/Indiana/Indianapolis")
    case Code('L', 'R', 'K') => Some("America/Chicago")
    case Code('M', 'D', 'N') => Some("America/New_York")
    case Code('M', 'P', 'K') => Some("America/Los_Angeles")
    case Code('N', 'H', 'T') => Some("America/New_York")
    case Code('K', 'E', 'E') => Some("America/Chicago")
    case Code('W', 'N', 'L') => Some("America/New_York")
    case Code('N', 'L', 'S') => Some("America/Detroit")
    case Code('R', 'A', 'T') => Some("America/Denver")
    case Code('S', 'B', 'G') => Some("America/New_York")
    case Code('R', 'L', 'N') => Some("America/Los_Angeles")
    case Code('E', 'R', 'I') => Some("America/New_York")
    case Code('B', 'E', 'R') => Some("America/New_York")
    case Code('B', 'R', 'A') => Some("America/New_York")
    case Code('O', 'S', 'C') => Some("America/Chicago")
    case Code('W', 'A', 'H') => Some("America/Chicago")
    case Code('A', 'R', 'N') => Some("America/Los_Angeles")
    case Code('O', 'R', 'B') => Some("America/New_York")
    case Code('G', 'L', 'P') => Some("America/Denver")
    case Code('T', 'P', 'L') => Some("America/Chicago")
    case Code('C', 'O', 'T') => Some("America/New_York")
    case Code('S', 'N', 'P') => Some("America/Los_Angeles")
    case Code('P', 'O', 'N') => Some("America/Chicago")
    case Code('C', 'L', 'P') => Some("America/New_York")
    case Code('W', 'E', 'N') => Some("America/Los_Angeles")
    case Code('G', 'W', 'D') => Some("America/Chicago")
    case Code('O', 'R', 'C') => Some("America/Los_Angeles")
    case Code('L', 'N', 'K') => Some("America/Chicago")
    case Code('T', 'R', 'U') => Some("America/Los_Angeles")
    case Code('E', 'L', 'P') => Some("America/Ojinaga")
    case Code('L', 'K', 'L') => Some("America/New_York")
    case Code('W', 'D', 'L') => Some("America/Chicago")
    case Code('R', 'U', 'D') => Some("America/New_York")
    case Code('C', 'B', 'S') => Some("America/Chicago")
    case Code('G', 'F', 'K') => Some("America/Chicago")
    case Code('N', 'F', 'S') => Some("America/Toronto")
    case Code('W', 'A', 'R') => Some("America/Chicago")
    case Code('G', 'P', 'K') => Some("America/Denver")
    case Code('N', 'E', 'W') => Some("America/Chicago")
    case Code('W', 'R', 'J') => Some("America/New_York")
    case Code('G', 'N', 'B') => Some("America/New_York")
    case Code('M', 'T', 'P') => Some("America/Chicago")
    case Code('P', 'L', 'B') => Some("America/New_York")
    case Code('D', 'L', 'B') => Some("America/New_York")
    case Code('C', 'I', 'C') => Some("America/Los_Angeles")
    case Code('S', 'S', 'M') => Some("America/New_York")
    case Code('N', 'R', 'K') => Some("America/New_York")
    case Code('P', 'N', 'T') => Some("America/Detroit")
    case Code('T', 'O', 'H') => Some("America/Chicago")
    case Code('R', 'I', 'V') => Some("America/Los_Angeles")
    case Code('S', 'J', 'M') => Some("America/Detroit")
    case Code('D', 'R', 'D') => Some("America/Detroit")
    case Code('P', 'A', 'K') => Some("America/New_York")
    case Code('G', 'U', 'A') => Some("America/Los_Angeles")
    case Code('K', 'T', 'R') => Some("America/New_York")
    case Code('H', 'M', 'D') => Some("America/Chicago")
    case Code('O', 'T', 'M') => Some("America/Chicago")
    case Code('L', 'A', 'G') => Some("America/Chicago")
    case Code('P', 'R', 'B') => Some("America/Los_Angeles")
    case Code('G', 'R', 'V') => Some("America/New_York")
    case Code('C', 'I', 'N') => Some("America/New_York")
    case Code('S', 'N', 'B') => Some("America/Los_Angeles")
    case Code('H', 'A', 'V') => Some("America/Denver")
    case Code('N', 'O', 'R') => Some("America/Chicago")
    case Code('L', 'A', 'P') => Some("America/Chicago")
    case Code('C', 'U', 'M') => Some("America/New_York")
    case Code('S', 'C', 'D') => Some("America/Chicago")
    case Code('F', 'R', 'E') => Some("America/New_York")
    case Code('L', 'M', 'Y') => Some("America/Denver")
    case Code('R', 'D', 'D') => Some("America/Los_Angeles")
    case Code('M', 'R', 'C') => Some("America/Phoenix")
    case Code('S', 'M', 'T') => Some("America/Chicago")
    case Code('M', 'R', 'B') => Some("America/New_York")
    case Code('S', 'B', 'Y') => Some("America/Denver")
    case Code('Y', 'E', 'M') => Some("America/New_York")
    case Code('H', 'U', 'N') => Some("America/New_York")
    case Code('T', 'C', 'L') => Some("America/Chicago")
    case Code('C', 'M', 'O') => Some("America/Los_Angeles")
    case Code('A', 'M', 'S') => Some("America/New_York")
    case Code('T', 'O', 'P') => Some("America/Chicago")
    case Code('M', 'E', 'I') => Some("America/Chicago")
    case Code('C', 'R', 'V') => Some("America/Chicago")
    case Code('J', 'S', 'P') => Some("America/New_York")
    case Code('F', 'E', 'D') => Some("America/New_York")
    case Code('W', 'D', 'B') => Some("America/New_York")
    case Code('K', 'N', 'G') => Some("America/Phoenix")
    case Code('S', 'E', 'D') => Some("America/Chicago")
    case Code('C', 'H', 'W') => Some("America/New_York")
    case Code('S', 'K', 'Y') => Some("America/New_York")
    case Code('H', 'B', 'G') => Some("America/Chicago")
    case Code('L', 'E', 'W') => Some("America/New_York")
    case Code('L', 'P', 'E') => Some("America/Detroit")
    case Code('D', 'W', 'T') => Some("America/Chicago")
    case Code('W', 'F', 'D') => Some("America/New_York")
    case Code('B', 'R', 'L') => Some("America/Chicago")
    case Code('R', 'O', 'M') => Some("America/New_York")
    case Code('W', 'N', 'D') => Some("America/New_York")
    case Code('W', 'I', 'P') => Some("America/Denver")
    case Code('D', 'Q', 'N') => Some("America/Chicago")
    case Code('L', 'O', 'D') => Some("America/Los_Angeles")
    case Code('L', 'R', 'C') => Some("America/Chicago")
    case Code('R', 'D', 'W') => Some("America/Chicago")
    case Code('W', 'M', 'J') => Some("America/Phoenix")
    case Code('N', 'D', 'L') => Some("America/Los_Angeles")
    case Code('M', 'H', 'L') => Some("America/Chicago")
    case Code('I', 'D', 'P') => Some("America/Chicago")
    case Code('L', 'P', 'S') => Some("America/Los_Angeles")
    case Code('L', 'W', 'A') => Some("America/Los_Angeles")
    case Code('N', 'B', 'K') => Some("America/New_York")
    case Code('P', 'I', 'T') => Some("America/New_York")
    case Code('P', 'O', 'G') => Some("America/Chicago")
    case Code('M', 'P', 'R') => Some("America/New_York")
    case Code('D', 'I', 'L') => Some("America/New_York")
    case Code('E', 'N', 'C') => Some("America/Los_Angeles")
    case Code('E', 'L', 'K') => Some("America/Los_Angeles")
    case Code('S', 'P', 'T') => Some("America/Los_Angeles")
    case Code('G', 'C', 'K') => Some("America/Chicago")
    case Code('H', 'F', 'Y') => Some("America/New_York")
    case Code('H', 'I', 'N') => Some("America/New_York")
    case Code('C', 'B', 'V') => Some("America/Los_Angeles")
    case Code('A', 'D', 'M') => Some("America/Chicago")
    case Code('D', 'A', 'N') => Some("America/New_York")
    case Code('S', 'O', 'P') => Some("America/New_York")
    case Code('P', 'O', 'I') => Some("America/Los_Angeles")
    case Code('L', 'A', 'J') => Some("America/Denver")
    case Code('S', 'M', 'C') => Some("America/Chicago")
    case Code('L', 'F', 'T') => Some("America/Chicago")
    case Code('V', 'R', 'V') => Some("America/Los_Angeles")
    case Code('F', 'M', 'D') => Some("America/Chicago")
    case Code('P', 'L', 'O') => Some("America/Chicago")
    case Code('G', 'L', 'E') => Some("America/Chicago")
    case Code('C', 'O', 'X') => Some("America/Los_Angeles")
    case Code('W', 'G', 'L') => Some("America/Denver")
    case Code('S', 'T', 'A') => Some("America/New_York")
    case Code('B', 'C', 'V') => Some("America/New_York")
    case Code('T', 'X', 'A') => Some("America/Chicago")
    case Code('W', 'O', 'R') => Some("America/New_York")
    case Code('S', 'P', 'L') => Some("America/Chicago")
    case Code('M', 'I', 'N') => Some("America/Chicago")
    case Code('L', 'A', 'K') => Some("America/New_York")
    case Code('H', 'G', 'D') => Some("America/New_York")
    case Code('E', 'L', 'Y') => Some("America/New_York")
    case Code('S', 'D', 'L') => Some("America/Chicago")
    case Code('D', 'U', 'N') => Some("America/Los_Angeles")
    case Code('H', 'M', 'I') => Some("America/Chicago")
    case Code('G', 'F', 'D') => Some("America/New_York")
    case Code('B', 'Y', 'N') => Some("America/Detroit")
    case Code('T', 'R', 'I') => Some("America/Denver")
    case Code('C', 'R', 'F') => Some("America/Indiana/Indianapolis")
    case Code('M', 'C', 'B') => Some("America/Chicago")
    case Code('W', 'P', 'T') => Some("America/Denver")
    case Code('R', 'T', 'L') => Some("America/Chicago")
    case Code('W', 'S', 'P') => Some("America/New_York")
    case Code('R', 'K', 'V') => Some("America/New_York")
    case Code('P', 'R', 'O') => Some("America/Denver")
    case Code('T', 'A', 'Y') => Some("America/Chicago")
    case Code('W', 'A', 'B') => Some("America/New_York")
    case Code('W', 'S', 'S') => Some("America/New_York")
    case Code('M', 'C', 'G') => Some("America/Chicago")
    case Code('A', 'L', 'C') => Some("America/New_York")
    case Code('O', 'N', 'A') => Some("America/Los_Angeles")
    case Code('S', 'T', 'N') => Some("America/Chicago")
    case Code('H', 'A', 'S') => Some("America/Chicago")
    case Code('G', 'N', 'S') => Some("America/New_York")
    case Code('C', 'O', 'V') => Some("America/New_York")
    case Code('S', 'T', 'W') => Some("America/Los_Angeles")
    case Code('L', 'I', 'B') => Some("America/Denver")
    case Code('A', 'L', 'P') => Some("America/Chicago")
    case Code('D', 'L', 'K') => Some("America/Chicago")
    case Code('D', 'D', 'G') => Some("America/Chicago")
    case Code('A', 'T', 'N') => Some("America/Chicago")
    case Code('L', 'S', 'V') => Some("America/Denver")
    case Code('P', 'B', 'F') => Some("America/Chicago")
    case Code('G', 'G', 'W') => Some("America/Denver")
    case Code('H', 'A', 'M') => Some("America/New_York")
    case Code('H', 'U', 'T') => Some("America/Chicago")
    case Code('G', 'R', 'A') => Some("America/Denver")
    case Code('L', 'A', 'B') => Some("America/New_York")
    case Code('Y', 'U', 'M') => Some("America/Phoenix")
    case Code('W', 'L', 'O') => Some("America/Phoenix")
    case Code('B', 'L', 'F') => Some("America/New_York")
    case Code('C', 'N', 'V') => Some("America/New_York")
    case Code('P', 'V', 'L') => Some("America/Chicago")
    case Code('B', 'R', 'H') => Some("America/Chicago")
    case Code('D', 'V', 'L') => Some("America/Chicago")
    case Code('O', 'K', 'E') => Some("America/New_York")
    case Code('R', 'U', 'G') => Some("America/Chicago")
    case Code('D', 'O', 'A') => Some("America/Detroit")
    case Code('W', 'N', 'N') => Some("America/Los_Angeles")
    case Code('B', 'A', 'M') => Some("America/Detroit")
    case Code('C', 'R', 'N') => Some("America/Chicago")
    case Code('C', 'B', 'R') => Some("America/Chicago")
    case Code('M', 'A', 'L') => Some("America/Denver")
    case Code('Y', 'A', 'Z') => Some("America/Chicago")
    case Code('S', 'P', 'B') => Some("America/New_York")
    case Code('F', 'T', 'N') => Some("America/Chicago")
    case Code('B', 'N', 'G') => Some("America/Los_Angeles")
    case Code('N', 'B', 'N') => Some("America/Chicago")
    case Code('L', 'A', 'U') => Some("America/Chicago")
    case Code('M', 'C', 'I') => Some("America/Chicago")
    case Code('F', 'M', 'G') => Some("America/Denver")
    case Code('L', 'C', 'H') => Some("America/Chicago")
    case Code('E', 'P', 'H') => Some("America/Los_Angeles")
    case Code('D', 'N', 'K') => Some("America/New_York")
    case Code('C', 'A', 'M') => Some("America/New_York")
    case Code('S', 'A', 'B') => Some("America/New_York")
    case Code('W', 'N', 'R') => Some("America/Chicago")
    case Code('B', 'M', 'T') => Some("America/Chicago")
    case Code('B', 'A', 'R') => Some("America/Los_Angeles")
    case Code('C', 'S', 'N') => Some("America/New_York")
    case Code('D', 'Y', 'E') => Some("America/Chicago")
    case Code('T', 'Y', 'R') => Some("America/New_York")
    case Code('M', 'C', 'K') => Some("America/Chicago")
    case Code('P', 'S', 'N') => Some("America/Los_Angeles")
    case Code('E', 'S', 'M') => Some("America/Denver")
    case Code('C', 'W', 'H') => Some("America/New_York")
    case Code('P', 'R', 'C') => Some("America/New_York")
    case Code('G', 'R', 'I') => Some("America/Denver")
    case Code('C', 'U', 'T') => Some("America/Denver")
    case Code('G', 'L', 'M') => Some("America/Chicago")
    case Code('T', 'C', 'A') => Some("America/New_York")
    case Code('C', 'L', 'A') => Some("America/New_York")
    case Code('P', 'I', 'C') => Some("America/Chicago")
    case Code('C', 'L', 'F') => Some("America/New_York")
    case Code('P', 'O', 'H') => Some("America/New_York")
    case Code('A', 'K', 'Y') => Some("America/New_York")
    case Code('M', 'A', 'Y') => Some("America/New_York")
    case Code('F', 'T', 'C') => Some("America/New_York")
    case Code('H', 'L', 'D') => Some("America/Chicago")
    case Code('H', 'E', 'R') => Some("America/Denver")
    case Code('B', 'E', 'N') => Some("America/Phoenix")
    case Code('R', 'E', 'N') => Some("America/Chicago")
    case Code('R', 'P', 'H') => Some("America/New_York")
    case Code('D', 'R', 'T') => Some("America/Chicago")
    case Code('F', 'R', 'A') => Some("America/New_York")
    case Code('L', 'M', 'R') => Some("America/Denver")
    case Code('N', 'I', 'B') => Some("America/Chicago")
    case Code('W', 'H', 'L') => Some("America/New_York")
    case Code('M', 'V', 'N') => Some("America/Chicago")
    case Code('P', 'O', 'S') => Some("America/Los_Angeles")
    case Code('P', 'U', 'R') => Some("America/Chicago")
    case Code('H', 'O', 'P') => Some("America/Chicago")
    case Code('A', 'L', 'I') => Some("America/Detroit")
    case Code('B', 'R', 'O') => Some("America/Denver")
    case Code('H', 'A', 'Z') => Some("America/Chicago")
    case Code('S', 'C', 'H') => Some("America/Chicago")
    case Code('D', 'E', 'M') => Some("America/Denver")
    case Code('G', 'A', 'S') => Some("America/New_York")
    case Code('W', 'I', 'H') => Some("America/Los_Angeles")
    case Code('R', 'S', 'P') => Some("America/New_York")
    case Code('P', 'H', 'N') => Some("America/New_York")
    case Code('H', 'L', 'K') => Some("America/New_York")
    case Code('A', 'R', 'K') => Some("America/Chicago")
    case Code('W', 'N', 'M') => Some("America/New_York")
    case Code('S', 'P', 'M') => Some("America/New_York")
    case Code('M', 'N', 'G') => Some("America/New_York")
    case Code('C', 'O', 'I') => Some("America/Indiana/Indianapolis")
    case Code('L', 'D', 'B') => Some("America/Denver")
    case Code('P', 'R', 'K') => Some("America/New_York")
    case Code('A', 'L', 'D') => Some("America/New_York")
    case Code('T', 'H', 'N') => Some("America/New_York")
    case Code('S', 'N', 'D') => Some("America/Chicago")
    case Code('A', 'T', 'R') => Some("America/Chicago")
    case Code('B', 'A', 'S') => Some("America/Chicago")
    case Code('B', 'I', 'X') => Some("America/Chicago")
    case Code('C', 'I', 'P') => Some("America/Chicago")
    case Code('C', 'S', 'V') => Some("America/Chicago")
    case Code('G', 'R', 'E') => Some("America/Denver")
    case Code('M', 'D', 'O') => Some("America/New_York")
    case Code('M', 'O', 'E') => Some("America/Chicago")
    case Code('P', 'N', 'S') => Some("America/Chicago")
    case Code('T', 'L', 'H') => Some("America/New_York")
    case _ => None
  }

  /** Resolves a station code: a code in the non-US table gets that table's
      zone, any other code the zone of the generated table, and a code in
      neither (or a string that is not three characters long) gets `None`,
      the source's `null`. */
  function StationToTimeZone(stationCode: string): (zone: Option<string>)
    ensures zone.Some? ==> |stationCode| == 3
  {
    var tzDataNonUs := TzDataNonUs.GetTzDataNonUs();
    match CodeOf(stationCode)
    case None => None
    case Some(code) =>
      if code in tzDataNonUs then Some(tzDataNonUs[code])
      else TzDataTable(code)
  }

  /** Every zone the generated table gives out is one of its nine zones. */
  lemma TableZonesAreKnown(code: Code)
    ensures TzDataTable(code).Some? ==> TzDataTable(code).value in TzDataZones
  {
  }

  /** Every zone a station can resolve to. */
  const KnownZones: set<string> := TzDataZones + {TzDataNonUs.TimeZoneVancouver, TzDataNonUs.TimeZoneToronto}

  /** A station one of the two tables lists. */
  predicate IsListedStation(stationCode: string)
  {
    match CodeOf(stationCode)
    case None => false
    case Some(code) => code in TzDataNonUs.GetTzDataNonUs() || TzDataTable(code).Some?
  }

  /** A station resolves to a zone exactly when a table lists it, and that
      zone is one of the known ones. */
  lemma ListedStationsHaveZones(stationCode: string)
    ensures StationToTimeZone(stationCode).Some? <==> IsListedStation(stationCode)
    ensures StationToTimeZone(stationCode).Some? ==> StationToTimeZone(stationCode).value in KnownZones
  {
    match CodeOf(stationCode)
    case None =>
    case Some(code) =>
      TableZonesAreKnown(code);
  }

  /** The three stations the non-US table places in Vancouver's zone. */
  lemma VancouverStationsNotInTable()
    ensures TzDataTable(Code('V', 'A', 'C')) == None
    ensures TzDataTable(Code('V', 'B', 'C')) == None
    ensures TzDataTable(Code('V', 'I', 'F')) == None
  {
  }

  /** The four stations the non-US table places in Toronto's zone. */
  lemma TorontoStationsNotInTable()
    ensures TzDataTable(Code('M', 'T', 'R')) == None
    ensures TzDataTable(Code('S', 'L', 'Q')) == None
    ensures TzDataTable(Code('T', 'C', 'T')) == None
    ensures TzDataTable(Code('T', 'W', 'O')) == None
  {
  }

  /** No non-US station appears in the generated table. */
  lemma TablesAreDisjoint(code: Code)
    requires code in TzDataNonUs.GetTzDataNonUs()
    ensures TzDataTable(code) == None
  {
    VancouverStationsNotInTable();
    TorontoStationsNotInTable();
  }

  /** A station in the non-US table gets that table's zone. */
  lemma NonUsTableConsultedFirst(stationCode: string)
    requires |stationCode| == 3
    requires CodeOf(stationCode).value in TzDataNonUs.GetTzDataNonUs()
    ensures StationToTimeZone(stationCode) == Some(TzDataNonUs.GetTzDataNonUs()[CodeOf(stationCode).value])
  {
  }

  /** Any other station gets the generated table's zone, or `None`. */
  lemma TzDataTableIsFallback(stationCode: string)
    requires |stationCode| == 3
    requires CodeOf(stationCode).value !in TzDataNonUs.GetTzDataNonUs()
    ensures StationToTimeZone(stationCode) == TzDataTable(CodeOf(stationCode).value)
  {
  }

  /** A string that is not a known station code resolves to `None`. */
  lemma UnknownStationIsNull(stationCode: string)
    requires |stationCode| != 3
      || (CodeOf(stationCode).value !in TzDataNonUs.GetTzDataNonUs()
          && TzDataTable(CodeOf(stationCode).value).None?)
    ensures StationToTimeZone(stationCode) == None
  {
  }

  /** Because the tables are disjoint, consulting the generated table first
      would resolve every station to the same zone. */
  lemma ConsultationOrderIsImmaterial(stationCode: string)
    requires |stationCode| == 3
    ensures StationToTimeZone(stationCode) ==
      var code := CodeOf(stationCode).value;
      if TzDataTable(code).Some? then TzDataTable(code)
      else if code in TzDataNonUs.GetTzDataNonUs() then Some(TzDataNonUs.GetTzDataNonUs()[code])
      else None
  {
    var code := CodeOf(stationCode).value;
    if code in TzDataNonUs.GetTzDataNonUs() {
      TablesAreDisjoint(code);
    }
  }

  /** The stations the tests rely on: Washington and New York Penn in New
      York's zone, Seattle in Los Angeles's. */
  lemma UsStationZones()
    ensures StationToTimeZone("WAS") == Some("America/New_York")
    ensures StationToTimeZone("NYP") == Some("America/New_York")
    ensures StationToTimeZone("SEA") == Some("America/Los_Angeles")
  {
    UsStationZone('W', 'A', 'S');
    UsStationZone('N', 'Y', 'P');
    UsStationZone('S', 'E', 'A');
    assert TzDataTable(Code('W', 'A', 'S')) == Some("America/New_York");
    assert TzDataTable(Code('N', 'Y', 'P')) == Some("America/New_York");
    assert TzDataTable(Code('S', 'E', 'A')) == Some("America/Los_Angeles");
    assert ['W', 'A', 'S'] == "WAS" && ['N', 'Y', 'P'] == "NYP" && ['S', 'E', 'A'] == "SEA";
  }

  /** A station whose code starts with none of the non-US table's letters
      resolves through the generated table. */
  lemma UsStationZone(c0: char, c1: char, c2: char)
    requires c0 != 'V' && c0 != 'M' && c0 != 'T' && (c0 == 'S' ==> c1 != 'L')
    ensures StationToTimeZone([c0, c1, c2]) == TzDataTable(Code(c0, c1, c2))
  {
    assert CodeOf([c0, c1, c2]) == Some(Code(c0, c1, c2));
  }

  /** Vancouver (the 9368B1 ticket's destination) and the other Canadian
      stations resolve through the non-US table. */
  lemma CanadianStationZones()
    ensures StationToTimeZone("VAC") == Some("America/Vancouver")
    ensures StationToTimeZone("VBC") == Some("America/Vancouver")
    ensures StationToTimeZone("VIF") == Some("America/Vancouver")
    ensures StationToTimeZone("MTR") == Some("America/Toronto")
    ensures StationToTimeZone("SLQ") == Some("America/Toronto")
    ensures StationToTimeZone("TCT") == Some("America/Toronto")
    ensures StationToTimeZone("TWO") == Some("America/Toronto")
  {
  }
}
