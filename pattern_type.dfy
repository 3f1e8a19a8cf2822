/** Format sniffing: which decoder a pasted pattern goes to (parser.js `getPatternType`). */
module PatternType {

  datatype Kind = Plaintext | Rle | Unknown

  /**
   * Classifies `s` by its first character; the empty string has no first
   * character (`charAt(0)` is "") and is unknown.
   */
  function GetPatternType(s: string): (k: Kind)
    ensures k == Plaintext <==> |s| > 0 && (s[0] == '!' || s[0] == '.' || s[0] == 'O')
    ensures k == Rle <==> |s| > 0 && (s[0] == '#' || s[0] == 'x')
    ensures k == Unknown <==> s == [] || s[0] !in "!.O#x"
  {
    if s == [] then Unknown
    else if s[0] == '!' || s[0] == '.' || s[0] == 'O' then Plaintext
    else if s[0] == '#' || s[0] == 'x' then Rle
    else Unknown
  }
}
