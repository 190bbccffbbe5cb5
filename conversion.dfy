/** The token-to-value conversions of the CmdArgs namespace: lower-casing
    a token, and the `bool` and `std::string` specialisations of the
    generic string-to-value conversion. The generic conversion itself is
    not modelled; the argument classes take it as a parameter of type
    `string -> Option<T>`. */
module Conversion {

  /** The outcome of a conversion. `None` stands for the
      `std::invalid_argument` that the conversion throws on a token it
      cannot read. */
  datatype Option<+T> = None | Some(value: T)

  predicate IsUpper(c: char) {
    'A' <= c <= 'Z'
  }

  /** `std::tolower` in the "C" locale: the letters A-Z become a-z, every
      other character is returned unchanged. */
  function LowerChar(c: char): (r: char)
    ensures !IsUpper(r)
    ensures IsUpper(c) || r == c
    ensures IsUpper(c) ==> 'a' <= r <= 'z' && r as int - 'a' as int == c as int - 'A' as int
  {
    if IsUpper(c) then (c as int - 'A' as int + 'a' as int) as char else c
  }

  /** A copy of the token with every character lower-cased on its own. */
  function LowerString(str: string): (lowered: string)
    ensures |lowered| == |str|
    ensures forall i :: 0 <= i < |str| ==> lowered[i] == LowerChar(str[i])
    ensures forall i :: 0 <= i < |lowered| ==> !IsUpper(lowered[i])
  {
    if str == [] then [] else [LowerChar(str[0])] + LowerString(str[1..])
  }

  /** Lower-casing a token that is already lower-cased changes nothing. */
  lemma LowerStringIdempotent(str: string)
    ensures LowerString(LowerString(str)) == LowerString(str)
  {
  }

  /** `str` spells the lower-case word `word` in some mixture of letter cases. */
  predicate SpellsIgnoringCase(str: string, word: string) {
    |str| == |word| && forall i :: 0 <= i < |str| ==> LowerChar(str[i]) == word[i]
  }

  lemma LowerStringSpells(str: string, word: string)
    ensures LowerString(str) == word <==> SpellsIgnoringCase(str, word)
  {
  }

  /** The only token that lower-cases to a digit string is that string itself. */
  lemma SpellsDigit(str: string, digit: string)
    requires digit == "0" || digit == "1"
    ensures SpellsIgnoringCase(str, digit) <==> str == digit
  {
  }

  /** The `bool` specialisation: "1", "0", and "true" or "false" in any
      letter case are accepted; every other token is refused. */
  function StringToBool(str: string): (r: Option<bool>)
    ensures r == Some(true) <==> str == "1" || SpellsIgnoringCase(str, "true")
    ensures r == Some(false) <==> str == "0" || SpellsIgnoringCase(str, "false")
    ensures r == None <==>
      !(str == "1" || str == "0" || SpellsIgnoringCase(str, "true") || SpellsIgnoringCase(str, "false"))
  {
    var lstr := LowerString(str);
    LowerStringSpells(str, "true");
    LowerStringSpells(str, "false");
    LowerStringSpells(str, "1");
    LowerStringSpells(str, "0");
    SpellsDigit(str, "1");
    SpellsDigit(str, "0");
    if lstr == "true" || lstr == "1" || lstr == "false" || lstr == "0" then
      Some(lstr == "true" || lstr == "1")
    else
      None
  }

  /** Two tokens that differ only in letter case convert to the same `bool`
      outcome. */
  lemma StringToBoolIgnoresCase(s: string, t: string)
    requires |s| == |t|
    requires forall i :: 0 <= i < |s| ==> LowerChar(s[i]) == LowerChar(t[i])
    ensures StringToBool(s) == StringToBool(t)
  {
  }

  /** The `std::string` specialisation: every token converts, to itself. */
  function StringToString(str: string): (r: Option<string>)
    ensures r.Some? && r.value == str
  {
    Some(str)
  }
}
