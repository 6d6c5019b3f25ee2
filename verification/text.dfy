/**
 * `String.prototype.toUpperCase` restricted to ASCII text, as applied to
 * the alert's `symbol`.
 */
module Text {

  predicate IsLower(c: char) {
    'a' <= c <= 'z'
  }

  /** The upper-case form of one character: a..z become A..Z, all else stays. */
  function UpperChar(c: char): (u: char)
    ensures !IsLower(u)
    ensures IsLower(c) ==> u as int == c as int - 32
    ensures !IsLower(c) ==> u == c
  {
    if IsLower(c) then (c as int - 32) as char else c
  }

  /** `toUpperCase`: the string with every letter a..z replaced by its capital. */
  function ToUpper(s: string): (r: string)
    ensures |r| == |s|
    ensures forall i :: 0 <= i < |s| ==> r[i] == UpperChar(s[i])
    decreases |s|
  {
    if s == [] then [] else [UpperChar(s[0])] + ToUpper(s[1..])
  }

  /** Nothing lower-case survives. */
  lemma ToUpperHasNoLower(s: string)
    ensures forall i :: 0 <= i < |s| ==> !IsLower(ToUpper(s)[i])
  {
  }

  /** Upper-casing twice is upper-casing once. */
  lemma ToUpperIdempotent(s: string)
    ensures ToUpper(ToUpper(s)) == ToUpper(s)
  {
  }

  /** Text with no lower-case letter is left as it is. */
  lemma ToUpperFixesUpper(s: string)
    requires forall i :: 0 <= i < |s| ==> !IsLower(s[i])
    ensures ToUpper(s) == s
  {
  }

  lemma ToUpperExample()
    ensures ToUpper("nifty") == "NIFTY"
    ensures ToUpper("BankNifty") == "BANKNIFTY"
  {
  }
}
