/**
 JavaScript strings: sequences of UTF-16 code units, kept verbatim.
 */
module Utf16 {

  type Unit = u: nat | u < 0x1_0000
  type Text = seq<Unit>

  predicate High(u: Unit) { 0xD800 <= u <= 0xDBFF }
  predicate Low(u: Unit) { 0xDC00 <= u <= 0xDFFF }

  /** Every surrogate is half of a pair. */
  predicate WellPaired(t: Text) {
    if t == [] then true
    else if High(t[0]) then |t| > 1 && Low(t[1]) && WellPaired(t[2..])
    else !Low(t[0]) && WellPaired(t[1..])
  }

  method HasUnpairedSurrogate(t: Text) returns (unpaired: bool)
    ensures unpaired <==> !WellPaired(t)
  {
    var i := 0;
    while i < |t|
      invariant i <= |t| && WellPaired(t) == WellPaired(t[i..])
    {
      if High(t[i]) {
        if i + 1 >= |t| || !Low(t[i + 1]) { return true; }
        assert t[i..][2..] == t[i + 2..];
        i := i + 2;
      } else if Low(t[i]) {
        return true;
      } else {
        assert t[i..][1..] == t[i + 1..];
        i := i + 1;
      }
    }
    return false;
  }
}
