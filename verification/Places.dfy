/** When the locations of two postings name, or may name, one place. */
module Places {

  import opened Text

  /** The text before the first comma. */
  function BeforeComma(s: string): string {
    if s == "" || s[0] == ',' then "" else [s[0]] + BeforeComma(s[1..])
  }

  /** The city a location names; empty when it names none. */
  function CityKey(location: string): string {
    var c := Squeeze(Lower(BeforeComma(location)));
    if c == "ethiopia" then ""
    else if c in ["addis", "addis abeba", "addis ababa"] then "addis ababa"
    else c
  }

  /** `city` gives the city a location names, `inEthiopia` whether it names Ethiopia. */
  datatype Reading = Reading(city: string -> string, inEthiopia: string -> bool)

  predicate HasCity(r: Reading, location: string) { r.city(location) != "" }

  predicate SamePlace(r: Reading, a: string, b: string) {
    var ka, kb := r.city(a), r.city(b);
    if ka == kb then true
    else if ka == "" then r.inEthiopia(b)
    else if kb == "" then r.inEthiopia(a)
    else false
  }

  /** The same city, or no city on one side and Ethiopia on the other. */
  ghost predicate OnePlace(r: Reading, a: string, b: string) {
    || r.city(a) == r.city(b)
    || (r.city(a) == "" && r.inEthiopia(b))
    || (r.city(b) == "" && r.inEthiopia(a))
  }

  /** Comparing two locations decides that, in either order. */
  lemma {:induction false} SamePlaceIff(r: Reading, a: string, b: string)
    ensures SamePlace(r, a, b) == SamePlace(r, b, a)
    ensures SamePlace(r, a, b) <==> OnePlace(r, a, b)
  {}
}
