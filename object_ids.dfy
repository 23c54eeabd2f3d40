/** Store identifiers. A path parameter is accepted as an id when it has the textual form of
    an ObjectId (24 hexadecimal digits); the store keeps ids in their canonical lower-case
    form, which is what a valid path parameter is compared against. */
module ObjectIds {
  import opened Ascii

  const OBJECT_ID_LENGTH: nat := 24

  /** The model's stand-in for `ObjectId.is_valid` on a string: the textual ObjectId form. */
  predicate ValidId(s: string) {
    |s| == OBJECT_ID_LENGTH && forall i :: 0 <= i < |s| ==> IsHexDigit(s[i])
  }

  /** The form in which the store renders an id: 24 lower-case hexadecimal digits. */
  predicate IsCanonicalId(s: string) {
    |s| == OBJECT_ID_LENGTH && forall i :: 0 <= i < |s| ==> IsLowerHexDigit(s[i])
  }

  /** `ObjectId(s)` for a valid `s`, as the id the store compares: the same digits in
      lower case. */
  function Canonical(s: string): (c: string)
    requires ValidId(s)
    ensures IsCanonicalId(c)
    ensures forall i :: 0 <= i < |s| ==> LowerChar(c[i]) == LowerChar(s[i])
  {
    Lower(s)
  }

  /** Every canonical id is a valid path parameter naming itself, so a client that sends back
      an id it was given addresses exactly that record. */
  lemma CanonicalRoundTrip(s: string)
    requires IsCanonicalId(s)
    ensures ValidId(s) && Canonical(s) == s
  {
  }
}
