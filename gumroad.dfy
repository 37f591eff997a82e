/**
 * The Gumroad side of the relay: the sale notification ("ping") decoded from
 * its form body, and the shared-secret check on its `seller_id`.
 */
module Gumroad {
  import opened Wrappers
  import opened Form

  /**
   * The three payload fields the relay reads. Gumroad sends many more
   * (price, product, license key, ...); nothing reads them.
   */
  datatype Payload = Payload(email: string, refunded: bool, sellerId: string)

  /**
   * Builds the payload from the form. `email` and `seller_id` take their first
   * form value, falling back to "" when the field is missing (`get(..) || ""`);
   * `refunded` holds only when the first `refunded` value is exactly "true".
   */
  function ConvertFormPayloadToJson(form: FormData): (p: Payload)
    ensures forall i :: IsFirstNamed(form, "email", i) ==> p.email == form[i].value
    ensures Absent(form, "email") ==> p.email == ""
    ensures forall i :: IsFirstNamed(form, "seller_id", i) ==> p.sellerId == form[i].value
    ensures Absent(form, "seller_id") ==> p.sellerId == ""
    ensures p.refunded <==> exists i :: IsFirstNamed(form, "refunded", i) && form[i].value == "true"
  {
    Payload(
      email := Get(form, "email").GetOr(""),
      refunded := Get(form, "refunded") == Some("true"),
      sellerId := Get(form, "seller_id").GetOr(""))
  }

  /**
   * The request is rejected when its seller id is empty or differs from the
   * configured one; `expected` is the deployment's GUMROAD_SELLER_ID setting,
   * None when it is not set.
   */
  function IsBadRequest(sellerId: string, expected: Option<string>): (bad: bool)
    ensures !bad <==> expected.Some? && expected.value != "" && sellerId == expected.value
    ensures (expected == None || expected == Some("")) ==> bad
  {
    |sellerId| == 0 || Some(sellerId) != expected
  }

  /** A repeated field is decoded from its first occurrence; later repeats are ignored. */
  lemma DecodeIgnoresRepeatedFields(form: FormData, extra: FormData)
    requires !Absent(form, "email") && !Absent(form, "refunded") && !Absent(form, "seller_id")
    ensures ConvertFormPayloadToJson(form + extra) == ConvertFormPayloadToJson(form)
  {
    GetIgnoresLaterPairs(form, extra, "email");
    GetIgnoresLaterPairs(form, extra, "refunded");
    GetIgnoresLaterPairs(form, extra, "seller_id");
  }

  /** The form `email=a@b.com&seller_id=X&refunded=true` decodes field by field. */
  lemma DecodeExample()
    ensures ConvertFormPayloadToJson([Entry("email", "a@b.com"), Entry("seller_id", "X"), Entry("refunded", "true")])
      == Payload(email := "a@b.com", refunded := true, sellerId := "X")
  {
  }

  /** Only the exact string "true" marks a refund: other spellings and a missing field do not. */
  lemma RefundedIsExactTrue()
    ensures !ConvertFormPayloadToJson([Entry("refunded", "TRUE")]).refunded
    ensures !ConvertFormPayloadToJson([Entry("refunded", "1")]).refunded
    ensures !ConvertFormPayloadToJson([Entry("email", "a@b.com")]).refunded
    ensures !ConvertFormPayloadToJson([Entry("refunded", "false"), Entry("refunded", "true")]).refunded
  {
  }
}
