/** The checkout form's price summary and field updates. The subtotal is the
    cart page's; shipping depends on the chosen method only. */
module Checkout {
  import opened Common
  import opened CartContext
  import CartPage

  /** A form field: text, or the state of a checkbox. */
  datatype FieldValue = Text(text: string) | Checked(on: bool)

  type Form = map<string, FieldValue>

  /** `getShipping`: express 100, premium 150, anything else 50, whether or
      not the cart is empty. */
  function Shipping(shippingMethod: string): (r: int)
    ensures shippingMethod == "express" ==> r == 100
    ensures shippingMethod == "premium" ==> r == 150
    ensures shippingMethod != "express" && shippingMethod != "premium" ==> r == 50
  {
    if shippingMethod == "express" then 100
    else if shippingMethod == "premium" then 150
    else 50
  }

  /** `getTotal`. */
  function Total(items: seq<ClientItem>, shippingMethod: string): (r: int)
    ensures r - CartPage.Subtotal(items) in {50, 100, 150}
    ensures items == [] ==> r == Shipping(shippingMethod)
    ensures CartPage.Subtotal(items) > 0 && shippingMethod == "standard" ==> r == CartPage.Total(items)
  {
    CartPage.Subtotal(items) + Shipping(shippingMethod)
  }

  /** The two pages agree on a non-empty standard order, while checkout charges
      shipping on an empty cart that the cart page shows as free. */
  lemma CheckoutAgreesWithCart(items: seq<ClientItem>)
    ensures CartPage.Subtotal(items) > 0 ==> Total(items, "standard") == CartPage.Total(items)
    ensures Total([], "standard") == 50 && CartPage.Total([]) == 0
    ensures forall m :: Total(items, m) >= CartPage.Subtotal(items) + 50
  {
  }

  /** The initial form: the user's name and email when known, empty text
      elsewhere, standard shipping and an unticked "save info". */
  function InitialForm(email: Option<string>, firstName: Option<string>, lastName: Option<string>): (f: Form)
    ensures f.Keys == {"email", "firstName", "lastName", "phone", "address", "city", "state", "zipCode",
                       "shippingMethod", "saveInfo"}
    ensures f["shippingMethod"] == Text("standard") && f["saveInfo"] == Checked(false)
    ensures f["email"] == Text(TextOr(email, ""))
    ensures forall k :: k in f && k !in {"email", "firstName", "lastName", "shippingMethod", "saveInfo"} ==> f[k] == Text("")
  {
    map["email" := Text(TextOr(email, "")), "firstName" := Text(TextOr(firstName, "")),
        "lastName" := Text(TextOr(lastName, "")), "phone" := Text(""), "address" := Text(""),
        "city" := Text(""), "state" := Text(""), "zipCode" := Text(""),
        "shippingMethod" := Text("standard"), "saveInfo" := Checked(false)]
  }

  /** `handleInputChange`: the named field takes the checkbox state for a
      checkbox and the text otherwise; no other field changes. */
  function InputChange(form: Form, name: string, inputType: string, value: string, checked: bool): (r: Form)
    ensures name in r && r[name] == (if inputType == "checkbox" then Checked(checked) else Text(value))
    ensures r.Keys == form.Keys + {name}
    ensures forall k :: k in form && k != name ==> r[k] == form[k]
  {
    form[name := if inputType == "checkbox" then Checked(checked) else Text(value)]
  }

  /** Changing a field to the value it already holds leaves the form as it
      was; changing it twice keeps only the second value. */
  lemma InputChangeLastWins(form: Form, name: string, t1: string, v1: string, c1: bool, t2: string, v2: string, c2: bool)
    ensures InputChange(InputChange(form, name, t1, v1, c1), name, t2, v2, c2) == InputChange(form, name, t2, v2, c2)
    ensures name in form && form[name] == (if t1 == "checkbox" then Checked(c1) else Text(v1)) ==>
      InputChange(form, name, t1, v1, c1) == form
  {
  }
}
