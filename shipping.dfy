/** The shipping strings of `formatOrderToSale`: the address line and the method titles. */
module Shipping {
  import Php
  import opened Orders

  /** What one shipping field contributes to the address: its text when `included`, else nothing. */
  function Part(included: bool, text: string): seq<string> {
    if included then [text] else []
  }

  /** The name part is "first last" and is included when the first name is non-empty. */
  function NamePart(s: Address): seq<string> {
    Part(!Php.Empty(s.firstName), s.firstName + " " + s.lastName)
  }

  /** Every other field is included when it is non-empty. */
  function FieldPart(field: string): seq<string> {
    Part(!Php.Empty(field), field)
  }

  /** The included shipping fields in the controller's order. */
  function ShippingAddressParts(s: Address): seq<string> {
    NamePart(s) + FieldPart(s.company) + FieldPart(s.address1) + FieldPart(s.address2) +
    FieldPart(s.city) + FieldPart(s.state) + FieldPart(s.country) + FieldPart(s.postcode)
  }

  /** Every part in `parts` is non-empty and one of the `allowed` texts. */
  predicate AllGood(parts: seq<string>, allowed: set<string>) {
    forall x :: x in parts ==> !Php.Empty(x) && x in allowed
  }

  lemma PartGood(included: bool, text: string, allowed: set<string>)
    requires included ==> !Php.Empty(text) && text in allowed
    ensures AllGood(Part(included, text), allowed) && |Part(included, text)| <= 1
  {
  }

  lemma AppendGood(a: seq<string>, b: seq<string>, allowed: set<string>)
    requires AllGood(a, allowed) && AllGood(b, allowed)
    ensures AllGood(a + b, allowed)
  {
    forall x | x in a + b ensures !Php.Empty(x) && x in allowed {
      if x !in a { assert x in b; }
    }
  }

  /**
   * The address has at most eight parts, none of them empty, and each is the name
   * or one of the shipping fields.
   */
  lemma {:induction false} ShippingAddressPartsNonEmpty(s: Address)
    ensures |ShippingAddressParts(s)| <= 8
    ensures forall x :: x in ShippingAddressParts(s) ==> !Php.Empty(x)
    ensures forall x :: x in ShippingAddressParts(s) ==>
      x in {s.firstName + " " + s.lastName, s.company, s.address1, s.address2,
            s.city, s.state, s.country, s.postcode}
  {
    var name := s.firstName + " " + s.lastName;
    var allowed := {name, s.company, s.address1, s.address2, s.city, s.state, s.country, s.postcode};
    assert !Php.Empty(s.firstName) ==> |name| >= 2;
    PartGood(!Php.Empty(s.firstName), name, allowed);
    var p := NamePart(s);
    p := Extend(p, s.company, allowed);
    p := Extend(p, s.address1, allowed);
    p := Extend(p, s.address2, allowed);
    p := Extend(p, s.city, allowed);
    p := Extend(p, s.state, allowed);
    p := Extend(p, s.country, allowed);
    p := Extend(p, s.postcode, allowed);
  }

  /**
   * Conversely, nothing non-empty is dropped: the name is a part when the first name
   * is non-empty, and so is every non-empty shipping field.
   */
  lemma {:induction false} ShippingAddressPartsComplete(s: Address)
    ensures !Php.Empty(s.firstName) ==> s.firstName + " " + s.lastName in ShippingAddressParts(s)
    ensures !Php.Empty(s.company) ==> s.company in ShippingAddressParts(s)
    ensures !Php.Empty(s.address1) ==> s.address1 in ShippingAddressParts(s)
    ensures !Php.Empty(s.address2) ==> s.address2 in ShippingAddressParts(s)
    ensures !Php.Empty(s.city) ==> s.city in ShippingAddressParts(s)
    ensures !Php.Empty(s.state) ==> s.state in ShippingAddressParts(s)
    ensures !Php.Empty(s.country) ==> s.country in ShippingAddressParts(s)
    ensures !Php.Empty(s.postcode) ==> s.postcode in ShippingAddressParts(s)
  {
    var p1 := NamePart(s);
    var p2 := p1 + FieldPart(s.company);
    var p3 := p2 + FieldPart(s.address1);
    var p4 := p3 + FieldPart(s.address2);
    var p5 := p4 + FieldPart(s.city);
    var p6 := p5 + FieldPart(s.state);
    var p7 := p6 + FieldPart(s.country);
    var p8 := p7 + FieldPart(s.postcode);
    assert p8 == ShippingAddressParts(s);
    KeptIn(p1, p8);
    KeptIn(p2, p8);
    KeptIn(p3, p8);
    KeptIn(p4, p8);
    KeptIn(p5, p8);
    KeptIn(p6, p8);
    KeptIn(p7, p8);
  }

  /** A part of a prefix is a part of the whole. */
  lemma KeptIn(prefix: seq<string>, whole: seq<string>)
    requires prefix <= whole
    ensures forall x :: x in prefix ==> x in whole
  {
    forall x | x in prefix ensures x in whole {
      var i :| 0 <= i < |prefix| && prefix[i] == x;
      assert whole[i] == x;
    }
  }

  /** One more field keeps every part good and adds at most one part. */
  lemma Extend(p: seq<string>, field: string, allowed: set<string>) returns (p': seq<string>)
    requires AllGood(p, allowed) && field in allowed
    ensures p' == p + FieldPart(field) && AllGood(p', allowed) && |p'| <= |p| + 1
  {
    PartGood(!Php.Empty(field), field, allowed);
    AppendGood(p, FieldPart(field), allowed);
    p' := p + FieldPart(field);
  }

  /** One `if (! empty(...)) $shipping_address[] = ...;` statement. */
  method AppendIf(parts: seq<string>, included: bool, text: string) returns (parts': seq<string>)
    ensures parts' == parts + Part(included, text)
  {
    parts' := parts;
    if included {
      parts' := parts' + [text];
    }
  }

  /** The eight conditional appends to `$shipping_address`, in the controller's order. */
  method CollectShippingAddress(s: Address) returns (parts: seq<string>)
    ensures parts == ShippingAddressParts(s)
  {
    parts := AppendIf([], !Php.Empty(s.firstName), s.firstName + " " + s.lastName);
    assert parts == NamePart(s);
    parts := AppendIf(parts, !Php.Empty(s.company), s.company);
    parts := AppendIf(parts, !Php.Empty(s.address1), s.address1);
    parts := AppendIf(parts, !Php.Empty(s.address2), s.address2);
    parts := AppendIf(parts, !Php.Empty(s.city), s.city);
    parts := AppendIf(parts, !Php.Empty(s.state), s.state);
    parts := AppendIf(parts, !Php.Empty(s.country), s.country);
    parts := AppendIf(parts, !Php.Empty(s.postcode), s.postcode);
  }

  /** `$shipping_lines_array`: the method titles of the shipping lines, in order. */
  method CollectShippingTitles(lines: seq<ShippingLine>) returns (titles: seq<string>)
    ensures |titles| == |lines|
    ensures forall i :: 0 <= i < |lines| ==> titles[i] == lines[i].methodTitle
  {
    titles := [];
    for i := 0 to |lines|
      invariant |titles| == i
      invariant forall j :: 0 <= j < i ==> titles[j] == lines[j].methodTitle
    {
      titles := titles + [lines[i].methodTitle];
    }
  }

  function MethodTitles(lines: seq<ShippingLine>): seq<string> {
    seq(|lines|, i requires 0 <= i < |lines| => lines[i].methodTitle)
  }
}
