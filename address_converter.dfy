/** `AddressConverter`: the recipient address of a delivery event, as Shippo
    expects it and as the notification e-mails print it. */
module AddressFormatting {
  import opened Wrappers
  import opened JavaStrings
  import opened LambdaModels

  /** `ShippoAddressDto`: the fields the converter sets. */
  datatype ShippoAddress = ShippoAddress(
    name: Option<string>, street1: Option<string>, city: Option<string>, state: Option<string>,
    zip: Option<string>, country: Option<string>, phone: Option<string>)

  /** `convertToShippoAddress`: a null event gives null; otherwise the name is
      the customer name, the first street line the shipping address, and the
      other fields are copied one for one. */
  function ConvertToShippoAddress(event: Option<ReadyForDeliveryEvent>): (r: Option<ShippoAddress>)
    ensures r.None? <==> event.None?
    ensures r.Some? ==>
      var t := event.value.shipTo;
      r.value == ShippoAddress(t.customerName, t.shippingAddress, t.shippingCity, t.shippingState,
                               t.shippingZip, t.shippingCountry, t.phoneNumber)
  {
    if event.None? then None
    else
      var t := event.value.shipTo;
      Some(ShippoAddress(t.customerName, t.shippingAddress, t.shippingCity, t.shippingState,
                         t.shippingZip, t.shippingCountry, t.phoneNumber))
  }

  /** One piece of the printed address: the value, and the separator written
      before it when something has already been written. */
  datatype Piece = Piece(separator: string, value: Option<string>)

  /** The pieces in printing order: address, city, state, zip, country. */
  function Pieces(t: ShipTo): (ps: seq<Piece>)
    ensures |ps| == 5
  {
    [Piece("", t.shippingAddress), Piece(", ", t.shippingCity), Piece(", ", t.shippingState),
     Piece(" ", t.shippingZip), Piece(", ", t.shippingCountry)]
  }

  /** Appends the pieces to `acc`: a null piece is skipped, and a separator is
      written only after a non-empty text. */
  function Joined(acc: string, ps: seq<Piece>): string
    decreases |ps|
  {
    if ps == [] then acc
    else if ps[0].value.None? then Joined(acc, ps[1..])
    else Joined((if |acc| > 0 then acc + ps[0].separator else acc) + ps[0].value.value, ps[1..])
  }

  /** The printed address of an event; a null event prints as "". */
  function FormattedAddress(event: Option<ReadyForDeliveryEvent>): string
  {
    if event.None? then "" else Joined("", Pieces(event.value.shipTo))
  }

  /** `formatAddressForEmail`, appending to a builder field by field. */
  method FormatAddressForEmail(event: Option<ReadyForDeliveryEvent>) returns (s: string)
    ensures s == FormattedAddress(event)
  {
    if event.None? {
      return "";
    }
    var t := event.value.shipTo;
    ghost var ps := Pieces(t);
    var address := "";
    if t.shippingAddress.Some? {
      address := address + t.shippingAddress.value;
    }
    assert Joined("", ps) == Joined(address, ps[1..]);
    if t.shippingCity.Some? {
      if |address| > 0 {
        address := address + ", ";
      }
      address := address + t.shippingCity.value;
    }
    assert Joined("", ps) == Joined(address, ps[2..]) by { assert ps[1..][1..] == ps[2..]; }
    if t.shippingState.Some? {
      if |address| > 0 {
        address := address + ", ";
      }
      address := address + t.shippingState.value;
    }
    assert Joined("", ps) == Joined(address, ps[3..]) by { assert ps[2..][1..] == ps[3..]; }
    if t.shippingZip.Some? {
      if |address| > 0 {
        address := address + " ";
      }
      address := address + t.shippingZip.value;
    }
    assert Joined("", ps) == Joined(address, ps[4..]) by { assert ps[3..][1..] == ps[4..]; }
    if t.shippingCountry.Some? {
      if |address| > 0 {
        address := address + ", ";
      }
      address := address + t.shippingCountry.value;
    }
    assert Joined("", ps) == Joined(address, ps[5..]) by { assert ps[4..][1..] == ps[5..]; }
    s := address;
  }

  /** With no address field at all the printed address is empty. */
  lemma FormattedAddressAllNull(e: ReadyForDeliveryEvent)
    requires e.shipTo.shippingAddress.None? && e.shipTo.shippingCity.None? && e.shipTo.shippingState.None?
    requires e.shipTo.shippingZip.None? && e.shipTo.shippingCountry.None?
    ensures FormattedAddress(Some(e)) == ""
  {
    var ps := Pieces(e.shipTo);
    assert Joined("", ps) == Joined("", ps[1..]) == Joined("", ps[2..]) == Joined("", ps[3..])
        == Joined("", ps[4..]) == Joined("", ps[5..]);
  }

  /** With every field present (the street non-empty) the address prints as
      "street, city, state zip, country". */
  lemma FormattedAddressAllPresent(e: ReadyForDeliveryEvent, a: string, c: string, s: string, z: string, k: string)
    requires e.shipTo.shippingAddress == Some(a) && a != ""
    requires e.shipTo.shippingCity == Some(c) && e.shipTo.shippingState == Some(s)
    requires e.shipTo.shippingZip == Some(z) && e.shipTo.shippingCountry == Some(k)
    ensures FormattedAddress(Some(e)) == a + ", " + c + ", " + s + " " + z + ", " + k
  {
    var ps := Pieces(e.shipTo);
    assert "" + a == a;
    assert Joined("", ps) == Joined(a, ps[1..]);
    assert Joined(a, ps[1..]) == Joined(a + ", " + c, ps[2..]);
    assert Joined(a + ", " + c, ps[2..]) == Joined(a + ", " + c + ", " + s, ps[3..]);
    assert Joined(a + ", " + c + ", " + s, ps[3..]) == Joined(a + ", " + c + ", " + s + " " + z, ps[4..]);
    assert Joined(a + ", " + c + ", " + s + " " + z, ps[4..])
        == Joined(a + ", " + c + ", " + s + " " + z + ", " + k, ps[5..]);
  }

  /** Whatever has been written stays at the front. */
  lemma {:induction false} JoinedExtends(acc: string, ps: seq<Piece>)
    ensures StartsWith(Joined(acc, ps), acc)
    decreases |ps|
  {
    if ps != [] {
      if ps[0].value.None? {
        JoinedExtends(acc, ps[1..]);
      } else {
        var next := (if |acc| > 0 then acc + ps[0].separator else acc) + ps[0].value.value;
        JoinedExtends(next, ps[1..]);
        assert StartsWith(next, acc);
      }
    }
  }

  /** Starting from nothing, the output is empty or begins with the text of
      one of the pieces: a separator is never written first. */
  lemma {:induction false} JoinedStartsWithAValue(ps: seq<Piece>)
    ensures var out := Joined("", ps);
      out == ""
      || exists k :: 0 <= k < |ps| && ps[k].value.Some? && ps[k].value.value != "" && StartsWith(out, ps[k].value.value)
  {
    if ps != [] {
      var out := Joined("", ps);
      if ps[0].value.None? || ps[0].value.value == "" {
        assert Joined("", ps) == Joined("", ps[1..]);
        JoinedStartsWithAValue(ps[1..]);
        if out != "" {
          var k :| 0 <= k < |ps[1..]| && ps[1..][k].value.Some? && ps[1..][k].value.value != ""
                   && StartsWith(out, ps[1..][k].value.value);
          assert ps[k + 1] == ps[1..][k];
        }
      } else {
        assert "" + ps[0].value.value == ps[0].value.value;
        assert out == Joined(ps[0].value.value, ps[1..]);
        JoinedExtends(ps[0].value.value, ps[1..]);
      }
    }
  }
}
