/** The library's example requests, driven through the builder and the writer. */
module Scenarios {
  import opened Options
  import opened Decimal
  import opened Params
  import opened Urns
  import opened Joins
  import opened Builders

  /** Sharing an address alone. */
  method ShareAddress(a: Address) returns (s: string)
    ensures s == "algorand://" + AddressText(a)
  {
    var b := NewBuilder();
    b.WithAddress(a);
    var u := b.Build();
    s := Format(u);
    AddressOnly(a);
  }

  /** An address with a label. */
  method ShareAddressWithLabel(a: Address) returns (s: string)
    ensures s == "algorand://" + AddressText(a) + "?" + "label=Silvio"
  {
    var b := NewBuilder();
    b.WithAddress(a);
    b.WithLabel("Silvio");
    var u := b.Build();
    s := Format(u);
    assert u.params == [Label("Silvio")];
    OneParamText(u.address, Label("Silvio"));
  }

  /** A payment request for an amount. */
  method RequestPayment(a: Address) returns (s: string)
    ensures s == "algorand://" + AddressText(a) + "?" + "amount=150500000"
  {
    var b := NewBuilder();
    b.WithAddress(a);
    b.WithAmount(150500000);
    var u := b.Build();
    s := Format(u);
    assert u.params == [Amount(150500000)];
    OneParamText(u.address, Amount(150500000));
    PaymentDigits();
  }

  /** A payment request with a note, in call order. */
  method RequestPaymentWithNote(a: Address) returns (s: string)
    ensures s == "algorand://" + AddressText(a) + "?" + "amount=150500000" + "&" + "note=Lunch"
  {
    var b := NewBuilder();
    b.WithAddress(a);
    b.WithAmount(150500000);
    b.WithNote("Lunch");
    var u := b.Build();
    assert u.params == [Amount(150500000), Note("Lunch")];
    s := Format(u);
    TwoParamText(u.address, Amount(150500000), Note("Lunch"));
    PaymentDigits();
  }

  /** A request for units of an asset. */
  method RequestAssetUnits(a: Address) returns (s: string)
    ensures s == "algorand://" + AddressText(a) + "?" + "amount=150" + "&" + "asset=31566704"
  {
    var b := NewBuilder();
    b.WithAddress(a);
    b.WithAmount(150);
    b.WithAsset(31566704);
    var u := b.Build();
    assert u == Urn(Some(a), [Amount(150), Asset(31566704)]);
    s := Format(u);
    AssetUnitsText(a);
  }

  /** An asset opt-in: no address, a zero amount and the asset. */
  method OptInAsset() returns (s: string)
    ensures s == "algorand://" + "?" + "amount=0" + "&" + "asset=31566704"
  {
    var b := NewBuilder();
    b.WithAmount(0);
    b.WithAsset(31566704);
    var u := b.Build();
    assert u == Urn(None, [Amount(0), Asset(31566704)]);
    s := Format(u);
    OptInText();
  }

  /** The same two calls in the opposite order give the parameters in the opposite
      order: there is no canonical reordering. */
  method CallOrderMatters() returns (first: string, second: string)
    ensures first == "algorand://" + "?" + "amount=1" + "&" + "label=x"
    ensures second == "algorand://" + "?" + "label=x" + "&" + "amount=1"
  {
    var b := NewBuilder();
    b.WithAmount(1);
    b.WithLabel("x");
    var u := b.Build();
    assert u == Urn(None, [Amount(1), Label("x")]);
    first := Format(u);
    var c := NewBuilder();
    c.WithLabel("x");
    c.WithAmount(1);
    var v := c.Build();
    assert v == Urn(None, [Label("x"), Amount(1)]);
    second := Format(v);
    SwappedText();
  }

  /** Writing the same URN twice gives the same text. */
  method FormatTwice(u: Urn) returns (first: string, second: string)
    ensures first == second
  {
    first := Format(u);
    second := Format(u);
  }

  /** The decimal text of the examples' payment amount, used by `RequestPayment`
      and `RequestPaymentWithNote`. A solver aid: the intermediate digit string keeps
      the unfolding of `NatToString` on a nine-digit literal short. */
  lemma PaymentDigits()
    ensures NatToString(150500000) == "150500000"
  {
    assert NatToString(1505) == "1505";
  }

  /** The decimal text of the examples' asset id, used by `RequestAssetUnits` and
      `OptInAsset`. A solver aid: each assertion unfolds `NatToString` one digit
      further. */
  lemma AssetIdDigits()
    ensures NatToString(31566704) == "31566704"
  {
    assert NatToString(3) == "3";
    assert NatToString(31) == "31";
    assert NatToString(315) == "315";
    assert NatToString(3156) == "3156";
    assert NatToString(31566) == "31566";
    assert NatToString(315667) == "315667";
    assert NatToString(3156670) == "3156670";
  }

  /** The text `RequestAssetUnits` builds. A solver aid: proving it apart from the
      builder calls keeps the literal strings out of the method's proof. */
  lemma AssetUnitsText(a: Address)
    ensures UrnText(Urn(Some(a), [Amount(150), Asset(31566704)]))
         == "algorand://" + AddressText(a) + "?" + "amount=150" + "&" + "asset=31566704"
  {
    TwoParamText(Some(a), Amount(150), Asset(31566704));
    AssetUnitsParams();
  }

  /** The two parameter texts of `AssetUnitsText`. A solver aid, kept apart because
      equating string literals is costly. */
  lemma AssetUnitsParams()
    ensures ParamText(Amount(150)) == "amount=150"
    ensures ParamText(Asset(31566704)) == "asset=31566704"
  {
    assert NatToString(15) == "15";
    assert NatToString(150) == "150";
    AssetIdDigits();
  }

  /** The text `OptInAsset` builds. A solver aid: proving it apart from the builder
      calls keeps the literal strings out of the method's proof. */
  lemma OptInText()
    ensures UrnText(Urn(None, [Amount(0), Asset(31566704)]))
         == "algorand://" + "?" + "amount=0" + "&" + "asset=31566704"
  {
    TwoParamText(None, Amount(0), Asset(31566704));
    assert ParamText(Amount(0)) == "amount=0";
    assert ParamText(Asset(31566704)) == "asset=31566704" by {
      AssetIdDigits();
    }
  }

  /** The two texts `CallOrderMatters` builds. A solver aid: proving them apart from
      the builder calls keeps the literal strings out of the method's proof. */
  lemma SwappedText()
    ensures UrnText(Urn(None, [Amount(1), Label("x")])) == "algorand://" + "?" + "amount=1" + "&" + "label=x"
    ensures UrnText(Urn(None, [Label("x"), Amount(1)])) == "algorand://" + "?" + "label=x" + "&" + "amount=1"
  {
    TwoParamText(None, Amount(1), Label("x"));
    TwoParamText(None, Label("x"), Amount(1));
    assert ParamText(Amount(1)) == "amount=1";
  }

  /** A URN with one parameter is written as the prefix, a '?' and that parameter. */
  lemma OneParamText(a: Option<Address>, p: Param)
    ensures UrnText(Urn(a, [p])) == Scheme + AddressPart(a) + "?" + ParamText(p)
  {
    QueryTextOne(p);
    AppendAssoc(Scheme + AddressPart(a), "?", ParamText(p));
  }

  /** A URN with two parameters is written as the prefix, a '?', the first
      parameter, an '&' and the second parameter. */
  lemma TwoParamText(a: Option<Address>, p: Param, q: Param)
    ensures UrnText(Urn(a, [p, q])) == Scheme + AddressPart(a) + "?" + ParamText(p) + "&" + ParamText(q)
  {
    QueryTextTwo(p, q);
    var x, y := ParamText(p), ParamText(q);
    var front := Scheme + AddressPart(a);
    AppendAssoc(front, "?", x + "&" + y);
    AppendAssoc("?", x + "&", y);
    AppendAssoc("?", x, "&");
    AppendAssoc(front, "?" + x + "&", y);
    AppendAssoc(front, "?" + x, "&");
    AppendAssoc(front, "?", x);
  }
}
