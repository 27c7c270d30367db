/** The payment-request builder: it accumulates an optional address and an ordered
    list of parameters, then hands both over to a finished URN. */
module Builders {
  import opened Options
  import opened Decimal
  import opened Params
  import opened Urns

  /** A builder has a single owner that drives it call by call; each setter changes it
      in place. */
  class UrnBuilder {
    var address: Option<Address>
    var params: seq<Param>

    /** The default builder: no address and no parameters. */
    constructor ()
      ensures address == None && params == []
    {
      address := None;
      params := [];
    }

    /** Sets the address, replacing any earlier one; the parameters are untouched. */
    method WithAddress(a: Address)
      modifies this
      ensures address == Some(a)
      ensures params == old(params)
    {
      address := Some(a);
    }

    /** Appends an amount (in base units); repeated calls append repeated amounts. */
    method WithAmount(amt: U64)
      modifies this
      ensures params == old(params) + [Amount(amt)]
      ensures address == old(address)
    {
      params := params + [Amount(amt)];
    }

    /** Appends a label, unchecked and unescaped. */
    method WithLabel(text: string)
      modifies this
      ensures params == old(params) + [Label(text)]
      ensures address == old(address)
    {
      params := params + [Label(text)];
    }

    /** Appends an asset id. */
    method WithAsset(assetId: U64)
      modifies this
      ensures params == old(params) + [Asset(assetId)]
      ensures address == old(address)
    {
      params := params + [Asset(assetId)];
    }

    /** Appends an extended note. */
    method WithXNote(xnote: string)
      modifies this
      ensures params == old(params) + [XNote(xnote)]
      ensures address == old(address)
    {
      params := params + [XNote(xnote)];
    }

    /** Appends a note. */
    method WithNote(note: string)
      modifies this
      ensures params == old(params) + [Note(note)]
      ensures address == old(address)
    {
      params := params + [Note(note)];
    }

    /** Hands the address and the parameters, in insertion order, to a finished URN. */
    method Build() returns (u: Urn)
      ensures u.address == address && u.params == params
    {
      u := Urn(address, params);
    }
  }

  /** The entry point of the fluent chain: a fresh default builder. */
  method NewBuilder() returns (b: UrnBuilder)
    ensures fresh(b) && b.address == None && b.params == []
  {
    b := new UrnBuilder();
  }
}
