# algonaut_uri in Dafny

This project models the library that builds Algorand payment-request URIs. These
are strings of the form `algorand://<address>?amount=…&label=…&asset=…&xnote=…&note=…`,
which a wallet shares with another wallet, typically as a QR code. The library has
three parts:

- a `Param` value for each request field, which renders as `key=value`;
- a builder that records an optional address and appends parameters in call order;
- the URN value it builds, whose `Display` writes the scheme, the address, and then a
  `?` and the parameters separated by `&`.

No value is escaped. The model keeps that. It proves that a URN reads back
unchanged from its text when:

- no parameter text holds `&`;
- no caller-chosen key holds `=` or equals a built-in key;
- the address text is non-empty and free of `?`.

It also shows two pairs of URNs whose texts collide when one of these conditions
fails.

Modules:

- `Options`: the `Option` value.
- `Decimal`: `u64` as a bounded integer (`U64`), its decimal text `NatToString`, and
  the inverse `DecimalValue`.
- `Joins`: joining strings with a separator (`Join`, `Terminated`), and the reference
  splitters `Split` and `SplitFirst` with their round-trip lemmas.
- `Params`: the `Param` datatype and its rendering `ParamText`, plus a reference reader
  `ParseParam`. The reader inverts the rendering on every parameter whose caller-chosen
  key has no `=` and is not a built-in key (`WellKeyed`).
- `Urns`: the URN value, its serialisation written two ways and proved equal, and a
  reference reader `ParseUrn`. One way is the pure `UrnText`. The other is the
  imperative `Format`, which appends to a string and loops over all parameters but the
  last.
- `Builders`: the builder as a class whose methods update its `address` and `params`
  fields in place.
- `Scenarios`: the library's example requests, driven through the builder and
  `Format`.

The readers `ParseParam`, `ParseUrn` and `Split` are not part of the library, which
never parses. They exist only as independent partners: the round-trip lemmas state
that the serialisation loses no information on well-formed input.

## Model

| member | source | states |
|---|---|---|
| Decimal.NatToString | src/lib.rs:51-53 | the decimal text of a `u64` amount or asset id is a non-empty run of digits, which starts with `0` exactly when the number is zero |
| Decimal.DecimalRoundTrip | src/lib.rs:51-53 | reading the decimal text of any number back gives that number |
| Decimal.NatToStringInjective | src/lib.rs:51-53 | distinct numbers get distinct decimal texts |
| Params.ParamText | src/lib.rs:48-59 | the `Display` of a parameter: its key, `=`, and its value, with no escaping; its properties are the contracts of `ParamTextShape` and `ParamRoundTrip` (a contract on the function itself would be instantiated wherever a parameter text appears) |
| Params.ParamTextShape | src/lib.rs:48-59 | every parameter text starts with its key followed by `=`; for the five built-in kinds that key is one of `amount`, `label`, `asset`, `xnote` and `note`; for amounts and asset ids what follows the `=` is a decimal number |
| Params.ParamRoundTrip | src/lib.rs:48-59 | every parameter whose caller-chosen key has no `=` and is not a built-in key is read back from its text unchanged, so the rendering keeps the kind and the value verbatim |
| Params.ClassifyRoundTrip | src/lib.rs:50-57 | a parameter's key and value text determine the parameter, under the same condition |
| Params.ReservedKeyCollision | src/lib.rs:53-56 | an `Other` parameter with key `amount` renders the same as an `Amount`, because the key is written verbatim |
| Urns.UrnText | src/lib.rs:15-37 | the serialisation of any URN begins with `algorand://` |
| Urns.Format | src/lib.rs:16-36 | the step-by-step writer produces exactly `UrnText`: the scheme, the address text if present, then `?` and the parameter texts joined by `&` when there are parameters |
| Urns.WriteStep | src/lib.rs:26-28 | each pass of the loop appends one parameter text and one `&` to the written prefix |
| Urns.WrittenTerminated | src/lib.rs:26-28 | what the loop writes for a list of parameters is each parameter text followed by `&` |
| Urns.WriteLast | src/lib.rs:30-32 | after the loop, writing the last parameter without a trailing `&` completes the URN text |
| Urns.NoParamsNoQuery | src/lib.rs:17-23 | without parameters no `?` is written: the text is the scheme and the address part only |
| Urns.AddressOnly | src/lib.rs:17-21 | an address with no parameters renders as `algorand://` followed by the address text and nothing else |
| Urns.EmptyUrn | src/lib.rs:17-23 | no address and no parameters render as exactly `algorand://` |
| Urns.QueryTextOne | src/lib.rs:23-33 | a single parameter is written with no `&` |
| Urns.QueryTextTwo | src/lib.rs:23-33 | two parameters are written in insertion order with one `&` between them and none after |
| Urns.QueryPieces | src/lib.rs:23-33 | with parameters, the text after the address is `?` and a query that cuts at `&` into exactly the parameter texts, one per parameter and in insertion order, when no parameter text holds `&`: nothing is reordered, merged or dropped |
| Urns.ParseAllTexts | src/lib.rs:26-31 | the list of parameter texts reads back as the parameter list |
| Urns.UrnRoundTrip | src/lib.rs:15-37 | a URN whose address is non-empty and free of `?`, and whose parameters hold no `&` and no unsafe key, is read back from its text unchanged |
| Urns.UrnTextInjective | src/lib.rs:15-37 | two such URNs with the same text are the same URN |
| Urns.AmpersandAmbiguity | src/lib.rs:24-31 | without escaping, a label holding `&note=` renders the same as a label followed by a separate note |
| Builders.UrnBuilder.constructor | src/lib.rs:61-65 | a new builder has no address and no parameters |
| Builders.NewBuilder | src/lib.rs:10-12 | `builder()` returns a fresh builder with no address and no parameters |
| Builders.UrnBuilder.WithAddress | src/lib.rs:68-71 | the address becomes the given one, whatever it was before, and the parameters are unchanged |
| Builders.UrnBuilder.WithAmount | src/lib.rs:73-76 | exactly one `Amount` is appended at the end; earlier parameters and the address are unchanged |
| Builders.UrnBuilder.WithLabel | src/lib.rs:78-81 | exactly one `Label` is appended at the end; earlier parameters and the address are unchanged |
| Builders.UrnBuilder.WithAsset | src/lib.rs:83-86 | exactly one `Asset` is appended at the end; earlier parameters and the address are unchanged |
| Builders.UrnBuilder.WithXNote | src/lib.rs:88-91 | exactly one `XNote` is appended at the end; earlier parameters and the address are unchanged |
| Builders.UrnBuilder.WithNote | src/lib.rs:93-96 | exactly one `Note` is appended at the end; earlier parameters and the address are unchanged |
| Builders.UrnBuilder.Build | src/lib.rs:98-103 | the built URN carries the builder's address and parameter list over unchanged |
| Scenarios.ShareAddress | src/lib.rs:115-121 | building with only an address renders `algorand://` and the address text |
| Scenarios.ShareAddressWithLabel | src/lib.rs:124-131 | address plus `label("Silvio")` renders `algorand://`, the address, then `?label=Silvio` |
| Scenarios.RequestPayment | src/lib.rs:134-141 | address plus `amount(150500000)` renders `algorand://`, the address, then `?amount=150500000` |
| Scenarios.RequestPaymentWithNote | src/lib.rs:144-152 | adding `note("Lunch")` after the amount renders `?amount=150500000&note=Lunch` after the address |
| Scenarios.RequestAssetUnits | src/lib.rs:155-163 | `amount(150)` then `asset(31566704)` render `?amount=150&asset=31566704` after the address |
| Scenarios.OptInAsset | src/lib.rs:166-170 | with no address, `amount(0)` then `asset(31566704)` render `algorand://?amount=0&asset=31566704` |
| Scenarios.CallOrderMatters | src/lib.rs:73-81 | the same two builder calls in opposite orders give the parameters in opposite orders |
| Scenarios.FormatTwice | src/lib.rs:15-37 | serialisation is a pure function of the URN: writing it twice gives the same text |
| Scenarios.TwoParamText | src/lib.rs:23-33 | a URN with two parameters renders as the prefix, `?`, the first text, `&`, and the second text |
| Scenarios.OneParamText | src/lib.rs:23-33 | a URN with one parameter renders as the prefix, `?`, and that parameter's text |

## Left out

- Address parsing and validation (`Address::from_str`) and the address's own `Display` belong to the external `algonaut_core` crate, which is not part of this model. An address is identified with its canonical text (`Address(canonical)`), and `AddressText` returns that text.
- `fmt::Result` error propagation through `?` on each `write!`: a formatter failure is an I/O failure of the sink. `Format` is total and returns the string.
- The QR-code example program (`qr_code.rs`) is image rendering and file and console I/O, so it is not modelled.
- The `insta` snapshot files are not modelled. The scenarios follow the tests' call sequences, and the expected strings are derived from the serialisation rules. The scenarios hold for every address, not only the test's one.
- Builder ownership: the Rust builder methods consume `self` and return it for chaining. The model mutates one builder object in place, which has the same effect because the old value can no longer be used.
- `Other` parameters have no builder method in the library, so the model offers none. They appear only as values of `Param`.
- Percent-encoding and key or value validation: the library performs none, and the model adds none. `Urns.AmpersandAmbiguity` and `Params.ReservedKeyCollision` show the consequence.
