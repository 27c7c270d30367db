/** One query parameter of a payment-request URN and its `key=value` rendering. */
module Params {
  import opened Options
  import opened Decimal
  import opened Joins

  /** The six kinds of parameter; `Other` carries a caller-chosen key. */
  datatype Param =
    | Amount(amount: U64)
    | Label(labelText: string)
    | Asset(assetId: U64)
    | XNote(xnote: string)
    | Note(note: string)
    | Other(key: string, value: string)

  /** The keys the five built-in kinds render with. */
  const ReservedKeys: set<string> := {"amount", "label", "asset", "xnote", "note"}

  /** The key a parameter is written under. */
  function Key(p: Param): string {
    match p
    case Amount(_) => "amount"
    case Label(_) => "label"
    case Asset(_) => "asset"
    case XNote(_) => "xnote"
    case Note(_) => "note"
    case Other(k, _) => k
  }

  /** The value a parameter is written with: decimal for the `u64` kinds, the text
      itself, unescaped, for the others. */
  function Value(p: Param): string {
    match p
    case Amount(a) => NatToString(a)
    case Label(t) => t
    case Asset(id) => NatToString(id)
    case XNote(t) => t
    case Note(t) => t
    case Other(_, v) => v
  }

  /** The `Display` text of a parameter: its key, `=`, and its value. What the text
      holds is stated by `ParamTextShape` and `ParamRoundTrip` below. */
  function ParamText(p: Param): string {
    Key(p) + "=" + Value(p)
  }

  /** Every parameter's text starts with its key and `=`: the key is a fixed built-in
      one for all kinds but `Other`, and amounts and asset ids follow it in decimal. */
  lemma ParamTextShape(p: Param)
    ensures p.Other? || ParamText(p)[..|Key(p)|] in ReservedKeys
    ensures ParamText(p)[|Key(p)|] == '='
    ensures (p.Amount? || p.Asset?) ==> IsDecimal(ParamText(p)[|Key(p)| + 1..])
  {
    var r := ParamText(p);
    assert r[..|Key(p)|] == Key(p);
    assert r[|Key(p)| + 1..] == Value(p);
  }

  /** The rendering is unambiguous for this parameter: a caller-chosen key neither
      holds `=` nor imitates a built-in key. */
  predicate WellKeyed(p: Param) {
    p.Other? ==> '=' !in p.key && p.key !in ReservedKeys
  }

  /** Reference reading of a `key=value` text (not part of the library, which never
      parses): the text up to the first `=` is the key. */
  function ParseParam(s: string): Option<Param> {
    match SplitFirst(s, '=')
    case None => None
    case Some((k, v)) => Some(Classify(k, v))
  }

  function Classify(k: string, v: string): Param {
    if k == "amount" && IsDecimal(v) && DecimalValue(v) < U64_LIMIT then Amount(DecimalValue(v))
    else if k == "asset" && IsDecimal(v) && DecimalValue(v) < U64_LIMIT then Asset(DecimalValue(v))
    else if k == "label" then Label(v)
    else if k == "xnote" then XNote(v)
    else if k == "note" then Note(v)
    else Other(k, v)
  }

  /** Every well-keyed parameter is read back from its text unchanged: the key is fixed
      per kind, the numbers are in decimal and the value is written verbatim. */
  lemma ParamRoundTrip(p: Param)
    requires WellKeyed(p)
    ensures ParseParam(ParamText(p)) == Some(p)
  {
    assert '=' !in Key(p);
    SplitFirstAt(Key(p), Value(p), '=');
    ClassifyRoundTrip(p);
  }

  /** The key and value of a well-keyed parameter determine it. */
  lemma ClassifyRoundTrip(p: Param)
    requires WellKeyed(p)
    ensures Classify(Key(p), Value(p)) == p
  {
    match p
    case Amount(a) => DecimalRoundTrip(a);
    case Asset(id) =>
      DecimalRoundTrip(id);
      assert Key(p) != "amount";
    case Label(_) =>
      assert Key(p) !in {"amount", "asset"};
    case XNote(_) =>
      assert Key(p) !in {"amount", "asset", "label"};
    case Note(_) =>
      assert Key(p) !in {"amount", "asset", "label", "xnote"};
    case Other(k, _) =>
      assert k !in ReservedKeys;
  }

  /** Without escaping, an `Other` parameter under a built-in key renders exactly like
      the built-in parameter. */
  lemma ReservedKeyCollision()
    ensures ParamText(Other("amount", "5")) == ParamText(Amount(5))
  {
    assert NatToString(5) == "5";
  }
}
