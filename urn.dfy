/** The finished URN: an optional address and an ordered list of parameters, and its
    serialisation `algorand://[address][?p1&p2&...]` (no percent-encoding). */
module Urns {
  import opened Options
  import opened Joins
  import opened Params

  /** An account address of the external address type, stood for by its canonical text. */
  datatype Address = Address(canonical: string)

  function AddressText(a: Address): string {
    a.canonical
  }

  datatype Urn = Urn(address: Option<Address>, params: seq<Param>)

  const Scheme: string := "algorand://"

  /** The texts of the parameters, in order. */
  function ParamTexts(ps: seq<Param>): seq<string> {
    seq(|ps|, i requires 0 <= i < |ps| => ParamText(ps[i]))
  }

  function AddressPart(a: Option<Address>): string {
    if a.Some? then AddressText(a.value) else ""
  }

  /** The query section: the parameter texts joined by single `&`. */
  function QueryText(ps: seq<Param>): string {
    Join(ParamTexts(ps), '&')
  }

  /** The serialisation of a URN, as a pure function of its two fields. */
  function UrnText(u: Urn): (s: string)
    ensures |s| >= |Scheme| && s[..|Scheme|] == Scheme
  {
    Scheme + AddressPart(u.address) + QueryPart(u.params)
  }

  /** Nothing for an empty list; otherwise `?` and the query. */
  function QueryPart(ps: seq<Param>): string {
    if ps == [] then "" else "?" + QueryText(ps)
  }

  /** The writer: the scheme, the address if any, then, for a non-empty list, `?`,
      every parameter but the last followed by `&`, and the last one. */
  method Format(u: Urn) returns (s: string)
    ensures s == UrnText(u)
  {
    s := "algorand://";
    if u.address.Some? {
      s := s + AddressText(u.address.value);
    }
    assert s == Scheme + AddressPart(u.address);
    if u.params != [] {
      s := s + "?";
      ghost var head := Scheme + AddressPart(u.address) + "?";
      var n := |u.params| - 1;
      var i := 0;
      while i < n
        invariant 0 <= i <= n
        invariant s == head + Written(u.params[..i])
      {
        WriteStep(head, u.params, i, s);
        s := s + ParamText(u.params[i]) + "&";
        i := i + 1;
      }
      // The list is non-empty, so its last element always exists.
      WriteLast(u, s);
      s := s + ParamText(u.params[n]);
    }
  }

  /** What the writer's loop has produced after writing each of `ps` followed by `&`.
      It is `Terminated(ParamTexts(ps), '&')` (see `WrittenTerminated`), written over
      the parameters themselves. That form lets the loop invariant grow one parameter
      per pass without proving equalities between sequences of texts. */
  function Written(ps: seq<Param>): string {
    if ps == [] then "" else Written(ps[..|ps| - 1]) + ParamText(ps[|ps| - 1]) + "&"
  }

  /** One turn of the writer's loop: writing the next parameter and `&` extends the
      output by exactly that parameter's share of `Written`. */
  lemma WriteStep(head: string, ps: seq<Param>, i: nat, s: string)
    requires i < |ps|
    requires s == head + Written(ps[..i])
    ensures s + ParamText(ps[i]) + "&" == head + Written(ps[..i + 1])
  {
    assert ps[..i + 1][..i] == ps[..i];
    AppendAssoc(head, Written(ps[..i]), ParamText(ps[i]));
    AppendAssoc(head, Written(ps[..i]) + ParamText(ps[i]), "&");
  }

  /** The loop's output is the parameter texts, each terminated by `&`. */
  lemma {:induction false} WrittenTerminated(ps: seq<Param>)
    ensures Written(ps) == Terminated(ParamTexts(ps), '&')
  {
    if ps != [] {
      var n := |ps| - 1;
      WrittenTerminated(ps[..n]);
      assert ParamTexts(ps)[..n] == ParamTexts(ps[..n]);
    }
  }

  /** The writer's last step: after the scheme, the address, `?` and every parameter
      but the last followed by `&`, writing the last parameter completes the URN text. */
  lemma WriteLast(u: Urn, s: string)
    requires u.params != []
    requires s == Scheme + AddressPart(u.address) + "?" + Written(u.params[..|u.params| - 1])
    ensures s + ParamText(u.params[|u.params| - 1]) == UrnText(u)
  {
    var texts := ParamTexts(u.params);
    var n := |u.params| - 1;
    var start := Scheme + AddressPart(u.address);
    var front := Terminated(texts[..n], '&');
    WrittenTerminated(u.params[..n]);
    assert texts[..n] == ParamTexts(u.params[..n]);
    JoinLast(texts, '&');
    AppendAssoc(start + "?", front, texts[n]);
    AppendAssoc(start, "?", QueryText(u.params));
  }

  /** With no parameters nothing follows the address: no `?`. */
  lemma NoParamsNoQuery(a: Option<Address>)
    ensures UrnText(Urn(a, [])) == Scheme + AddressPart(a)
  {
  }

  /** An address and no parameters give the scheme followed by the address text. */
  lemma AddressOnly(a: Address)
    ensures UrnText(Urn(Some(a), [])) == "algorand://" + AddressText(a)
  {
  }

  /** Neither address nor parameters gives exactly the scheme. */
  lemma EmptyUrn()
    ensures UrnText(Urn(None, [])) == "algorand://"
  {
  }

  /** A single parameter is the whole query. */
  lemma QueryTextOne(p: Param)
    ensures QueryText([p]) == ParamText(p)
  {
    assert ParamTexts([p]) == [ParamText(p)];
  }

  /** Two parameters are written in order, separated by one `&`. */
  lemma QueryTextTwo(p: Param, q: Param)
    ensures QueryText([p, q]) == ParamText(p) + "&" + ParamText(q)
  {
    var texts := ParamTexts([p, q]);
    assert texts[1..] == [ParamText(q)];
    assert Join(texts, '&') == texts[0] + ['&'] + Join(texts[1..], '&');
  }

  /** With parameters, the text after the address is `?` and then a query that cuts at
      `&` into exactly the parameter texts, in insertion order, when no parameter text
      holds `&`. */
  lemma QueryPieces(u: Urn)
    requires u.params != []
    requires forall i :: 0 <= i < |u.params| ==> '&' !in ParamText(u.params[i])
    ensures UrnText(u) == Scheme + AddressPart(u.address) + "?" + QueryText(u.params)
    ensures |Split(QueryText(u.params), '&')| == |u.params|
    ensures forall i :: 0 <= i < |u.params| ==> Split(QueryText(u.params), '&')[i] == ParamText(u.params[i])
  {
    SplitJoin(ParamTexts(u.params), '&');
  }

  /** A URN whose text is unambiguous: the address is non-empty and free of `?`, every
      parameter is well keyed, and no parameter text holds `&`. */
  predicate WellFormed(u: Urn) {
    (u.address.Some? ==> AddressText(u.address.value) != "" && '?' !in AddressText(u.address.value)) &&
    (forall i :: 0 <= i < |u.params| ==> WellKeyed(u.params[i])) &&
    (forall i :: 0 <= i < |u.params| ==> '&' !in ParamText(u.params[i]))
  }

  /** Reference reading of a list of parameter texts. */
  function ParseAll(pieces: seq<string>): Option<seq<Param>> {
    if pieces == [] then Some([])
    else match (ParseParam(pieces[0]), ParseAll(pieces[1..]))
      case (Some(p), Some(ps)) => Some([p] + ps)
      case _ => None
  }

  /** Reference reading of a URN text (the library itself only writes URNs). */
  function ParseUrn(s: string): Option<Urn> {
    if |s| < |Scheme| || s[..|Scheme|] != Scheme then None
    else
      var rest := s[|Scheme|..];
      match SplitFirst(rest, '?')
      case None => Some(Urn(ReadAddress(rest), []))
      case Some((a, q)) =>
        match ParseAll(Split(q, '&'))
        case None => None
        case Some(ps) => Some(Urn(ReadAddress(a), ps))
  }

  function ReadAddress(a: string): Option<Address> {
    if a == "" then None else Some(Address(a))
  }

  /** Rendering the parameters from `lo` on gives the texts from `lo` on. */
  lemma ParamTextsDrop(ps: seq<Param>, lo: nat)
    requires lo <= |ps|
    ensures ParamTexts(ps)[lo..] == ParamTexts(ps[lo..])
  {
    var a, b := ParamTexts(ps)[lo..], ParamTexts(ps[lo..]);
    forall i | 0 <= i < |ps| - lo
      ensures a[i] == b[i]
    {
    }
  }

  /** One step of `ParseAll`: a readable first piece followed by readable pieces. */
  lemma ParseAllCons(pieces: seq<string>, p: Param, ps: seq<Param>)
    requires pieces != []
    requires ParseParam(pieces[0]) == Some(p)
    requires ParseAll(pieces[1..]) == Some(ps)
    ensures ParseAll(pieces) == Some([p] + ps)
  {
  }

  lemma {:induction false} ParseAllTexts(ps: seq<Param>)
    requires forall i :: 0 <= i < |ps| ==> WellKeyed(ps[i])
    ensures ParseAll(ParamTexts(ps)) == Some(ps)
  {
    var texts := ParamTexts(ps);
    if ps != [] {
      ParamRoundTrip(ps[0]);
      assert ParseParam(texts[0]) == Some(ps[0]);
      ParamTextsDrop(ps, 1);
      ParseAllTexts(ps[1..]);
      ParseAllCons(texts, ps[0], ps[1..]);
      assert [ps[0]] + ps[1..] == ps;
    }
  }

  /** A well-formed URN is read back from its text unchanged: the writer loses
      neither the address, nor any parameter, nor their order. */
  lemma UrnRoundTrip(u: Urn)
    requires WellFormed(u)
    ensures ParseUrn(UrnText(u)) == Some(u)
  {
    var addr, query := AddressPart(u.address), QueryPart(u.params);
    AppendAssoc(Scheme, addr, query);
    var rest := UrnText(u)[|Scheme|..];
    assert rest == addr + query;
    assert ReadAddress(addr) == u.address;
    if u.params == [] {
      assert rest == addr;
      assert SplitFirst(rest, '?') == None;
    } else {
      var q := QueryText(u.params);
      AppendAssoc(addr, "?", q);
      SplitFirstAt(addr, q, '?');
      assert SplitFirst(rest, '?') == Some((addr, q));
      SplitJoin(ParamTexts(u.params), '&');
      ParseAllTexts(u.params);
      assert ParseAll(Split(q, '&')) == Some(u.params);
    }
  }

  /** Two well-formed URNs with the same text are the same URN: in particular the
      writer neither reorders nor merges parameters. */
  lemma UrnTextInjective(u: Urn, v: Urn)
    requires WellFormed(u) && WellFormed(v)
    requires UrnText(u) == UrnText(v)
    ensures u == v
  {
    UrnRoundTrip(u);
    UrnRoundTrip(v);
  }

  /** Without escaping, a label holding `&note=` is indistinguishable from two
      parameters. */
  lemma AmpersandAmbiguity()
    ensures UrnText(Urn(None, [Label("a&note=b")])) == UrnText(Urn(None, [Label("a"), Note("b")]))
  {
    var one, two := [Label("a&note=b")], [Label("a"), Note("b")];
    var t1, t2 := ParamTexts(one), ParamTexts(two);
    assert QueryText(one) == t1[0] == "label=a&note=b";
    assert t2[1] == "note=" + "b" == "note=b";
    assert t2[1..] == [t2[1]];
    assert QueryText(two) == t2[0] + "&" + t2[1] == "label=a" + "&" + "note=b";
    assert QueryPart(one) == QueryPart(two);
  }
}
