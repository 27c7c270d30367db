/** Joining strings with a separator, and the reference splitting that undoes it. */
module Joins {
  import opened Options

  /** Concatenation regrouped; stated once so that callers need not rediscover it. */
  lemma AppendAssoc(a: string, b: string, c: string)
    ensures a + b + c == a + (b + c)
  {
  }

  /** `parts` separated by single `sep` characters: no leading and no trailing separator. */
  function Join(parts: seq<string>, sep: char): string {
    if |parts| == 0 then ""
    else if |parts| == 1 then parts[0]
    else parts[0] + [sep] + Join(parts[1..], sep)
  }

  /** Every element of `parts` followed by `sep`: what a writer has produced after
      emitting `x` and `sep` for each element in turn. */
  function Terminated(parts: seq<string>, sep: char): string {
    if parts == [] then "" else Terminated(parts[..|parts| - 1], sep) + parts[|parts| - 1] + [sep]
  }

  /** The terminated text read from the front: the first element, `sep`, the rest. */
  lemma {:induction false} TerminatedCons(parts: seq<string>, sep: char)
    requires parts != []
    ensures Terminated(parts, sep) == parts[0] + [sep] + Terminated(parts[1..], sep)
  {
    var n := |parts| - 1;
    if n > 0 {
      TerminatedCons(parts[..n], sep);
      assert parts[..n][1..] == parts[1..][..n - 1];
    }
  }

  /** Writing all but the last element terminated and then the last one bare is the join. */
  lemma {:induction false} JoinSnoc(parts: seq<string>, last: string, sep: char)
    ensures Join(parts + [last], sep) == Terminated(parts, sep) + last
  {
    if parts != [] {
      assert (parts + [last])[1..] == parts[1..] + [last];
      JoinSnoc(parts[1..], last, sep);
      TerminatedCons(parts, sep);
    }
  }

  /** A non-empty join is all but the last element terminated, then the last one. */
  lemma JoinLast(parts: seq<string>, sep: char)
    requires |parts| > 0
    ensures Join(parts, sep) == Terminated(parts[..|parts| - 1], sep) + parts[|parts| - 1]
  {
    var n := |parts| - 1;
    assert parts[..n] + [parts[n]] == parts;
    JoinSnoc(parts[..n], parts[n], sep);
  }

  /** Cuts `s` at every `sep`; the result always has at least one (possibly empty) piece. */
  function Split(s: string, sep: char): (pieces: seq<string>)
    ensures |pieces| > 0
  {
    if s == [] then [""]
    else
      var rest := Split(s[1..], sep);
      if s[0] == sep then [""] + rest else [[s[0]] + rest[0]] + rest[1..]
  }

  /** Cuts `s` at its first `sep`, if it has one. */
  function SplitFirst(s: string, sep: char): (r: Option<(string, string)>)
    ensures r.Some? ==> sep !in r.value.0 && s == r.value.0 + [sep] + r.value.1
    ensures r.None? <==> sep !in s
  {
    if s == [] then None
    else if s[0] == sep then Some(("", s[1..]))
    else match SplitFirst(s[1..], sep)
      case None => None
      case Some((k, v)) => Some(([s[0]] + k, v))
  }

  /** Cutting at the first separator after a separator-free head gives that head back. */
  lemma {:induction false} SplitFirstAt(k: string, v: string, sep: char)
    requires sep !in k
    ensures SplitFirst(k + [sep] + v, sep) == Some((k, v))
  {
    if k == [] {
      assert (k + [sep] + v)[1..] == v;
    } else {
      assert (k + [sep] + v)[1..] == k[1..] + [sep] + v;
      SplitFirstAt(k[1..], v, sep);
      assert [k[0]] + k[1..] == k;
    }
  }

  lemma {:induction false} SplitNoSep(x: string, sep: char)
    requires sep !in x
    ensures Split(x, sep) == [x]
  {
    if x != [] {
      SplitNoSep(x[1..], sep);
      assert [x[0]] + x[1..] == x;
    }
  }

  lemma {:induction false} SplitAfterPiece(x: string, t: string, sep: char)
    requires sep !in x
    ensures Split(x + [sep] + t, sep) == [x] + Split(t, sep)
  {
    if x == [] {
      assert (x + [sep] + t)[1..] == t;
    } else {
      assert (x + [sep] + t)[1..] == x[1..] + [sep] + t;
      SplitAfterPiece(x[1..], t, sep);
      assert [x[0]] + x[1..] == x;
    }
  }

  /** Splitting a join gives back exactly the joined pieces, in order, when no piece
      holds the separator. */
  lemma {:induction false} SplitJoin(parts: seq<string>, sep: char)
    requires |parts| > 0
    requires forall i :: 0 <= i < |parts| ==> sep !in parts[i]
    ensures Split(Join(parts, sep), sep) == parts
  {
    if |parts| == 1 {
      SplitNoSep(parts[0], sep);
    } else {
      SplitJoin(parts[1..], sep);
      SplitAfterPiece(parts[0], Join(parts[1..], sep), sep);
    }
  }
}
