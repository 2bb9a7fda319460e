/**
 * Joining and splitting strings on a separator character. The routes build URLs by concatenation;
 * these readers recover the pieces, which is how the redirect step gets its context back.
 */
module Text {

  /** The parts laid end to end with `sep` between neighbours. */
  function Join(parts: seq<string>, sep: char): string
  {
    if |parts| == 0 then ""
    else if |parts| == 1 then parts[0]
    else parts[0] + [sep] + Join(parts[1..], sep)
  }

  /** The maximal runs of `s` that do not contain `sep`, in order (`s.split(sep)`). */
  function Split(s: string, sep: char): (parts: seq<string>)
    ensures |parts| > 0
  {
    if |s| == 0 then [""]
    else
      var rest := Split(s[1..], sep);
      if s[0] == sep then [""] + rest else [[s[0]] + rest[0]] + rest[1..]
  }

  /** The text before the first `sep` and the text after it; `(s, "")` when `sep` does not occur. */
  function Cut(s: string, sep: char): (string, string)
  {
    if |s| == 0 then ("", "")
    else if s[0] == sep then ("", s[1..])
    else
      var r := Cut(s[1..], sep);
      ([s[0]] + r.0, r.1)
  }

  predicate NoSep(parts: seq<string>, sep: char)
  {
    forall i :: 0 <= i < |parts| ==> sep !in parts[i]
  }

  lemma {:induction false} SplitPrepend(p: string, t: string, sep: char)
    requires sep !in p
    ensures Split(p + t, sep) == [p + Split(t, sep)[0]] + Split(t, sep)[1..]
  {
    if |p| > 0 {
      assert (p + t)[1..] == p[1..] + t;
      SplitPrepend(p[1..], t, sep);
      assert [p[0]] + (p[1..] + Split(t, sep)[0]) == p + Split(t, sep)[0];
    } else {
      var r := Split(t, sep);
      assert p + t == t;
      assert r == [r[0]] + r[1..];
      assert p + r[0] == r[0];
    }
  }

  /** Splitting a join of separator-free parts gives the parts back. */
  lemma {:induction false} SplitJoin(parts: seq<string>, sep: char)
    requires |parts| > 0 && NoSep(parts, sep)
    ensures Split(Join(parts, sep), sep) == parts
  {
    if |parts| == 1 {
      SplitPrepend(parts[0], "", sep);
      assert parts[0] + "" == parts[0];
    } else {
      var rest := Join(parts[1..], sep);
      SplitJoin(parts[1..], sep);
      SplitPrepend(parts[0], [sep] + rest, sep);
      assert parts[0] + [sep] + rest == parts[0] + ([sep] + rest);
      assert ([sep] + rest)[1..] == rest;
      assert Split([sep] + rest, sep) == [""] + parts[1..];
      assert parts[0] + "" == parts[0];
      assert parts == [parts[0]] + parts[1..];
    }
  }

  /** Cutting at the first separator of `k + sep + v` where `k` is separator-free gives `(k, v)`. */
  lemma {:induction false} CutAt(k: string, v: string, sep: char)
    requires sep !in k
    ensures Cut(k + [sep] + v, sep) == (k, v)
  {
    if |k| > 0 {
      assert (k + [sep] + v)[1..] == k[1..] + [sep] + v;
      CutAt(k[1..], v, sep);
      assert [k[0]] + k[1..] == k;
    } else {
      assert k + [sep] + v == [sep] + v;
    }
  }

  /** The `key=value` pairs of the query string of a URL, in order, without decoding. */
  function QueryParams(url: string): seq<(string, string)>
  {
    var fields := Split(Cut(url, '?').1, '&');
    seq(|fields|, i requires 0 <= i < |fields| => Cut(fields[i], '='))
  }
}
