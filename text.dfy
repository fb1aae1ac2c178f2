/** The string operations the import-ID parsers use (Go's strings.Contains and
    strings.SplitN(s, sep, 2) with a one-character separator). */
module Text {
  import opened Base

  /** Position of the first `c` in `s` (strings.Index). */
  function IndexOf(s: string, c: char): (r: Option<nat>)
    ensures r.Some? ==> r.value < |s| && s[r.value] == c && c !in s[..r.value]
    ensures r.None? <==> c !in s
  {
    if s == [] then None
    else if s[0] == c then Some(0)
    else
      match IndexOf(s[1..], c)
      case None => None
      case Some(k) => Some(k + 1)
  }

  /** strings.SplitN(s, [c], 2) when it yields two parts: the text before the
      first `c` and everything after it; None when `c` does not occur. */
  function Cut(s: string, c: char): (r: Option<(string, string)>)
    ensures r.None? <==> c !in s
    ensures r.Some? ==> s == r.value.0 + [c] + r.value.1 && c !in r.value.0
  {
    match IndexOf(s, c)
    case None => None
    case Some(i) =>
      assert s == s[..i] + [c] + s[i + 1..];
      Some((s[..i], s[i + 1..]))
  }

  /** Helper: in `a + [c] + b` the separator sits right after `a`. */
  lemma SeparatorAt(a: string, b: string, c: char)
    ensures |a + [c] + b| > |a| && (a + [c] + b)[|a|] == c
  {
  }

  /** A string splits at its first `c` in only one way. */
  lemma {:induction false} SplitUnique(a: string, b: string, a': string, b': string, c: char)
    requires c !in a && c !in a'
    requires a + [c] + b == a' + [c] + b'
    ensures a == a' && b == b'
  {
    if |a| < |a'| {
      SeparatorAt(a, b, c);
      assert false;
    } else if |a'| < |a| {
      SeparatorAt(a', b', c);
      assert false;
    } else {
      assert a == (a + [c] + b)[..|a|];
      assert a' == (a' + [c] + b')[..|a|];
      assert b == (a + [c] + b)[|a| + 1..];
      assert b' == (a' + [c] + b')[|a| + 1..];
    }
  }

  /** Cutting a joined string at the separator gives back its parts, provided
      the first part does not contain the separator. */
  lemma CutJoin(a: string, b: string, c: char)
    requires c !in a
    ensures Cut(a + [c] + b, c) == Some((a, b))
  {
    var s := a + [c] + b;
    assert s[|a|] == c;
    var r := Cut(s, c);
    SplitUnique(r.value.0, r.value.1, a, b, c);
  }
}
