/** The two string operations the price-map normalisation uses:
    `s.split(':')[1]` and `s.toLowerCase()`. */
module Text {
  import opened Wrappers

  /** Lower-cases one ASCII letter and leaves every other character alone. */
  function LowerChar(c: char): char {
    if 'A' <= c <= 'Z' then (c as int + 32) as char else c
  }

  predicate HasNoUpper(s: string) {
    forall i :: 0 <= i < |s| ==> !('A' <= s[i] <= 'Z')
  }

  /** `s.toLowerCase()`, for the ASCII alphabet */
  function Lower(s: string): (r: string)
    ensures |r| == |s| && HasNoUpper(r)
    ensures forall i :: 0 <= i < |s| ==> r[i] == LowerChar(s[i])
  {
    seq(|s|, i requires 0 <= i < |s| => LowerChar(s[i]))
  }

  /** The position of the first `c` in `s`, if any. */
  function IndexOf(s: string, c: char): (r: Option<nat>)
    ensures r.None? <==> c !in s
    ensures r.Some? ==> r.value < |s| && s[r.value] == c && c !in s[..r.value]
  {
    if s == [] then None
    else if s[0] == c then Some(0)
    else match IndexOf(s[1..], c)
      case None => None
      case Some(i) => Some(i + 1)
  }

  /** The text of `s` up to its first `sep`, or all of `s` when it holds
      none: one field of `split(sep)`. */
  function Field(s: string, sep: char): (r: string)
    ensures sep !in r
  {
    match IndexOf(s, sep)
    case None => s
    case Some(j) => s[..j]
  }

  /** `s.split(sep)[1]`: the text between the first and the second `sep`
      (or the end of `s`), and `undefined` when `s` holds no `sep`. */
  function SecondField(s: string, sep: char): (r: Option<string>)
    ensures r.None? <==> sep !in s
    ensures r.Some? ==> sep !in r.value
  {
    match IndexOf(s, sep)
    case None => None
    case Some(i) => Some(Field(s[i + 1..], sep))
  }

  /** The first `c` is found wherever it stands. */
  lemma IndexOfFirst(s: string, c: char, k: nat)
    requires k < |s| && s[k] == c && c !in s[..k]
    ensures IndexOf(s, c) == Some(k)
  {
    var i := IndexOf(s, c).value;
    forall m | 0 <= m < k ensures s[m] != c {
      assert s[..k][m] == s[m];
    }
    forall m | 0 <= m < i ensures s[m] != c {
      assert s[..i][m] == s[m];
    }
  }

  /** A field followed by the end of the text or by `sep` is read whole. */
  lemma FieldOf(a: string, tail: string, sep: char)
    requires sep !in a
    requires tail == [] || tail[0] == sep
    ensures Field(a + tail, sep) == a
  {
    if tail == [] {
      assert a + tail == a;
    } else {
      assert (a + tail)[..|a|] == a;
      IndexOfFirst(a + tail, sep, |a|);
    }
  }

  /** For a key `p + sep + a` (optionally followed by `sep` and more text),
      with no `sep` in `p` or `a`, the second field is exactly `a`. */
  lemma SecondFieldOf(p: string, a: string, tail: string, sep: char)
    requires sep !in p && sep !in a
    requires tail == [] || tail[0] == sep
    ensures SecondField(p + [sep] + a + tail, sep) == Some(a)
  {
    var s := p + [sep] + a + tail;
    assert s[..|p|] == p;
    IndexOfFirst(s, sep, |p|);
    assert s[|p| + 1..] == a + tail;
    FieldOf(a, tail, sep);
  }
}
