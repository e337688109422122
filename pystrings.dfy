/**
 * The parts of Python's string and path semantics that the scorers rely on:
 * `needle in hay`, `str.endswith`, `str.rfind`, `pathlib.Path.name` and
 * `pathlib.Path.suffix`, and the decimal text of a non-negative `int`.
 */
module PyStrings {
  import opened Wrappers

  /** `needle` occurs in `hay` starting at index `i`. */
  predicate OccursAt(needle: string, hay: string, i: nat)
  {
    i + |needle| <= |hay| && hay[i..i + |needle|] == needle
  }

  /** Searches for `needle` at every index of `hay` from `from` on. */
  function ContainsFrom(hay: string, needle: string, from: nat): (b: bool)
    decreases |hay| - from
    ensures b <==> exists i :: from <= i && OccursAt(needle, hay, i)
  {
    if from + |needle| > |hay| then false
    else if hay[from..from + |needle|] == needle then assert OccursAt(needle, hay, from); true
    else ContainsFrom(hay, needle, from + 1)
  }

  /** Python's `needle in hay` on strings. */
  function Contains(hay: string, needle: string): (b: bool)
    ensures b <==> exists i :: OccursAt(needle, hay, i)
  {
    ContainsFrom(hay, needle, 0)
  }

  /** Python's `s.endswith(suffix)`. */
  predicate EndsWith(s: string, suffix: string)
  {
    |suffix| <= |s| && s[|s| - |suffix|..] == suffix
  }

  /** Python's `s.startswith(prefix)`. */
  predicate StartsWith(s: string, prefix: string)
  {
    |prefix| <= |s| && s[..|prefix|] == prefix
  }

  /** Python's `s.rfind(c)`: the last index holding `c`, or -1. */
  function RFind(s: string, c: char): (i: int)
    ensures -1 <= i < |s|
    ensures 0 <= i ==> s[i] == c
    ensures forall j :: i < j < |s| ==> s[j] != c
  {
    if |s| == 0 then -1
    else if s[|s| - 1] == c then |s| - 1
    else RFind(s[..|s| - 1], c)
  }

  /** `name` is a tail of `p` that is either all of `p` or starts right after a '/'. */
  predicate AfterLastSlash(p: string, name: string)
  {
    |name| <= |p| && (|name| == |p| || p[|p| - |name| - 1] == '/')
  }

  /** `Path(p).name`: the text after the last '/'. */
  function PathName(p: string): (name: string)
    ensures '/' !in name
    ensures EndsWith(p, name)
  {
    var i := RFind(p, '/');
    p[i + 1..]
  }

  /** `Path(p).name` is the whole text after the last '/': it starts right after a '/' or at the start. */
  lemma PathNameAfterLastSlash(p: string)
    ensures AfterLastSlash(p, PathName(p))
  {
  }

  /** `Path(p).suffix` of a name: from its last '.' on, unless that dot is first or last. */
  function NameSuffix(name: string): string
  {
    var i := RFind(name, '.');
    if 0 < i < |name| - 1 then name[i..] else ""
  }

  /** `Path(p).suffix`. */
  function PathSuffix(p: string): string
  {
    NameSuffix(PathName(p))
  }

  /** The last `c` of `s` lies before any tail of `s` that holds no `c`. */
  lemma RFindBeforeTail(s: string, k: nat, c: char)
    requires k <= |s|
    requires forall j :: k <= j < |s| ==> s[j] != c
    ensures RFind(s, c) < k
  {
  }

  /** A `c` with no `c` after it is the one `RFind` finds. */
  lemma RFindIsLast(s: string, k: nat, c: char)
    requires k < |s| && s[k] == c
    requires forall j :: k < j < |s| ==> s[j] != c
    ensures RFind(s, c) == k
  {
  }

  /** The characters of a string's tail are those of the suffix it equals. */
  lemma TailChars(s: string, sfx: string, k: nat)
    requires EndsWith(s, sfx)
    requires |s| - |sfx| <= k < |s|
    ensures s[k] == sfx[k - (|s| - |sfx|)]
  {
    assert s[|s| - |sfx|..][k - (|s| - |sfx|)] == s[k];
  }

  /** A slash-free suffix of a path is also a suffix of its file name. */
  lemma {:induction false} NameEndsWith(p: string, sfx: string)
    requires EndsWith(p, sfx) && '/' !in sfx
    ensures EndsWith(PathName(p), sfx)
  {
    var start := |p| - |sfx|;
    forall k | start <= k < |p| ensures p[k] != '/' {
      TailChars(p, sfx, k);
    }
    RFindBeforeTail(p, start, '/');
    var name := PathName(p);
    assert name[|name| - |sfx|..] == p[start..];
  }

  /**
   * A suffix made of a dot and dot-free, slash-free text is the `Path.suffix`
   * of every path that ends with it, provided the file name is longer than the
   * suffix; when the file name is the suffix itself (a dot file such as
   * ".ttl"), `Path.suffix` is empty.
   */
  lemma {:induction false} SuffixOfEnding(p: string, sfx: string)
    requires 2 <= |sfx| && sfx[0] == '.' && '/' !in sfx
    requires forall k :: 0 < k < |sfx| ==> sfx[k] != '.'
    requires EndsWith(p, sfx)
    ensures EndsWith(PathName(p), sfx)
    ensures |PathName(p)| > |sfx| ==> PathSuffix(p) == sfx
    ensures |PathName(p)| == |sfx| ==> PathSuffix(p) == ""
  {
    NameEndsWith(p, sfx);
    var name := PathName(p);
    var d0 := |name| - |sfx|;
    TailChars(name, sfx, d0);
    forall k | d0 < k < |name| ensures name[k] != '.' {
      TailChars(name, sfx, k);
    }
    RFindIsLast(name, d0, '.');
  }

  function DigitChar(d: nat): char
    requires d < 10
  {
    ('0' as int + d) as char
  }

  function DigitValue(c: char): Option<nat>
  {
    if '0' <= c <= '9' then Some((c as int - '0' as int) as nat) else None
  }

  /** Python's `str(n)` for a non-negative integer. */
  function NatToString(n: nat): (s: string)
    ensures |s| >= 1
  {
    if n < 10 then [DigitChar(n)] else NatToString(n / 10) + [DigitChar(n % 10)]
  }

  /** Python's `int(s)` restricted to plain decimal digits. */
  function ParseNat(s: string): Option<nat>
  {
    if |s| == 0 then None
    else
      match DigitValue(s[|s| - 1])
      case None => None
      case Some(d) =>
        if |s| == 1 then Some(d)
        else
          match ParseNat(s[..|s| - 1])
          case None => None
          case Some(m) => Some(10 * m + d)
  }

  lemma DigitRoundTrip(d: nat)
    requires d < 10
    ensures DigitValue(DigitChar(d)) == Some(d)
  {
  }

  /** Reading back the decimal text of a number gives the number. */
  lemma {:induction false} ParseNatToString(n: nat)
    ensures ParseNat(NatToString(n)) == Some(n)
  {
    DigitRoundTrip(n % 10);
    if n >= 10 {
      ParseNatToString(n / 10);
      var s := NatToString(n);
      assert s[..|s| - 1] == NatToString(n / 10);
    }
  }
}
