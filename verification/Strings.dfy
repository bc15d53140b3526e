/** The string operations the templates call: `Array.prototype.join`,
    `split('\n')[0]`, `includes('\n')` and `replace(/https?:\/\//, '')`. */
module Strings {

  /** `xs.join(sep)`. */
  function Join(xs: seq<string>, sep: string): string {
    if |xs| == 0 then ""
    else if |xs| == 1 then xs[0]
    else xs[0] + sep + Join(xs[1..], sep)
  }

  /** Joining two non-empty lists puts exactly one separator between the two joins:
      `join` keeps the order of its elements and adds nothing at either end. */
  lemma {:induction false} JoinAppend(a: seq<string>, b: seq<string>, sep: string)
    requires |a| > 0 && |b| > 0
    ensures Join(a + b, sep) == Join(a, sep) + sep + Join(b, sep)
  {
    if |a| == 1 {
      assert (a + b)[1..] == b;
    } else {
      assert (a + b)[1..] == a[1..] + b;
      JoinAppend(a[1..], b, sep);
    }
  }

  /** The length of a join: every element once, plus one separator between neighbours. */
  lemma {:induction false} JoinLength(xs: seq<string>, sep: string)
    requires |xs| > 0
    ensures |Join(xs, sep)| == TotalLength(xs) + (|xs| - 1) * |sep|
  {
    if |xs| > 1 {
      JoinLength(xs[1..], sep);
    }
  }

  /** The sum of the lengths of the strings in `xs`. */
  function TotalLength(xs: seq<string>): nat {
    if |xs| == 0 then 0 else |xs[0]| + TotalLength(xs[1..])
  }

  /** `s.split('\n')[0]`: the text before the first line break, or all of `s`. */
  function FirstLine(s: string): (line: string)
    ensures line <= s
    ensures '\n' !in line
    ensures |line| < |s| <==> '\n' in s
    ensures |line| < |s| ==> s[|line|] == '\n'
  {
    if |s| == 0 then ""
    else if s[0] == '\n' then ""
    else [s[0]] + FirstLine(s[1..])
  }

  /** `s` begins with `p`. */
  predicate StartsWith(s: string, p: string) {
    |p| <= |s| && s[..|p|] == p
  }

  /** The length of the match of `/https?:\/\//` that starts at index `i`, or 0 when none does. */
  function ProtocolAt(s: string, i: nat): nat
    requires i <= |s|
  {
    if StartsWith(s[i..], "https://") then 8
    else if StartsWith(s[i..], "http://") then 7
    else 0
  }

  /** `s.replace(/https?:\/\//, '')`: the regular expression is neither anchored
      nor global, so the leftmost occurrence of `http://` or `https://` is removed,
      wherever it stands, and every later one is kept. */
  function StripProtocol(s: string): string
    decreases |s|
  {
    if StartsWith(s, "https://") then s[8..]
    else if StartsWith(s, "http://") then s[7..]
    else if |s| == 0 then ""
    else [s[0]] + StripProtocol(s[1..])
  }

  /** When the leftmost match starts at `i`, exactly those characters are removed. */
  lemma {:induction false} StripProtocolAt(s: string, i: nat)
    requires i <= |s| && ProtocolAt(s, i) > 0
    requires forall j :: 0 <= j < i ==> ProtocolAt(s, j) == 0
    ensures StripProtocol(s) == s[..i] + s[i + ProtocolAt(s, i)..]
  {
    if i == 0 {
      assert s[0..] == s;
    } else {
      assert ProtocolAt(s, 0) == 0;
      assert s[0..] == s;
      forall j | 0 <= j < i - 1
        ensures ProtocolAt(s[1..], j) == 0
      {
        assert s[1..][j..] == s[j + 1..];
        assert ProtocolAt(s, j + 1) == 0;
      }
      assert s[1..][i - 1..] == s[i..];
      StripProtocolAt(s[1..], i - 1);
      assert s[..i] == [s[0]] + s[1..][..i - 1];
      assert s[1..][i - 1 + ProtocolAt(s, i)..] == s[i + ProtocolAt(s, i)..];
    }
  }

  /** A string with no `http://` or `https://` anywhere comes back unchanged. */
  lemma {:induction false} StripProtocolNone(s: string)
    requires forall j :: 0 <= j <= |s| ==> ProtocolAt(s, j) == 0
    ensures StripProtocol(s) == s
  {
    assert s[0..] == s;
    assert ProtocolAt(s, 0) == 0;
    if |s| > 0 {
      forall j | 0 <= j <= |s| - 1
        ensures ProtocolAt(s[1..], j) == 0
      {
        assert s[1..][j..] == s[j + 1..];
        assert ProtocolAt(s, j + 1) == 0;
      }
      StripProtocolNone(s[1..]);
    }
  }

  /** The usual case: a URL that begins with its scheme loses exactly that prefix. */
  lemma StripProtocolPrefix(s: string)
    ensures StartsWith(s, "https://") ==> StripProtocol(s) == s[8..]
    ensures StartsWith(s, "http://") && !StartsWith(s, "https://") ==> StripProtocol(s) == s[7..]
  {
  }
}
