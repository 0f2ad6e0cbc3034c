/** The string primitives the components rely on: JavaScript's
    `String.prototype.startsWith` and `String.prototype.includes`, the
    decimal rendering of a non-negative integer in a template literal,
    and the `replace(/^v/, '')` clean-up of a release tag. */
module Strings {

  /** `s.startsWith(prefix)` */
  predicate StartsWith(s: string, prefix: string) {
    |prefix| <= |s| && s[..|prefix|] == prefix
  }

  lemma PrefixChar(s: string, p: string, k: nat)
    requires StartsWith(s, p) && k < |p|
    ensures s[k] == p[k]
  {
    assert s[k] == s[..|p|][k];
  }

  /** One differing character rules a prefix out. */
  lemma NotPrefixByChar(s: string, p: string, k: nat)
    requires k < |p| && k < |s| && s[k] != p[k]
    ensures !StartsWith(s, p)
  {
    if StartsWith(s, p) {
      PrefixChar(s, p, k);
    }
  }

  /** `s.includes(p)`, as a left-to-right scan for a position where `p` starts */
  predicate Includes(s: string, p: string)
    decreases |s|
  {
    StartsWith(s, p) || (|s| > 0 && Includes(s[1..], p))
  }

  /** The reference meaning of a substring: `p` sits in `s` at offset `i` */
  predicate OccursAt(s: string, p: string, i: nat) {
    i + |p| <= |s| && s[i..i + |p|] == p
  }

  lemma {:induction false} OccursAtIncludes(s: string, p: string, i: nat)
    requires OccursAt(s, p, i)
    ensures Includes(s, p)
    decreases i
  {
    if i == 0 {
      assert s[..|p|] == s[0..|p|];
    } else {
      assert s[1..][i - 1..i - 1 + |p|] == s[i..i + |p|];
      OccursAtIncludes(s[1..], p, i - 1);
    }
  }

  lemma {:induction false} IncludesOccursAt(s: string, p: string) returns (i: nat)
    requires Includes(s, p)
    ensures OccursAt(s, p, i)
    decreases |s|
  {
    if StartsWith(s, p) {
      i := 0;
      assert s[0..|p|] == s[..|p|];
    } else {
      var j := IncludesOccursAt(s[1..], p);
      assert s[1..][j..j + |p|] == s[j + 1..j + 1 + |p|];
      i := j + 1;
    }
  }

  /** The scan agrees with the reference meaning, in both directions. */
  lemma IncludesIff(s: string, p: string)
    ensures Includes(s, p) <==> exists i: nat :: OccursAt(s, p, i)
  {
    if Includes(s, p) {
      var i := IncludesOccursAt(s, p);
    }
    if exists i: nat :: OccursAt(s, p, i) {
      var i: nat :| OccursAt(s, p, i);
      OccursAtIncludes(s, p, i);
    }
  }

  /** A non-empty pattern can only be found where its first character is. */
  lemma IncludesFirstChar(s: string, p: string)
    requires Includes(s, p) && |p| > 0
    ensures p[0] in s
  {
    var i := IncludesOccursAt(s, p);
    assert s[i] == s[i..i + |p|][0];
  }

  /** A pattern longer than the string is never found. */
  lemma IncludesLength(s: string, p: string)
    requires Includes(s, p)
    ensures |p| <= |s|
  {
    var i := IncludesOccursAt(s, p);
  }

  /** Whatever contains `q` contains every prefix of `q`. */
  lemma IncludesPrefix(s: string, q: string, p: string)
    requires Includes(s, q) && StartsWith(q, p)
    ensures Includes(s, p)
  {
    var i := IncludesOccursAt(s, q);
    assert s[i..i + |p|] == s[i..i + |q|][..|p|];
    OccursAtIncludes(s, p, i);
  }

  /** A string that starts with `p` includes it. */
  lemma StartsWithIncludes(s: string, p: string)
    requires StartsWith(s, p)
    ensures Includes(s, p)
  {
  }

  // Decimal rendering of an array index, as `${index}` produces it.

  function DigitChar(d: nat): (c: char)
    requires d < 10
    ensures '0' <= c <= '9'
  {
    ('0' as int + d) as char
  }

  function DigitValue(c: char): nat {
    if '0' <= c <= '9' then c as int - '0' as int else 0
  }

  /** `String(n)` for a non-negative integer: digits, most significant first, no leading zero */
  function NatToString(n: nat): (s: string)
    ensures |s| > 0
    ensures forall k :: 0 <= k < |s| ==> '0' <= s[k] <= '9'
    decreases n
  {
    if n < 10 then [DigitChar(n)] else NatToString(n / 10) + [DigitChar(n % 10)]
  }

  /** Reads back a string of decimal digits. */
  function ParseNat(s: string): nat
    decreases |s|
  {
    if s == [] then 0 else ParseNat(s[..|s| - 1]) * 10 + DigitValue(s[|s| - 1])
  }

  lemma {:induction false} ParseNatToString(n: nat)
    ensures ParseNat(NatToString(n)) == n
    decreases n
  {
    if n < 10 {
      assert NatToString(n)[..0] == [];
    } else {
      var s := NatToString(n);
      assert s[..|s| - 1] == NatToString(n / 10);
      ParseNatToString(n / 10);
    }
  }

  /** Distinct indices render as distinct strings. */
  lemma NatToStringInjective(m: nat, n: nat)
    ensures NatToString(m) == NatToString(n) ==> m == n
  {
    ParseNatToString(m);
    ParseNatToString(n);
  }

  /** `tag.replace(/^v/, '')`: drops one leading `v`, if there is one. */
  function StripLeadingV(tag: string): (r: string)
    ensures StartsWith(tag, "v") ==> "v" + r == tag
    ensures !StartsWith(tag, "v") ==> r == tag
  {
    if |tag| > 0 && tag[0] == 'v' then tag[1..] else tag
  }

  /** Prefixing a `v` is undone by the clean-up, and only one `v` is ever removed. */
  lemma StripLeadingVInverse(t: string)
    ensures StripLeadingV("v" + t) == t
    ensures StartsWith(t, "v") ==> StartsWith(StripLeadingV("v" + t), "v")
  {
    assert ("v" + t)[1..] == t;
  }
}
