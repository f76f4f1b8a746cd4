/** String operations the upload handler relies on: JavaScript's
    `toLowerCase`, `includes`, `endsWith` and `Array.prototype.join`,
    written out over `seq<char>`. */
module Text {

  /** Lower-cases one character (the ASCII letters A-Z). */
  function LowerChar(c: char): (d: char)
    ensures 'A' <= c <= 'Z' ==> d as int == c as int + 32
    ensures !('A' <= c <= 'Z') ==> d == c
    ensures !('A' <= d <= 'Z')
  {
    if 'A' <= c <= 'Z' then (c as int + 32) as char else c
  }

  /** `s.toLowerCase()`: every character lower-cased, the length kept. */
  function ToLower(s: string): (r: string)
    ensures |r| == |s|
    ensures forall i :: 0 <= i < |s| ==> r[i] == LowerChar(s[i])
  {
    seq(|s|, i requires 0 <= i < |s| => LowerChar(s[i]))
  }

  /** A string with no upper-case ASCII letter. */
  predicate IsLower(s: string) {
    forall i :: 0 <= i < |s| ==> !('A' <= s[i] <= 'Z')
  }

  /** Lower-casing yields a lower-case string and leaves one unchanged:
      lower-casing twice is lower-casing once. */
  lemma ToLowerIdempotent(s: string)
    ensures IsLower(ToLower(s))
    ensures IsLower(s) ==> ToLower(s) == s
    ensures ToLower(ToLower(s)) == ToLower(s)
  {
    var t := ToLower(s);
    assert |ToLower(t)| == |t|;
    forall i | 0 <= i < |t| ensures ToLower(t)[i] == t[i] {
      assert !('A' <= t[i] <= 'Z');
    }
    if IsLower(s) {
      forall i | 0 <= i < |s| ensures t[i] == s[i] {
        assert !('A' <= s[i] <= 'Z');
      }
    }
  }

  /** `t` sits in `s` starting at position `k`. */
  predicate OccursAt(s: string, t: string, k: int) {
    0 <= k && k + |t| <= |s| && s[k..k + |t|] == t
  }

  /** `s.includes(t)`: `t` occurs in `s` as a contiguous piece. */
  predicate Contains(s: string, t: string) {
    exists k :: 0 <= k <= |s| - |t| && OccursAt(s, t, k)
  }

  /** Every character of a contained piece occurs in the whole; so a
      string lacking some character of `t` does not contain `t`. */
  lemma ContainedCharsOccur(s: string, t: string)
    requires Contains(s, t)
    ensures forall c :: c in t ==> c in s
  {
    var k :| 0 <= k <= |s| - |t| && OccursAt(s, t, k);
    forall c | c in t ensures c in s {
      var j :| 0 <= j < |t| && t[j] == c;
      assert s[k..k + |t|][j] == s[k + j];
    }
  }

  /** A string lacking a character of `t` does not contain `t`. */
  lemma LacksChar(s: string, t: string, c: char)
    requires c in t && c !in s
    ensures !Contains(s, t)
  {
    if Contains(s, t) {
      ContainedCharsOccur(s, t);
    }
  }

  /** `s.endsWith(t)`. */
  predicate EndsWith(s: string, t: string) {
    |t| <= |s| && s[|s| - |t|..] == t
  }

  /** `parts.join(sep)`. */
  function Join(parts: seq<string>, sep: string): (r: string)
    ensures parts == [] ==> r == []
    ensures |parts| == 1 ==> r == parts[0]
    ensures forall i :: 0 <= i < |parts| ==> Contains(r, parts[i])
  {
    if parts == [] then []
    else if |parts| == 1 then ContainsPrefix(parts[0], parts[0]); parts[0]
    else
      var rest := Join(parts[1..], sep);
      var r := parts[0] + sep + rest;
      ContainsPrefix(r, parts[0]);
      forall i | 1 <= i < |parts| ensures Contains(r, parts[i]) {
        assert parts[1..][i - 1] == parts[i];
        ContainsInSuffix(r, parts[0] + sep, rest, parts[i]);
      }
      r
  }

  /** A prefix is contained. */
  lemma ContainsPrefix(s: string, t: string)
    requires t <= s
    ensures Contains(s, t)
  {
    assert s[0..|t|] == t;
    assert OccursAt(s, t, 0);
  }

  /** What a suffix contains, the whole contains. */
  lemma ContainsInSuffix(s: string, a: string, b: string, t: string)
    requires s == a + b
    requires Contains(b, t)
    ensures Contains(s, t)
  {
    var k :| 0 <= k <= |b| - |t| && OccursAt(b, t, k);
    assert s[|a| + k..|a| + k + |t|] == b[k..k + |t|];
    assert OccursAt(s, t, |a| + k);
  }
}
