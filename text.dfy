/** Text helpers: `String.prototype.includes` and `Array.prototype.join`. */
module Text {

  /** p occurs in s starting at index i. */
  predicate OccursAt(s: string, p: string, i: int)
  {
    0 <= i <= |s| - |p| && s[i..i + |p|] == p
  }

  /** `s.includes(p)`. */
  predicate Contains(s: string, p: string)
  {
    exists i | 0 <= i <= |s| - |p| :: OccursAt(s, p, i)
  }

  /** A pattern whose first character never appears in s does not occur in s. */
  lemma AbsentHead(s: string, p: string)
    requires |p| > 0 && p[0] !in s
    ensures !Contains(s, p)
  {
    forall i | 0 <= i <= |s| - |p| ensures !OccursAt(s, p, i) {
      assert s[i] in s;
      assert s[i..i + |p|][0] == s[i];
    }
  }

  /** `toLowerCase` on the ASCII letters; other case mappings are not modelled. */
  function LowerChar(c: char): char
  {
    if 'A' <= c <= 'Z' then (c as int + 32) as char else c
  }

  function Lower(s: string): (r: string)
    ensures |r| == |s| && forall i :: 0 <= i < |s| ==> r[i] == LowerChar(s[i])
  {
    seq(|s|, i requires 0 <= i < |s| => LowerChar(s[i]))
  }

  /** No character of p is an ASCII letter. */
  predicate Caseless(p: string)
  {
    forall i :: 0 <= i < |p| ==> !('A' <= p[i] <= 'Z') && !('a' <= p[i] <= 'z')
  }

  /** Lower-casing the text cannot make or break a match of a caseless
      pattern, such as a Hangul keyword. */
  lemma LowerKeepsMatches(s: string, p: string)
    requires Caseless(p)
    ensures Contains(Lower(s), p) <==> Contains(s, p)
  {
    var l := Lower(s);
    forall i | 0 <= i <= |s| - |p| ensures OccursAt(l, p, i) <==> OccursAt(s, p, i) {
      if OccursAt(l, p, i) {
        forall j | 0 <= j < |p| ensures s[i + j] == p[j] {
          assert l[i..i + |p|][j] == l[i + j];
        }
        assert s[i..i + |p|] == p;
      }
      if OccursAt(s, p, i) {
        forall j | 0 <= j < |p| ensures l[i + j] == p[j] {
          assert s[i..i + |p|][j] == s[i + j];
        }
        assert l[i..i + |p|] == p;
      }
    }
  }

  /** `parts.join(sep)`. */
  function Join(parts: seq<string>, sep: string): (r: string)
    ensures parts == [] ==> r == ""
    ensures |parts| == 1 ==> r == parts[0]
  {
    if parts == [] then ""
    else if |parts| == 1 then parts[0]
    else parts[0] + sep + Join(parts[1..], sep)
  }
}
