/** Text helpers shared by the request handler and the tool dispatcher:
    substring search (`String.prototype.includes`), concatenation of a token
    stream, and `Array.prototype.join` / `String.prototype.split` on one
    separator character. A JavaScript string is modelled as `seq<char>`, a
    sequence of Unicode scalar values; a surrogate pair is one `char`. The
    texts searched for here (the sentinel, `}`, a line break) are single
    UTF-16 code units, so a search finds them where JavaScript does. */
module Strings {

  /** `p` occurs in `s` starting at index `i`. */
  predicate OccursAt(s: string, p: string, i: int) {
    0 <= i && i + |p| <= |s| && s[i..i + |p|] == p
  }

  /** `s.includes(p)` */
  predicate Contains(s: string, p: string) {
    exists i | 0 <= i <= |s| - |p| :: OccursAt(s, p, i)
  }

  /** The in-order concatenation of a sequence of tokens. */
  function Concat(ts: seq<string>): string {
    if ts == [] then "" else Concat(ts[..|ts| - 1]) + ts[|ts| - 1]
  }

  lemma ConcatSnoc(ts: seq<string>, t: string)
    ensures Concat(ts + [t]) == Concat(ts) + t
  {
    assert (ts + [t])[..|ts|] == ts;
  }

  /** Every occurrence of a non-empty `p` in the concatenation of some
      tokens lies inside one token or straddles the boundary between two
      adjacent tokens: some proper prefix of the tokens ends strictly inside
      the occurrence. */
  lemma {:induction false} OccurrenceLocated(ts: seq<string>, p: string, i: int)
    requires |p| > 0
    requires OccursAt(Concat(ts), p, i)
    ensures || (exists j :: 0 <= j < |ts| && Contains(ts[j], p))
            || (exists k :: 0 < k < |ts| && i < |Concat(ts[..k])| < i + |p|)
  {
    var n := |ts|;
    if n > 0 {
      var front := ts[..n - 1];
      var s := Concat(ts);
      var b := |Concat(front)|;
      assert s == Concat(front) + ts[n - 1];
      if i >= b {
        assert s[b..] == ts[n - 1];
        assert ts[n - 1][i - b..i - b + |p|] == s[i..i + |p|];
        assert OccursAt(ts[n - 1], p, i - b);
      } else if i + |p| <= b {
        assert s[..b] == Concat(front);
        assert s[..b][i..i + |p|] == s[i..i + |p|];
        OccurrenceLocated(front, p, i);
        if exists j :: 0 <= j < |front| && Contains(front[j], p) {
          var j :| 0 <= j < |front| && Contains(front[j], p);
          assert ts[j] == front[j];
        } else {
          var k :| 0 < k < |front| && i < |Concat(front[..k])| < i + |p|;
          assert front[..k] == ts[..k];
        }
      } else {
        assert ts[..n - 1] == front;
      }
    }
  }

  /** If no token contains `p` on its own, every occurrence of `p` in the
      concatenation straddles a boundary between two adjacent tokens; in
      particular there are at least two tokens. */
  lemma OccurrenceStraddles(ts: seq<string>, p: string, i: int)
    requires |p| > 0
    requires forall j :: 0 <= j < |ts| ==> !Contains(ts[j], p)
    requires OccursAt(Concat(ts), p, i)
    ensures |ts| >= 2
    ensures exists k :: 0 < k < |ts| && i < |Concat(ts[..k])| < i + |p|
  {
    OccurrenceLocated(ts, p, i);
  }

  /** Index of the first occurrence of `c` in `s`. */
  function FirstIndex(s: string, c: char): (r: nat)
    requires c in s
    ensures r < |s| && s[r] == c && c !in s[..r]
  {
    if s[0] == c then 0 else 1 + FirstIndex(s[1..], c)
  }

  /** `ls.join(sep)` */
  function Join(ls: seq<string>, sep: string): string {
    if ls == [] then ""
    else if |ls| == 1 then ls[0]
    else ls[0] + sep + Join(ls[1..], sep)
  }

  /** `s.split(c)` for a one-character separator: the maximal pieces between
      occurrences of `c`; a string without `c` is one piece. */
  function Split(s: string, c: char): (r: seq<string>)
    decreases |s|
  {
    if c !in s then [s]
    else
      var i := FirstIndex(s, c);
      [s[..i]] + Split(s[i + 1..], c)
  }

  /** Joining non-empty list of lines that do not contain the separator and
      splitting the result on it gives the lines back. */
  lemma {:induction false} SplitJoin(ls: seq<string>, c: char)
    requires |ls| > 0
    requires forall j :: 0 <= j < |ls| ==> c !in ls[j]
    ensures Split(Join(ls, [c]), c) == ls
  {
    if |ls| == 1 {
      assert Join(ls, [c]) == ls[0];
    } else {
      var rest := Join(ls[1..], [c]);
      var s := ls[0] + [c] + rest;
      assert Join(ls, [c]) == s;
      assert s[|ls[0]|] == c;
      assert s[..|ls[0]|] == ls[0];
      assert FirstIndex(s, c) == |ls[0]|;
      assert s[|ls[0]| + 1..] == rest;
      SplitJoin(ls[1..], c);
    }
  }
}
