/** Values shared by the server and the three page controllers: optional
    values (SQL NULL, a missing JSON key, JavaScript null/undefined),
    JavaScript truthiness of strings, ASCII case folding, substring search,
    and the list operations the controllers use (filter, flat). */
module Values {

  datatype Option<T> = None | Some(value: T)

  /** A string-valued JSON field is truthy when it is present and not ''. */
  predicate Truthy(v: Option<string>) {
    v.Some? && v.value != ""
  }

  /** JavaScript `v || fallback` for an optional string. */
  function Or(v: Option<string>, fallback: string): string {
    if Truthy(v) then v.value else fallback
  }

  /** An optional string interpolated into a URL: null becomes the text
      "null". */
  function QueryText(v: Option<string>): (t: string)
    ensures v.Some? ==> t == v.value
    ensures v.None? ==> t == "null"
  {
    if v.Some? then v.value else "null"
  }

  /** SQL `a = b` in a WHERE clause: a comparison with NULL never holds. */
  predicate SqlEq<T(==)>(a: Option<T>, b: Option<T>) {
    a.Some? && b.Some? && a.value == b.value
  }

  // ---------------------------------------------------------------------------
  // Case folding and substring search (String.prototype.toLowerCase/includes)
  // ---------------------------------------------------------------------------

  /** ASCII lower-casing of one character; other characters are kept. */
  function LowerChar(c: char): (d: char)
    ensures 'A' <= c <= 'Z' ==> 'a' <= d <= 'z' && d as int - c as int == 32
    ensures !('A' <= c <= 'Z') ==> d == c
  {
    if 'A' <= c <= 'Z' then (c as int + 32) as char else c
  }

  function Lower(s: string): (r: string)
    ensures |r| == |s|
    ensures forall i :: 0 <= i < |s| ==> r[i] == LowerChar(s[i])
  {
    if s == [] then [] else [LowerChar(s[0])] + Lower(s[1..])
  }

  /** Lower-casing a string that is already lower case changes nothing, so
      the search term folded once matches as if folded again. */
  lemma {:induction false} LowerIdempotent(s: string)
    ensures Lower(Lower(s)) == Lower(s)
  {
    var l := Lower(s);
    assert |Lower(l)| == |l|;
    forall i | 0 <= i < |l| ensures Lower(l)[i] == l[i] {
      assert l[i] == LowerChar(s[i]);
    }
  }

  /** `t` occurs in `s` at position `k`. */
  predicate OccursAt(s: string, t: string, k: int) {
    0 <= k && k + |t| <= |s| && s[k..k + |t|] == t
  }

  /** JavaScript `s.includes(t)`. */
  function Includes(s: string, t: string): (r: bool)
    ensures r <==> exists k :: OccursAt(s, t, k)
    decreases |s|
  {
    if |t| > |s| then
      assert forall k :: !OccursAt(s, t, k);
      false
    else if s[..|t|] == t then
      assert OccursAt(s, t, 0);
      true
    else
      var rest := Includes(s[1..], t);
      ShiftOccurrence(s, t);
      rest
  }

  /** An occurrence in `s[1..]` at k is an occurrence in `s` at k + 1, and
      every occurrence in `s` other than at 0 arises so. */
  lemma ShiftOccurrence(s: string, t: string)
    requires |s| > 0
    ensures (exists k :: OccursAt(s[1..], t, k)) <==> (exists k :: k != 0 && OccursAt(s, t, k))
  {
    if k :| OccursAt(s[1..], t, k) {
      assert s[1..][k..k + |t|] == s[k + 1..k + 1 + |t|];
      assert OccursAt(s, t, k + 1);
    }
    if k :| k != 0 && OccursAt(s, t, k) {
      assert s[1..][k - 1..k - 1 + |t|] == s[k..k + |t|];
      assert OccursAt(s[1..], t, k - 1);
    }
  }

  /** Every string includes the empty string. */
  lemma IncludesEmpty(s: string)
    ensures Includes(s, "")
  {
    assert OccursAt(s, "", 0);
  }

  // ---------------------------------------------------------------------------
  // Array.prototype.filter and a WHERE clause over a table
  // ---------------------------------------------------------------------------

  /** `a` can be obtained from `b` by deleting elements (order is kept). */
  predicate IsSubsequence<T(==)>(a: seq<T>, b: seq<T>)
    decreases |b|
  {
    a == [] ||
    (b != [] &&
     ((a[0] == b[0] && IsSubsequence(a[1..], b[1..])) || IsSubsequence(a, b[1..])))
  }

  /** The elements of `rows` that satisfy `p`, in their original order. */
  function Select<T(==,!new)>(rows: seq<T>, p: T -> bool): (r: seq<T>)
    ensures |r| <= |rows|
    ensures forall x :: x in r <==> x in rows && p(x)
    ensures IsSubsequence(r, rows)
  {
    if rows == [] then []
    else if p(rows[0]) then [rows[0]] + Select(rows[1..], p)
    else Select(rows[1..], p)
  }

  /** Selecting with a predicate every row satisfies gives back all rows. */
  lemma {:induction false} SelectAll<T(!new)>(rows: seq<T>, p: T -> bool)
    requires forall x :: x in rows ==> p(x)
    ensures Select(rows, p) == rows
  {
    if rows != [] {
      assert rows == [rows[0]] + rows[1..];
      SelectAll(rows[1..], p);
    }
  }

  /** A row appended to a table is selected after all earlier rows iff it
      satisfies the condition: a query result grows by at most that row. */
  lemma {:induction false} SelectAppend<T(!new)>(rows: seq<T>, x: T, p: T -> bool)
    ensures Select(rows + [x], p) == Select(rows, p) + (if p(x) then [x] else [])
  {
    if rows == [] {
      assert rows + [x] == [x];
    } else {
      assert (rows + [x])[1..] == rows[1..] + [x];
      SelectAppend(rows[1..], x, p);
    }
  }

  /** The first element of `rows` that satisfies `p` (what `fetchone()`
      returns for a query that scans a table in row order). */
  function First<T(!new)>(rows: seq<T>, p: T -> bool): (r: Option<T>)
    ensures r.None? <==> forall i :: 0 <= i < |rows| ==> !p(rows[i])
    ensures r.Some? ==> exists i :: 0 <= i < |rows| && rows[i] == r.value && p(rows[i]) &&
                                    forall j :: 0 <= j < i ==> !p(rows[j])
  {
    if rows == [] then None
    else if p(rows[0]) then Some(rows[0])
    else
      var r := First(rows[1..], p);
      assert forall i :: 1 <= i < |rows| ==> rows[i] == rows[1..][i - 1];
      r
  }

  /** `fetchone()` is the head of the full result set. */
  lemma {:induction false} FirstIsHeadOfSelect<T(!new)>(rows: seq<T>, p: T -> bool)
    ensures First(rows, p) == if Select(rows, p) == [] then None else Some(Select(rows, p)[0])
  {
    if rows != [] && !p(rows[0]) {
      FirstIsHeadOfSelect(rows[1..], p);
    }
  }

  // ---------------------------------------------------------------------------
  // Array.prototype.flat on a list of lists
  // ---------------------------------------------------------------------------

  function Flatten<T>(xss: seq<seq<T>>): seq<T> {
    if xss == [] then [] else xss[0] + Flatten(xss[1..])
  }

  function TotalLength<T>(xss: seq<seq<T>>): nat {
    if xss == [] then 0 else |xss[0]| + TotalLength(xss[1..])
  }

  /** The concatenation holds as many elements as all the lists together. */
  lemma {:induction false} FlattenLength<T>(xss: seq<seq<T>>)
    ensures |Flatten(xss)| == TotalLength(xss)
  {
    if xss != [] {
      FlattenLength(xss[1..]);
    }
  }

  /** The concatenation is empty exactly when every list is empty. */
  lemma {:induction false} FlattenEmpty<T>(xss: seq<seq<T>>)
    ensures Flatten(xss) == [] <==> forall i :: 0 <= i < |xss| ==> xss[i] == []
  {
    if xss != [] {
      FlattenEmpty(xss[1..]);
      assert forall i :: 1 <= i < |xss| ==> xss[i] == xss[1..][i - 1];
    }
  }

  /** Elements of the concatenation are exactly the elements of the lists. */
  lemma {:induction false} FlattenMembers<T>(xss: seq<seq<T>>, x: T)
    ensures x in Flatten(xss) <==> exists i :: 0 <= i < |xss| && x in xss[i]
  {
    if xss != [] {
      FlattenMembers(xss[1..], x);
      if x in Flatten(xss[1..]) {
        var i :| 0 <= i < |xss[1..]| && x in xss[1..][i];
        assert x in xss[i + 1];
      }
      if i :| 0 <= i < |xss| && x in xss[i] {
        if i > 0 {
          assert x in xss[1..][i - 1];
        }
      }
    }
  }
}
