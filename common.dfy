/** Value-level helpers shared by every module: optional values, error-carrying
    results, and the few JavaScript array and string operations the assistant
    relies on (filter, reverse, includes, trim, join). */
module Common {

  /** A JavaScript value that may be `undefined` or `null` (None). */
  datatype Option<+T> = None | Some(value: T) {
    function GetOr(default: T): T {
      match this
      case Some(v) => v
      case None => default
    }
  }

  /** An operation that either yields a value or fails with an error message
      (a returned `{ success: false, error }` or a thrown `Error`). */
  datatype Result<+T> = Ok(value: T) | Err(error: string)

  /** JavaScript truthiness of an optional string: present and not empty. */
  predicate Truthy(s: Option<string>) {
    s.Some? && s.value != ""
  }

  /** A JSON field that should hold an array: absent (or null), some other
      value, or an array with these items. */
  datatype JsList<+T> = Absent | NotAList | Items(items: seq<T>) {
    /** The element at index 0, as JavaScript's `x[0]` reads it. */
    function First(): Option<T> {
      if Items? && |items| > 0 then Some(items[0]) else None
    }
  }

  /** `Array.prototype.filter`. */
  function Filter<T(!new)>(s: seq<T>, keep: T -> bool): (r: seq<T>)
    ensures |r| <= |s|
    ensures forall x :: x in r <==> x in s && keep(x)
  {
    if s == [] then [] else (if keep(s[0]) then [s[0]] else []) + Filter(s[1..], keep)
  }

  /** Filtering a concatenation filters each part and keeps their order. */
  lemma {:induction false} FilterAppend<T(!new)>(a: seq<T>, b: seq<T>, keep: T -> bool)
    ensures Filter(a + b, keep) == Filter(a, keep) + Filter(b, keep)
  {
    if a == [] {
      assert a + b == b;
    } else {
      assert (a + b)[1..] == a[1..] + b;
      FilterAppend(a[1..], b, keep);
    }
  }

  /** How many elements satisfy `p` (`filter(p).length`). */
  function Count<T>(s: seq<T>, p: T -> bool): (n: nat)
    ensures n <= |s|
  {
    if s == [] then 0 else (if p(s[0]) then 1 else 0) + Count(s[1..], p)
  }

  /** Counting a concatenation adds the counts of its parts. */
  lemma {:induction false} CountAppend<T>(a: seq<T>, b: seq<T>, p: T -> bool)
    ensures Count(a + b, p) == Count(a, p) + Count(b, p)
  {
    if a == [] {
      assert a + b == b;
    } else {
      assert (a + b)[1..] == a[1..] + b;
      CountAppend(a[1..], b, p);
    }
  }

  /** `Array.prototype.reverse`, as a value. */
  function Reverse<T(!new)>(s: seq<T>): (r: seq<T>)
    ensures |r| == |s|
    ensures forall i :: 0 <= i < |s| ==> r[i] == s[|s| - 1 - i]
    ensures forall x :: x in r <==> x in s
  {
    if s == [] then [] else Reverse(s[1..]) + [s[0]]
  }

  /** Appending one element puts it first in the reversal. */
  lemma ReverseAppend<T(!new)>(s: seq<T>, x: T)
    ensures Reverse(s + [x]) == [x] + Reverse(s)
  {
    var lhs, rhs := Reverse(s + [x]), [x] + Reverse(s);
    forall k | 0 <= k < |lhs| ensures lhs[k] == rhs[k] {
      if k > 0 {
        assert lhs[k] == (s + [x])[|s| - k];
      }
    }
  }

  /** `s[i..i+|sub|] == sub`, with the bounds folded in. */
  ghost predicate OccursAt(s: string, sub: string, i: int) {
    0 <= i && i + |sub| <= |s| && s[i..i + |sub|] == sub
  }

  /** `String.prototype.includes`: `sub` occurs somewhere in `s`. */
  function Includes(s: string, sub: string): (b: bool)
    ensures b <==> exists i :: OccursAt(s, sub, i)
    decreases |s|
  {
    if |sub| > |s| then
      assert forall i :: !OccursAt(s, sub, i);
      false
    else if s[..|sub|] == sub then
      assert OccursAt(s, sub, 0);
      true
    else
      var rest := Includes(s[1..], sub);
      IncludesShift(s, sub);
      rest
  }

  /** An occurrence in `s` that is not at 0 is an occurrence in `s[1..]`, and back. */
  lemma IncludesShift(s: string, sub: string)
    requires |sub| <= |s| && s[..|sub|] != sub
    ensures (exists i :: OccursAt(s, sub, i)) <==> (exists j :: OccursAt(s[1..], sub, j))
  {
    if i :| OccursAt(s, sub, i) {
      assert i != 0;
      assert s[1..][i - 1..i - 1 + |sub|] == s[i..i + |sub|];
      assert OccursAt(s[1..], sub, i - 1);
    }
    if j :| OccursAt(s[1..], sub, j) {
      assert s[1..][j..j + |sub|] == s[j + 1..j + 1 + |sub|];
      assert OccursAt(s, sub, j + 1);
    }
  }

  /** In a text assembled from five parts, the second and the fourth part
      occur. */
  lemma IncludesParts(a: string, b: string, c: string, d: string, e: string)
    ensures Includes(a + b + c + d + e, b) && Includes(a + b + c + d + e, d)
  {
    var s := a + b + c + d + e;
    assert s[|a|..|a| + |b|] == b;
    assert OccursAt(s, b, |a|);
    var k := |a| + |b| + |c|;
    assert s[k..k + |d|] == d;
    assert OccursAt(s, d, k);
  }

  /** An occurrence stays one when text is added around it. */
  lemma IncludesWithin(before: string, s: string, after: string, sub: string)
    requires Includes(s, sub)
    ensures Includes(before + s + after, sub)
  {
    var i :| OccursAt(s, sub, i);
    var t := before + s + after;
    assert t[|before| + i..|before| + i + |sub|] == s[i..i + |sub|];
    assert OccursAt(t, sub, |before| + i);
  }

  /** The characters `String.prototype.trim` removes that this model knows:
      space, tab, line feed, vertical tab, form feed, carriage return,
      no-break space and the byte-order mark. */
  predicate IsSpace(c: char) {
    c == ' ' || c == '\t' || c == '\n' || c == '\U{000B}' || c == '\U{000C}' || c == '\r'
    || c == '\U{00A0}' || c == '\U{FEFF}'
  }

  /** Every character of `s` is whitespace. */
  predicate AllSpace(s: string) {
    forall k :: 0 <= k < |s| ==> IsSpace(s[k])
  }

  /** `String.prototype.trimStart`. */
  function TrimStart(s: string): (r: string)
    ensures exists i :: 0 <= i <= |s| && r == s[i..] && AllSpace(s[..i])
    ensures r == [] || !IsSpace(r[0])
  {
    if s == [] || !IsSpace(s[0]) then
      assert s == s[0..] && s[..0] == [];
      s
    else
      var r := TrimStart(s[1..]);
      TrimStartStep(s, r);
      r
  }

  lemma TrimStartStep(s: string, r: string)
    requires s != [] && IsSpace(s[0])
    requires exists j :: 0 <= j <= |s[1..]| && r == s[1..][j..] && AllSpace(s[1..][..j])
    ensures exists i :: 0 <= i <= |s| && r == s[i..] && AllSpace(s[..i])
  {
    var j :| 0 <= j <= |s[1..]| && r == s[1..][j..] && AllSpace(s[1..][..j]);
    assert r == s[j + 1..];
    var front := s[..j + 1];
    assert AllSpace(front) by {
      forall k | 0 <= k < j + 1 ensures IsSpace(front[k]) {
        if k > 0 {
          assert front[k] == s[1..][..j][k - 1];
        }
      }
    }
    assert 0 <= j + 1 <= |s| && r == s[j + 1..] && AllSpace(s[..j + 1]);
  }

  /** `String.prototype.trimEnd`. */
  function TrimEnd(s: string): (r: string)
    ensures exists j :: 0 <= j <= |s| && r == s[..j] && AllSpace(s[j..])
    ensures r == [] || !IsSpace(r[|r| - 1])
  {
    if s == [] || !IsSpace(s[|s| - 1]) then
      assert s == s[..|s|] && s[|s|..] == [];
      s
    else
      var r := TrimEnd(s[..|s| - 1]);
      TrimEndStep(s, s[..|s| - 1], r);
      r
  }

  lemma TrimEndStep(s: string, init: string, r: string)
    requires s != [] && IsSpace(s[|s| - 1]) && init == s[..|s| - 1]
    requires exists j :: 0 <= j <= |init| && r == init[..j] && AllSpace(init[j..])
    ensures exists j :: 0 <= j <= |s| && r == s[..j] && AllSpace(s[j..])
  {
    var j :| 0 <= j <= |init| && r == init[..j] && AllSpace(init[j..]);
    assert r == s[..j];
    var back := s[j..];
    assert AllSpace(back) by {
      forall k | 0 <= k < |s| - j ensures IsSpace(back[k]) {
        if k < |init| - j {
          assert back[k] == init[j..][k];
        }
      }
    }
    assert 0 <= j <= |s| && r == s[..j] && AllSpace(s[j..]);
  }

  /** `String.prototype.trim`: a middle slice that neither starts nor ends
      with whitespace, everything cut away being whitespace. */
  function Trim(s: string): (r: string)
    ensures r == [] || (!IsSpace(r[0]) && !IsSpace(r[|r| - 1]))
    ensures exists i, j :: 0 <= i <= j <= |s| && r == s[i..j] && AllSpace(s[..i]) && AllSpace(s[j..])
  {
    var t := TrimStart(s);
    var r := TrimEnd(t);
    TrimSlices(s, t, r);
    r
  }

  lemma TrimSlices(s: string, t: string, r: string)
    requires exists i :: 0 <= i <= |s| && t == s[i..] && AllSpace(s[..i])
    requires t == [] || !IsSpace(t[0])
    requires exists j :: 0 <= j <= |t| && r == t[..j] && AllSpace(t[j..])
    requires r == [] || !IsSpace(r[|r| - 1])
    ensures r == [] || (!IsSpace(r[0]) && !IsSpace(r[|r| - 1]))
    ensures exists i, j :: 0 <= i <= j <= |s| && r == s[i..j] && AllSpace(s[..i]) && AllSpace(s[j..])
  {
    var i :| 0 <= i <= |s| && t == s[i..] && AllSpace(s[..i]);
    var j :| 0 <= j <= |t| && r == t[..j] && AllSpace(t[j..]);
    TrimSlicesAt(s, t, r, i, j);
  }

  lemma TrimSlicesAt(s: string, t: string, r: string, i: nat, j: nat)
    requires i <= |s| && t == s[i..] && AllSpace(s[..i])
    requires t == [] || !IsSpace(t[0])
    requires j <= |t| && r == t[..j] && AllSpace(t[j..])
    requires r == [] || !IsSpace(r[|r| - 1])
    ensures r == [] || (!IsSpace(r[0]) && !IsSpace(r[|r| - 1]))
    ensures 0 <= i <= i + j <= |s| && r == s[i..i + j] && AllSpace(s[..i]) && AllSpace(s[i + j..])
  {
    assert s[i + j..] == t[j..];
    assert r == s[i..i + j];
    if r != [] {
      assert r[0] == t[0];
    }
  }

  /** Trimming an already trimmed string changes nothing. */
  lemma {:induction false} TrimIdempotent(s: string)
    ensures Trim(Trim(s)) == Trim(s)
  {
    var r := Trim(s);
    if r != [] {
      assert !IsSpace(r[0]) && !IsSpace(r[|r| - 1]);
      assert TrimStart(r) == r;
      assert TrimEnd(r) == r;
    }
  }

  /** `Array.prototype.join(sep)`. */
  function Join(parts: seq<string>, sep: string): (r: string)
    ensures |parts| == 1 ==> r == parts[0]
  {
    if parts == [] then "" else if |parts| == 1 then parts[0] else parts[0] + sep + Join(parts[1..], sep)
  }

  /** One more part adds the separator and that part at the end. */
  lemma {:induction false} JoinAppend(parts: seq<string>, p: string, sep: string)
    requires |parts| > 0
    ensures Join(parts + [p], sep) == Join(parts, sep) + sep + p
    decreases |parts|
  {
    if |parts| > 1 {
      assert (parts + [p])[1..] == parts[1..] + [p];
      JoinAppend(parts[1..], p, sep);
    }
  }

  /** `String.prototype.split` with a one-character separator: the pieces
      between separators, none of which contains it, and which `join` puts
      back together. */
  function Split(s: string, sep: char): (parts: seq<string>)
    ensures |parts| >= 1
    ensures forall k :: 0 <= k < |parts| ==> sep !in parts[k]
    ensures Join(parts, [sep]) == s
    decreases |s|
  {
    if s == [] then [""]
    else
      var rest := Split(s[1..], sep);
      if s[0] == sep then
        var parts := [""] + rest;
        assert parts[1..] == rest;
        assert s == [sep] + s[1..];
        parts
      else
        var parts := [[s[0]] + rest[0]] + rest[1..];
        assert parts[1..] == rest[1..];
        assert s == [s[0]] + s[1..];
        assert |rest| > 1 ==> Join(rest, [sep]) == rest[0] + [sep] + Join(rest[1..], [sep]);
        assert forall k :: 1 <= k < |parts| ==> parts[k] == rest[k];
        parts
  }

  /** Splitting at the first separator: the part before it comes first. */
  lemma {:induction false} SplitAtFirst(t: string, u: string, sep: char)
    requires sep !in t
    ensures Split(t + [sep] + u, sep) == [t] + Split(u, sep)
    decreases |t|
  {
    var s := t + [sep] + u;
    if t == [] {
      assert s[1..] == u;
    } else {
      assert s[1..] == t[1..] + [sep] + u;
      SplitAtFirst(t[1..], u, sep);
      assert [t[0]] + t[1..] == t;
    }
  }

  /** A string without the separator splits into itself alone. */
  lemma {:induction false} SplitWithoutSeparator(u: string, sep: char)
    requires sep !in u
    ensures Split(u, sep) == [u]
    decreases |u|
  {
    if u != [] {
      SplitWithoutSeparator(u[1..], sep);
      assert [u[0]] + u[1..] == u;
    }
  }
}
