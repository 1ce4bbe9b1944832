/**
 * String.prototype.trim, which the form applies to the user id, name, age
 * and email before checking them, and two searches for a character (its
 * first and its last occurrence) that the model's email decision uses to
 * take an address apart.
 */
module JsStrings {
  import opened Wrappers
  import opened CharClasses

  /** The number of whitespace characters at the start of `s`. */
  function LeadingWhitespace(s: string): (n: nat)
    ensures n <= |s|
    ensures forall k :: 0 <= k < n ==> IsJsWhitespace(s[k])
    ensures n < |s| ==> !IsJsWhitespace(s[n])
  {
    if s == [] || !IsJsWhitespace(s[0]) then 0
    else 1 + LeadingWhitespace(s[1..])
  }

  /** The number of whitespace characters at the end of `s`. */
  function TrailingWhitespace(s: string): (n: nat)
    ensures n <= |s|
    ensures forall k :: |s| - n <= k < |s| ==> IsJsWhitespace(s[k])
    ensures n < |s| ==> !IsJsWhitespace(s[|s| - 1 - n])
  {
    if s == [] || !IsJsWhitespace(s[|s| - 1]) then 0
    else 1 + TrailingWhitespace(s[..|s| - 1])
  }

  /** String.prototype.trim: `s` without its leading and trailing whitespace. */
  function Trim(s: string): string {
    var a := LeadingWhitespace(s);
    if a == |s| then [] else s[a..|s| - TrailingWhitespace(s)]
  }

  /**
   * The result of Trim is the one slice of `s` that neither starts nor
   * ends with whitespace and has only whitespace around it.
   */
  lemma TrimCharacterized(s: string)
    ensures var r := Trim(s);
      (r == [] || (!IsJsWhitespace(r[0]) && !IsJsWhitespace(r[|r| - 1])))
      && exists i :: TrimmedAt(s, i, r)
  {
    var a := LeadingWhitespace(s);
    if a == |s| {
      assert TrimmedAt(s, 0, []);
    } else {
      var b := |s| - TrailingWhitespace(s);
      assert TrimmedAt(s, a, s[a..b]);
    }
  }

  /** `r` sits at index `i` of `s` and everything else in `s` is whitespace. */
  predicate TrimmedAt(s: string, i: int, r: string) {
    0 <= i && i + |r| <= |s| && s[i..i + |r|] == r
    && (forall k :: 0 <= k < i ==> IsJsWhitespace(s[k]))
    && (forall k :: i + |r| <= k < |s| ==> IsJsWhitespace(s[k]))
  }

  /** Trimming twice is trimming once. */
  lemma TrimIdempotent(s: string)
    ensures Trim(Trim(s)) == Trim(s)
  {
    var r := Trim(s);
    TrimCharacterized(s);
    if r != [] {
      assert LeadingWhitespace(r) == 0;
      assert TrailingWhitespace(r) == 0;
      assert r[0..|r|] == r;
    }
  }

  /** A string that neither starts nor ends with whitespace is left alone by Trim. */
  lemma TrimOfTrimmed(s: string)
    requires s == [] || (!IsJsWhitespace(s[0]) && !IsJsWhitespace(s[|s| - 1]))
    ensures Trim(s) == s
  {
    if s != [] {
      assert LeadingWhitespace(s) == 0;
      assert TrailingWhitespace(s) == 0;
      assert s[0..|s|] == s;
    }
  }

  /** Nothing but whitespace. */
  predicate AllWhitespace(s: string) {
    forall k :: 0 <= k < |s| ==> IsJsWhitespace(s[k])
  }

  /** Any whitespace added around any string leaves its trimmed value unchanged. */
  lemma TrimIgnoresPadding(pre: string, s: string, post: string)
    requires AllWhitespace(pre) && AllWhitespace(post)
    ensures Trim(pre + s + post) == Trim(s)
  {
    var r := Trim(s);
    TrimCharacterized(s);
    var i :| TrimmedAt(s, i, r);
    var front, back := TrimmedAtSplit(pre, s, post, i, r);
    if r == [] {
      TrimOfBlank(front + r + back);
    } else {
      TrimDropsPadding(front, r, back);
    }
  }

  /** Padding `s` where `r` sits trimmed in it gives `r` with whitespace around it. */
  lemma TrimmedAtSplit(pre: string, s: string, post: string, i: int, r: string)
    returns (front: string, back: string)
    requires AllWhitespace(pre) && AllWhitespace(post) && TrimmedAt(s, i, r)
    ensures AllWhitespace(front) && AllWhitespace(back)
    ensures pre + s + post == front + r + back
  {
    front := pre + s[..i];
    back := s[i + |r|..] + post;
    assert s == s[..i] + r + s[i + |r|..];
    assert forall k :: |pre| <= k < |front| ==> front[k] == s[k - |pre|];
    assert forall k :: 0 <= k < |s| - i - |r| ==> back[k] == s[i + |r| + k];
  }

  /** A string of nothing but whitespace trims to the empty string. */
  lemma TrimOfBlank(s: string)
    requires AllWhitespace(s)
    ensures Trim(s) == []
  {
    assert LeadingWhitespace(s) == |s|;
  }

  /** Whitespace around a string is removed by Trim. */
  lemma {:induction false} TrimDropsPadding(pre: string, s: string, post: string)
    requires forall k :: 0 <= k < |pre| ==> IsJsWhitespace(pre[k])
    requires forall k :: 0 <= k < |post| ==> IsJsWhitespace(post[k])
    requires s != [] && !IsJsWhitespace(s[0]) && !IsJsWhitespace(s[|s| - 1])
    ensures Trim(pre + s + post) == s
  {
    var t := pre + s + post;
    LeadingOfPadded(pre, s + post);
    assert t == pre + (s + post);
    TrailingOfPadded(pre + s, post);
    assert t[|pre|..|pre| + |s|] == s;
  }

  lemma {:induction false} LeadingOfPadded(pre: string, rest: string)
    requires forall k :: 0 <= k < |pre| ==> IsJsWhitespace(pre[k])
    requires rest != [] && !IsJsWhitespace(rest[0])
    ensures LeadingWhitespace(pre + rest) == |pre|
  {
    var n := LeadingWhitespace(pre + rest);
    assert (pre + rest)[|pre|] == rest[0];
    assert forall k :: 0 <= k < |pre| ==> (pre + rest)[k] == pre[k];
  }

  lemma {:induction false} TrailingOfPadded(front: string, post: string)
    requires forall k :: 0 <= k < |post| ==> IsJsWhitespace(post[k])
    requires front != [] && !IsJsWhitespace(front[|front| - 1])
    ensures TrailingWhitespace(front + post) == |post|
  {
    var t := front + post;
    var n := TrailingWhitespace(t);
    assert t[|front| - 1] == front[|front| - 1];
    assert forall k :: |front| <= k < |t| ==> t[k] == post[k - |front|];
  }

  /** The first index of `c` in `s`, None when it does not occur. */
  function IndexOf(s: string, c: char): (r: Option<nat>)
    ensures r.None? <==> c !in s
    ensures r.Some? ==> r.value < |s| && s[r.value] == c
    ensures r.Some? ==> forall k :: 0 <= k < r.value ==> s[k] != c
  {
    if s == [] then None
    else if s[0] == c then Some(0)
    else
      match IndexOf(s[1..], c)
      case None => None
      case Some(i) => Some(i + 1)
  }

  /** The last index of `c` in `s`, None when it does not occur. */
  function LastIndexOf(s: string, c: char): (r: Option<nat>)
    ensures r.None? <==> c !in s
    ensures r.Some? ==> r.value < |s| && s[r.value] == c
    ensures r.Some? ==> forall k :: r.value < k < |s| ==> s[k] != c
  {
    if s == [] then None
    else if s[|s| - 1] == c then Some(|s| - 1)
    else
      var front := s[..|s| - 1];
      assert s == front + [s[|s| - 1]];
      LastIndexOf(front, c)
  }
}
