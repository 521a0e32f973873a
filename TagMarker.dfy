/** The release-tag helper: cleans the output of `git describe --tags`
    down to a dotted version number and substitutes it for the version
    placeholder in a file's content. */
module TagMarker {
  import opened Runtime

  const Placeholder := "!!{PLACEHOLDER}!!"

  /** Python's `str.replace(pat, rep)`: every occurrence of `pat`, scanning
      left to right and never overlapping; an empty `pat` matches before
      each character and at the end. */
  function Replace(s: string, pat: string, rep: string): (r: string)
    ensures |pat| > 0 && |rep| == |pat| ==> |r| == |s|
    decreases |s|
  {
    if |pat| == 0 then
      if |s| == 0 then rep else rep + [s[0]] + Replace(s[1..], pat, rep)
    else if |s| < |pat| then s
    else if s[..|pat|] == pat then rep + Replace(s[|pat|..], pat, rep)
    else [s[0]] + Replace(s[1..], pat, rep)
  }

  /** Python's `str.find` for a one-character needle: the first index
      holding `c`, or -1 when there is none. */
  function Find(s: string, c: char): (i: int)
    ensures -1 <= i < |s|
    ensures i == -1 <==> c !in s
    ensures 0 <= i ==> s[i] == c && c !in s[..i]
  {
    if |s| == 0 then -1
    else if s[0] == c then 0
    else
      var k := Find(s[1..], c);
      if k == -1 then -1 else (assert s[..k + 1] == [s[0]] + s[1..][..k]; k + 1)
  }

  /** `s` with every `c` filtered out, the other characters kept in order:
      none is left, and every other character keeps its count. */
  function Without(s: string, c: char): (r: string)
    ensures c !in r
    ensures forall x :: x in r ==> x in s
    ensures forall x :: x != c ==> multiset(r)[x] == multiset(s)[x]
    ensures |r| <= |s|
  {
    if |s| == 0 then []
    else
      var rest := Without(s[1..], c);
      assert s == [s[0]] + s[1..];
      if s[0] == c then rest else [s[0]] + rest
  }

  /** Deleting one character everywhere with `replace(c, "")` is exactly
      the order-keeping filter. */
  lemma {:induction false} DeleteCharIsFilter(s: string, c: char)
    ensures Replace(s, [c], "") == Without(s, c)
  {
    if |s| > 0 {
      DeleteCharIsFilter(s[1..], c);
    }
  }

  /** Replacing a pattern that does not occur changes nothing. */
  lemma {:induction false} ReplaceAbsent(s: string, pat: string, rep: string)
    requires |pat| > 0
    requires !Contains(s, pat)
    ensures Replace(s, pat, rep) == s
    decreases |s|
  {
    if |s| < |pat| {
    } else {
      assert !OccursAt(s, pat, 0);
      assert s[..|pat|] != pat;
      forall k | 0 <= k <= |s[1..]| - |pat|
        ensures !OccursAt(s[1..], pat, k)
      {
        assert s[1..][k..k + |pat|] == s[k + 1..k + 1 + |pat|];
        assert !OccursAt(s, pat, k + 1);
      }
      ReplaceAbsent(s[1..], pat, rep);
      assert s == [s[0]] + s[1..];
    }
  }

  /** An occurrence in the tail of a string is an occurrence one place
      further on in the string. */
  lemma OccursInTail(s: string, pat: string, k: nat)
    requires |s| > 0
    ensures OccursAt(s[1..], pat, k) <==> OccursAt(s, pat, k + 1)
  {
    if k + |pat| <= |s[1..]| {
      assert s[1..][k..k + |pat|] == s[k + 1..k + 1 + |pat|];
    }
  }

  /** A prefix in which the pattern starts nowhere is copied unchanged. */
  lemma {:induction false} ReplaceCopiesPrefix(pre: string, post: string, pat: string, rep: string)
    requires |pat| > 0
    requires forall k :: 0 <= k < |pre| ==> !OccursAt(pre + post, pat, k)
    ensures Replace(pre + post, pat, rep) == pre + Replace(post, pat, rep)
    decreases |pre|
  {
    if |pre| > 0 {
      var s := pre + post;
      assert s[1..] == pre[1..] + post;
      assert !OccursAt(s, pat, 0);
      forall k | 0 <= k < |pre[1..]|
        ensures !OccursAt(pre[1..] + post, pat, k)
      {
        OccursInTail(s, pat, k);
      }
      ReplaceCopiesPrefix(pre[1..], post, pat, rep);
      ReplaceStep(s, pat, rep);
      assert pre == [pre[0]] + pre[1..];
    } else {
      assert pre + post == post;
    }
  }

  /** Where the pattern does not start the string, its first character is copied. */
  lemma ReplaceStep(s: string, pat: string, rep: string)
    requires |pat| > 0 && |s| > 0 && !OccursAt(s, pat, 0)
    ensures Replace(s, pat, rep) == [s[0]] + Replace(s[1..], pat, rep)
  {
    if |pat| <= |s| {
      assert s[0..|pat|] == s[..|pat|];
    }
  }

  /** The first clean-up of `tags_marker.py`: drop every newline, then
      every letter `v`; every other character survives, in order. */
  function StripJunk(raw: string): (t: string)
    ensures t == Without(Without(raw, '\n'), 'v')
    ensures '\n' !in t && 'v' !in t
    ensures forall x :: x != '\n' && x != 'v' ==> multiset(t)[x] == multiset(raw)[x]
  {
    var once := Replace(raw, "\n", "");
    DeleteCharIsFilter(raw, '\n');
    DeleteCharIsFilter(once, 'v');
    Replace(once, "v", "")
  }

  /** The cleaned release tag of `tags_marker.py`: stripped, then cut
      before a first dash found at index 2 or later. */
  function CleanTag(raw: string): (tag: string)
    ensures '\n' !in tag && 'v' !in tag
    ensures Find(StripJunk(raw), '-') >= 2 ==>
      tag == StripJunk(raw)[..Find(StripJunk(raw), '-')] && '-' !in tag
    ensures Find(StripJunk(raw), '-') < 2 ==> tag == StripJunk(raw)
  {
    var t := StripJunk(raw);
    var dash := Find(t, '-');
    if dash > 1 then t[0..dash] else t
  }

  /** Cleaning a cleaned tag changes nothing. */
  lemma {:induction false} CleanTagIdempotent(raw: string)
    ensures CleanTag(CleanTag(raw)) == CleanTag(raw)
  {
    var tag := CleanTag(raw);
    forall k | 0 <= k <= |tag| - 1
      ensures !OccursAt(tag, "\n", k)
    {
      assert tag[k..k + 1] == [tag[k]];
    }
    ReplaceAbsent(tag, "\n", "");
    forall k | 0 <= k <= |tag| - 1
      ensures !OccursAt(tag, "v", k)
    {
      assert tag[k..k + 1] == [tag[k]];
    }
    ReplaceAbsent(tag, "v", "");
    assert StripJunk(tag) == tag;
  }

  /** The placeholder in a file's content replaced by the tag, as
      `tags_marker.py` does for both files it marks; content without the
      placeholder is written back unchanged. */
  function MarkVersion(content: string, tag: string): (r: string)
    ensures !Contains(content, Placeholder) ==> r == content
  {
    var marked := Replace(content, Placeholder, tag);
    if Contains(content, Placeholder) then marked
    else ReplaceAbsent(content, Placeholder, tag); marked
  }

  /** Content holding the placeholder exactly once becomes the text before
      it, the tag, and the text after it. */
  lemma {:induction false} MarkSinglePlaceholder(before: string, after: string, tag: string)
    requires forall k :: 0 <= k <= |before + Placeholder + after| - |Placeholder| && k != |before| ==>
      !OccursAt(before + Placeholder + after, Placeholder, k)
    ensures MarkVersion(before + Placeholder + after, tag) == before + tag + after
  {
    var post := Placeholder + after;
    assert before + Placeholder + after == before + post;
    ReplaceCopiesPrefix(before, post, Placeholder, tag);
    assert post[..|Placeholder|] == Placeholder;
    assert post[|Placeholder|..] == after;
    NoPlaceholderAfterSingle(before, after);
    ReplaceAbsent(after, Placeholder, tag);
  }

  /** With its only occurrence right after `before`, the placeholder does
      not occur in the text that follows it. */
  lemma NoPlaceholderAfterSingle(before: string, after: string)
    requires forall k :: 0 <= k <= |before + Placeholder + after| - |Placeholder| && k != |before| ==>
      !OccursAt(before + Placeholder + after, Placeholder, k)
    ensures !Contains(after, Placeholder)
  {
    var whole := before + Placeholder + after;
    forall k | 0 <= k <= |after| - |Placeholder|
      ensures !OccursAt(after, Placeholder, k)
    {
      var j := |before| + |Placeholder| + k;
      assert after[k..k + |Placeholder|] == whole[j..j + |Placeholder|];
      assert !OccursAt(whole, Placeholder, j);
    }
  }
}
