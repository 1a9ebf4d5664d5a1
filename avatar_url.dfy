/** The avatar-URL normaliser of src/helper/file.js: `url && url.replace("/com", ".com")`.
    A string pattern given to `replace` is replaced at its first occurrence only. */
module AvatarUrl {
  import opened Common

  const Pattern: string := "/com"
  const Replacement: string := ".com"

  /** `null`/`undefined` is `None`; the empty string is falsy and comes back as it is.
      Otherwise the first `/com`, if any, becomes `.com`: since the two strings differ
      only in their first character, the result is the input with that one '/'
      turned into '.'. */
  function ReformatAvatarUrl(url: Option<string>): (r: Option<string>)
    ensures r.None? <==> url.None?
    ensures url.Some? ==> |r.value| == |url.value|
    ensures url.Some? && !Contains(url.value, Pattern) ==> r == url
    ensures url.Some? && Contains(url.value, Pattern) ==>
      var k := FindFirst(url.value, Pattern).value;
      url.value[k] == '/' && r.value == url.value[k := '.']
  {
    match url
    case None => None
    case Some(s) =>
      if s == "" then url
      else match FindFirst(s, Pattern)
        case None => url
        case Some(k) =>
          ReplaceIsUpdate(s, k);
          Some(s[..k] + Replacement + s[k + |Pattern|..])
  }

  /** Replacing an occurrence of `/com` by `.com` rewrites its '/' and nothing else. */
  lemma ReplaceIsUpdate(s: string, k: nat)
    requires OccursAt(s, Pattern, k)
    ensures s[k] == '/'
    ensures s[..k] + Replacement + s[k + |Pattern|..] == s[k := '.']
  {
    assert |Pattern| == 4 && s[k..k + 4] == Pattern;
    var r := s[..k] + Replacement + s[k + |Pattern|..];
    assert |r| == |s|;
    forall i | 0 <= i < |s| ensures r[i] == s[k := '.'][i] {
      if k < i < k + 4 {
        assert r[i] == Replacement[i - k] == Pattern[i - k] == s[k..k + 4][i - k];
      }
    }
    assert s[k] == s[k..k + 4][0];
  }

  /** The first `/com` is gone: the result has no occurrence of it up to and
      including the rewritten position, and everything after it is left as it was. */
  lemma ReformatRemovesFirstOccurrence(s: string)
    requires Contains(s, Pattern)
    ensures var k := FindFirst(s, Pattern).value;
            var r := ReformatAvatarUrl(Some(s)).value;
            && r[k + |Pattern|..] == s[k + |Pattern|..]
            && forall j: nat :: j <= k ==> !OccursAt(r, Pattern, j)
  {
    var k := FindFirst(s, Pattern).value;
    var r := ReformatAvatarUrl(Some(s)).value;
    assert r == s[k := '.'] && |Pattern| == 4;
    forall j: nat | j <= k ensures !OccursAt(r, Pattern, j) {
      if j + 4 <= k {
        // a window ending before k reads the same characters in r and s
        forall i | j <= i < j + 4 ensures r[i] == s[i] {
        }
        assert r[j..j + 4] == s[j..j + 4];
        assert !OccursAt(s, Pattern, j);
      } else if j + 4 <= |r| {
        // a window covering k holds the '.' that the pattern lacks
        assert r[j..j + 4][k - j] == '.';
      }
    }
    assert r[k + 4..] == s[k + 4..];
  }

  /** With no '/' before it, the first `/com` is the one right after `pre`. */
  lemma ReformatFirstSlashCom(pre: string, post: string)
    requires '/' !in pre
    ensures ReformatAvatarUrl(Some(pre + Pattern + post)) == Some(pre + Replacement + post)
  {
    var s := pre + Pattern + post;
    var k := |pre|;
    assert |Pattern| == 4 && s[k..k + 4] == Pattern;
    assert OccursAt(s, Pattern, k);
    forall j: nat | j < k ensures !OccursAt(s, Pattern, j) {
      if j + 4 <= |s| {
        assert s[j..j + 4][0] == s[j] == pre[j];
      }
    }
    assert FindFirst(s, Pattern) == Some(k);
    assert s[..k] == pre && s[k + 4..] == post;
  }

  /** The normaliser is not idempotent: a second application rewrites the next `/com`. */
  lemma ReformatNotIdempotent(pre: string, mid: string, post: string)
    requires '/' !in pre && '/' !in mid
    ensures var once := ReformatAvatarUrl(Some(pre + Pattern + mid + Pattern + post));
            && once == Some(pre + Replacement + mid + Pattern + post)
            && ReformatAvatarUrl(once) == Some(pre + Replacement + mid + Replacement + post)
            && ReformatAvatarUrl(once) != once
  {
    var tail := mid + Pattern + post;
    ReformatFirstSlashCom(pre, tail);
    assert pre + Pattern + mid + Pattern + post == pre + Pattern + tail;
    assert pre + Replacement + mid + Pattern + post == pre + Replacement + tail;
    var head := pre + Replacement + mid;
    assert '/' !in Replacement;
    assert '/' !in head;
    ReformatFirstSlashCom(head, post);
    assert head + Pattern + post == pre + Replacement + mid + Pattern + post;
    assert head + Replacement + post == pre + Replacement + mid + Replacement + post;
    var k := |head|;
    assert (head + Pattern + post)[k] == '/' && (head + Replacement + post)[k] == '.';
  }
}
