/**
 * The share-link rule applied by `download_file` before the GET is issued:
 * a URL that mentions `dropbox.com` and carries the preview parameter `dl=0`
 * has every `dl=0` turned into the direct-download parameter `dl=1`.
 */
module UrlRewrite {

  const DropboxHost := "dropbox.com"
  const PreviewParam := "dl=0"
  const DownloadParam := "dl=1"

  /** `p` occurs in `s` starting at index `i`. */
  predicate OccursAt(s: string, p: string, i: int)
  {
    0 <= i && i + |p| <= |s| && s[i..i + |p|] == p
  }

  /** Python's `p in s` on strings. */
  predicate Contains(s: string, p: string)
  {
    exists i | 0 <= i <= |s| :: OccursAt(s, p, i)
  }

  /**
   * Python's `s.replace(pat, rep)` for a non-empty pattern: occurrences are
   * found left to right and do not overlap; the rest of `s` is copied.
   */
  function Replace(s: string, pat: string, rep: string): (r: string)
    requires pat != ""
    ensures |pat| == |rep| ==> |r| == |s|
    decreases |s|
  {
    if |s| < |pat| then s
    else if s[..|pat|] == pat then rep + Replace(s[|pat|..], pat, rep)
    else [s[0]] + Replace(s[1..], pat, rep)
  }

  /** The condition of the rewrite: both markers are present. */
  predicate IsShareLink(url: string)
  {
    Contains(url, DropboxHost) && Contains(url, PreviewParam)
  }

  /** The URL `download_file` actually requests. */
  function Rewrite(url: string): (r: string)
    ensures |r| == |url|
    ensures !IsShareLink(url) ==> r == url
  {
    if IsShareLink(url) then Replace(url, PreviewParam, DownloadParam) else url
  }

  /** An occurrence in a suffix is an occurrence in the whole string, shifted. */
  lemma OccursShift(s: string, p: string, k: int, j: int)
    requires 0 <= k <= |s| && 0 <= j
    ensures OccursAt(s[k..], p, j) <==> OccursAt(s, p, j + k)
  {
    if j + |p| <= |s| - k {
      assert s[k..][j..j + |p|] == s[j + k..j + k + |p|];
    }
  }

  /** Two occurrences of `dl=0` never overlap. */
  lemma PreviewNoOverlap(s: string, a: int, b: int)
    requires OccursAt(s, PreviewParam, a) && a < b < a + |PreviewParam|
    ensures !OccursAt(s, PreviewParam, b)
  {
    assert s[b] == s[a..a + 4][b - a];
    if b + 4 <= |s| {
      assert s[b] == s[b..b + 4][0];
    }
  }

  /** Character `i` of `s` after replacing `dl=0` by `dl=1`: a `1` where a `dl=0` ends, else unchanged. */
  predicate ReplacedAt(s: string, i: int)
    requires 0 <= i < |s|
  {
    var r := Replace(s, PreviewParam, DownloadParam);
    |r| == |s| && r[i] == if OccursAt(s, PreviewParam, i - 3) then '1' else s[i]
  }

  /** Within a leading `dl=0`, the replacement is `dl=1`. */
  lemma ReplacedInHead(s: string, i: int)
    requires 4 <= |s| && s[..4] == PreviewParam && 0 <= i < 4
    ensures ReplacedAt(s, i)
  {
    assert Replace(s, PreviewParam, DownloadParam) == DownloadParam + Replace(s[4..], PreviewParam, DownloadParam);
    assert s[0..4] == s[..4];
    assert s[i] == s[..4][i];
  }

  /** After a leading `dl=0`, the replacement continues on the rest. */
  lemma ReplacedAfterHead(s: string, i: int)
    requires 4 <= |s| && s[..4] == PreviewParam && 4 <= i < |s| && ReplacedAt(s[4..], i - 4)
    ensures ReplacedAt(s, i)
  {
    assert Replace(s, PreviewParam, DownloadParam) == DownloadParam + Replace(s[4..], PreviewParam, DownloadParam);
    if 7 <= i {
      OccursShift(s, PreviewParam, 4, i - 7);
    } else {
      assert s[0..4] == s[..4];
      PreviewNoOverlap(s, 0, i - 3);
    }
  }

  /** Without a leading `dl=0`, the first character is copied and the replacement continues on the rest. */
  lemma ReplacedAfterCopy(s: string, i: int)
    requires 4 <= |s| && s[..4] != PreviewParam && 0 <= i < |s|
    requires 1 <= i ==> ReplacedAt(s[1..], i - 1)
    ensures ReplacedAt(s, i)
  {
    assert Replace(s, PreviewParam, DownloadParam) == [s[0]] + Replace(s[1..], PreviewParam, DownloadParam);
    if 4 <= i {
      OccursShift(s, PreviewParam, 1, i - 4);
    } else if i == 3 {
      assert s[0..4] == s[..4];
    }
  }

  /**
   * Replacing `dl=0` by `dl=1` changes exactly the last character of every
   * occurrence of `dl=0` in the input (the pattern cannot overlap itself, so
   * the left-to-right scan finds every occurrence) and nothing else.
   */
  lemma {:induction false} ReplacePreviewAt(s: string, i: int)
    requires 0 <= i < |s|
    ensures |Replace(s, PreviewParam, DownloadParam)| == |s|
    ensures Replace(s, PreviewParam, DownloadParam)[i]
            == if OccursAt(s, PreviewParam, i - 3) then '1' else s[i]
    decreases |s|
  {
    if |s| < 4 {
    } else if s[..4] == PreviewParam {
      if i < 4 {
        ReplacedInHead(s, i);
      } else {
        ReplacePreviewAt(s[4..], i - 4);
        ReplacedAfterHead(s, i);
      }
    } else {
      if 1 <= i {
        ReplacePreviewAt(s[1..], i - 1);
      }
      ReplacedAfterCopy(s, i);
    }
  }

  /**
   * Pointwise meaning of the rewrite: the length is kept, and a character
   * changes (to `1`) exactly when the URL is a share link and the character
   * is the `0` of a `dl=0`.
   */
  lemma RewriteAt(url: string, i: int)
    requires 0 <= i < |url|
    ensures |Rewrite(url)| == |url|
    ensures Rewrite(url)[i]
            == if IsShareLink(url) && OccursAt(url, PreviewParam, i - 3) then '1' else url[i]
  {
    if IsShareLink(url) {
      ReplacePreviewAt(url, i);
    }
  }

  /** A URL is changed by the rewrite if and only if it is a share link. */
  lemma RewriteChangesExactlyShareLinks(url: string)
    ensures Rewrite(url) != url <==> IsShareLink(url)
  {
    if IsShareLink(url) {
      var j :| 0 <= j <= |url| && OccursAt(url, PreviewParam, j);
      assert url[j + 3] == url[j..j + 4][3];
      RewriteAt(url, j + 3);
    }
  }

  /** The rewrite only ever turns a `0` into a `1`. */
  lemma RewriteOnlyZeros(url: string, i: int)
    requires 0 <= i < |url|
    ensures |Rewrite(url)| == |url|
    ensures Rewrite(url)[i] != url[i] ==> url[i] == '0' && Rewrite(url)[i] == '1'
  {
    RewriteAt(url, i);
    if IsShareLink(url) && OccursAt(url, PreviewParam, i - 3) {
      assert url[i] == url[i - 3..i + 1][3];
    }
  }

  /** After rewriting a share link, no `dl=0` starts at index `j`. */
  lemma NoPreviewAfterRewrite(url: string, j: int)
    requires IsShareLink(url) && 0 <= j && j + 4 <= |url|
    ensures !OccursAt(Rewrite(url), PreviewParam, j)
  {
    var r := Rewrite(url);
    RewriteOnlyZeros(url, j);
    RewriteOnlyZeros(url, j + 1);
    RewriteOnlyZeros(url, j + 2);
    RewriteAt(url, j + 3);
    var w := r[j..j + 4];
    var v := url[j..j + 4];
    if OccursAt(url, PreviewParam, j) || url[j + 3] != '0' {
      assert w[3] == r[j + 3];
    } else if url[j + 2] != '=' {
      assert w[2] == r[j + 2];
    } else if url[j + 1] != 'l' {
      assert w[1] == r[j + 1];
    } else {
      assert v[1] == url[j + 1] && v[2] == url[j + 2] && v[3] == url[j + 3];
      assert v[0] != 'd';
      assert w[0] == r[j];
    }
  }

  /** A Dropbox URL never carries `dl=0` after the rewrite. */
  lemma RewriteClearsPreview(url: string)
    requires Contains(url, DropboxHost)
    ensures !Contains(Rewrite(url), PreviewParam)
  {
    if IsShareLink(url) {
      var r := Rewrite(url);
      RewriteAt(url, 0);
      forall j | 0 <= j <= |r|
        ensures !OccursAt(r, PreviewParam, j)
      {
        if j + 4 <= |r| {
          NoPreviewAfterRewrite(url, j);
        }
      }
    }
  }

  /** Rewriting twice is rewriting once. */
  lemma RewriteIdempotent(url: string)
    ensures Rewrite(Rewrite(url)) == Rewrite(url)
  {
    if IsShareLink(url) {
      RewriteClearsPreview(url);
    }
  }

  /** The host marker survives the rewrite: it contains no `0` to change. */
  lemma RewriteKeepsHost(url: string)
    requires Contains(url, DropboxHost)
    ensures Contains(Rewrite(url), DropboxHost)
  {
    var j :| 0 <= j <= |url| && OccursAt(url, DropboxHost, j);
    var r := Rewrite(url);
    var n := |DropboxHost|;
    var v := url[j..j + n];
    forall i | j <= i < j + n
      ensures r[i] == url[i]
    {
      RewriteOnlyZeros(url, i);
      assert url[i] == v[i - j];
    }
    assert r[j..j + n] == v;
    assert OccursAt(r, DropboxHost, j);
  }
}
