/** The string helpers the loader of packages/mini-qiankun/src/loader.ts relies on:
    `String.prototype.trim`, the `/^\/+/` replacement and the public-path join. */
module Text {

  /** The characters `trim` removes: ECMAScript WhiteSpace (tab, vertical tab, form
      feed, space, no-break space, the byte order mark and the space separators)
      and LineTerminator (line feed, carriage return, line and paragraph separator). */
  predicate IsWhiteSpace(c: char) {
    || c == '\t' || c == '\U{000B}' || c == '\U{000C}' || c == ' ' || c == '\U{00A0}' || c == '\U{FEFF}'
    || c == '\U{1680}' || ('\U{2000}' <= c <= '\U{200A}') || c == '\U{202F}' || c == '\U{205F}' || c == '\U{3000}'
    || c == '\n' || c == '\r' || c == '\U{2028}' || c == '\U{2029}'
  }

  predicate AllWhiteSpace(s: string) {
    forall k :: 0 <= k < |s| ==> IsWhiteSpace(s[k])
  }

  /** `r` stands in `s` at `i` with nothing but white space before and after it. */
  predicate PaddedAt(s: string, r: string, i: nat) {
    && i + |r| <= |s| && s[i..i + |r|] == r
    && (forall k :: 0 <= k < i ==> IsWhiteSpace(s[k]))
    && (forall k :: i + |r| <= k < |s| ==> IsWhiteSpace(s[k]))
  }

  /** The first index at or after `i` that does not hold white space, or `|s|`. */
  function SkipWhiteSpace(s: string, i: nat): (k: nat)
    requires i <= |s|
    ensures i <= k <= |s|
    ensures forall j :: i <= j < k ==> IsWhiteSpace(s[j])
    ensures k < |s| ==> !IsWhiteSpace(s[k])
    decreases |s| - i
  {
    if i == |s| || !IsWhiteSpace(s[i]) then i else SkipWhiteSpace(s, i + 1)
  }

  /** The smallest `k` no lower than `lo` such that `s[k..j]` is all white space. */
  function BackWhiteSpace(s: string, lo: nat, j: nat): (k: nat)
    requires lo <= j <= |s|
    ensures lo <= k <= j
    ensures forall m :: k <= m < j ==> IsWhiteSpace(s[m])
    ensures lo < k ==> !IsWhiteSpace(s[k - 1])
    decreases j
  {
    if j == lo || !IsWhiteSpace(s[j - 1]) then j else BackWhiteSpace(s, lo, j - 1)
  }

  /** `r` is what trimming `s` leaves: `s` is `r` padded with white space, `r` has
      no white space at either end, and `r` is empty only when `s` is all white space. */
  predicate Trimmed(s: string, r: string) {
    && (exists i :: 0 <= i <= |s| && PaddedAt(s, r, i))
    && (r != [] ==> !IsWhiteSpace(r[0]) && !IsWhiteSpace(r[|r| - 1]))
    && (r == [] <==> AllWhiteSpace(s))
  }

  /** `String.prototype.trim`. */
  function Trim(s: string): (r: string)
    ensures Trimmed(s, r)
  {
    var i := SkipWhiteSpace(s, 0);
    var j := BackWhiteSpace(s, i, |s|);
    assert PaddedAt(s, s[i..j], i);
    s[i..j]
  }

  /** Trimming keeps characters of `s` only. */
  lemma TrimWithin(s: string)
    ensures forall c :: c in Trim(s) ==> c in s
  {
    var r := Trim(s);
    var i: nat :| i <= |s| && PaddedAt(s, r, i);
    forall c | c in r ensures c in s {
      var k :| 0 <= k < |r| && r[k] == c;
      assert s[i + k] == r[k];
    }
  }

  /** Trimming is the identity on a string with no white space at its ends, and so
      trimming twice is trimming once. */
  lemma TrimKeepsTrimmed(s: string)
    requires s != [] ==> !IsWhiteSpace(s[0]) && !IsWhiteSpace(s[|s| - 1])
    ensures Trim(s) == s
  {
    if s != [] {
      assert SkipWhiteSpace(s, 0) == 0;
      assert BackWhiteSpace(s, 0, |s|) == |s|;
    }
  }

  lemma TrimIdempotent(s: string)
    ensures Trim(Trim(s)) == Trim(s)
  {
    TrimKeepsTrimmed(Trim(s));
  }

  /** A string has one trim only. */
  lemma TrimmedUnique(t: string, r: string, r': string)
    requires Trimmed(t, r) && Trimmed(t, r')
    ensures r == r'
  {
    var i: nat :| PaddedAt(t, r, i);
    var i': nat :| PaddedAt(t, r', i');
    if r != [] {
      PaddedUnique(t, r, i, r', i');
    }
  }

  /** Padding a string with white space on either side does not change its trim. */
  lemma TrimIgnoresPadding(a: string, s: string, b: string)
    requires AllWhiteSpace(a) && AllWhiteSpace(b)
    ensures Trim(a + s + b) == Trim(s)
  {
    var r := Trim(s);
    PaddingKeepsTrimmed(a, s, b, r);
    TrimmedUnique(a + s + b, r, Trim(a + s + b));
  }

  lemma PaddingKeepsTrimmed(a: string, s: string, b: string, r: string)
    requires AllWhiteSpace(a) && AllWhiteSpace(b) && Trimmed(s, r)
    ensures Trimmed(a + s + b, r)
  {
    var i: nat :| PaddedAt(s, r, i);
    PaddedWithin(a, s, b, r, i);
    if AllWhiteSpace(s) {
      AllWhiteSpaceConcat(a, s, b);
    } else {
      assert !AllWhiteSpace(a + s + b) by {
        var k :| 0 <= k < |s| && !IsWhiteSpace(s[k]);
        assert (a + s + b)[|a| + k] == s[k];
      }
    }
  }

  lemma AllWhiteSpaceConcat(a: string, s: string, b: string)
    requires AllWhiteSpace(a) && AllWhiteSpace(s) && AllWhiteSpace(b)
    ensures AllWhiteSpace(a + s + b)
  {
    var t := a + s + b;
    forall k | 0 <= k < |t| ensures IsWhiteSpace(t[k]) {
      if k < |a| { assert t[k] == a[k]; }
      else if k < |a| + |s| { assert t[k] == s[k - |a|]; }
      else { assert t[k] == b[k - |a| - |s|]; }
    }
  }

  /** What stands padded in `s` stands padded in `s` padded with white space. */
  lemma PaddedWithin(a: string, s: string, b: string, r: string, i: nat)
    requires AllWhiteSpace(a) && AllWhiteSpace(b) && PaddedAt(s, r, i)
    ensures PaddedAt(a + s + b, r, |a| + i)
  {
    var t := a + s + b;
    var j := |a| + i;
    assert t[j..j + |r|] == s[i..i + |r|];
    forall k | 0 <= k < j ensures IsWhiteSpace(t[k]) {
      if k < |a| { assert t[k] == a[k]; } else { assert t[k] == s[k - |a|]; }
    }
    forall k | j + |r| <= k < |t| ensures IsWhiteSpace(t[k]) {
      if k < |a| + |s| { assert t[k] == s[k - |a|]; } else { assert t[k] == b[k - |a| - |s|]; }
    }
  }

  /** A string stands padded in `t` at one place at most, once it neither starts
      nor ends with white space. */
  lemma PaddedUnique(t: string, r: string, i: nat, r': string, i': nat)
    requires PaddedAt(t, r, i) && PaddedAt(t, r', i')
    requires r != [] && !IsWhiteSpace(r[0]) && !IsWhiteSpace(r[|r| - 1])
    requires r' == [] || (!IsWhiteSpace(r'[0]) && !IsWhiteSpace(r'[|r'| - 1]))
    ensures r == r'
  {
    assert t[i] == r[0] && t[i + |r| - 1] == r[|r| - 1];
    if r' == [] {
      assert false;
    }
    assert t[i'] == r'[0] && t[i' + |r'| - 1] == r'[|r'| - 1];
    assert i == i';
    assert i + |r| == i' + |r'|;
  }

  /** `s.replace(/^\/+/, '')`. */
  function StripLeadingSlashes(s: string): (r: string)
    ensures |r| <= |s| && r == s[|s| - |r|..]
    ensures forall k :: 0 <= k < |s| - |r| ==> s[k] == '/'
    ensures r == [] || r[0] != '/'
  {
    if s != [] && s[0] == '/' then StripLeadingSlashes(s[1..]) else s
  }

  /** The address of a `src`/`href` value (loader.ts:55 and :76): a value that starts
      with `https` is kept, any other is appended to the public path after its
      leading slashes are dropped. */
  function JoinUrl(ref: string, publicPath: string): (r: string)
    ensures "https" <= ref ==> r == ref
    ensures !("https" <= ref) ==>
      && publicPath <= r
      && var tail := r[|publicPath|..];
      && |tail| <= |ref|
      && tail == ref[|ref| - |tail|..]
      && (forall k :: 0 <= k < |ref| - |tail| ==> ref[k] == '/')
      && (tail == [] || tail[0] != '/')
  {
    if "https" <= ref then ref else publicPath + StripLeadingSlashes(ref)
  }

  /** A value starting with `http:` counts as relative: it is appended to the
      public path like a path would be. */
  lemma JoinUrlPlainHttp(ref: string, publicPath: string)
    requires "http:" <= ref
    ensures JoinUrl(ref, publicPath) == publicPath + ref
  {
    assert ref[4] == ':';
  }

  /** With a public path that does not end in `/`, a root-relative value is glued
      to the last segment of the path: `/main.js` under `http://localhost:3001`
      gives `http://localhost:3001main.js`. */
  lemma JoinUrlDropsSeparator(publicPath: string, path: string)
    requires path == [] || path[0] != '/'
    ensures JoinUrl("/" + path, publicPath) == publicPath + path
  {
    var ref := "/" + path;
    assert !("https" <= ref) by {
      assert ref[0] == '/';
    }
    assert StripLeadingSlashes(ref) == StripLeadingSlashes(ref[1..]);
    assert ref[1..] == path;
  }
}
