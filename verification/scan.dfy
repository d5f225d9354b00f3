/** The regular expressions of packages/mini-qiankun/src/loader.ts, written out as
    matchers.  Every pattern there has a single way to match at a given start
    (the greedy and lazy parts are pinned down by the character classes around
    them), so each matcher computes that one match, or none:

    - `Attr(tag, attr)` is `/<tag[^>]*attr=["']([^"']+)["'][^>]*<\/tag>/gi`:
      the greedy `[^>]*` before `attr=` tries the latest start first; the captured
      value is the whole run of non-quote characters after the opening quote; and
      `</tag` must end exactly at the first `>` after the closing quote;
    - `Inline(tag)` is `/<tag[^>]*>([^<]*)<\/tag>/gi`: the body is everything up to
      the first `<` after the first `>`, and `</tag>` must stand there;
    - `Block(tag)` is `/<tag[^>]*>[\s\S]*?<\/tag>/gi`: from the first `>` to the
      first `</tag>` after it;
    - `StylesheetLink` is `/<link[^>]*rel=["']stylesheet["'][^>]*>/gi`: up to the
      first `>`, provided a `rel="stylesheet"` lies wholly before it.

    The `i` flag folds ASCII letters only (a non-unicode regular expression never
    maps a non-ASCII character onto an ASCII one); `g` makes `exec` and `replace`
    resume where the previous match ended. */
module Scan {
  import opened Types

  /** ASCII lower-casing. */
  function Lower(c: char): char {
    if 'A' <= c <= 'Z' then (c as int + 32) as char else c
  }

  /** `s` holds `lit` at `i`, ignoring ASCII case; `lit` is written in lower case. */
  predicate MatchesAt(s: string, i: nat, lit: string) {
    i + |lit| <= |s| && forall j :: 0 <= j < |lit| ==> Lower(s[i + j]) == lit[j]
  }

  const Quotes: set<char> := {'"', '\''}

  /** The end of the run of characters outside `stop` that starts at `i`: the first
      index at or after `i` holding a character of `stop`, or `|s|`. */
  function RunEnd(s: string, i: nat, stop: set<char>): (j: nat)
    requires i <= |s|
    ensures i <= j <= |s|
    ensures forall k :: i <= k < j ==> s[k] !in stop
    ensures j < |s| ==> s[j] in stop
    decreases |s| - i
  {
    if i == |s| || s[i] in stop then i else RunEnd(s, i + 1, stop)
  }

  /** The first index at or after `i` where `lit` stands. */
  function Find(s: string, i: nat, lit: string): (r: Option<nat>)
    requires i <= |s|
    ensures r.Some? ==> i <= r.value <= |s| && MatchesAt(s, r.value, lit)
    ensures forall k :: i <= k <= |s| && (r.None? || k < r.value) ==> !MatchesAt(s, k, lit)
    decreases |s| - i
  {
    if MatchesAt(s, i, lit) then Some(i)
    else if i == |s| then None
    else Find(s, i + 1, lit)
  }

  datatype Pattern =
    | Attr(tag: string, attr: string)
    | Inline(tag: string)
    | Block(tag: string)
    | StylesheetLink

  /** One match: where it starts, its capture group (empty for patterns without
      one) and the index just past it. */
  datatype Match = Match(start: nat, capture: string, end: nat)

  /** A match that starts at `p` and ends within `s`, after `p`. */
  predicate Within(r: Option<Match>, s: string, p: nat) {
    r.Some? ==> r.value.start == p && p < r.value.end <= |s|
  }

  /** What follows `attr=` at `k`, for a match starting at `p`. */
  function AttrRest(s: string, p: nat, k: nat, tag: string, attr: string): (r: Option<Match>)
    requires p < k <= |s|
    ensures Within(r, s, p)
    ensures r.Some? ==> r.value.capture != [] && forall c :: c in r.value.capture ==> c !in Quotes
  {
    var name := attr + "=";
    if !(MatchesAt(s, k, name) && k + |name| < |s| && s[k + |name|] in Quotes) then None
    else
      var v := k + |name| + 1;
      var m := RunEnd(s, v, Quotes);
      if m == v || m == |s| then None
      else
        var g := RunEnd(s, m + 1, {'>'});
        var close := "</" + tag;
        if g == |s| then None
        else if m + 1 + |close| <= g && MatchesAt(s, g - |close|, close) then Some(Match(p, s[v..m], g + 1))
        else None
  }

  /** The greedy `[^>]*` before `attr=`: candidate starts from `k` down to `lo`. */
  function AttrFrom(s: string, p: nat, lo: nat, k: nat, tag: string, attr: string): (r: Option<Match>)
    requires p < lo <= k <= |s|
    ensures Within(r, s, p)
    ensures r.Some? ==> r.value.capture != [] && forall c :: c in r.value.capture ==> c !in Quotes
    decreases k
  {
    var here := AttrRest(s, p, k, tag, attr);
    if here.Some? then here
    else if k == lo then None
    else AttrFrom(s, p, lo, k - 1, tag, attr)
  }

  /** When the greedy scan finds a match, some candidate start in range gives it. */
  lemma {:induction false} AttrFromFinds(s: string, p: nat, lo: nat, k: nat, tag: string, attr: string)
    requires p < lo <= k <= |s| && AttrFrom(s, p, lo, k, tag, attr).Some?
    ensures exists j :: lo <= j <= k && AttrRest(s, p, j, tag, attr).Some?
    decreases k
  {
    if AttrRest(s, p, k, tag, attr).None? {
      AttrFromFinds(s, p, lo, k - 1, tag, attr);
    }
  }

  /** The match of `pat` starting exactly at `p`, if any. */
  function MatchAt(pat: Pattern, s: string, p: nat): (r: Option<Match>)
    requires p <= |s|
    ensures Within(r, s, p)
    ensures r.Some? && pat.Inline? ==> forall c :: c in r.value.capture ==> c != '<'
    ensures r.Some? && pat.Attr? ==> r.value.capture != [] && forall c :: c in r.value.capture ==> c !in Quotes
  {
    match pat
    case Attr(tag, attr) =>
      var open := "<" + tag;
      if !MatchesAt(s, p, open) then None
      else
        var lo := p + |open|;
        AttrFrom(s, p, lo, RunEnd(s, lo, {'>'}), tag, attr)
    case Inline(tag) =>
      var open := "<" + tag;
      if !MatchesAt(s, p, open) then None
      else
        var g := RunEnd(s, p + |open|, {'>'});
        if g == |s| then None
        else
          var c := RunEnd(s, g + 1, {'<'});
          var close := "</" + tag + ">";
          if MatchesAt(s, c, close) then Some(Match(p, s[g + 1..c], c + |close|)) else None
    case Block(tag) =>
      var open := "<" + tag;
      if !MatchesAt(s, p, open) then None
      else
        var g := RunEnd(s, p + |open|, {'>'});
        if g == |s| then None
        else
          var close := "</" + tag + ">";
          var c := Find(s, g + 1, close);
          if c.None? then None else Some(Match(p, "", c.value + |close|))
    case StylesheetLink =>
      if !MatchesAt(s, p, "<link") then None
      else
        var g := RunEnd(s, p + 5, {'>'});
        if g == |s| || !HasStylesheetRel(s, p + 5, g) then None
        else Some(Match(p, "", g + 1))
  }

  /** `rel=` + quote + `stylesheet` + quote stands at `k`. */
  predicate StylesheetRelAt(s: string, k: nat) {
    && MatchesAt(s, k, "rel=") && k + 16 <= |s|
    && s[k + 4] in Quotes && MatchesAt(s, k + 5, "stylesheet") && s[k + 15] in Quotes
  }

  /** Some `rel="stylesheet"` lies wholly within `s[k..g]`. */
  function HasStylesheetRel(s: string, k: nat, g: nat): (b: bool)
    requires k <= g <= |s|
    ensures b <==> exists j :: k <= j && j + 16 <= g && StylesheetRelAt(s, j)
    decreases g - k
  {
    if k + 16 > g then false
    else StylesheetRelAt(s, k) || HasStylesheetRel(s, k + 1, g)
  }

  /** `regex.exec(s)` with `lastIndex` at `from`: the leftmost match that starts at
      or after `from`. */
  function Exec(pat: Pattern, s: string, from: nat): (r: Option<Match>)
    requires from <= |s|
    ensures r.Some? ==> from <= r.value.start < r.value.end <= |s| && MatchAt(pat, s, r.value.start) == r
    ensures forall p :: from <= p <= |s| && (r.None? || p < r.value.start) ==> MatchAt(pat, s, p).None?
    decreases |s| - from
  {
    var here := MatchAt(pat, s, from);
    if here.Some? then here
    else if from == |s| then None
    else Exec(pat, s, from + 1)
  }

  /** The matches a `while ((m = regex.exec(s)) !== null)` loop sees from `from` on. */
  function AllMatches(pat: Pattern, s: string, from: nat): (ms: seq<Match>)
    requires from <= |s|
    decreases |s| - from
  {
    match Exec(pat, s, from)
    case None => []
    case Some(m) => [m] + AllMatches(pat, s, m.end)
  }

  /** `m` is a match of `pat` in `s` that starts at or after `from`. */
  predicate Genuine(pat: Pattern, s: string, from: nat, m: Match) {
    from <= m.start < m.end <= |s| && MatchAt(pat, s, m.start) == Some(m)
  }

  /** Every match of a scan is a genuine match at or after where the scan began. */
  lemma {:induction false} AllMatchesGenuine(pat: Pattern, s: string, from: nat)
    requires from <= |s|
    ensures forall m :: m in AllMatches(pat, s, from) ==> Genuine(pat, s, from, m)
    decreases |s| - from
  {
    var r := Exec(pat, s, from);
    if r.Some? {
      AllMatchesGenuine(pat, s, r.value.end);
      assert AllMatches(pat, s, from) == [r.value] + AllMatches(pat, s, r.value.end);
    }
  }

  /** A body an inline pattern captures holds no `<`. */
  lemma InlineCaptureHasNoTag(tag: string, s: string, m: Match)
    requires m in AllMatches(Inline(tag), s, 0)
    ensures forall c :: c in m.capture ==> c != '<'
  {
    AllMatchesGenuine(Inline(tag), s, 0);
    assert Genuine(Inline(tag), s, 0, m);
  }

  /** A scan's first match, if any, starts no earlier than where the scan began. */
  lemma AllMatchesStart(pat: Pattern, s: string, from: nat)
    requires from <= |s|
    ensures var ms := AllMatches(pat, s, from); ms != [] ==> from <= ms[0].start
  {
  }

  /** The matches of a scan come in document order and do not overlap. */
  lemma {:induction false} AllMatchesOrdered(pat: Pattern, s: string, from: nat)
    requires from <= |s|
    ensures var ms := AllMatches(pat, s, from);
      forall i :: 0 <= i < |ms| - 1 ==> ms[i].end <= ms[i + 1].start
    decreases |s| - from
  {
    var r := Exec(pat, s, from);
    if r.Some? {
      var m := r.value;
      var rest := AllMatches(pat, s, m.end);
      AllMatchesOrdered(pat, s, m.end);
      AllMatchesStart(pat, s, m.end);
      OrderedCons(m, rest);
    }
  }

  lemma OrderedCons(m: Match, rest: seq<Match>)
    requires rest != [] ==> m.end <= rest[0].start
    requires forall i :: 0 <= i < |rest| - 1 ==> rest[i].end <= rest[i + 1].start
    ensures var ms := [m] + rest; forall i :: 0 <= i < |ms| - 1 ==> ms[i].end <= ms[i + 1].start
  {
    var ms := [m] + rest;
    forall i | 0 <= i < |ms| - 1
      ensures ms[i].end <= ms[i + 1].start
    {
      if i > 0 {
        assert ms[i] == rest[i - 1] && ms[i + 1] == rest[i];
      }
    }
  }

  /** The literal every match of `pat` starts with. */
  function Opening(pat: Pattern): (open: string)
    ensures open != [] && open[0] == '<'
  {
    match pat
    case Attr(tag, _) => "<" + tag
    case Inline(tag) => "<" + tag
    case Block(tag) => "<" + tag
    case StylesheetLink => "<link"
  }

  /** A match starts with the pattern's opening literal, so with a `<`. */
  lemma MatchAtOpens(pat: Pattern, s: string, p: nat)
    requires p <= |s| && MatchAt(pat, s, p).Some?
    ensures MatchesAt(s, p, Opening(pat)) && p < |s| && s[p] == '<'
  {
    var open := Opening(pat);
    assert Lower(s[p + 0]) == open[0];
  }

  /** A text in which the opening literal of `pat` stands nowhere after `from` holds
      no match there. */
  lemma ExecWithoutOpening(pat: Pattern, s: string, from: nat)
    requires from <= |s|
    requires forall p :: from <= p <= |s| ==> !MatchesAt(s, p, Opening(pat))
    ensures Exec(pat, s, from).None? && AllMatches(pat, s, from) == []
  {
    var r := Exec(pat, s, from);
    if r.Some? {
      MatchAtOpens(pat, s, r.value.start);
    }
  }

  /** When the opening literal of `pat` stands nowhere but at the very start, a
      scan's first match is the one at the start, if any. */
  lemma ExecOnlyAtStart(pat: Pattern, s: string)
    requires forall p :: 0 < p <= |s| ==> !MatchesAt(s, p, Opening(pat))
    ensures Exec(pat, s, 0) == MatchAt(pat, s, 0)
  {
    var r := Exec(pat, s, 0);
    if r.Some? {
      MatchAtOpens(pat, s, r.value.start);
    }
  }

  /** `s.replace(regex, '')` over `s[from..]`: the text between successive matches. */
  function RemoveAll(pat: Pattern, s: string, from: nat): (r: string)
    requires from <= |s|
    ensures |r| <= |s| - from
    ensures Exec(pat, s, from).None? ==> r == s[from..]
    decreases |s| - from
  {
    match Exec(pat, s, from)
    case None => s[from..]
    case Some(m) => s[from..m.start] + RemoveAll(pat, s, m.end)
  }

  /** The number of characters the matches `ms` span. */
  function Covered(ms: seq<Match>): int
  {
    if ms == [] then 0 else (ms[0].end - ms[0].start) + Covered(ms[1..])
  }

  /** `replace` shortens the text by exactly as many characters as the matches a
      scan sees span. */
  lemma {:induction false} RemoveAllDropsMatches(pat: Pattern, s: string, from: nat)
    requires from <= |s|
    ensures |RemoveAll(pat, s, from)| + Covered(AllMatches(pat, s, from)) == |s| - from
    decreases |s| - from
  {
    var r := Exec(pat, s, from);
    if r.Some? {
      var m := r.value;
      RemoveAllDropsMatches(pat, s, m.end);
      var rest := AllMatches(pat, s, m.end);
      assert AllMatches(pat, s, from) == [m] + rest;
      assert ([m] + rest)[1..] == rest;
    }
  }

  /** `replace` leaves a text without `<` as it is: every pattern starts with one. */
  lemma RemoveAllPlainText(pat: Pattern, s: string)
    requires forall k :: 0 <= k < |s| ==> s[k] != '<'
    ensures RemoveAll(pat, s, 0) == s
  {
    forall p | 0 <= p <= |s|
      ensures !MatchesAt(s, p, Opening(pat))
    {
      if p < |s| {
        assert Lower(s[p + 0]) != Opening(pat)[0];
      }
    }
    ExecWithoutOpening(pat, s, 0);
  }

  /** An external-reference match (one that must end in the closing tag) needs the
      closing tag `</tag` to stand somewhere after its start. */
  lemma AttrMatchNeedsClose(tag: string, attr: string, s: string, p: nat)
    requires p <= |s| && MatchAt(Attr(tag, attr), s, p).Some?
    ensures exists q :: p < q <= |s| && MatchesAt(s, q, "</" + tag)
  {
    var lo := p + |"<" + tag|;
    var g0 := RunEnd(s, lo, {'>'});
    assert AttrFrom(s, p, lo, g0, tag, attr).Some?;
    AttrFromFinds(s, p, lo, g0, tag, attr);
    var j :| lo <= j <= g0 && AttrRest(s, p, j, tag, attr).Some?;
    AttrRestNeedsClose(tag, attr, s, p, j);
  }

  lemma AttrRestNeedsClose(tag: string, attr: string, s: string, p: nat, k: nat)
    requires p < k <= |s| && AttrRest(s, p, k, tag, attr).Some?
    ensures exists q :: p < q <= |s| && MatchesAt(s, q, "</" + tag)
  {
    var name := attr + "=";
    var v := k + |name| + 1;
    var m := RunEnd(s, v, Quotes);
    var g := RunEnd(s, m + 1, {'>'});
    var close := "</" + tag;
    assert MatchesAt(s, g - |close|, close);
  }

  /** A text in which `</tag` stands nowhere holds no external-reference match. */
  lemma NoCloseNoAttrMatches(tag: string, attr: string, s: string)
    requires forall q :: 0 <= q <= |s| ==> !MatchesAt(s, q, "</" + tag)
    ensures AllMatches(Attr(tag, attr), s, 0) == []
  {
    var r := Exec(Attr(tag, attr), s, 0);
    if r.Some? {
      AttrMatchNeedsClose(tag, attr, s, r.value.start);
    }
  }
}
