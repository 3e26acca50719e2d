/** `format_links` (api/app.py:101-113): rewrites Markdown links
    `[label](url)` into Slack's `<url|label>` form, one link per pass, until a
    pass finds no `[`, or no `)` at or after the first `[`.

    The loop has no bound and does not end on every input ("[a)b]" grows on
    every pass, see NeverSettles), so the model runs it with explicit fuel:
    `None` means the fuel ran out while the loop would still be running. */
module Formatter {
  import opened Common
  import opened PyStr

  /** The loop's exit condition holds: no `)` at or after any `[`. */
  ghost predicate Settled(t: string) {
    forall i, j :: 0 <= i <= j < |t| && t[i] == '[' ==> t[j] != ')'
  }

  /** One pass of the loop body (api/app.py:105-112); `None` when the pass
      breaks out of the loop instead. */
  function Rewrite(t: string): (r: Option<string>)
  {
    var start := Find(t, '[', 0);
    var end := Find(t, ')', start);
    if start == -1 || end == -1 then None
    else
      var caption := Slice(t, start + 1, Find(t, ']', start));
      var url := Slice(t, Find(t, '(', start) + 1, end);
      Some(Slice(t, 0, start) + "<" + url + "|" + caption + ">" + Slice(t, end + 1, |t|))
  }

  /** The loop breaks exactly when the text is settled. */
  lemma StopsIffSettled(t: string)
    ensures Rewrite(t).None? <==> Settled(t)
  {
    var start := Find(t, '[', 0);
    FindFromIsFirst(t, '[', 0);
    if start != -1 {
      FindFromIsFirst(t, ')', start);
    }
  }

  /** The loop of `format_links` run for at most `fuel` rewriting passes. */
  function FormatWithin(t: string, fuel: nat): (r: Option<string>)
    decreases fuel
  {
    match Rewrite(t)
    case None => Some(t)
    case Some(u) => if fuel == 0 then None else FormatWithin(u, fuel - 1)
  }

  /** The `while True` loop of `format_links`, stopped after `fuel` passes. */
  method FormatLinks(text: string, fuel: nat) returns (r: Option<string>)
    ensures r == FormatWithin(text, fuel)
  {
    var formatted := text;
    var left := fuel;
    while true
      invariant FormatWithin(formatted, left) == FormatWithin(text, fuel)
      decreases left
    {
      var startIdx := Find(formatted, '[', 0);
      var endIdx := Find(formatted, ')', startIdx);
      if startIdx == -1 || endIdx == -1 {
        return Some(formatted);
      }
      if left == 0 {
        return None;
      }
      var linkText := Slice(formatted, startIdx + 1, Find(formatted, ']', startIdx));
      var url := Slice(formatted, Find(formatted, '(', startIdx) + 1, endIdx);
      var next := Slice(formatted, 0, startIdx) + "<" + url + "|" + linkText + ">" + Slice(formatted, endIdx + 1, |formatted|);
      assert Rewrite(formatted) == Some(next);
      formatted, left := next, left - 1;
    }
  }

  /** Whatever the loop returns is settled: one more call would find nothing
      to rewrite. */
  lemma {:induction false} ResultSettled(t: string, fuel: nat)
    requires FormatWithin(t, fuel).Some?
    ensures Settled(FormatWithin(t, fuel).value)
    decreases fuel
  {
    match Rewrite(t)
    case None => StopsIffSettled(t);
    case Some(u) => ResultSettled(u, fuel - 1);
  }

  /** Settled text comes back unchanged, at any fuel; in particular text
      without `[`. */
  lemma SettledUnchanged(t: string, fuel: nat)
    requires Settled(t)
    ensures FormatWithin(t, fuel) == Some(t)
  {
    StopsIffSettled(t);
  }

  /** Text without `[` is settled. */
  lemma NoBracketSettled(t: string)
    requires '[' !in t
    ensures Settled(t)
  {
  }

  /** `format_links` is idempotent wherever it returns. */
  lemma Idempotent(t: string, f: nat, g: nat)
    requires FormatWithin(t, f).Some?
    ensures FormatWithin(FormatWithin(t, f).value, g) == FormatWithin(t, f)
  {
    ResultSettled(t, f);
    SettledUnchanged(FormatWithin(t, f).value, g);
  }

  /** Once the loop has exited, more fuel changes nothing: the result does not
      depend on the bound. */
  lemma {:induction false} FuelIrrelevant(t: string, f: nat, g: nat)
    requires f <= g && FormatWithin(t, f).Some?
    ensures FormatWithin(t, g) == FormatWithin(t, f)
    decreases f
  {
    if Rewrite(t).Some? {
      FuelIrrelevant(Rewrite(t).value, f - 1, g - 1);
    }
  }

  /** A pass whose searches find `[` at `a`, `]` at `b`, `(` right after it
      and `)` at `e` cuts the text into its four pieces. */
  lemma RewriteAt(t: string, a: nat, b: nat, e: nat)
    requires a < b && b + 1 < e < |t|
    requires Find(t, '[', 0) == a && Find(t, ')', a) == e
    requires Find(t, ']', a) == b && Find(t, '(', a) == b + 1
    ensures Rewrite(t) == Some(t[..a] + "<" + t[b + 2..e] + "|" + t[a + 1..b] + ">" + t[e + 1..])
  {
    SliceIs(t, a + 1, b);
    SliceIs(t, b + 2, e);
    SliceIs(t, 0, a);
    SliceIs(t, e + 1, |t|);
    assert Slice(t, 0, a) == t[..a] && Slice(t, e + 1, |t|) == t[e + 1..];
  }

  /** Where the searches of one pass land on a single well-formed link. */
  lemma OneLinkSearches(pre: string, caption: string, url: string, post: string)
    requires '[' !in pre
    requires '[' !in caption && ']' !in caption && '(' !in caption && ')' !in caption
    requires ')' !in url
    ensures var t := pre + "[" + caption + "](" + url + ")" + post;
      var a := |pre|;
      var b := a + 1 + |caption|;
      var e := b + 2 + |url|;
      Find(t, '[', 0) == a && Find(t, ')', a) == e && Find(t, ']', a) == b && Find(t, '(', a) == b + 1
  {
    var t := pre + "[" + caption + "](" + url + ")" + post;
    var a := |pre|;
    var b := a + 1 + |caption|;
    var e := b + 2 + |url|;
    assert t[a] == '[' && t[b] == ']' && t[b + 1] == '(' && t[e] == ')';
    forall k | 0 <= k < a ensures t[k] != '[' {
      assert t[k] == pre[k];
    }
    forall k | a <= k < e ensures t[k] != ')' && (k < b ==> t[k] != ']' && t[k] != '(') {
      if a < k < b {
        assert t[k] == caption[k - a - 1];
      } else if b + 1 < k {
        assert t[k] == url[k - b - 2];
      }
    }
    FindAt(t, '[', 0, a);
    FindAt(t, ')', a, e);
    FindAt(t, ']', a, b);
    FindAt(t, '(', a, b + 1);
  }

  /** One pass over a single well-formed link with nothing bracket-like in
      its label, url or the text before it. */
  lemma RewriteOneLink(pre: string, caption: string, url: string, post: string)
    requires '[' !in pre
    requires '[' !in caption && ']' !in caption && '(' !in caption && ')' !in caption
    requires ')' !in url
    ensures Rewrite(pre + "[" + caption + "](" + url + ")" + post)
         == Some(pre + "<" + url + "|" + caption + ">" + post)
  {
    var t := pre + "[" + caption + "](" + url + ")" + post;
    var a := |pre|;
    var b := a + 1 + |caption|;
    var e := b + 2 + |url|;
    OneLinkSearches(pre, caption, url, post);
    RewriteAt(t, a, b, e);
    assert t[..a] == pre;
    assert t[a + 1..b] == caption;
    assert t[b + 2..e] == url;
    assert t[e + 1..] == post;
  }

  /** A single well-formed link becomes `<url|label>`, and the text before and
      after it is kept as it is. */
  lemma OneLink(pre: string, caption: string, url: string, post: string, fuel: nat)
    requires fuel >= 1
    requires '[' !in pre && '[' !in post
    requires '[' !in caption && ']' !in caption && '(' !in caption && ')' !in caption
    requires '[' !in url && ')' !in url
    ensures FormatWithin(pre + "[" + caption + "](" + url + ")" + post, fuel)
         == Some(pre + "<" + url + "|" + caption + ">" + post)
  {
    RewriteOneLink(pre, caption, url, post);
    var u := pre + "<" + url + "|" + caption + ">" + post;
    forall i | 0 <= i < |u| ensures u[i] != '[' {
      var a := |pre|;
      if i < a {
        assert u[i] == pre[i];
      } else if a < i <= a + |url| {
        assert u[i] == url[i - a - 1];
      } else if a + |url| + 1 < i <= a + |url| + 1 + |caption| {
        assert u[i] == caption[i - a - |url| - 2];
      } else if a + |url| + |caption| + 2 < i {
        assert u[i] == post[i - a - |url| - |caption| - 3];
      }
    }
    SettledUnchanged(u, fuel - 1);
  }

  /** The link of a typical reply: "see [docs](http://x/y) now" becomes
      "see <http://x/y|docs> now" in one pass. */
  lemma DocsExample()
    ensures var pre, caption, url, post := "see ", "docs", "http://x/y", " now";
      FormatWithin(pre + "[" + caption + "](" + url + ")" + post, 1) == Some(pre + "<" + url + "|" + caption + ">" + post)
  {
    OneLink("see ", "docs", "http://x/y", " now", 1);
  }

  /** A shape on which a pass never breaks: the first `[` at `i`, the first `)`
      after it at `j`, the first `]` after it at `k` beyond `j`, and no `(`
      anywhere. The pass then copies the `[` into the url and the `)` into the
      label, and the copy has the same shape. */
  ghost predicate Looping(t: string, i: nat, j: nat, k: nat) {
    i < j < k < |t| && t[i] == '[' && t[j] == ')' && t[k] == ']' &&
    (forall m :: 0 <= m < i ==> t[m] != '[') &&
    (forall m :: i <= m < j ==> t[m] != ')') &&
    (forall m :: i <= m < k ==> t[m] != ']') &&
    (forall m :: 0 <= m < |t| ==> t[m] != '(')
  }

  lemma LoopingStep(t: string, i: nat, j: nat, k: nat)
    requires Looping(t, i, j, k)
    ensures Rewrite(t) == Some(t[..i] + "<" + t[..j] + "|" + t[i + 1..k] + ">" + t[j + 1..])
    ensures Looping(Rewrite(t).value, 2 * i + 1, 2 * j + 1, 2 * k + 1)
  {
    FindAt(t, '[', 0, i);
    FindAt(t, ')', i, j);
    FindAt(t, ']', i, k);
    FindMiss(t, '(', i);
    RewriteNoParen(t, i, j, k);
    LoopingCopy(t, i, j, k);
  }

  /** A pass that finds no `(`: `find` answers -1, so the url slice starts at
      0 and runs from the start of the text up to the `)`. */
  lemma RewriteNoParen(t: string, i: nat, j: nat, k: nat)
    requires i < j < |t| && i < k < |t|
    requires Find(t, '[', 0) == i && Find(t, ')', i) == j
    requires Find(t, ']', i) == k && Find(t, '(', i) == -1
    ensures Rewrite(t) == Some(t[..i] + "<" + t[..j] + "|" + t[i + 1..k] + ">" + t[j + 1..])
  {
    SliceIs(t, i + 1, k);
    SliceIs(t, 0, j);
    SliceIs(t, 0, i);
    SliceIs(t, j + 1, |t|);
    assert Slice(t, 0, i) == t[..i] && Slice(t, j + 1, |t|) == t[j + 1..];
    assert Slice(t, i + 1, k) == t[i + 1..k] && Slice(t, 0, j) == t[..j];
  }

  lemma LoopingCopy(t: string, i: nat, j: nat, k: nat)
    requires Looping(t, i, j, k)
    ensures Looping(t[..i] + "<" + t[..j] + "|" + t[i + 1..k] + ">" + t[j + 1..], 2 * i + 1, 2 * j + 1, 2 * k + 1)
  {
    var u := t[..i] + "<" + t[..j] + "|" + t[i + 1..k] + ">" + t[j + 1..];
    assert |u| == |t| + k + 1;
    forall m | 0 <= m < |u|
      ensures u[m] != '('
      ensures m < 2 * i + 1 ==> u[m] != '['
      ensures 2 * i + 1 <= m < 2 * j + 1 ==> u[m] != ')'
      ensures 2 * i + 1 <= m < 2 * k + 1 ==> u[m] != ']'
    {
      if m < i {
        assert u[m] == t[m];
      } else if i < m <= i + j {
        assert u[m] == t[m - i - 1];
      } else if i + j + 1 < m <= j + k {
        assert u[m] == t[m - j - 1];
      } else if j + k + 1 < m {
        assert u[m] == t[m - k - 1];
      }
    }
    assert u[2 * i + 1] == t[i];
    assert u[2 * j + 1] == t[j];
    assert u[2 * k + 1] == t[k];
  }

  /** On the looping shape `format_links` never returns, whatever the fuel. */
  lemma {:induction false} NeverSettles(t: string, i: nat, j: nat, k: nat, fuel: nat)
    requires Looping(t, i, j, k)
    ensures FormatWithin(t, fuel) == None
    decreases fuel
  {
    LoopingStep(t, i, j, k);
    if fuel > 0 {
      NeverSettles(Rewrite(t).value, 2 * i + 1, 2 * j + 1, 2 * k + 1, fuel - 1);
    }
  }

  /** "[a)b]" is the smallest such input: the call never returns. */
  lemma BracketParenHangs(fuel: nat)
    ensures FormatWithin("[a)b]", fuel) == None
  {
    NeverSettles("[a)b]", 0, 2, 4, fuel);
  }
}
