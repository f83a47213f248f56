/** Redaction of paths and URLs from error text that reaches a client. */
module Redact {
  import opened Common

  const MAX_LEN := 400
  const ELLIPSIS := '\U{2026}'

  // ------------------------- text and its bytes -------------------------

  /** `char::is_whitespace` (Unicode White_Space). */
  predicate IsSpace(c: char) {
    || '\U{0009}' <= c <= '\U{000D}' || c == ' ' || c == '\U{0085}' || c == '\U{00A0}' || c == '\U{1680}'
    || '\U{2000}' <= c <= '\U{200A}' || c == '\U{2028}' || c == '\U{2029}' || c == '\U{202F}' || c == '\U{205F}'
    || c == '\U{3000}'
  }

  /** Bytes of a character in UTF-8. */
  function Width(c: char): nat {
    if c < '\U{0080}' then 1 else if c < '\U{0800}' then 2 else if c < '\U{10000}' then 3 else 4
  }

  function Bytes(s: string): nat { if s == "" then 0 else Width(s[0]) + Bytes(s[1..]) }

  /** `String::truncate(n)` on a longer string: panics (`None`) unless byte `n` starts a character. */
  function Truncate(s: string, n: nat): Option<string> {
    if n == 0 then Some("")
    else if s == "" || Width(s[0]) > n then None
    else
      var rest := Truncate(s[1..], n - Width(s[0]));
      if rest.None? then None else Some([s[0]] + rest.value)
  }

  function WordEnd(s: string): nat { if s == "" || IsSpace(s[0]) then 0 else 1 + WordEnd(s[1..]) }

  lemma WordEndFits(s: string)
    ensures WordEnd(s) <= |s|
  {
  }

  function SplitWhitespace(s: string): seq<string>
    decreases |s|
  {
    WordEndFits(s);
    if s == "" then []
    else if IsSpace(s[0]) then SplitWhitespace(s[1..])
    else [s[..WordEnd(s)]] + SplitWhitespace(s[WordEnd(s)..])
  }

  // ------------------------------ tokens --------------------------------

  predicate IsOpener(c: char) { c in ['(', '[', '{', '"', '\'', '<'] }

  predicate IsCloser(c: char) { c in [')', ']', '}', '"', '\'', '>', ',', ';', '.', ':'] }

  function LeadLen(s: string): (n: nat)
    ensures n <= |s|
  {
    if s != "" && IsOpener(s[0]) then 1 + LeadLen(s[1..]) else 0
  }

  function TrailLen(s: string): (n: nat)
    ensures n <= |s|
  {
    if s != "" && IsCloser(s[|s| - 1]) then 1 + TrailLen(s[..|s| - 1]) else 0
  }

  const ROOTS := ["/home/", "/tmp/", "/var/", "/usr/", "/opt/", "/etc/", "/root/", "/srv/", "/mnt/", "/data/"]
  const SCHEMES := ["http://", "https://", "ws://", "wss://"]

  predicate StartsWithAny(s: string, prefixes: seq<string>) {
    prefixes != [] && (prefixes[0] <= s || StartsWithAny(s, prefixes[1..]))
  }

  predicate IsRedactablePath(s: string) { StartsWithAny(s, ROOTS) }

  predicate IsRedactableUrl(s: string) { StartsWithAny(s, SCHEMES) }

  predicate IsRedactable(core: string) { IsRedactablePath(core) || IsRedactableUrl(core) }

  function RedactToken(tok: string): string {
    var lead := LeadLen(tok);
    var rest := tok[lead..];
    var coreLen := |rest| - TrailLen(rest);
    var core := rest[..coreLen];
    if IsRedactablePath(core) then tok[..lead] + "<path>" + rest[coreLen..]
    else if IsRedactableUrl(core) then tok[..lead] + "<url>" + rest[coreLen..]
    else tok
  }

  // ----------------------------- the loop -------------------------------

  function Separator(due: bool): string { if due then " " else "" }

  /** The loop from a state: `out` so far, tokens to come, and whether a separator is due. */
  function RedactFrom(out: string, toks: seq<string>, separate: bool): Option<string>
    decreases |toks|
  {
    if toks == [] then Some(out)
    else
      var longer := out + Separator(separate) + RedactToken(toks[0]);
      if Bytes(longer) >= MAX_LEN then
        var cut := Truncate(longer, MAX_LEN);
        if cut.None? then None else Some(cut.value + [ELLIPSIS])
      else RedactFrom(longer, toks[1..], true)
  }

  /** `None` stands for the panic of `truncate` inside a multi-byte character. */
  function Redacted(s: string): Option<string> { RedactFrom("", SplitWhitespace(s), false) }

  /** Cutting: nothing below the limit, else the first `MAX_LEN` bytes and an ellipsis, if a character ends there. */
  function Limited(all: string): Option<string> {
    if Bytes(all) < MAX_LEN then Some(all)
    else if Truncate(all, MAX_LEN).None? then None
    else Some(Truncate(all, MAX_LEN).value + [ELLIPSIS])
  }

  /** One turn of the loop: go on below the limit, cut at or above it. */
  lemma LoopTurn(out: string, toks: seq<string>, separate: bool)
    requires toks != []
    ensures var longer := out + Separator(separate) + RedactToken(toks[0]);
      RedactFrom(out, toks, separate) ==
        if Bytes(longer) < MAX_LEN then RedactFrom(longer, toks[1..], true) else Limited(longer)
  {
  }

  method RedactInternal(s: string) returns (r: Option<string>)
    ensures r == Redacted(s)
  {
    var toks := SplitWhitespace(s);
    var out := "";
    for i := 0 to |toks|
      invariant Redacted(s) == RedactFrom(out, toks[i..], i > 0)
    {
      assert toks[i..][0] == toks[i] && toks[i..][1..] == toks[i + 1..];
      LoopTurn(out, toks[i..], i > 0);
      ghost var longer := out + Separator(i > 0) + RedactToken(toks[i]);
      if i > 0 { out := out + " "; }
      out := out + RedactToken(toks[i]);
      assert out == longer;
      if Bytes(out) >= MAX_LEN {
        var cut := Truncate(out, MAX_LEN);
        if cut.None? { return None; }
        out := cut.value + [ELLIPSIS];
        return Some(out);
      }
    }
    r := Some(out);
  }

  // -------------------------- facts about tokens ------------------------

  predicate IsAscii(s: string) { forall i :: 0 <= i < |s| ==> s[i] < '\U{0080}' }

  predicate IsWord(s: string) { s != "" && forall i :: 0 <= i < |s| ==> !IsSpace(s[i]) }

  /** Redaction leaves the token alone: its core names no path and no URL. */
  predicate IsClean(tok: string) { RedactToken(tok) == tok }

  predicate AllOpeners(s: string) { forall i :: 0 <= i < |s| ==> IsOpener(s[i]) }

  predicate AllClosers(s: string) { forall i :: 0 <= i < |s| ==> IsCloser(s[i]) }

  lemma {:induction false} LeadIs(a: string, c: string)
    requires AllOpeners(a) && (c == "" || !IsOpener(c[0]))
    ensures LeadLen(a + c) == |a|
  {
    if a == "" {
      assert a + c == c;
    } else {
      assert (a + c)[1..] == a[1..] + c;
      LeadIs(a[1..], c);
    }
  }

  lemma {:induction false} TrailIs(c: string, b: string)
    requires AllClosers(b) && (c == "" || !IsCloser(c[|c| - 1]))
    ensures TrailLen(c + b) == |b|
  {
    if b == "" {
      assert c + b == c;
    } else {
      assert (c + b)[..|c + b| - 1] == c + b[..|b| - 1];
      TrailIs(c, b[..|b| - 1]);
    }
  }

  lemma {:induction false} LeadSplits(s: string)
    ensures AllOpeners(s[..LeadLen(s)])
    ensures LeadLen(s) < |s| ==> !IsOpener(s[LeadLen(s)])
  {
    if s != "" && IsOpener(s[0]) { LeadSplits(s[1..]); }
  }

  lemma {:induction false} TrailSplits(s: string)
    ensures AllClosers(s[|s| - TrailLen(s)..])
    ensures TrailLen(s) < |s| ==> !IsCloser(s[|s| - TrailLen(s) - 1])
  {
    if s != "" && IsCloser(s[|s| - 1]) {
      TrailSplits(s[..|s| - 1]);
      OneMoreCloser(s, |s| - 1 - TrailLen(s[..|s| - 1]));
    }
  }

  lemma OneMoreCloser(s: string, cut: nat)
    requires cut < |s| && AllClosers(s[..|s| - 1][cut..]) && IsCloser(s[|s| - 1])
    ensures AllClosers(s[cut..])
    ensures cut > 0 ==> s[..|s| - 1][cut - 1] == s[cut - 1]
  {
    forall i | 0 <= i < |s[cut..]| ensures IsCloser(s[cut..][i]) {
      if i < |s| - 1 - cut { assert s[cut..][i] == s[..|s| - 1][cut..][i]; }
    }
  }

  /** The three parts of a token, as the decomposition found by stripping both ends. */
  lemma TokenParts(a: string, c: string, b: string)
    requires AllOpeners(a) && AllClosers(b) && c != "" && !IsOpener(c[0]) && !IsCloser(c[|c| - 1])
    ensures var tok := a + c + b;
      RedactToken(tok) ==
        if IsRedactablePath(c) then a + "<path>" + b else if IsRedactableUrl(c) then a + "<url>" + b else tok
  {
    var tok := a + c + b;
    assert tok == a + (c + b);
    LeadIs(a, c + b);
    assert tok[..|a|] == a && tok[|a|..] == c + b;
    TrailIs(c, b);
    assert (c + b)[..|c|] == c && (c + b)[|c|..] == b;
  }

  lemma {:induction false} StartsWithOne(s: string, prefixes: seq<string>)
    ensures StartsWithAny(s, prefixes) <==> exists r :: r in prefixes && r <= s
  {
    if prefixes != [] {
      StartsWithOne(s, prefixes[1..]);
      if prefixes[0] <= s {
        assert prefixes[0] in prefixes;
      } else if StartsWithAny(s, prefixes[1..]) {
        var r :| r in prefixes[1..] && r <= s;
        assert r in prefixes;
      }
      forall r | r in prefixes && r <= s ensures StartsWithAny(s, prefixes) {
        assert r == prefixes[0] || r in prefixes[1..];
      }
    }
  }

  predicate IsKnown(r: string) { r in ROOTS || r in SCHEMES }

  lemma RedactableHasPrefix(s: string)
    ensures IsRedactable(s) <==> exists r :: IsKnown(r) && r <= s
  {
    StartsWithOne(s, ROOTS);
    StartsWithOne(s, SCHEMES);
    if r :| r in ROOTS && r <= s { assert IsKnown(r); }
    if r :| r in SCHEMES && r <= s { assert IsKnown(r); }
  }

  /** Every known prefix ends in a slash, opens no bracket, and holds no ellipsis. */
  lemma PrefixShape(r: string)
    requires IsKnown(r)
    ensures r != "" && r[|r| - 1] == '/' && !IsOpener(r[0]) && ELLIPSIS !in r
  {
  }

  /** A marker between openers and closers is not redactable again: its own brackets are stripped first. */
  lemma MarkedIsClean(a: string, marker: string, b: string)
    requires AllOpeners(a) && AllClosers(b) && marker in ["path", "url"]
    ensures IsClean(a + "<" + marker + ">" + b)
  {
    MarkersAreClean(marker);
    TokenParts(a + "<", marker, ">" + b);
    Regroup(a, "<", marker, ">", b);
  }

  lemma MarkersAreClean(marker: string)
    requires marker in ["path", "url"]
    ensures !IsRedactable(marker) && marker != "" && !IsOpener(marker[0]) && !IsCloser(marker[|marker| - 1])
  {
    RedactableHasPrefix(marker);
    forall r | IsKnown(r) ensures !(r <= marker) { PrefixShape(r); }
  }

  lemma Regroup(a: string, open: string, m: string, close: string, b: string)
    ensures a + open + m + close + b == (a + open) + m + (close + b)
  {
  }

  lemma Bracketed(a: string, marker: string, bracketed: string, b: string)
    requires bracketed == "<" + marker + ">"
    ensures a + "<" + marker + ">" + b == a + bracketed + b
  {
  }

  lemma PathMarkIsClean(a: string, b: string)
    requires AllOpeners(a) && AllClosers(b)
    ensures IsClean(a + "<path>" + b)
  {
    MarkedIsClean(a, "path", b);
    Bracketed(a, "path", "<path>", b);
  }

  lemma UrlMarkIsClean(a: string, b: string)
    requires AllOpeners(a) && AllClosers(b)
    ensures IsClean(a + "<url>" + b)
  {
    MarkedIsClean(a, "url", b);
    Bracketed(a, "url", "<url>", b);
  }

  /** What a token can become: itself, or a marker between its own openers and closers. */
  lemma RedactTokenForm(tok: string) returns (a: string, b: string)
    ensures AllOpeners(a) && AllClosers(b) && a <= tok && |b| <= |tok| && tok[|tok| - |b|..] == b
    ensures RedactToken(tok) in {tok, a + "<path>" + b, a + "<url>" + b}
  {
    var lead := LeadLen(tok);
    var rest := tok[lead..];
    LeadSplits(tok);
    TrailSplits(rest);
    a, b := tok[..lead], rest[|rest| - TrailLen(rest)..];
  }

  /** A redacted token is not redactable again. */
  lemma RedactTokenIsClean(tok: string)
    ensures IsClean(RedactToken(tok))
  {
    var a, b := RedactTokenForm(tok);
    PathMarkIsClean(a, b);
    UrlMarkIsClean(a, b);
  }

  // ------------------------- facts about text ---------------------------

  lemma LastApart(r: string)
    requires r != ""
    ensures r == r[..|r| - 1] + [r[|r| - 1]]
  {
  }

  lemma DropCommutes(q: string, c: char, n: nat)
    requires n <= |q|
    ensures (q + [c])[n..] == q[n..] + [c] && (q + [c])[..n] == q[..n]
  {
  }

  lemma AsciiConcat(a: string, b: string, c: string)
    requires IsAscii(a) && IsAscii(b) && IsAscii(c)
    ensures IsAscii(a + b + c)
  {
  }

  // ------------------------ cutting a clean token -----------------------

  function Core(tok: string): string {
    var rest := tok[LeadLen(tok)..];
    rest[..|rest| - TrailLen(rest)]
  }

  lemma CleanCore(w: string)
    requires IsClean(w)
    ensures !IsRedactable(Core(w))
  {
    var lead := LeadLen(w);
    var rest := w[lead..];
    var coreLen := |rest| - TrailLen(rest);
    var core := rest[..coreLen];
    assert w == w[..lead] + core + rest[coreLen..];
    if IsRedactable(core) {
      var mark := if IsRedactablePath(core) then "<path>" else "<url>";
      assert w[..lead] + mark + rest[coreLen..] == w;
      SameMiddle(w[..lead], mark, core, rest[coreLen..]);
      RedactableIsNoMark(core);
    }
  }

  lemma RedactableIsNoMark(core: string)
    requires IsRedactable(core)
    ensures core != "" && !IsOpener(core[0])
  {
    RedactableHasPrefix(core);
    var r :| IsKnown(r) && r <= core;
    PrefixShape(r);
    assert core[0] == r[0];
  }

  lemma SameMiddle(a: string, x: string, y: string, b: string)
    requires a + x + b == a + y + b
    ensures x == y
  {
    var s := a + x + b;
    assert |x| == |y|;
    assert x == s[|a|..|a| + |x|] && y == (a + y + b)[|a|..|a| + |y|];
  }

  /** A prefix that ends in a slash survives the stripping of closers. */
  lemma PrefixReachesCore(rest: string, r: string)
    requires r != "" && r[|r| - 1] == '/' && r <= rest
    ensures r <= rest[..|rest| - TrailLen(rest)]
  {
    assert rest[|r| - 1] == r[|r| - 1];
    NotInTail(rest, |r| - 1);
  }

  lemma {:induction false} NotInTail(s: string, i: nat)
    requires i < |s| && !IsCloser(s[i])
    ensures i < |s| - TrailLen(s)
  {
    if IsCloser(s[|s| - 1]) { NotInTail(s[..|s| - 1], i); }
  }

  /** Cutting a clean token anywhere and appending the ellipsis never makes it redactable. */
  lemma CutIsClean(w: string, q: string)
    requires IsClean(w) && q <= w
    ensures IsClean(q + [ELLIPSIS])
  {
    if IsRedactable(Core(q + [ELLIPSIS])) {
      CutWasRedactable(w, q);
      CleanCore(w);
    }
  }

  /** If the cut token is redactable, so was the whole one. */
  lemma CutWasRedactable(w: string, q: string)
    requires q <= w && IsRedactable(Core(q + [ELLIPSIS]))
    ensures IsRedactable(Core(w))
  {
    RedactableHasPrefix(Core(q + [ELLIPSIS]));
    var r :| IsKnown(r) && r <= Core(q + [ELLIPSIS]);
    PrefixShape(r);
    CutKeepsPrefix(w, q, r);
    RedactableHasPrefix(Core(w));
  }

  lemma CutKeepsPrefix(w: string, q: string, r: string)
    requires q <= w && r <= Core(q + [ELLIPSIS])
    requires r != "" && r[|r| - 1] == '/' && !IsOpener(r[0])
    ensures r <= Core(w)
  {
    var lead := LeadLen(q + [ELLIPSIS]);
    CutCore(q);
    PrefixOfWhole(q, w, lead, r);
    assert w == w[..lead] + w[lead..];
    LeadIs(w[..lead], w[lead..]);
    PrefixReachesCore(w[lead..], r);
  }

  lemma PrefixOfWhole(q: string, w: string, lead: nat, r: string)
    requires q <= w && lead <= |q| && r <= q[lead..] + [ELLIPSIS]
    requires AllOpeners(q[..lead]) && r != "" && r[|r| - 1] == '/' && !IsOpener(r[0])
    ensures r <= w[lead..] && AllOpeners(w[..lead]) && w[lead..] != "" && !IsOpener(w[lead..][0])
  {
    assert (q[lead..] + [ELLIPSIS])[|q| - lead] == ELLIPSIS && |r| <= |q| - lead;
    forall i | 0 <= i < |r| ensures r[i] == w[lead..][i] { assert r[i] == (q[lead..] + [ELLIPSIS])[i] == q[lead + i]; }
    forall i | 0 <= i < lead ensures IsOpener(w[..lead][i]) { assert w[..lead][i] == q[..lead][i]; }
  }

  /** The core of a cut token is everything after its openers. */
  lemma CutCore(q: string)
    ensures var tok := q + [ELLIPSIS]; var lead := LeadLen(tok);
      lead <= |q| && AllOpeners(q[..lead]) && Core(tok) == q[lead..] + [ELLIPSIS]
  {
    var tok := q + [ELLIPSIS];
    var lead := LeadLen(tok);
    LeadSplits(tok);
    forall i | 0 <= i < lead ensures IsOpener(tok[i]) { assert tok[..lead][i] == tok[i]; }
    assert tok[|q|] == ELLIPSIS;
    DropCommutes(q, ELLIPSIS, lead);
    var rest := tok[lead..];
    assert rest[|rest| - 1] == ELLIPSIS;
    assert TrailLen(rest) == 0;
    assert rest[..|rest|] == rest;
  }

  // ---------------------------- words and text --------------------------

  function Join(ws: seq<string>): string {
    if ws == [] then "" else Join(ws[..|ws| - 1]) + Separator(|ws| > 1) + ws[|ws| - 1]
  }

  lemma JoinAppend(ws: seq<string>, w: string)
    ensures Join(ws + [w]) == Join(ws) + Separator(ws != []) + w
  {
    assert (ws + [w])[..|ws|] == ws;
  }

  predicate AreWords(ws: seq<string>) { forall w :: w in ws ==> IsWord(w) }

  predicate AreClean(ws: seq<string>) { forall w :: w in ws ==> IsWord(w) && IsClean(w) }

  lemma {:induction false} WordEndIs(w: string, rest: string)
    requires (forall i :: 0 <= i < |w| ==> !IsSpace(w[i])) && (rest == "" || IsSpace(rest[0]))
    ensures WordEnd(w + rest) == |w|
  {
    if w == "" {
      assert w + rest == rest;
    } else {
      assert (w + rest)[1..] == w[1..] + rest;
      WordEndIs(w[1..], rest);
    }
  }

  lemma {:induction false} WordEndSplits(s: string)
    ensures forall i :: 0 <= i < WordEnd(s) <= |s| ==> !IsSpace(s[i])
    ensures WordEnd(s) < |s| ==> IsSpace(s[WordEnd(s)])
  {
    WordEndFits(s);
    if s != "" && !IsSpace(s[0]) { WordEndSplits(s[1..]); }
  }

  lemma SplitWord(w: string)
    requires IsWord(w)
    ensures SplitWhitespace(w) == [w]
  {
    assert w + "" == w;
    WordEndIs(w, "");
  }

  lemma {:induction false} SplitAppend(x: string, w: string)
    requires IsWord(w)
    ensures SplitWhitespace(x + " " + w) == SplitWhitespace(x) + [w]
    decreases |x|
  {
    var s := x + " " + w;
    if x == "" {
      assert s[1..] == w;
      SplitWord(w);
    } else if IsSpace(x[0]) {
      assert s[1..] == x[1..] + " " + w;
      SplitAppend(x[1..], w);
    } else {
      var n := WordEnd(x);
      WordEndFits(x);
      WordEndSplits(x);
      assert s == x[..n] + (x[n..] + " " + w);
      WordEndIs(x[..n], x[n..] + " " + w);
      assert s[..n] == x[..n] && s[n..] == x[n..] + " " + w;
      SplitAppend(x[n..], w);
    }
  }

  lemma {:induction false} SplitJoin(ws: seq<string>)
    requires AreWords(ws)
    ensures SplitWhitespace(Join(ws)) == ws
  {
    if ws != [] {
      var front, w := ws[..|ws| - 1], ws[|ws| - 1];
      assert w in ws;
      SplitJoin(front);
      assert ws == front + [w];
      JoinAppend(front, w);
      if front == [] {
        SplitWord(w);
        assert Join([]) + Separator(false) + w == w;
      } else {
        SplitAppend(Join(front), w);
      }
    }
  }

  lemma {:induction false} SplitGivesWords(s: string)
    ensures AreWords(SplitWhitespace(s))
    decreases |s|
  {
    if s != "" {
      if IsSpace(s[0]) {
        SplitGivesWords(s[1..]);
      } else {
        WordEndFits(s);
        WordEndSplits(s);
        SplitGivesWords(s[WordEnd(s)..]);
      }
    }
  }

  lemma RedactTokenKeepsWord(tok: string)
    requires IsWord(tok)
    ensures IsWord(RedactToken(tok))
  {
    var a, b := RedactTokenForm(tok);
    WordConcat(tok, a, "<path>", b);
    WordConcat(tok, a, "<url>", b);
  }

  lemma WordConcat(tok: string, a: string, m: string, b: string)
    requires IsWord(tok) && a <= tok && |b| <= |tok| && tok[|tok| - |b|..] == b && IsWord(m)
    ensures IsWord(a + m + b)
  {
    forall i | 0 <= i < |b| ensures b[i] == tok[|tok| - |b| + i] {}
  }

  // ------------------------------- bytes --------------------------------

  lemma {:induction false} BytesConcat(a: string, b: string)
    ensures Bytes(a + b) == Bytes(a) + Bytes(b)
  {
    if a == "" {
      assert a + b == b;
    } else {
      assert (a + b)[1..] == a[1..] + b;
      BytesConcat(a[1..], b);
    }
  }

  lemma {:induction false} AtLeastOneByteEach(s: string)
    ensures |s| <= Bytes(s)
  {
    if s != "" { AtLeastOneByteEach(s[1..]); }
  }

  /** A proper prefix has fewer bytes. */
  lemma PrefixBytes(p: string, s: string)
    requires p <= s
    ensures Bytes(p) + (|s| - |p|) <= Bytes(s)
  {
    assert s == p + s[|p|..];
    BytesConcat(p, s[|p|..]);
    AtLeastOneByteEach(s[|p|..]);
  }

  /** `truncate` keeps the prefix of exactly `n` bytes … */
  lemma {:induction false} TruncateIs(s: string, k: nat)
    requires k <= |s|
    ensures Truncate(s, Bytes(s[..k])) == Some(s[..k])
  {
    if k > 0 {
      assert s[..k][0] == s[0] && s[..k][1..] == s[1..][..k - 1];
      TruncateIs(s[1..], k - 1);
      assert s[..k] == [s[0]] + s[1..][..k - 1];
    }
  }

  /** … and panics when there is none. */
  lemma {:induction false} TruncateGivesPrefix(s: string, n: nat)
    requires Truncate(s, n).Some?
    ensures Truncate(s, n).value <= s && Bytes(Truncate(s, n).value) == n
  {
    if n > 0 {
      TruncateGivesPrefix(s[1..], n - Width(s[0]));
      var rest := Truncate(s[1..], n - Width(s[0])).value;
      assert Truncate(s, n).value[1..] == rest;
    }
  }

  lemma {:induction false} TruncateFirst(a: string, b: string, n: nat)
    requires Bytes(a) >= n
    ensures Truncate(a + b, n) == Truncate(a, n)
  {
    if n > 0 {
      assert (a + b)[0] == a[0] && (a + b)[1..] == a[1..] + b;
      if Width(a[0]) <= n { TruncateFirst(a[1..], b, n - Width(a[0])); }
    }
  }

  // --------------------------- the whole text ---------------------------

  /** The redacted tokens with single spaces between them, however long. */
  function Uncut(toks: seq<string>, separate: bool): string {
    if toks == [] then "" else Separator(separate) + RedactToken(toks[0]) + Uncut(toks[1..], true)
  }

  lemma LimitedFirst(a: string, b: string)
    requires Bytes(a) >= MAX_LEN
    ensures Limited(a + b) == Limited(a)
  {
    BytesConcat(a, b);
    TruncateFirst(a, b, MAX_LEN);
  }

  lemma Reassociate(a: string, b: string, c: string, d: string)
    ensures a + (b + c + d) == (a + b + c) + d
  {
  }

  /** Cutting as soon as the limit is reached is cutting the whole text. */
  lemma {:induction false} LoopCutsTheWhole(out: string, toks: seq<string>, separate: bool)
    requires Bytes(out) < MAX_LEN
    ensures RedactFrom(out, toks, separate) == Limited(out + Uncut(toks, separate))
    decreases |toks|
  {
    if toks == [] {
      assert out + "" == out;
    } else {
      var longer := out + Separator(separate) + RedactToken(toks[0]);
      var rest := Uncut(toks[1..], true);
      Reassociate(out, Separator(separate), RedactToken(toks[0]), rest);
      LoopTurn(out, toks, separate);
      if Bytes(longer) >= MAX_LEN {
        LimitedFirst(longer, rest);
      } else {
        LoopCutsTheWhole(longer, toks[1..], true);
      }
    }
  }

  /** Byte `n` of the text lies inside a character: the text is long enough, and no prefix has `n` bytes. */
  ghost predicate SplitsCharacter(s: string, n: nat) {
    Bytes(s) >= n && forall k :: 0 <= k <= |s| ==> Bytes(s[..k]) != n
  }

  /** Redaction panics exactly when byte 400 of the redacted text lies inside a character. */
  lemma PanicsExactlyWhen(s: string)
    ensures Redacted(s).None? <==> SplitsCharacter(Uncut(SplitWhitespace(s), false), MAX_LEN)
  {
    var all := Uncut(SplitWhitespace(s), false);
    LoopCutsTheWhole("", SplitWhitespace(s), false);
    assert "" + all == all;
    if Truncate(all, MAX_LEN).Some? {
      TruncateGivesPrefix(all, MAX_LEN);
      var k := |Truncate(all, MAX_LEN).value|;
      assert all[..k] == Truncate(all, MAX_LEN).value;
    }
    forall k | 0 <= k <= |all| && Bytes(all[..k]) == MAX_LEN ensures Truncate(all, MAX_LEN).Some? {
      TruncateIs(all, k);
    }
  }

  // ------------------------------ results -------------------------------

  /** The text ends in an ellipsis put after exactly `MAX_LEN` bytes. */
  predicate IsCut(r: string) { r != "" && r[|r| - 1] == ELLIPSIS && Bytes(r[..|r| - 1]) == MAX_LEN }

  /** A text that redaction leaves alone: clean words, single spaces, short or already cut. */
  ghost predicate Settled(ws: seq<string>) { AreClean(ws) && (Bytes(Join(ws)) < MAX_LEN || IsCut(Join(ws))) }

  lemma {:induction false} JoinPrefix(ws: seq<string>, k: nat)
    requires AreWords(ws) && k <= |ws|
    ensures Join(ws[..k]) <= Join(ws)
    ensures 0 < k < |ws| ==> |Join(ws[..k])| + 2 <= |Join(ws)|
  {
    if k == |ws| {
      assert ws[..k] == ws;
    } else {
      var front := ws[..|ws| - 1];
      assert ws[|ws| - 1] in ws;
      assert front[..k] == ws[..k];
      JoinPrefix(front, k);
    }
  }

  /** A text that was cut is cut at the same place again. */
  lemma CutAgain(r: string)
    requires IsCut(r)
    ensures Bytes(r) == MAX_LEN + 3 && Limited(r) == Some(r)
  {
    LastApart(r);
    BytesConcat(r[..|r| - 1], [ELLIPSIS]);
    assert Bytes([ELLIPSIS]) == 3 + Bytes([ELLIPSIS][1..]);
    TruncateIs(r, |r| - 1);
  }

  /** Until its last word a settled text stays below the limit. */
  lemma PartIsShort(ws: seq<string>, k: nat)
    requires AreWords(ws) && 0 < k <= |ws| && (Bytes(Join(ws)) < MAX_LEN || IsCut(Join(ws)))
    ensures Bytes(Join(ws[..k])) < MAX_LEN || (k == |ws| && Join(ws[..k]) == Join(ws) && IsCut(Join(ws)))
  {
    if k == |ws| {
      assert ws[..k] == ws;
    } else {
      JoinPrefix(ws, k);
      ProperPart(Join(ws[..k]), Join(ws));
    }
  }

  lemma ProperPart(part: string, r: string)
    requires part <= r && |part| + 2 <= |r| && (Bytes(r) < MAX_LEN || IsCut(r))
    ensures Bytes(part) < MAX_LEN
  {
    if IsCut(r) {
      PrefixBytes(part, r[..|r| - 1]);
    } else {
      PrefixBytes(part, r);
    }
  }

  /** One turn of the loop on a token that redaction leaves alone. */
  lemma CleanTurn(ws: seq<string>, k: nat)
    requires k < |ws| && IsClean(ws[k])
    ensures RedactFrom(Join(ws[..k]), ws[k..], k > 0) ==
      if Bytes(Join(ws[..k + 1])) < MAX_LEN then RedactFrom(Join(ws[..k + 1]), ws[k + 1..], true)
      else Limited(Join(ws[..k + 1]))
  {
    assert ws[k..][0] == ws[k] && ws[k..][1..] == ws[k + 1..];
    assert ws[..k + 1] == ws[..k] + [ws[k]];
    JoinAppend(ws[..k], ws[k]);
    LoopTurn(Join(ws[..k]), ws[k..], k > 0);
  }

  /** What the loop makes of the text once it has put out the first `k` words as they are. */
  function FromWord(ws: seq<string>, k: nat): Option<string>
    requires k <= |ws|
  {
    RedactFrom(Join(ws[..k]), ws[k..], k > 0)
  }

  /** From there one turn takes the loop past the next word, or ends with the whole text. */
  predicate Turns(ws: seq<string>, k: nat)
    requires k < |ws|
  {
    FromWord(ws, k) == if Bytes(Join(ws[..k + 1])) < MAX_LEN then FromWord(ws, k + 1) else Some(Join(ws))
  }

  lemma SettledTurn(ws: seq<string>, k: nat)
    requires AreWords(ws) && k < |ws| && IsClean(ws[k]) && (Bytes(Join(ws)) < MAX_LEN || IsCut(Join(ws)))
    ensures Turns(ws, k)
  {
    CleanTurn(ws, k);
    PartIsShort(ws, k + 1);
    if Bytes(Join(ws[..k + 1])) >= MAX_LEN { CutAgain(Join(ws)); }
  }

  lemma {:induction false} ChainToTheEnd<T>(chain: seq<T>, end: T)
    requires chain != [] && chain[|chain| - 1] == end
    requires forall i :: 0 <= i < |chain| - 1 ==> chain[i] == chain[i + 1] || chain[i] == end
    ensures chain[0] == end
  {
    if |chain| > 1 { ChainToTheEnd(chain[1..], end); }
  }

  lemma WholeText(ws: seq<string>)
    requires Settled(ws)
    ensures ws != [] || Join(ws) == ""
    ensures FromWord(ws, |ws|) == Some(Join(ws))
  {
    assert ws[..|ws|] == ws && ws[|ws|..] == [];
  }

  lemma OneOfTwo(ws: seq<string>, k: nat)
    requires Settled(ws) && k < |ws|
    ensures FromWord(ws, k) == FromWord(ws, k + 1) || FromWord(ws, k) == Some(Join(ws))
  {
    assert ws[k] in ws;
    SettledTurn(ws, k);
  }

  lemma SettledRuns(ws: seq<string>)
    requires Settled(ws)
    ensures RedactFrom("", ws, false) == Some(Join(ws))
  {
    var chain := seq(|ws| + 1, k requires 0 <= k <= |ws| => FromWord(ws, k));
    forall i | 0 <= i < |ws| ensures chain[i] == chain[i + 1] || chain[i] == Some(Join(ws)) { OneOfTwo(ws, i); }
    WholeText(ws);
    ChainToTheEnd(chain, Some(Join(ws)));
    FromStart(ws);
  }

  lemma FromStart(ws: seq<string>)
    ensures FromWord(ws, 0) == RedactFrom("", ws, false)
  {
    assert ws[..0] == [] && ws[0..] == ws;
  }

  /** Redacting words, from any state of the loop, ends in a settled text if it does not panic. */
  lemma {:induction false} RunSettles(before: seq<string>, toks: seq<string>) returns (ws: seq<string>)
    requires AreClean(before) && Bytes(Join(before)) < MAX_LEN && AreWords(toks)
    requires RedactFrom(Join(before), toks, before != []).Some?
    ensures Settled(ws) && RedactFrom(Join(before), toks, before != []) == Some(Join(ws))
    decreases |toks|
  {
    if toks == [] {
      ws := before;
    } else {
      var w := RedactToken(toks[0]);
      assert toks[0] in toks;
      RedactTokenKeepsWord(toks[0]);
      RedactTokenIsClean(toks[0]);
      JoinAppend(before, w);
      var longer := Join(before + [w]);
      LoopTurn(Join(before), toks, before != []);
      if Bytes(longer) < MAX_LEN {
        AppendClean(before, w);
        ws := RunSettles(before + [w], toks[1..]);
      } else {
        TruncateGivesPrefix(longer, MAX_LEN);
        ws := CutSettles(before, w, Truncate(longer, MAX_LEN).value);
      }
    }
  }

  /** The cut falls inside (or just before) the last word, which stays clean. */
  lemma CutSettles(before: seq<string>, w: string, kept: string) returns (ws: seq<string>)
    requires AreClean(before) && Bytes(Join(before)) < MAX_LEN && IsWord(w) && IsClean(w)
    requires kept <= Join(before + [w]) && Bytes(kept) == MAX_LEN
    ensures Settled(ws) && Join(ws) == kept + [ELLIPSIS]
  {
    JoinAppend(before, w);
    var q := CutInWord(Join(before), Separator(before != []), w, kept);
    CutIsClean(w, q);
    CutIsWord(w, |q|);
    AppendClean(before, q + [ELLIPSIS]);
    ws := before + [q + [ELLIPSIS]];
    CutIsSettled(before, q, kept);
  }

  /** What is below the limit, and the space after it, survive the cut. */
  lemma CutInWord(out: string, sep: string, w: string, kept: string) returns (q: string)
    requires Bytes(out) < MAX_LEN && (sep == "" || sep == " ")
    requires kept <= out + sep + w && Bytes(kept) == MAX_LEN
    ensures q <= w && w[..|q|] == q && kept == out + sep + q
  {
    var head := out + sep;
    BytesConcat(out, sep);
    assert sep != "" ==> Bytes(sep) == 1 + Bytes(sep[1..]);
    if |kept| < |head| { PrefixBytes(kept, head); }
    q := w[..|kept| - |head|];
  }

  lemma CutIsSettled(before: seq<string>, q: string, kept: string)
    requires kept == Join(before) + Separator(before != []) + q && Bytes(kept) == MAX_LEN
    ensures var r := Join(before + [q + [ELLIPSIS]]); r == kept + [ELLIPSIS] && IsCut(r)
  {
    JoinAppend(before, q + [ELLIPSIS]);
    assert Join(before + [q + [ELLIPSIS]]) == kept + [ELLIPSIS];
    assert (kept + [ELLIPSIS])[..|kept|] == kept;
  }

  lemma AppendClean(before: seq<string>, w: string)
    requires AreClean(before) && IsWord(w) && IsClean(w)
    ensures AreClean(before + [w])
  {
  }

  lemma CutIsWord(w: string, n: nat)
    requires IsWord(w) && n <= |w|
    ensures IsWord(w[..n] + [ELLIPSIS])
  {
    assert !IsSpace(ELLIPSIS);
  }

  /**
   Whenever redaction does not panic, its result has at most 403 bytes, no token of it is still
   redactable, and redacting it again changes nothing.
   */
  lemma RedactionIsFinal(s: string)
    requires Redacted(s).Some?
    ensures var r := Redacted(s).value;
      && Bytes(r) <= MAX_LEN + 3
      && (forall tok :: tok in SplitWhitespace(r) ==> !IsRedactable(Core(tok)))
      && Redacted(r) == Some(r)
  {
    SplitGivesWords(s);
    var ws := RunSettles([], SplitWhitespace(s));
    var r := Join(ws);
    SplitJoin(ws);
    forall tok | tok in ws ensures !IsRedactable(Core(tok)) { CleanCore(tok); }
    assert Bytes(Join([])) == 0;
    SettledRuns(ws);
    if Bytes(r) >= MAX_LEN { CutAgain(r); }
  }

  // ------------------------- when it may panic --------------------------

  predicate AreAscii(ws: seq<string>) { forall w :: w in ws ==> IsAscii(w) }

  lemma {:induction false} SplitKeepsAscii(s: string)
    requires IsAscii(s)
    ensures AreAscii(SplitWhitespace(s))
    decreases |s|
  {
    if s != "" {
      if IsSpace(s[0]) {
        SplitKeepsAscii(s[1..]);
      } else {
        WordEndFits(s);
        WordEndSplits(s);
        SplitKeepsAscii(s[WordEnd(s)..]);
      }
    }
  }

  lemma RedactTokenKeepsAscii(tok: string)
    requires IsAscii(tok)
    ensures IsAscii(RedactToken(tok))
  {
    var a, b := RedactTokenForm(tok);
    PartsAreAscii(tok, a, b);
    AsciiConcat(a, "<path>", b);
    AsciiConcat(a, "<url>", b);
  }

  lemma PartsAreAscii(tok: string, a: string, b: string)
    requires IsAscii(tok) && a <= tok && |b| <= |tok| && tok[|tok| - |b|..] == b
    ensures IsAscii(a) && IsAscii(b)
  {
    forall i | 0 <= i < |b| ensures b[i] == tok[|tok| - |b| + i] {}
  }

  lemma {:induction false} UncutKeepsAscii(toks: seq<string>, separate: bool)
    requires AreAscii(toks)
    ensures IsAscii(Uncut(toks, separate))
    decreases |toks|
  {
    if toks != [] {
      assert toks[0] in toks;
      RedactTokenKeepsAscii(toks[0]);
      UncutKeepsAscii(toks[1..], true);
      AsciiConcat(Separator(separate), RedactToken(toks[0]), Uncut(toks[1..], true));
    }
  }

  lemma {:induction false} AsciiBytes(s: string)
    requires IsAscii(s)
    ensures Bytes(s) == |s|
  {
    if s != "" { AsciiBytes(s[1..]); }
  }

  /** ASCII text never panics. */
  lemma AsciiIsSafe(s: string)
    requires IsAscii(s)
    ensures Redacted(s).Some?
  {
    var all := Uncut(SplitWhitespace(s), false);
    SplitKeepsAscii(s);
    UncutKeepsAscii(SplitWhitespace(s), false);
    PanicsExactlyWhen(s);
    AsciiBytes(all);
    if |all| >= MAX_LEN { AsciiBytes(all[..MAX_LEN]); }
  }

  /** 399 letters and an accented one: byte 400 lies inside the last character. */
  lemma AccentAtTheLimitPanics()
    ensures Redacted(seq(399, _ => 'a') + ['\U{00E9}']).None?
  {
    var a := seq(399, _ => 'a');
    var s := a + ['\U{00E9}'];
    SplitWord(s);
    PlainWordStays(s);
    assert Uncut([s][1..], true) == "" && Uncut([s], false) == s;
    AsciiBytes(a);
    BytesConcat(a, ['\U{00E9}']);
    assert Bytes(['\U{00E9}']) == 2 + Bytes(['\U{00E9}'][1..]);
    forall k | 0 <= k <= |s| ensures Bytes(s[..k]) != MAX_LEN {
      if k <= 399 { AsciiBytes(s[..k]); } else { assert s[..k] == s; }
    }
    PanicsExactlyWhen(s);
  }

  /** A word that begins like no known prefix is left alone. */
  lemma PlainWordStays(w: string)
    requires w != "" && w[0] == 'a'
    ensures RedactToken(w) == w
  {
    assert LeadLen(w) == 0 && w[0..] == w;
    RedactableHasPrefix(Core(w));
    forall r | IsKnown(r) ensures !(r <= Core(w)) { PrefixStart(r); }
  }

  lemma PrefixStart(r: string)
    requires IsKnown(r)
    ensures r != "" && r[0] in "/hw"
  {
  }
}
