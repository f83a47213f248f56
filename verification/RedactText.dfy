/** Redaction in plain terms: which characters, prefixes and lengths decide what becomes of a text. */
module RedactText {
  import opened Common
  import opened Redact

  // ------------------------------- tokens -------------------------------

  lemma PathIs(s: string)
    ensures IsRedactablePath(s) <==>
      || "/home/" <= s || "/tmp/" <= s || "/var/" <= s || "/usr/" <= s || "/opt/" <= s
      || "/etc/" <= s || "/root/" <= s || "/srv/" <= s || "/mnt/" <= s || "/data/" <= s
  {
    var a, b := ROOTS[..5], ROOTS[5..];
    assert ROOTS == a + b;
    assert a == ["/home/", "/tmp/", "/var/", "/usr/", "/opt/"];
    assert b == ["/etc/", "/root/", "/srv/", "/mnt/", "/data/"];
    StartsWithEither(s, a, b);
    StartsWithFive(s, a);
    StartsWithFive(s, b);
  }

  lemma StartsWithEither(s: string, a: seq<string>, b: seq<string>)
    ensures StartsWithAny(s, a + b) <==> StartsWithAny(s, a) || StartsWithAny(s, b)
  {
    StartsWithOne(s, a);
    StartsWithOne(s, b);
    StartsWithOne(s, a + b);
    forall r ensures r in a + b <==> r in a || r in b {}
  }

  lemma StartsWithFive(s: string, rs: seq<string>)
    requires |rs| == 5
    ensures StartsWithAny(s, rs) <==> rs[0] <= s || rs[1] <= s || rs[2] <= s || rs[3] <= s || rs[4] <= s
  {
    StartsWithOne(s, rs);
    assert forall i :: 0 <= i < 5 ==> rs[i] in rs;
    assert rs[0] in rs && rs[1] in rs && rs[2] in rs && rs[3] in rs && rs[4] in rs;
  }

  lemma UrlIs(s: string)
    ensures IsRedactableUrl(s) <==> "http://" <= s || "https://" <= s || "ws://" <= s || "wss://" <= s
  {
    StartsWithOne(s, SCHEMES);
    assert forall i :: 0 <= i < |SCHEMES| ==> SCHEMES[i] in SCHEMES;
    assert SCHEMES[0] == "http://" && SCHEMES[1] == "https://" && SCHEMES[2] == "ws://" && SCHEMES[3] == "wss://";
  }

  /** Opening characters, a core, and closing characters: the core alone decides, and the rest is kept. */
  lemma TokenIs(a: string, c: string, b: string)
    requires forall i :: 0 <= i < |a| ==> a[i] in "([{\"'<"
    requires forall i :: 0 <= i < |b| ==> b[i] in ")]}\"'>,;.:"
    requires c != "" && c[0] !in "([{\"'<" && c[|c| - 1] !in ")]}\"'>,;.:"
    ensures (|| "/home/" <= c || "/tmp/" <= c || "/var/" <= c || "/usr/" <= c || "/opt/" <= c
             || "/etc/" <= c || "/root/" <= c || "/srv/" <= c || "/mnt/" <= c || "/data/" <= c)
            ==> RedactToken(a + c + b) == a + "<path>" + b
    ensures "http://" <= c || "https://" <= c || "ws://" <= c || "wss://" <= c ==>
              RedactToken(a + c + b) == a + "<url>" + b
    ensures RedactToken(a + c + b) in {a + "<path>" + b, a + "<url>" + b, a + c + b}
    ensures !(|| "/home/" <= c || "/tmp/" <= c || "/var/" <= c || "/usr/" <= c || "/opt/" <= c
              || "/etc/" <= c || "/root/" <= c || "/srv/" <= c || "/mnt/" <= c || "/data/" <= c
              || "http://" <= c || "https://" <= c || "ws://" <= c || "wss://" <= c)
            ==> RedactToken(a + c + b) == a + c + b
  {
    TokenParts(a, c, b);
    PathIs(c);
    UrlIs(c);
  }

  /** A token of opening and closing characters only stays. */
  lemma PunctuationStays(a: string, b: string)
    requires forall i :: 0 <= i < |a| ==> a[i] in "([{\"'<"
    requires forall i :: 0 <= i < |b| ==> b[i] in ")]}\"'>,;.:"
    ensures RedactToken(a + b) == a + b
  {
    var tok := a + b;
    var rest := tok[LeadLen(tok)..];
    LeadSplits(tok);
    assert LeadLen(tok) >= |a| by { LeadCovers(a, b); }
    assert forall i :: 0 <= i < |rest| ==> rest[i] == b[LeadLen(tok) - |a| + i];
    assert "" + rest == rest;
    TrailIs("", rest);
    assert rest[..0] == "";
    PathIs("");
    UrlIs("");
  }

  lemma {:induction false} LeadCovers(a: string, b: string)
    requires AllOpeners(a)
    ensures LeadLen(a + b) >= |a|
  {
    if a != "" {
      assert (a + b)[1..] == a[1..] + b;
      LeadCovers(a[1..], b);
    }
  }

  lemma OpenersAre(a: string)
    ensures AllOpeners(a) <==> forall i :: 0 <= i < |a| ==> a[i] in "([{\"'<"
  {
  }

  lemma ClosersAre(b: string)
    ensures AllClosers(b) <==> forall i :: 0 <= i < |b| ==> b[i] in ")]}\"'>,;.:"
  {
  }

  lemma SplitEnd(rest: string) returns (c: string, b: string)
    ensures rest == c + b && AllClosers(b)
    ensures c != "" ==> !IsCloser(c[|c| - 1])
  {
    TrailSplits(rest);
    var n := |rest| - TrailLen(rest);
    c, b := rest[..n], rest[n..];
  }

  lemma SplitToken(tok: string) returns (a: string, c: string, b: string)
    ensures tok == a + c + b && AllOpeners(a) && AllClosers(b)
    ensures c != "" ==> !IsOpener(c[0]) && !IsCloser(c[|c| - 1])
  {
    var n := LeadLen(tok);
    LeadSplits(tok);
    a := tok[..n];
    c, b := SplitEnd(tok[n..]);
    assert a + c + b == a + (c + b);
    if c != "" { assert c[0] == tok[n..][0] == tok[n]; }
  }

  /** Every token is of one of these two kinds. */
  lemma EveryToken(tok: string) returns (a: string, c: string, b: string)
    ensures tok == a + c + b
    ensures forall i :: 0 <= i < |a| ==> a[i] in "([{\"'<"
    ensures forall i :: 0 <= i < |b| ==> b[i] in ")]}\"'>,;.:"
    ensures c != "" ==> c[0] !in "([{\"'<" && c[|c| - 1] !in ")]}\"'>,;.:"
  {
    a, c, b := SplitToken(tok);
    OpenersAre(a);
    ClosersAre(b);
  }

  // ------------------------------- words --------------------------------

  /** The 25 code points Unicode calls White_Space. */
  lemma SpaceIs(c: char)
    ensures IsSpace(c) <==> c as int in {
      0x9, 0xA, 0xB, 0xC, 0xD, 0x20, 0x85, 0xA0, 0x1680, 0x2000, 0x2001, 0x2002, 0x2003, 0x2004, 0x2005, 0x2006,
      0x2007, 0x2008, 0x2009, 0x200A, 0x2028, 0x2029, 0x202F, 0x205F, 0x3000}
  {
  }

  /** A text is its words with white space before, between and after them. */
  lemma {:induction false} SplitIs(gap: string, w: string, rest: string)
    requires forall i :: 0 <= i < |gap| ==> IsSpace(gap[i])
    requires forall i :: 0 <= i < |w| ==> !IsSpace(w[i])
    requires rest == "" || IsSpace(rest[0])
    ensures SplitWhitespace(gap) == []
    ensures SplitWhitespace(gap + w + rest) == (if w == "" then [] else [w]) + SplitWhitespace(rest)
    decreases |gap|
  {
    if gap == "" {
      assert gap + w + rest == w + rest;
      WordEndIs(w, rest);
      if w == "" {
        assert w + rest == rest;
      } else {
        assert (w + rest)[..|w|] == w && (w + rest)[|w|..] == rest;
      }
    } else {
      assert (gap + w + rest)[1..] == gap[1..] + w + rest;
      SplitIs(gap[1..], w, rest);
    }
  }

  // ------------------------------- length -------------------------------

  /** The byte lengths of UTF-8 (section 3 of RFC 3629). */
  lemma BytesAre(c: char)
    ensures Bytes([c]) ==
      if c as int <= 0x7F then 1 else if c as int <= 0x7FF then 2 else if c as int <= 0xFFFF then 3 else 4
  {
    assert Bytes([c]) == Width(c) + Bytes([c][1..]);
  }

  /** One space between the redacted tokens. */
  lemma {:induction false} UncutIs(toks: seq<string>, w: string, separate: bool)
    ensures Uncut(toks + [w], separate) ==
      Uncut(toks, separate) + (if toks == [] && !separate then "" else " ") + RedactToken(w)
  {
    if toks == [] {
      assert toks + [w] == [w] && [w][1..] == [];
    } else {
      assert (toks + [w])[0] == toks[0] && (toks + [w])[1..] == toks[1..] + [w];
      UncutIs(toks[1..], w, true);
      Reassociate(Separator(separate) + RedactToken(toks[0]), Uncut(toks[1..], true), " ", RedactToken(w));
    }
  }

  /** Below 400 bytes the redacted text is the answer; from there on its first 400 bytes and an ellipsis are. */
  lemma RedactedIs(s: string)
    ensures var all := Uncut(SplitWhitespace(s), false);
      && (Bytes(all) < 400 ==> Redacted(s) == Some(all))
      && (forall k :: 0 <= k <= |all| && Bytes(all[..k]) == 400 ==> Redacted(s) == Some(all[..k] + "\U{2026}"))
      && (Bytes(all) >= 400 && (forall k :: 0 <= k <= |all| ==> Bytes(all[..k]) != 400) ==> Redacted(s) == None)
  {
    var all := Uncut(SplitWhitespace(s), false);
    LoopCutsTheWhole("", SplitWhitespace(s), false);
    assert "" + all == all;
    PanicsExactlyWhen(s);
    forall k | 0 <= k <= |all| && Bytes(all[..k]) == 400 ensures Redacted(s) == Some(all[..k] + "\U{2026}") {
      TruncateIs(all, k);
      PrefixBytes(all[..k], all);
    }
  }
}
